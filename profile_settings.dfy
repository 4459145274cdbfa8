/**
 * The profile panel of project/src/components/Settings/ProfileSettings.tsx:
 * a form initialised from `settings.profile`, edited one field at a time, and
 * a submit that hands the owner a record with the profile replaced.
 */
module ProfileSettings {
  import opened Wrappers
  import opened Types
  import opened SettingsPage

  /** `keyof typeof formData`. */
  datatype ProfileField = Name | Email | Avatar | BusinessName | Phone | Timezone | Language

  /** The value a field holds; the optional fields may be absent. */
  function Get(form: Profile, field: ProfileField): Option<string>
  {
    match field
    case Name => Some(form.name)
    case Email => Some(form.email)
    case Avatar => form.avatar
    case BusinessName => form.businessName
    case Phone => form.phone
    case Timezone => Some(form.timezone)
    case Language => Some(form.language)
  }

  /** `{ ...prev, [field]: value }`: that field now holds `value`, every other field is unchanged. */
  function WithField(form: Profile, field: ProfileField, value: string): (r: Profile)
    ensures Get(r, field) == Some(value)
    ensures forall other :: other != field ==> Get(r, other) == Get(form, other)
  {
    match field
    case Name => form.(name := value)
    case Email => form.(email := value)
    case Avatar => form.(avatar := Some(value))
    case BusinessName => form.(businessName := Some(value))
    case Phone => form.(phone := Some(value))
    case Timezone => form.(timezone := value)
    case Language => form.(language := value)
  }

  /** A profile is determined by the values of its fields. */
  lemma FieldsDetermineProfile(a: Profile, b: Profile)
    requires forall field :: Get(a, field) == Get(b, field)
    ensures a == b
  {
    assert Get(a, Name) == Get(b, Name) && Get(a, Email) == Get(b, Email);
    assert Get(a, Avatar) == Get(b, Avatar) && Get(a, BusinessName) == Get(b, BusinessName);
    assert Get(a, Phone) == Get(b, Phone) && Get(a, Timezone) == Get(b, Timezone);
    assert Get(a, Language) == Get(b, Language);
  }

  /** Re-entering the value a field already holds leaves the form as it was; edits to different fields commute. */
  lemma WithFieldLaws(form: Profile, f: ProfileField, g: ProfileField, v: string, w: string)
    ensures Get(form, f) == Some(v) ==> WithField(form, f, v) == form
    ensures f != g ==> WithField(WithField(form, f, v), g, w) == WithField(WithField(form, g, w), f, v)
  {
  }

  /** The panel's own state: the form, the loading flag and the status line. */
  class ProfilePanel {
    var formData: Profile
    var isLoading: bool
    var message: Option<Notice>

    /** The form starts as a copy of the profile section of the record the panel receives. */
    constructor (settings: UserSettings)
      ensures formData == settings.profile && !isLoading && message == None
    {
      formData := settings.profile;
      isLoading := false;
      message := None;
    }

    /** `handleInputChange(field, value)`. */
    method HandleInputChange(field: ProfileField, value: string)
      modifies this
      ensures formData == WithField(old(formData), field, value)
      ensures isLoading == old(isLoading) && message == old(message)
    {
      formData := WithField(formData, field, value);
    }

    /**
     * `handleSubmit`: the `settings` prop is the owner's record and `onUpdate`
     * the owner's `handleSettingsUpdate`; the owner ends up with its record
     * with only the profile section replaced by the form.
     */
    method HandleSubmit(page: Page)
      modifies this, page
      ensures page.settings == old(page.settings).(profile := old(formData))
      ensures page.activeTab == old(page.activeTab)
      ensures formData == old(formData)
      ensures !isLoading && message == Some(Notice(Success, "プロフィールが正常に更新されました"))
    {
      isLoading := true;
      message := None;
      var updatedSettings := page.settings.(profile := formData);
      page.HandleSettingsUpdate(updatedSettings);
      message := Some(Notice(Success, "プロフィールが正常に更新されました"));
      isLoading := false;
    }

    /** The picture next to the form: the form's own avatar URL when it is set and non-empty, the default picture otherwise. */
    function AvatarShown(): (src: string)
      reads this
      ensures formData.avatar.Some? && formData.avatar.value != "" ==> src == formData.avatar.value
      ensures formData.avatar.None? || formData.avatar.value == "" ==> src == DefaultAvatar
    {
      AvatarSrc(formData.avatar)
    }
  }
}
