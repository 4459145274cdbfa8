/**
 * The security panel of project/src/components/Settings/SecuritySettings.tsx:
 * the password-change form with its two checks, and the two-factor switch.
 */
module SecuritySettings {
  import opened Wrappers
  import opened Types
  import opened JsText
  import opened SettingsPage

  datatype PasswordForm = PasswordForm(currentPassword: string, newPassword: string, confirmPassword: string)

  const EmptyForm: PasswordForm := PasswordForm("", "", "")

  /** How `handlePasswordSubmit` ends. */
  datatype PasswordOutcome = Mismatch | TooShort | Accepted

  /**
   * The checks in source order: the confirmation must repeat the new
   * password, then the new password must be at least 8 long, counted as
   * JavaScript counts `.length` (UTF-16 code units).
   */
  function PasswordCheck(form: PasswordForm): (outcome: PasswordOutcome)
    ensures outcome == Mismatch <==> form.newPassword != form.confirmPassword
    ensures outcome == TooShort <==> form.newPassword == form.confirmPassword && Utf16Length(form.newPassword) < 8
    ensures outcome == Accepted <==> form.newPassword == form.confirmPassword && Utf16Length(form.newPassword) >= 8
  {
    if form.newPassword != form.confirmPassword then Mismatch
    else if Utf16Length(form.newPassword) < 8 then TooShort
    else Accepted
  }

  /** The status line each outcome leaves. */
  function PasswordNotice(outcome: PasswordOutcome): (notice: Notice)
    ensures notice.kind == Success <==> outcome == Accepted
  {
    match outcome
    case Mismatch => Notice(Failure, "新しいパスワードが一致しません")
    case TooShort => Notice(Failure, "パスワードは8文字以上で入力してください")
    case Accepted => Notice(Success, "パスワードが正常に変更されました")
  }

  /** Nothing checks the current-password field: the outcome is the same whatever it holds. */
  lemma CurrentPasswordIgnored(form: PasswordForm, current: string)
    ensures PasswordCheck(form.(currentPassword := current)) == PasswordCheck(form)
  {
  }

  /** The length check counts code units: four characters outside the Basic Multilingual Plane pass it. */
  lemma FourAstralCharactersAccepted()
    ensures PasswordCheck(PasswordForm("", "😀😀😀😀", "😀😀😀😀")) == Accepted
  {
  }

  /** The two-factor status line names the state the switch is now in. */
  function TwoFactorText(enabledNow: bool): (text: string)
    ensures text == "二段階認証を有効にしました" <==> enabledNow
    ensures text == "二段階認証を無効にしました" <==> !enabledNow
  {
    var text := "二段階認証を" + (if enabledNow then "有効" else "無効") + "にしました";
    assert text[6] == if enabledNow then '有' else '無';
    text
  }

  /** The panel's own state: the password form, the loading flag and the status line. */
  class SecurityPanel {
    var passwordForm: PasswordForm
    var isLoading: bool
    var message: Option<Notice>

    constructor ()
      ensures passwordForm == EmptyForm && !isLoading && message == None
    {
      passwordForm := EmptyForm;
      isLoading := false;
      message := None;
    }

    /** Typing into one of the three password boxes. */
    method SetPasswordForm(form: PasswordForm)
      modifies this
      ensures passwordForm == form && isLoading == old(isLoading) && message == old(message)
    {
      passwordForm := form;
    }

    /**
     * `handlePasswordSubmit` at clock reading `now`: on either failed check
     * the record and the form are left alone; on success only the record's
     * `security.lastPasswordChange` changes, to `now`, and the form is cleared.
     */
    method HandlePasswordSubmit(page: Page, now: int)
      modifies this, page
      ensures message == Some(PasswordNotice(PasswordCheck(old(passwordForm))))
      ensures PasswordCheck(old(passwordForm)) != Accepted ==>
        page.settings == old(page.settings) && passwordForm == old(passwordForm)
      ensures PasswordCheck(old(passwordForm)) == Accepted ==>
        && page.settings == old(page.settings).(security := old(page.settings.security).(lastPasswordChange := At(now)))
        && passwordForm == EmptyForm
      ensures !isLoading && page.activeTab == old(page.activeTab)
    {
      isLoading := true;
      message := None;

      if passwordForm.newPassword != passwordForm.confirmPassword {
        message := Some(Notice(Failure, "新しいパスワードが一致しません"));
        isLoading := false;
        return;
      }

      if Utf16Length(passwordForm.newPassword) < 8 {
        message := Some(Notice(Failure, "パスワードは8文字以上で入力してください"));
        isLoading := false;
        return;
      }

      var updatedSettings := page.settings.(security := page.settings.security.(lastPasswordChange := At(now)));
      page.HandleSettingsUpdate(updatedSettings);
      message := Some(Notice(Success, "パスワードが正常に変更されました"));
      passwordForm := EmptyForm;
      isLoading := false;
    }

    /**
     * `handleTwoFactorToggle`: only `security.twoFactorEnabled` of the record
     * changes, to its negation, and the status line names the new state.
     */
    method HandleTwoFactorToggle(page: Page)
      modifies this, page
      ensures page.settings ==
        old(page.settings).(security := old(page.settings.security).(twoFactorEnabled := !old(page.settings.security.twoFactorEnabled)))
      ensures message == Some(Notice(Success, TwoFactorText(page.settings.security.twoFactorEnabled)))
      ensures !isLoading && passwordForm == old(passwordForm) && page.activeTab == old(page.activeTab)
    {
      isLoading := true;
      var enabled := page.settings.security.twoFactorEnabled;
      var updatedSettings := page.settings.(security := page.settings.security.(twoFactorEnabled := !enabled));
      page.HandleSettingsUpdate(updatedSettings);
      message := Some(Notice(Success, TwoFactorText(!enabled)));
      isLoading := false;
    }
  }
}
