/**
 * The trading-preferences panel of
 * project/src/components/Settings/PreferencesSettings.tsx: the category
 * check boxes, the target-profit input, and a submit that hands the owner a
 * record with the preferences replaced.
 */
module PreferencesSettings {
  import opened Wrappers
  import opened Types
  import opened JsText
  import opened Collections
  import opened SettingsPage

  /** The check boxes offered, in display order. */
  const CategoryChoices: seq<string> :=
    ["Gaming", "Audio", "Fashion", "Kitchen", "Collectibles", "Home & Garden", "Electronics", "Sports", "Books", "Toys"]

  function Other(category: string): string -> bool
  {
    (c: string) => c != category
  }

  /**
   * The new list of `handleCategoryToggle(category)`: a present category is
   * removed (every occurrence of it), an absent one is appended at the end.
   */
  function ToggleCategory(categories: seq<string>, category: string): (r: seq<string>)
    ensures category in r <==> category !in categories
    ensures forall c :: c != category ==> (c in r <==> c in categories)
    ensures category in categories ==> Subseq(r, categories) && |r| == |categories| - Count(categories, (c: string) => c == category)
    ensures category !in categories ==> r == categories + [category]
  {
    if category in categories then
      CountComplement(categories, category);
      Filter(categories, Other(category))
    else categories + [category]
  }

  /** Every element either equals `category` or differs from it. */
  lemma {:induction false} CountComplement(s: seq<string>, category: string)
    ensures Count(s, Other(category)) == |s| - Count(s, (c: string) => c == category)
  {
    if s != [] {
      CountComplement(s[1..], category);
    }
  }

  /** A list without repeats keeps having none. */
  lemma ToggleKeepsDistinct(categories: seq<string>, category: string)
    requires NoDuplicates(categories)
    ensures NoDuplicates(ToggleCategory(categories, category))
  {
    if category in categories {
      FilterKeepsDistinct(categories, Other(category));
    }
  }

  lemma {:induction false} FilterKeepsDistinct(s: seq<string>, p: string -> bool)
    requires NoDuplicates(s)
    ensures NoDuplicates(Filter(s, p))
  {
    if s != [] {
      FilterKeepsDistinct(s[1..], p);
      var rest := Filter(s[1..], p);
      if p(s[0]) {
        assert s[0] !in s[1..];
        assert Filter(s, p) == [s[0]] + rest;
      }
    }
  }

  /** Ticking an unticked box and unticking it again restores the list. */
  lemma ToggleTwiceAbsent(categories: seq<string>, category: string)
    requires category !in categories
    ensures ToggleCategory(ToggleCategory(categories, category), category) == categories
  {
    var added := categories + [category];
    FilterAppend(categories, [category], Other(category));
    FilterSingleton(category, Other(category));
    FilterAll(categories, Other(category));
    assert Filter(added, Other(category)) == categories;
  }

  /**
   * `parseInt(e.target.value) || 0`: an input with no leading integer is NaN,
   * which is falsy, so the target profit becomes 0.
   */
  function TargetProfit(input: string): (profit: int)
    ensures ParseInt(input).None? ==> profit == 0
    ensures ParseInt(input).Some? ==> profit == ParseInt(input).value
  {
    match ParseInt(input)
    case None => 0
    case Some(n) => n
  }

  /** Typing a whole number into the box stores that number. */
  lemma TargetProfitOfNumeral(n: nat)
    ensures TargetProfit(DecimalString(n)) == n
  {
    ParseIntDecimal(n);
  }

  /**
   * While typing, the box can hold a negative number: `min="0"` is checked
   * only when the form is submitted, so "-3000" stores -3000.
   */
  lemma TargetProfitOfNegativeNumeral(n: nat)
    ensures TargetProfit("-" + DecimalString(n)) == -(n as int)
  {
    ParseIntNegativeDecimal(n, "");
    assert DecimalString(n) + "" == DecimalString(n);
  }

  /** The panel's own state: the form, the loading flag and the status line. */
  class PreferencesPanel {
    var formData: Preferences
    var isLoading: bool
    var message: Option<Notice>

    /** The form starts as a copy of the preferences section of the record the panel receives. */
    constructor (settings: UserSettings)
      ensures formData == settings.preferences && !isLoading && message == None
    {
      formData := settings.preferences;
      isLoading := false;
      message := None;
    }

    /** `handleCategoryToggle(category)`: only the category list of the form changes. */
    method HandleCategoryToggle(category: string)
      modifies this
      ensures formData == old(formData).(categories := ToggleCategory(old(formData.categories), category))
      ensures isLoading == old(isLoading) && message == old(message)
    {
      formData := formData.(categories := ToggleCategory(formData.categories, category));
    }

    /** The risk-tolerance select. */
    method SetRiskTolerance(risk: RiskLevel)
      modifies this
      ensures formData == old(formData).(riskTolerance := risk)
      ensures isLoading == old(isLoading) && message == old(message)
    {
      formData := formData.(riskTolerance := risk);
    }

    /** The target-profit input: the typed text is parsed, and unparsable text stores 0. */
    method SetTargetProfit(input: string)
      modifies this
      ensures formData == old(formData).(targetProfit := TargetProfit(input))
      ensures isLoading == old(isLoading) && message == old(message)
    {
      formData := formData.(targetProfit := TargetProfit(input));
    }

    /** The currency select. */
    method SetCurrency(currency: Currency)
      modifies this
      ensures formData == old(formData).(currency := currency)
      ensures isLoading == old(isLoading) && message == old(message)
    {
      formData := formData.(currency := currency);
    }

    /** The automatic-calculation check box. */
    method SetAutoCalculation(checked: bool)
      modifies this
      ensures formData == old(formData).(autoCalculation := checked)
      ensures isLoading == old(isLoading) && message == old(message)
    {
      formData := formData.(autoCalculation := checked);
    }

    /** `handleSubmit`: the owner's record gets the form as its preferences section and nothing else changes. */
    method HandleSubmit(page: Page)
      modifies this, page
      ensures page.settings == old(page.settings).(preferences := old(formData))
      ensures page.activeTab == old(page.activeTab)
      ensures formData == old(formData)
      ensures !isLoading && message == Some(Notice(Success, "設定が正常に更新されました"))
    {
      isLoading := true;
      message := None;
      var updatedSettings := page.settings.(preferences := formData);
      page.HandleSettingsUpdate(updatedSettings);
      message := Some(Notice(Success, "設定が正常に更新されました"));
      isLoading := false;
    }
  }
}
