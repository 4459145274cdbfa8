/**
 * The notification panel of
 * project/src/components/Settings/NotificationSettings.tsx: six switches over
 * the notification flags and a submit that hands the owner a record with the
 * notifications replaced.
 */
module NotificationSettings {
  import opened Wrappers
  import opened Types
  import opened Collections
  import opened SettingsPage

  /** `keyof typeof formData`. */
  datatype NotificationField = EmailFlag | PushFlag | ExchangeRateAlertsFlag | ProductAlertsFlag | TrendAlertsFlag | WeeklyReportFlag

  function Flag(n: Notifications, field: NotificationField): bool
  {
    match field
    case EmailFlag => n.email
    case PushFlag => n.push
    case ExchangeRateAlertsFlag => n.exchangeRateAlerts
    case ProductAlertsFlag => n.productAlerts
    case TrendAlertsFlag => n.trendAlerts
    case WeeklyReportFlag => n.weeklyReport
  }

  /** `{ ...prev, [field]: !prev[field] }`: that flag is negated and every other flag is kept. */
  function Toggled(n: Notifications, field: NotificationField): (r: Notifications)
    ensures Flag(r, field) == !Flag(n, field)
    ensures forall other :: other != field ==> Flag(r, other) == Flag(n, other)
  {
    match field
    case EmailFlag => n.(email := !n.email)
    case PushFlag => n.(push := !n.push)
    case ExchangeRateAlertsFlag => n.(exchangeRateAlerts := !n.exchangeRateAlerts)
    case ProductAlertsFlag => n.(productAlerts := !n.productAlerts)
    case TrendAlertsFlag => n.(trendAlerts := !n.trendAlerts)
    case WeeklyReportFlag => n.(weeklyReport := !n.weeklyReport)
  }

  /** The six flags determine the record. */
  lemma FlagsDetermine(a: Notifications, b: Notifications)
    requires forall field :: Flag(a, field) == Flag(b, field)
    ensures a == b
  {
    assert Flag(a, EmailFlag) == Flag(b, EmailFlag) && Flag(a, PushFlag) == Flag(b, PushFlag);
    assert Flag(a, ExchangeRateAlertsFlag) == Flag(b, ExchangeRateAlertsFlag);
    assert Flag(a, ProductAlertsFlag) == Flag(b, ProductAlertsFlag);
    assert Flag(a, TrendAlertsFlag) == Flag(b, TrendAlertsFlag);
    assert Flag(a, WeeklyReportFlag) == Flag(b, WeeklyReportFlag);
  }

  /** Flipping the same switch twice is the identity. */
  lemma ToggledTwice(n: Notifications, f: NotificationField)
    ensures Toggled(Toggled(n, f), f) == n
  {
  }

  /** One row of `notificationOptions`: the flag it switches and its caption. */
  datatype NotificationOption = NotificationOption(key: NotificationField, title: string, description: string)

  const NotificationOptions: seq<NotificationOption> := [
    NotificationOption(EmailFlag, "メール通知", "重要な更新をメールで受信"),
    NotificationOption(PushFlag, "プッシュ通知", "ブラウザ通知を受信"),
    NotificationOption(ExchangeRateAlertsFlag, "為替レートアラート", "設定した閾値を超えた場合に通知"),
    NotificationOption(ProductAlertsFlag, "商品アラート", "注目商品や価格変動の通知"),
    NotificationOption(TrendAlertsFlag, "トレンドアラート", "市場トレンドの変化を通知"),
    NotificationOption(WeeklyReportFlag, "週次レポート", "週間の市場分析レポートを配信")
  ]

  function OptionKeys(options: seq<NotificationOption>): (keys: seq<NotificationField>)
    ensures |keys| == |options| && forall i :: 0 <= i < |options| ==> keys[i] == options[i].key
  {
    seq(|options|, i requires 0 <= i < |options| => options[i].key)
  }

  /** The six rows switch six different flags, and every flag has a row. */
  lemma OptionsCoverFlags(field: NotificationField)
    ensures |NotificationOptions| == 6
    ensures NoDuplicates(OptionKeys(NotificationOptions))
    ensures field in OptionKeys(NotificationOptions)
  {
    var keys := OptionKeys(NotificationOptions);
    assert keys == [EmailFlag, PushFlag, ExchangeRateAlertsFlag, ProductAlertsFlag, TrendAlertsFlag, WeeklyReportFlag];
  }

  /** The panel's own state: the form, the loading flag and the status line. */
  class NotificationPanel {
    var formData: Notifications
    var isLoading: bool
    var message: Option<Notice>

    /** The form starts as a copy of the notifications section of the record the panel receives. */
    constructor (settings: UserSettings)
      ensures formData == settings.notifications && !isLoading && message == None
    {
      formData := settings.notifications;
      isLoading := false;
      message := None;
    }

    /** `handleToggle(field)`. */
    method HandleToggle(field: NotificationField)
      modifies this
      ensures formData == Toggled(old(formData), field)
      ensures isLoading == old(isLoading) && message == old(message)
    {
      formData := Toggled(formData, field);
    }

    /** `handleSubmit`: the owner's record gets the form as its notifications section and nothing else changes. */
    method HandleSubmit(page: Page)
      modifies this, page
      ensures page.settings == old(page.settings).(notifications := old(formData))
      ensures page.activeTab == old(page.activeTab)
      ensures formData == old(formData)
      ensures !isLoading && message == Some(Notice(Success, "通知設定が正常に更新されました"))
    {
      isLoading := true;
      message := None;
      var updatedSettings := page.settings.(notifications := formData);
      page.HandleSettingsUpdate(updatedSettings);
      message := Some(Notice(Success, "通知設定が正常に更新されました"));
      isLoading := false;
    }
  }
}
