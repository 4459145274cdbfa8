/**
 * The subscription panel of
 * project/src/components/Settings/SubscriptionSettings.tsx: the three plans,
 * the plan-change and cancel handlers, and the rules for the plan buttons and
 * the cancel link.
 */
module SubscriptionSettings {
  import opened Wrappers
  import opened Types
  import opened JsText
  import opened Collections
  import opened SettingsPage

  datatype PlanInfo = PlanInfo(id: Plan, name: string, price: nat, features: seq<string>, limitations: seq<string>)

  /** `plans`: monthly prices in yen. */
  const Plans: seq<PlanInfo> := [
    PlanInfo(Free, "無料プラン", 0,
      ["基本的な市場概要", "為替アラート", "注目商品ランキング", "基本サポート"],
      ["詳細分析機能なし", "商品推奨数制限", "API連携なし"]),
    PlanInfo(Standard, "スタンダードプラン", 2980,
      ["売上予測機能", "競合分析", "カテゴリ別レコメンド", "詳細トレンド分析", "メールサポート"],
      ["API連携制限", "高度分析機能なし"]),
    PlanInfo(Premium, "プレミアムプラン", 4980,
      ["リアルタイム市場分析", "eBay API連携", "高度な商品プランニング", "価格改定支援", "優先サポート", "カスタムレポート"],
      [])
  ]

  function HasId(plan: Plan): PlanInfo -> bool
  {
    (p: PlanInfo) => p.id == plan
  }

  /** `plans.find(p => p.id === plan)`. */
  function FindPlan(plan: Plan): (found: Option<PlanInfo>)
    ensures found.Some? ==> found.value in Plans && found.value.id == plan
    ensures found.None? ==> forall i :: 0 <= i < |Plans| ==> Plans[i].id != plan
  {
    var k := FindIndex(Plans, HasId(plan));
    if k == -1 then None else Some(Plans[k])
  }

  /** Every plan a subscription can have is listed, so the lookup always succeeds, at the listed price. */
  lemma FindPlanTotal(plan: Plan)
    ensures FindPlan(plan).Some?
    ensures FindPlan(plan).value.price == (match plan case Free => 0 case Standard => 2980 case Premium => 4980)
  {
  }

  /** Only the free plan costs nothing. */
  lemma OnlyFreeIsFree(i: int)
    requires 0 <= i < |Plans|
    ensures Plans[i].price == 0 <==> Plans[i].id == Free
  {
  }

  /**
   * `n.toLocaleString()` with no locale argument, so the browser's default
   * locale decides; a locale that groups decimal digits by three with commas
   * is assumed.
   */
  function Grouped(n: nat): (s: string)
    ensures s != [] && s[0] != ','
  {
    if n < 1000 then DecimalString(n)
    else
      var r := n % 1000;
      var pad := if r < 10 then "00" else if r < 100 then "0" else "";
      Grouped(n / 1000) + "," + pad + DecimalString(r)
  }

  /** The price line under the current plan's name: 無料 exactly for a zero price. */
  function PriceCaption(price: nat): (caption: string)
    ensures caption == "無料" <==> price == 0
    ensures price != 0 ==> caption != [] && caption[0] == '¥'
  {
    if price == 0 then "無料" else "¥" + Grouped(price) + "/月"
  }

  /** The status badge: アクティブ for an active subscription, キャンセル済み for any other status. */
  function StatusCaption(status: SubscriptionStatus): (caption: string)
    ensures caption == "アクティブ" <==> status == Active
    ensures caption == "キャンセル済み" <==> status != Active
  {
    if status == Active then "アクティブ" else "キャンセル済み"
  }

  /** The cancel link is offered for a paid plan that is not already set to end. */
  function ShowsCancelLink(subscription: Subscription): (shown: bool)
    ensures shown <==> subscription.plan != Free && !subscription.cancelAtPeriodEnd
  {
    subscription.plan != Free && !subscription.cancelAtPeriodEnd
  }

  /** The button under one plan card. */
  datatype PlanButton = PlanButton(disabled: bool, caption: string)

  function PlanButtonFor(current: Plan, plan: Plan, isLoading: bool): (button: PlanButton)
    ensures button.disabled <==> isLoading || plan == current
    ensures plan == current ==> button.caption == "現在のプラン"
    ensures plan != current && isLoading ==> button.caption == "変更中..."
    ensures plan != current && !isLoading && plan == Free ==> button.caption == "ダウングレード"
    ensures plan != current && !isLoading && plan != Free ==> button.caption == "アップグレード"
  {
    PlanButton(
      isLoading || current == plan,
      if current == plan then "現在のプラン"
      else if isLoading then "変更中..."
      else if plan == Free then "ダウングレード"
      else "アップグレード")
  }

  /** An enabled plan button never targets the current plan. */
  lemma EnabledButtonChangesPlan(current: Plan, plan: Plan, isLoading: bool)
    requires !PlanButtonFor(current, plan, isLoading).disabled
    ensures plan != current && !isLoading
    ensures PlanButtonFor(current, plan, isLoading).caption in {"ダウングレード", "アップグレード"}
  {
  }

  /** The billing date a plan change sets: 15 December 2024 (month index 11) for a paid plan, none for the free one. */
  function NextBillingDate(plan: Plan): (date: Option<Date>)
    ensures date.Some? <==> plan != Free
  {
    if plan != Free then Some(LocalDay(2024, 11, 15)) else None
  }

  /**
   * The subscription after a change to `newPlan`: the plan and the billing
   * date that goes with it are replaced; the status and the cancel flag are kept.
   */
  function ChangedPlan(subscription: Subscription, newPlan: Plan): (r: Subscription)
    ensures r.plan == newPlan
    ensures r.nextBillingDate.Some? <==> newPlan != Free
    ensures r.status == subscription.status && r.cancelAtPeriodEnd == subscription.cancelAtPeriodEnd
  {
    subscription.(plan := newPlan, nextBillingDate := NextBillingDate(newPlan))
  }

  /**
   * The success line of a plan change: the plan's name as found in `plans`.
   * Every plan is listed, so the line never reads `undefined`.
   */
  function PlanChangedText(plan: Plan): (text: string)
    ensures FindPlan(plan).Some? && text == FindPlan(plan).value.name + "に変更しました"
  {
    (match FindPlan(plan) case Some(p) => p.name case None => "undefined") + "に変更しました"
  }

  /** The panel's own state: the loading flag and the status line. */
  class SubscriptionPanel {
    var isLoading: bool
    var message: Option<Notice>

    constructor ()
      ensures !isLoading && message == None
    {
      isLoading := false;
      message := None;
    }

    /**
     * `handlePlanChange(newPlan)`: the record's subscription becomes
     * `ChangedPlan` of the old one, and every other section is kept.
     */
    method HandlePlanChange(page: Page, newPlan: Plan)
      modifies this, page
      ensures page.settings == old(page.settings).(subscription := ChangedPlan(old(page.settings.subscription), newPlan))
      ensures message == Some(Notice(Success, PlanChangedText(newPlan)))
      ensures !isLoading && page.activeTab == old(page.activeTab)
    {
      isLoading := true;
      message := None;
      var updatedSettings := page.settings.(subscription := ChangedPlan(page.settings.subscription, newPlan));
      page.HandleSettingsUpdate(updatedSettings);
      message := Some(Notice(Success, PlanChangedText(newPlan)));
      isLoading := false;
    }

    /**
     * `handleCancelSubscription`, with `confirmed` the answer to the
     * confirmation dialog: a refusal changes nothing at all; a confirmation
     * sets only `subscription.cancelAtPeriodEnd`, which hides the cancel link.
     */
    method HandleCancelSubscription(page: Page, confirmed: bool)
      modifies this, page
      ensures !confirmed ==>
        page.settings == old(page.settings) && isLoading == old(isLoading) && message == old(message)
      ensures confirmed ==>
        && page.settings == old(page.settings).(subscription := old(page.settings.subscription).(cancelAtPeriodEnd := true))
        && !ShowsCancelLink(page.settings.subscription)
        && !isLoading
        && message == Some(Notice(Success, "サブスクリプションのキャンセルを受け付けました"))
      ensures page.activeTab == old(page.activeTab)
    {
      if !confirmed {
        return;
      }
      isLoading := true;
      var updatedSettings := page.settings.(subscription := page.settings.subscription.(cancelAtPeriodEnd := true));
      page.HandleSettingsUpdate(updatedSettings);
      message := Some(Notice(Success, "サブスクリプションのキャンセルを受け付けました"));
      isLoading := false;
    }
  }
}
