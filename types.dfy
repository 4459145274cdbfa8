/**
 * The record and enumeration shapes of the dashboard (project/src/types/index.ts).
 * JavaScript numbers are `real` where the source does arithmetic or comparison on
 * them and `int` where they are counts or parsed integers.
 */
module Types {
  import opened Wrappers

  /**
   * A JavaScript `Date`: `At` is an instant (what `new Date()` returns, given as
   * the caller's clock reading), `LocalDay` is midnight of a calendar day in the
   * local time zone (what `new Date(year, monthIndex, day)` builds).
   */
  datatype Date = At(epochMillis: int) | LocalDay(year: int, monthIndex: int, day: int)

  datatype RiskLevel = Low | Medium | High
  datatype ProductTrend = Up | Down | Stable
  datatype ShippingDifficulty = Easy | Moderate | Hard

  datatype Product = Product(
    id: string,
    title: string,
    category: string,
    averagePrice: real,
    profit: real,
    profitMargin: real,
    riskLevel: RiskLevel,
    watchCount: int,
    trend: ProductTrend,
    image: string,
    competitorCount: int,
    shippingDifficulty: ShippingDifficulty,
    demandScore: real)

  datatype MarketDirection = Rising | Falling | Steady

  datatype MarketTrend = MarketTrend(
    category: string,
    growth: real,
    volume: real,
    trend: MarketDirection,
    seasonality: real)

  datatype AlertType = RateAlert | ProductAlert | TrendAlert

  datatype Alert = Alert(
    id: string,
    kind: AlertType,
    title: string,
    message: string,
    timestamp: Date,
    isRead: bool,
    priority: RiskLevel)

  datatype Faq = Faq(id: string, question: string, answer: string, category: string, helpful: int)

  datatype Severity = Warning | Prohibited

  datatype ProhibitedItem = ProhibitedItem(
    id: string,
    name: string,
    category: string,
    reason: string,
    severity: Severity)

  datatype Profile = Profile(
    name: string,
    email: string,
    avatar: Option<string>,
    businessName: Option<string>,
    phone: Option<string>,
    timezone: string,
    language: string)

  datatype Currency = JPY | USD

  datatype Preferences = Preferences(
    categories: seq<string>,
    riskTolerance: RiskLevel,
    targetProfit: int,
    currency: Currency,
    autoCalculation: bool)

  datatype Notifications = Notifications(
    email: bool,
    push: bool,
    exchangeRateAlerts: bool,
    productAlerts: bool,
    trendAlerts: bool,
    weeklyReport: bool)

  datatype LoginHistory = LoginHistory(
    id: string,
    timestamp: Date,
    ipAddress: string,
    location: string,
    device: string,
    success: bool)

  datatype Security = Security(
    twoFactorEnabled: bool,
    lastPasswordChange: Date,
    loginHistory: seq<LoginHistory>)

  datatype Plan = Free | Standard | Premium
  datatype SubscriptionStatus = Active | Cancelled | Expired

  datatype Subscription = Subscription(
    plan: Plan,
    status: SubscriptionStatus,
    nextBillingDate: Option<Date>,
    cancelAtPeriodEnd: bool)

  datatype UserSettings = UserSettings(
    id: string,
    userId: string,
    profile: Profile,
    preferences: Preferences,
    notifications: Notifications,
    security: Security,
    subscription: Subscription)
}
