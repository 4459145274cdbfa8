# eBay export assistant dashboard — behavioural model in Dafny

This project models the rules inside the React dashboard of
`ebay-export-assistant`, a demo for Japanese sellers exporting to eBay. It
covers:

- the "AI typing" demo pane of the landing page;
- the dashboard's list selectors: recommended products, top trends, the
  alert centre, the FAQ and the prohibited-item list;
- the support chat;
- the beginner guide;
- the account settings page: the settings record, its tab dispatch and its
  five panels (profile, trading preferences, notifications, security,
  subscription).

The source file decides the form of each part:

- **Expressions become functions.** Filters, label switches and the bot's
  keyword chain are Dafny functions, and lemmas relate them.
- **State becomes classes.** Each piece of component state that handlers
  update becomes a class field. The typewriter's interval closure, the chat
  log, the FAQ's expanded set, each settings panel's form, loading flag and
  status line, and the settings page's record and active tab are all fields.
  The handlers are methods with `modifies` clauses.
- **The in-place sort stays in place.** The sort behind the top trends works
  on an `array`, and is proved equal to a stable insertion sort on sequences.
- **Panels call the owner directly.** A panel's `onUpdate` is the owning
  page's `HandleSettingsUpdate`, so each submit method takes the `Page` and
  states the page's new record.

Modules:

| file | module | models |
|---|---|---|
| wrappers.dfy | Wrappers | `Option` |
| types.dfy | Types | the records and string unions of `project/src/types/index.ts`, and dates |
| js_text.dfy | JsText | UTF-16 length, ASCII `toLowerCase`, `includes`, `trim`, `parseInt`, decimal numerals |
| collections.dfy | Collections | order-preserving filter, subsequences, counting, `findIndex`, first-appearance de-duplication |
| app.dfy | App | `project/src/App.tsx` |
| product_recommendations.dfy | ProductRecommendations | `ProductRecommendations.tsx` |
| trend_analysis.dfy | TrendAnalysis | `TrendAnalysis.tsx` |
| alert_center.dfy | AlertCenter | `AlertCenter.tsx` |
| faq.dfy | Faq | `FAQ.tsx` |
| prohibited_items.dfy | ProhibitedItems | `ProhibitedItemsAlert.tsx` |
| chat_support.dfy | ChatSupport | `ChatSupport.tsx` |
| settings_page.dfy | SettingsPage | `SettingsPage.tsx` |
| profile_settings.dfy | ProfileSettings | `ProfileSettings.tsx` |
| preferences_settings.dfy | PreferencesSettings | `PreferencesSettings.tsx` |
| notification_settings.dfy | NotificationSettings | `NotificationSettings.tsx` |
| security_settings.dfy | SecuritySettings | `SecuritySettings.tsx` |
| subscription_settings.dfy | SubscriptionSettings | `SubscriptionSettings.tsx` |
| beginner_guide.dfy | BeginnerGuide | `BeginnerGuide.tsx` |

Modelling conventions:

- **Strings.** Strings are Dafny strings, that is, sequences of Unicode
  scalar values. Wherever JavaScript counts `.length` or slices, the model
  counts UTF-16 code units. The typewriter text is a sequence of code units,
  and the password length check uses `Utf16Length`.
- **Growth.** A trend's `growth` is a `real`.
- **Clock.** `new Date()` and `Date.now()` are a `now` parameter, and the
  message ids are its decimal numeral.
- **Confirm dialog.** `window.confirm` is a boolean parameter.
- **Async handlers.** Each `async` handler is one sequential step that ends
  with the loading flag off. Its `catch` branch is unreachable because
  nothing in the `try` block can throw.
- **Chat replies.** The chat's 1500 ms reply timers are a FIFO field
  `pending`. Timers with equal delays fire in the order they were set.

## Model

| member | source | states |
|---|---|---|
| App.PaneText | project/src/App.tsx:214 | the pane shows `currentExample` when it is non-empty and the full example otherwise |
| App.AfterKeyDown | project/src/App.tsx:99-104 | Escape closes the solution modal; any other key leaves it as it was; a key never opens it |
| App.Typewriter.constructor | project/src/App.tsx:77-84 | the first run of the effect starts with typing on, an empty display, index 0 and the timer running, and the invariant holds |
| App.Typewriter.SelectDemo | project/src/App.tsx:79-84 | changing the demo empties the display, turns typing on and restarts the counter at 0 on the new text |
| App.Typewriter.Tick | project/src/App.tsx:85-91 | below the length, a tick shows exactly the first index+1 code units and increments index; at the length, typing and the timer stop with the whole text shown; the invariant (display is the index-long prefix, index at most the length) is kept and the remaining-ticks measure drops |
| App.Typewriter.RunToCompletion | project/src/App.tsx:84-91 | the reveal terminates after exactly one tick per unrevealed code unit plus the stopping tick, leaving the whole text displayed and typing off |
| App.ShownIsPrefix | project/src/App.tsx:81-87 | the pane always shows a prefix of the example: either all of it or a non-empty prefix of length index |
| ProductRecommendations.FilteredProducts | project/src/components/Dashboard/ProductRecommendations.tsx:38-45 | the result is an order-preserving subsequence as long as the number of kept positions, so every kept product appears as often as in the input; beginners get exactly the low-risk, easy-shipping products; intermediates get exactly the products that are not high risk; any other level gets every product |
| ProductRecommendations.LevelsNested | project/src/components/Dashboard/ProductRecommendations.tsx:38-45 | the beginner result is a subsequence of the intermediate result, which is a subsequence of the unrestricted result |
| ProductRecommendations.VisibleCards | project/src/components/Dashboard/ProductRecommendations.tsx:58 | at most six cards, and they are the first min(6, n) filtered products |
| ProductRecommendations.LevelHeading | project/src/components/Dashboard/ProductRecommendations.tsx:53 | 初心者向け exactly for 'beginner', 中級者向け exactly for 'intermediate', 上級者向け for every other level |
| ProductRecommendations.RiskLabel | project/src/components/Dashboard/ProductRecommendations.tsx:90 | 低 exactly for low risk, 中 exactly for medium, 高 exactly for high |
| ProductRecommendations.ShippingLabel | project/src/components/Dashboard/ProductRecommendations.tsx:105 | 簡単 exactly for easy, 普通 exactly for medium, 困難 exactly for hard |
| TrendAnalysis.SortByGrowthPermutation | project/src/components/Dashboard/TrendAnalysis.tsx:17-18 | the sort only rearranges: its result is a permutation of the input |
| TrendAnalysis.Passed | project/src/components/Dashboard/TrendAnalysis.tsx:18 | the number of trailing trends an inserted trend moves past is exactly the run at the end growing strictly slower than it |
| TrendAnalysis.InsertPlacement | project/src/components/Dashboard/TrendAnalysis.tsx:18 | one insertion step of the stable sort puts the trend right after the last trend growing at least as fast, with the trends on either side in their order |
| TrendAnalysis.InsertPermutation | project/src/components/Dashboard/TrendAnalysis.tsx:18 | one insertion step adds exactly the inserted trend to the multiset |
| TrendAnalysis.InsertSorted | project/src/components/Dashboard/TrendAnalysis.tsx:18 | inserting into a growth-descending sequence keeps it growth-descending |
| TrendAnalysis.InsertStable | project/src/components/Dashboard/TrendAnalysis.tsx:18 | among trends of one growth value, an insertion step appends the inserted trend after the existing ones |
| TrendAnalysis.SortByGrowthSorted | project/src/components/Dashboard/TrendAnalysis.tsx:18 | the sorted trends are in non-increasing order of growth |
| TrendAnalysis.SortByGrowthStable | project/src/components/Dashboard/TrendAnalysis.tsx:18 | trends of equal growth keep their input order, as the stable `Array.prototype.sort` requires |
| TrendAnalysis.TopThree | project/src/components/Dashboard/TrendAnalysis.tsx:19 | `.slice(0, 3)` yields min(3, n) entries, and they are a prefix of the sorted array |
| TrendAnalysis.TopTrendsSpec | project/src/components/Dashboard/TrendAnalysis.tsx:17-19 | the cards are min(3, n) trends in non-increasing growth order; together with the unselected trends they are a permutation of the input; no unselected trend grows faster than a selected one |
| TrendAnalysis.InsertInPlace | project/src/components/Dashboard/TrendAnalysis.tsx:18 | shifting `a[i]` left past strictly slower trends leaves `a[..i+1]` equal to the stable insertion of `a[i]` into the sorted prefix, and leaves the rest of the array untouched |
| TrendAnalysis.SortTrends | project/src/components/Dashboard/TrendAnalysis.tsx:17-18 | the caller's array is reordered in place into exactly the stable growth-descending order |
| TrendAnalysis.TopTrends | project/src/components/Dashboard/TrendAnalysis.tsx:17-19 | sorts the caller's array in place, then returns its first three trends |
| AlertCenter.UnreadAlerts | project/src/components/Dashboard/AlertCenter.tsx:41 | the unread alerts are an order-preserving subsequence that holds exactly the alerts with `isRead` false |
| AlertCenter.UnreadCount | project/src/components/Dashboard/AlertCenter.tsx:41-50 | the badge number equals the number of positions holding an unread alert |
| AlertCenter.Row | project/src/components/Dashboard/AlertCenter.tsx:79-111 | the mark-as-read button and the blue dot appear exactly on unread alerts; the dismiss button appears on every alert; both target the alert's id |
| AlertCenter.Render | project/src/components/Dashboard/AlertCenter.tsx:48-119 | the badge appears exactly when some alert is unread and shows the unread count; the empty state appears exactly for an empty list; otherwise there is one row per alert in order; "show all" appears exactly when there are more than 5 alerts |
| Faq.CategoryColumn | project/src/components/Support/FAQ.tsx:10 | `faqData.map(faq => faq.category)`: one entry per FAQ, in order, and its values are exactly the FAQ categories |
| Faq.Categories | project/src/components/Support/FAQ.tsx:10 | 'all' followed by each FAQ category exactly once (no repeats, none missing), in first-appearance order |
| Faq.FilteredFaqs | project/src/components/Support/FAQ.tsx:12-17 | an order-preserving subsequence, as long as the number of matching positions, holding exactly the FAQs whose lower-cased question or answer contains the lower-cased term and whose category is 'all' or the selected one |
| Faq.EmptySearchShowsAll | project/src/components/Support/FAQ.tsx:13-15 | an empty search with 'all' shows every FAQ in order |
| Faq.CategoryNarrows | project/src/components/Support/FAQ.tsx:15 | selecting one category shows a subsequence of what 'all' shows for the same term |
| Faq.Toggled | project/src/components/Support/FAQ.tsx:19-26 | the id's membership flips; every other id keeps its membership |
| Faq.ToggledTwice | project/src/components/Support/FAQ.tsx:19-26 | toggling the same id twice restores the set |
| Faq.FaqPanel.constructor | project/src/components/Support/FAQ.tsx:6-8 | starts with an empty search, the 'all' category and nothing expanded |
| Faq.FaqPanel.SetSearchTerm | project/src/components/Support/FAQ.tsx:54 | only the search term changes |
| Faq.FaqPanel.SelectCategory | project/src/components/Support/FAQ.tsx:63 | only the selected category changes |
| Faq.FaqPanel.ToggleExpanded | project/src/components/Support/FAQ.tsx:19-26 | the expanded set becomes `Toggled` of the old one; search and category are unchanged |
| ProhibitedItems.FilteredItems | project/src/components/Support/ProhibitedItemsAlert.tsx:9-14 | an order-preserving subsequence, as long as the number of matching positions, holding exactly the items whose lower-cased name or category contains the lower-cased term and whose severity passes; a chosen severity admits only items of that severity |
| ProhibitedItems.OnlyRestrictsAll | project/src/components/Support/ProhibitedItemsAlert.tsx:12 | choosing one severity gives exactly the 'all' result restricted to that severity, in the same order |
| ProhibitedItems.SeverityText | project/src/components/Support/ProhibitedItemsAlert.tsx:24-30 | 出品禁止 exactly for 'prohibited', 要注意 exactly for 'warning', 不明 for any other string |
| ProhibitedItems.TypedSeverityKnown | project/src/components/Support/ProhibitedItemsAlert.tsx:24-30 | an item whose severity has the declared type never gets 不明 |
| ProhibitedItems.ShowsNotFound | project/src/components/Support/ProhibitedItemsAlert.tsx:94-97 | the "not found" message appears exactly when no item matches |
| ChatSupport.ReplyTopic | project/src/components/Support/ChatSupport.tsx:58-72 | keyword priority 出品, then 発送, then 為替, then 返品: each branch is taken exactly when its keyword occurs in the lower-cased text and no earlier keyword does; the default branch is taken exactly when no keyword occurs |
| ChatSupport.ReplyText | project/src/components/Support/ChatSupport.tsx:62-70 | each keyword branch's answer mentions its own keyword, and only the default branch gives the default answer |
| ChatSupport.BotResponse | project/src/components/Support/ChatSupport.tsx:58-72 | text containing 出品 gets the listing answer; otherwise 発送 the shipping answer, then 為替 the currency answer, then 返品 the returns answer; the default answer comes exactly when no keyword occurs |
| ChatSupport.QuickRepliesAnswered | project/src/components/Support/ChatSupport.tsx:23-28 | each of the four quick replies lands in its own keyword branch |
| ChatSupport.ChatSession.constructor | project/src/components/Support/ChatSupport.tsx:12-21 | the conversation opens with exactly one bot greeting with id '1', an empty input and typing off |
| ChatSupport.ChatSession.SetInputText | project/src/components/Support/ChatSupport.tsx:160 | only the input text changes |
| ChatSupport.ChatSession.SendMessage | project/src/components/Support/ChatSupport.tsx:30-44 | blank or whitespace-only text changes nothing; otherwise exactly one user message with the text is appended after the untouched earlier ones, the input is cleared, typing turns on and the reply is scheduled |
| ChatSupport.ChatSession.DeliverReply | project/src/components/Support/ChatSupport.tsx:45-55 | exactly one bot message carrying `getBotResponse` of the oldest pending text is appended, and typing turns off |
| SettingsPage.TabFor | project/src/components/Settings/SettingsPage.tsx:29-44 | each of the five tab ids selects its own panel; any other id falls back to the profile panel |
| SettingsPage.TabsComplete | project/src/components/Settings/SettingsPage.tsx:15-21 | the five tab ids are distinct, every panel has one, and selecting it draws that panel |
| SettingsPage.PlanBadge | project/src/components/Settings/SettingsPage.tsx:104-105 | プレミアム exactly for premium, スタンダード exactly for standard, 無料 exactly for free |
| SettingsPage.AvatarSrc | project/src/components/Settings/SettingsPage.tsx:90 | a missing or empty avatar falls back to the fixed default URL; any other avatar is shown as given |
| SettingsPage.Page.constructor | project/src/components/Settings/SettingsPage.tsx:12-13 | the page opens on the 'profile' tab with the initial record |
| SettingsPage.Page.SelectTab | project/src/components/Settings/SettingsPage.tsx:71 | only the active tab changes |
| SettingsPage.Page.HandleSettingsUpdate | project/src/components/Settings/SettingsPage.tsx:23-24 | the whole record is replaced by the value given; the tab is unchanged |
| SettingsPage.SelectingShowsPanel | project/src/components/Settings/SettingsPage.tsx:29-43 | after selecting a panel's tab id, that panel is drawn |
| ProfileSettings.WithField | project/src/components/Settings/ProfileSettings.tsx:38-40 | the edited field holds the new value; every other field is unchanged |
| ProfileSettings.FieldsDetermineProfile | project/src/types/index.ts:83-91 | two profiles that agree on all seven fields are equal |
| ProfileSettings.WithFieldLaws | project/src/components/Settings/ProfileSettings.tsx:38-40 | re-entering a field's current value changes nothing; edits to different fields commute |
| ProfileSettings.ProfilePanel.constructor | project/src/components/Settings/ProfileSettings.tsx:11-13 | the form is initialised from `settings.profile`, not loading, with no message |
| ProfileSettings.ProfilePanel.HandleInputChange | project/src/components/Settings/ProfileSettings.tsx:38-40 | only the named form field changes |
| ProfileSettings.ProfilePanel.HandleSubmit | project/src/components/Settings/ProfileSettings.tsx:15-36 | the owner's record gets the form as its profile and every other section is unchanged; the success message is set and loading ends off |
| ProfileSettings.ProfilePanel.AvatarShown | project/src/components/Settings/ProfileSettings.tsx:66 | the form's picture is its own avatar URL when set and non-empty, the fixed default picture otherwise |
| PreferencesSettings.ToggleCategory | project/src/components/Settings/PreferencesSettings.tsx:42-48 | the category is present exactly when it was absent; every other category keeps its membership; removal drops every occurrence and keeps order; addition appends at the end |
| PreferencesSettings.ToggleKeepsDistinct | project/src/components/Settings/PreferencesSettings.tsx:45-47 | a list without duplicates still has none after a toggle |
| PreferencesSettings.ToggleTwiceAbsent | project/src/components/Settings/PreferencesSettings.tsx:45-47 | ticking an absent category and unticking it again restores the list |
| JsText.ParseInt | project/src/components/Settings/PreferencesSettings.tsx:122 | blank text, or text whose first non-blank character is neither a sign nor a decimal digit, reads as NaN; a negative reading needs a leading minus sign, and a leading minus never gives a positive value |
| JsText.ParseIntDecimalPrefix | project/src/components/Settings/PreferencesSettings.tsx:122 | a decimal numeral followed by nothing or by text that cannot continue it ("12abc", "12.5", "1e3") reads as the numeral's value |
| JsText.ParseIntNegativeDecimal | project/src/components/Settings/PreferencesSettings.tsx:122 | a minus sign before such a numeral reads as the negated value ("-3000" gives -3000) |
| PreferencesSettings.TargetProfit | project/src/components/Settings/PreferencesSettings.tsx:122 | input with no leading integer becomes 0; otherwise the target is the value `parseInt` reads |
| PreferencesSettings.TargetProfitOfNumeral | project/src/components/Settings/PreferencesSettings.tsx:122 | typing the decimal numeral of n stores n |
| PreferencesSettings.TargetProfitOfNegativeNumeral | project/src/components/Settings/PreferencesSettings.tsx:120-126 | typing a minus sign and the numeral of n stores -n; `min="0"` does not stop the keystroke |
| PreferencesSettings.PreferencesPanel.constructor | project/src/components/Settings/PreferencesSettings.tsx:11-13 | the form is initialised from `settings.preferences` |
| PreferencesSettings.PreferencesPanel.HandleCategoryToggle | project/src/components/Settings/PreferencesSettings.tsx:42-48 | only the form's category list changes, to `ToggleCategory` of the old list |
| PreferencesSettings.PreferencesPanel.SetRiskTolerance | project/src/components/Settings/PreferencesSettings.tsx:101-104 | only the risk tolerance changes |
| PreferencesSettings.PreferencesPanel.SetTargetProfit | project/src/components/Settings/PreferencesSettings.tsx:120-123 | only the target profit changes, to `TargetProfit` of the typed text |
| PreferencesSettings.PreferencesPanel.SetCurrency | project/src/components/Settings/PreferencesSettings.tsx:136-139 | only the currency changes |
| PreferencesSettings.PreferencesPanel.SetAutoCalculation | project/src/components/Settings/PreferencesSettings.tsx:152-155 | only the automatic-calculation flag changes |
| PreferencesSettings.PreferencesPanel.HandleSubmit | project/src/components/Settings/PreferencesSettings.tsx:20-40 | the owner's record gets the form as its preferences and nothing else changes; the success message is set and loading ends off |
| NotificationSettings.Toggled | project/src/components/Settings/NotificationSettings.tsx:37-39 | exactly the named flag is negated; every other flag is unchanged |
| NotificationSettings.FlagsDetermine | project/src/types/index.ts:99-106 | two notification records that agree on all six flags are equal |
| NotificationSettings.ToggledTwice | project/src/components/Settings/NotificationSettings.tsx:38 | flipping the same flag twice is the identity |
| NotificationSettings.OptionsCoverFlags | project/src/components/Settings/NotificationSettings.tsx:41-72 | there are six options, their keys are distinct, and every flag has one |
| NotificationSettings.NotificationPanel.constructor | project/src/components/Settings/NotificationSettings.tsx:11-13 | the form is initialised from `settings.notifications` |
| NotificationSettings.NotificationPanel.HandleToggle | project/src/components/Settings/NotificationSettings.tsx:37-39 | the form becomes `Toggled` of the old form |
| NotificationSettings.NotificationPanel.HandleSubmit | project/src/components/Settings/NotificationSettings.tsx:15-35 | the owner's record gets the form as its notifications and nothing else changes; the success message is set and loading ends off |
| SecuritySettings.PasswordCheck | project/src/components/Settings/SecuritySettings.tsx:30-40 | a mismatch is reported exactly when new and confirmation differ, which is checked first; a too-short password is reported exactly when they agree and the new one has fewer than 8 UTF-16 code units; the password is accepted otherwise |
| SecuritySettings.PasswordNotice | project/src/components/Settings/SecuritySettings.tsx:30-54 | the status line is a success exactly when the password was accepted |
| SecuritySettings.CurrentPasswordIgnored | project/src/components/Settings/SecuritySettings.tsx:25-61 | the outcome never depends on the current-password field |
| SecuritySettings.FourAstralCharactersAccepted | project/src/components/Settings/SecuritySettings.tsx:36 | four emoji count as 8 code units and pass the length check |
| SecuritySettings.TwoFactorText | project/src/components/Settings/SecuritySettings.tsx:77-80 | the message reads 有効 exactly when two-factor is now enabled and 無効 exactly when it is now disabled |
| SecuritySettings.SecurityPanel.constructor | project/src/components/Settings/SecuritySettings.tsx:16-23 | the three password boxes start empty, not loading, with no message |
| SecuritySettings.SecurityPanel.SetPasswordForm | project/src/components/Settings/SecuritySettings.tsx:134-179 | only the password form changes |
| SecuritySettings.SecurityPanel.HandlePasswordSubmit | project/src/components/Settings/SecuritySettings.tsx:25-61 | the message matches the check's outcome; on either failure the record and the form are untouched; on success only `security.lastPasswordChange` changes, to now, and the form is cleared; loading ends off |
| SecuritySettings.SecurityPanel.HandleTwoFactorToggle | project/src/components/Settings/SecuritySettings.tsx:63-86 | only `security.twoFactorEnabled` changes, to its negation; the message names the new state; loading ends off |
| SubscriptionSettings.FindPlan | project/src/components/Settings/SubscriptionSettings.tsx:122 | a found plan is listed and has the requested id; not found means no listed plan has that id |
| SubscriptionSettings.FindPlanTotal | project/src/components/Settings/SubscriptionSettings.tsx:16-63 | every plan is listed, at price 0 (free), 2980 (standard) or 4980 (premium) |
| SubscriptionSettings.OnlyFreeIsFree | project/src/components/Settings/SubscriptionSettings.tsx:16-63 | a listed price is 0 exactly for the free plan |
| SubscriptionSettings.Grouped | project/src/components/Settings/SubscriptionSettings.tsx:151 | the grouped numeral is non-empty and does not start with a comma |
| SubscriptionSettings.PriceCaption | project/src/components/Settings/SubscriptionSettings.tsx:151 | the price reads 無料 exactly when it is 0; otherwise it starts with ¥ |
| SubscriptionSettings.StatusCaption | project/src/components/Settings/SubscriptionSettings.tsx:159 | アクティブ exactly for an active subscription, キャンセル済み for any other status |
| SubscriptionSettings.ShowsCancelLink | project/src/components/Settings/SubscriptionSettings.tsx:177 | the cancel link appears exactly for a plan other than free that is not already set to cancel |
| SubscriptionSettings.PlanButtonFor | project/src/components/Settings/SubscriptionSettings.tsx:238-254 | the button is disabled exactly while loading or on the current plan; its label is 現在のプラン on the current plan, otherwise 変更中... while loading, otherwise ダウングレード for free and アップグレード for a paid plan |
| SubscriptionSettings.EnabledButtonChangesPlan | project/src/components/Settings/SubscriptionSettings.tsx:237-238 | an enabled button targets a different plan, outside loading, and reads ダウングレード or アップグレード |
| SubscriptionSettings.NextBillingDate | project/src/components/Settings/SubscriptionSettings.tsx:77 | a billing date is set exactly for a plan other than free |
| SubscriptionSettings.ChangedPlan | project/src/components/Settings/SubscriptionSettings.tsx:74-78 | the new subscription has the new plan and a billing date exactly when that plan is not free; status and `cancelAtPeriodEnd` are kept |
| SubscriptionSettings.SubscriptionPanel.constructor | project/src/components/Settings/SubscriptionSettings.tsx:13-14 | starts not loading, with no message |
| SubscriptionSettings.SubscriptionPanel.HandlePlanChange | project/src/components/Settings/SubscriptionSettings.tsx:65-91 | only the subscription section changes, to `ChangedPlan` of the old one; the message names the plan; loading ends off |
| SubscriptionSettings.SubscriptionPanel.HandleCancelSubscription | project/src/components/Settings/SubscriptionSettings.tsx:93-120 | an unconfirmed cancel changes nothing at all; a confirmed one sets only `cancelAtPeriodEnd`, which hides the cancel link, and sets the acknowledgement |
| SubscriptionSettings.PlanChangedText | project/src/components/Settings/SubscriptionSettings.tsx:84 | the plan-change message names the plan as found in the list, which always holds it, so never `undefined` |
| BeginnerGuide.HasStartButton | project/src/components/UserLevel/BeginnerGuide.tsx:63 | the start button appears on a step exactly when that step is incomplete and every earlier step is complete |
| BeginnerGuide.AtMostOneStartButton | project/src/components/UserLevel/BeginnerGuide.tsx:63 | the button appears on at most one step, and on none when every step is complete |
| BeginnerGuide.MarkerFor | project/src/components/UserLevel/BeginnerGuide.tsx:49-55 | completed steps show a check mark; the others show their step number |
| BeginnerGuide.StartButtonOnThirdStep | project/src/components/UserLevel/BeginnerGuide.tsx:5-36 | with the guide's own five steps, the button is on step 3 (仕入れ・出品) and nowhere else |

## Left out

- The exchange-rate widget and the profit chart are left out. The widget's
  network fetch and random history, the chart's floating-point percentages
  and `toFixed` formatting, and the chart drawing are outside the model.
- The static lists are left out: the shipping guide, the intermediate and
  advanced feature cards, and the header. They have no behaviour beyond
  literals.
- The `console.log` of the new settings in `handleSettingsUpdate`
  (`SettingsPage.tsx:26`) is left out; it has no effect on state.
- The error boundary (a React lifecycle hook with logging) and the mock data
  fixtures (`Math.random`, date-fns) are left out. The initial settings
  record is a parameter of `SettingsPage.Page.constructor`.
- The landing page's Escape listener registration and the
  `document.body.style.overflow` side effects are DOM effects and are not
  modelled. Only their effect on `showSolutionModal` is.
- The typewriter effect depends on the `demoFeatures` object, which is
  rebuilt on every render, so under React it restarts on each render. That
  React re-run behaviour is not modelled. `SelectDemo` models one restart for
  a chosen demo.
- Timer delays (30 ms, 1000–2000 ms), React batching and effect cleanup are
  not modelled. Each async handler is one step, and the chat's reply timers
  are a FIFO queue.
- Every `catch` branch and its error message is left out. Nothing in the
  corresponding `try` can throw in the source.
- `JsText.Lower` lower-cases ASCII letters only. Full Unicode case mapping
  is not modelled. The keywords and quick replies are Japanese and unaffected.
- `JsText.ParseInt`: the reading is an unbounded integer. `parseInt`
  returns a double, so readings above 2^53 are rounded there and exact here,
  and "-0" reads as 0 rather than -0 (after `|| 0` both give 0). The value
  is stated by lemma for decimal numerals, signed or followed by text that
  cannot continue them. The '+' sign and the "0x" form are computed but no
  lemma states their value.
- `TrendAnalysis` does not model a NaN or infinite `growth`. The comparator
  is taken on real numbers.
- Date formatting (`format`, `formatDistanceToNow`, `toLocaleTimeString`) is
  left out. So are alert icons, colour classes, the FAQ's category display
  names, and the per-card price label on the plan cards. The current-plan
  price caption is modelled.
- `ProfileSettings.ProfilePanel.HandleSubmit`: the browser's constraint
  validation runs before `onSubmit` and is not modelled. An empty name or
  email (`required`) or an email that is not a valid address (`type="email"`)
  stops the submit in the browser; the model accepts every form.
- `PreferencesSettings.PreferencesPanel.HandleSubmit`: the browser's
  constraint validation is not modelled. A negative target profit (`min="0"`)
  or one that is not a multiple of 1000 (`step="1000"`) stops the submit in
  the browser; the model accepts every form.
- `SecuritySettings.SecurityPanel.HandlePasswordSubmit`: the browser's
  `required` and `minLength={8}` checks on the password boxes are not
  modelled; the model runs the handler's own checks on every form. The three
  show/hide toggles and the cancel link's disabled-while-loading state are
  left out too.
- `SubscriptionSettings.Grouped` states only that the numeral is non-empty
  and does not start with a comma. `toLocaleString()` is called with no
  locale, so the browser's default locale decides the grouping; comma
  grouping by three is assumed, and full digit grouping is not proved.
- `NotificationSettings.Toggled` is not proved to commute for two different
  flags. The proof exceeds the verifier's resource budget; the frame
  property (other flags unchanged) is proved.
- `ChatSupport.ChatSession`: the reply's id is `now + 1` at the time the
  timer fires. The model does not prove that ids are unique across messages.
