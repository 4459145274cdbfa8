/**
 * The owner of the user-settings record,
 * project/src/components/Settings/SettingsPage.tsx: the active tab, the
 * record that every panel's `onUpdate` replaces, the tab dispatch, and the
 * side card (avatar and plan badge). The panel status line shared by all
 * panels is defined here too.
 */
module SettingsPage {
  import opened Wrappers
  import opened Types
  import opened Collections

  /** The coloured status line a panel shows after a handler: `{ type, text }`. */
  datatype NoticeKind = Success | Failure
  datatype Notice = Notice(kind: NoticeKind, text: string)

  /** The five panels `renderTabContent` can draw. */
  datatype Tab = ProfileTab | PreferencesTab | NotificationsTab | SecurityTab | SubscriptionTab

  /** The `id` of each entry of `tabs`, in sidebar order. */
  const TabIds: seq<string> := ["profile", "preferences", "notifications", "security", "subscription"]

  function TabId(tab: Tab): string
  {
    match tab
    case ProfileTab => "profile"
    case PreferencesTab => "preferences"
    case NotificationsTab => "notifications"
    case SecurityTab => "security"
    case SubscriptionTab => "subscription"
  }

  /** `renderTabContent`: each tab id selects its own panel; any other id falls back to the profile panel. */
  function TabFor(activeTab: string): (tab: Tab)
    ensures activeTab in TabIds ==> TabId(tab) == activeTab
    ensures activeTab !in TabIds ==> tab == ProfileTab
  {
    if activeTab == "preferences" then PreferencesTab
    else if activeTab == "notifications" then NotificationsTab
    else if activeTab == "security" then SecurityTab
    else if activeTab == "subscription" then SubscriptionTab
    else ProfileTab
  }

  /** The sidebar lists every panel exactly once, and selecting an entry's id draws that entry's panel. */
  lemma TabsComplete(tab: Tab)
    ensures TabId(tab) in TabIds
    ensures TabFor(TabId(tab)) == tab
    ensures NoDuplicates(TabIds)
  {
  }

  /** The plan badge on the side card: プレミアム, スタンダード, and 無料 for the free plan. */
  function PlanBadge(plan: Plan): (caption: string)
    ensures caption == "プレミアム" <==> plan == Premium
    ensures caption == "スタンダード" <==> plan == Standard
    ensures caption == "無料" <==> plan == Free
  {
    match plan
    case Premium => "プレミアム"
    case Standard => "スタンダード"
    case Free => "無料"
  }

  const DefaultAvatar: string := "https://images.pexels.com/photos/220453/pexels-photo-220453.jpeg?auto=compress&cs=tinysrgb&w=100"

  /** `avatar || DEFAULT`: a missing or empty avatar URL falls back to the fixed default picture. */
  function AvatarSrc(avatar: Option<string>): (src: string)
    ensures avatar.Some? && avatar.value != "" ==> src == avatar.value
    ensures avatar.None? || avatar.value == "" ==> src == DefaultAvatar
    ensures src != ""
  {
    if avatar.Some? && avatar.value != "" then avatar.value else DefaultAvatar
  }

  /** The page's state: the selected sidebar entry and the settings record. */
  class Page {
    var activeTab: string
    var settings: UserSettings

    /** The page opens on the profile tab with the initial record. */
    constructor (initial: UserSettings)
      ensures activeTab == "profile" && settings == initial
    {
      activeTab := "profile";
      settings := initial;
    }

    /** The panel drawn for the current tab. */
    function Shown(): Tab
      reads this
    {
      TabFor(activeTab)
    }

    /** A sidebar button: `setActiveTab(tab.id)`. */
    method SelectTab(id: string)
      modifies this
      ensures activeTab == id && settings == old(settings)
    {
      activeTab := id;
    }

    /** `handleSettingsUpdate`: the whole record is replaced by the value a panel passes. */
    method HandleSettingsUpdate(updated: UserSettings)
      modifies this
      ensures settings == updated && activeTab == old(activeTab)
    {
      settings := updated;
    }
  }

  /** Selecting any sidebar entry draws its own panel. */
  lemma SelectingShowsPanel(p: Page, tab: Tab)
    requires p.activeTab == TabId(tab)
    ensures p.Shown() == tab
  {
  }
}
