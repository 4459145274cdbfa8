/**
 * The alert list of project/src/components/Dashboard/AlertCenter.tsx: the
 * unread selection behind the badge, and which parts of the panel are drawn
 * for a given list of alerts.
 */
module AlertCenter {
  import opened Wrappers
  import opened Types
  import opened Collections

  function IsUnread(): Alert -> bool
  {
    (a: Alert) => !a.isRead
  }

  /** `unreadAlerts`: the alerts not yet read, in list order. */
  function UnreadAlerts(alerts: seq<Alert>): (unread: seq<Alert>)
    ensures Subseq(unread, alerts)
    ensures forall a :: a in unread <==> a in alerts && !a.isRead
  {
    Filter(alerts, IsUnread())
  }

  /** The badge's number is the count of positions holding an unread alert. */
  lemma UnreadCount(alerts: seq<Alert>)
    ensures |UnreadAlerts(alerts)| == |set i | 0 <= i < |alerts| && !alerts[i].isRead|
  {
    var p := IsUnread();
    assert UnreadAlerts(alerts) == Filter(alerts, p);
    CountIndices(alerts, p);
    assert Positions(alerts, p) == set i | 0 <= i < |alerts| && !alerts[i].isRead;
  }

  /** The buttons drawn on one alert: mark-as-read and dismiss, each targeting the alert's id. */
  datatype AlertRow = AlertRow(id: string, markAsRead: bool, unreadDot: bool, dismiss: bool)

  /** What the panel draws: the badge (with its number), the empty state or one row per alert, and the "show all" link. */
  datatype AlertPanel = AlertPanel(badge: Option<nat>, emptyState: bool, rows: seq<AlertRow>, showAll: bool)

  function Row(alert: Alert): (row: AlertRow)
    ensures row.id == alert.id
    ensures row.markAsRead <==> !alert.isRead
    ensures row.unreadDot == row.markAsRead
    ensures row.dismiss
  {
    AlertRow(alert.id, !alert.isRead, !alert.isRead, true)
  }

  /** Rendering of the whole panel. */
  function Render(alerts: seq<Alert>): (panel: AlertPanel)
    ensures panel.badge.Some? <==> exists i :: 0 <= i < |alerts| && !alerts[i].isRead
    ensures panel.badge.Some? ==> panel.badge.value == |UnreadAlerts(alerts)| > 0
    ensures panel.emptyState <==> alerts == []
    ensures panel.emptyState ==> panel.rows == []
    ensures !panel.emptyState ==>
      |panel.rows| == |alerts| && forall i :: 0 <= i < |alerts| ==> panel.rows[i] == Row(alerts[i])
    ensures panel.showAll <==> |alerts| > 5
  {
    var unread := UnreadAlerts(alerts);
    assert |unread| > 0 <==> exists i :: 0 <= i < |alerts| && !alerts[i].isRead by {
      if |unread| > 0 {
        assert unread[0] in alerts;
      }
      if i :| 0 <= i < |alerts| && !alerts[i].isRead {
        assert alerts[i] in unread;
      }
    }
    AlertPanel(
      if |unread| > 0 then Some(|unread|) else None,
      |alerts| == 0,
      if |alerts| == 0 then [] else seq(|alerts|, i requires 0 <= i < |alerts| => Row(alerts[i])),
      |alerts| > 5)
  }
}
