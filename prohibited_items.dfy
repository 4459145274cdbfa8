/**
 * The prohibited/restricted item list of
 * project/src/components/Support/ProhibitedItemsAlert.tsx: the search and
 * severity filter, the severity caption and the "not found" state.
 */
module ProhibitedItems {
  import opened Types
  import opened JsText
  import opened Collections

  /** The three severity buttons: 'all', or one severity. */
  datatype SeverityFilter = AnySeverity | Only(severity: Severity)

  /** The filter callback: the lower-cased term occurs in the name or the category, and the severity matches. */
  predicate Matches(item: ProhibitedItem, searchTerm: string, selected: SeverityFilter)
  {
    && (Includes(Lower(item.name), Lower(searchTerm)) || Includes(Lower(item.category), Lower(searchTerm)))
    && (selected.AnySeverity? || item.severity == selected.severity)
  }

  function MatchesFor(searchTerm: string, selected: SeverityFilter): ProhibitedItem -> bool
  {
    (item: ProhibitedItem) => Matches(item, searchTerm, selected)
  }

  /** `filteredItems`. */
  function FilteredItems(items: seq<ProhibitedItem>, searchTerm: string, selected: SeverityFilter): (shown: seq<ProhibitedItem>)
    ensures Subseq(shown, items)
    ensures |shown| == Count(items, MatchesFor(searchTerm, selected))
    ensures forall item :: item in shown <==> item in items && Matches(item, searchTerm, selected)
    ensures selected.Only? ==> forall item :: item in shown ==> item.severity == selected.severity
  {
    Filter(items, MatchesFor(searchTerm, selected))
  }

  /** Selecting one severity shows exactly the 'all' result restricted to that severity, in the same order. */
  lemma {:induction false} OnlyRestrictsAll(items: seq<ProhibitedItem>, searchTerm: string, severity: Severity)
    ensures FilteredItems(items, searchTerm, Only(severity))
         == Filter(FilteredItems(items, searchTerm, AnySeverity), (item: ProhibitedItem) => item.severity == severity)
  {
    if items != [] {
      OnlyRestrictsAll(items[1..], searchTerm, severity);
      var rest := FilteredItems(items[1..], searchTerm, AnySeverity);
      if Matches(items[0], searchTerm, AnySeverity) {
        assert FilteredItems(items, searchTerm, AnySeverity) == [items[0]] + rest;
        assert ([items[0]] + rest)[1..] == rest;
      }
    }
  }

  /** The two severity values as the strings the data carries. */
  function SeverityName(severity: Severity): string
  {
    match severity
    case Warning => "warning"
    case Prohibited => "prohibited"
  }

  /** `getSeverityText`: 出品禁止 for 'prohibited', 要注意 for 'warning', 不明 for any other string. */
  function SeverityText(severity: string): (caption: string)
    ensures caption == "出品禁止" <==> severity == "prohibited"
    ensures caption == "要注意" <==> severity == "warning"
    ensures caption == "不明" <==> severity != "prohibited" && severity != "warning"
  {
    if severity == "prohibited" then "出品禁止"
    else if severity == "warning" then "要注意"
    else "不明"
  }

  /** An item typed as in the data never gets the 不明 caption. */
  lemma TypedSeverityKnown(severity: Severity)
    ensures SeverityText(SeverityName(severity)) != "不明"
    ensures SeverityText(SeverityName(severity)) == (if severity == Prohibited then "出品禁止" else "要注意")
  {
  }

  /** The "not found" message is drawn exactly when no item passes the filter. */
  function ShowsNotFound(items: seq<ProhibitedItem>, searchTerm: string, selected: SeverityFilter): (notFound: bool)
    ensures notFound <==> forall item :: item in items ==> !Matches(item, searchTerm, selected)
  {
    var shown := FilteredItems(items, searchTerm, selected);
    assert shown != [] ==> shown[0] in shown;
    |shown| == 0
  }
}
