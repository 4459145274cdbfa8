/**
 * The FAQ panel of project/src/components/Support/FAQ.tsx: the category
 * buttons, the search/category filter, and the set of expanded answers.
 */
module Faq {
  import opened Types
  import opened JsText
  import opened Collections

  /** `faqData.map(faq => faq.category)`. */
  function CategoryColumn(faqs: seq<Types.Faq>): (column: seq<string>)
    ensures |column| == |faqs| && forall i :: 0 <= i < |faqs| ==> column[i] == faqs[i].category
    ensures forall c :: c in column <==> exists f :: f in faqs && f.category == c
  {
    var column := seq(|faqs|, i requires 0 <= i < |faqs| => faqs[i].category);
    assert forall c :: c in column ==> exists f :: f in faqs && f.category == c by {
      forall c | c in column ensures exists f :: f in faqs && f.category == c {
        var i :| 0 <= i < |column| && column[i] == c;
        assert faqs[i] in faqs;
      }
    }
    column
  }

  /**
   * `categories`: 'all' followed by each FAQ category exactly once, in order of
   * first appearance in the FAQ list.
   */
  function Categories(faqs: seq<Types.Faq>): (cats: seq<string>)
    ensures |cats| >= 1 && cats[0] == "all"
    ensures forall c :: c in cats[1..] <==> c in CategoryColumn(faqs)
    ensures NoDuplicates(cats[1..])
    ensures forall i, j :: 1 <= i < j < |cats| ==>
      cats[i] in CategoryColumn(faqs) && cats[j] in CategoryColumn(faqs) &&
      IndexOf(CategoryColumn(faqs), cats[i]) < IndexOf(CategoryColumn(faqs), cats[j])
  {
    var d := Distinct(CategoryColumn(faqs));
    assert (["all"] + d)[1..] == d;
    ["all"] + d
  }

  /** The filter callback: the lower-cased term occurs in the question or the answer, and the category matches. */
  predicate Matches(faq: Types.Faq, searchTerm: string, selectedCategory: string)
  {
    && (Includes(Lower(faq.question), Lower(searchTerm)) || Includes(Lower(faq.answer), Lower(searchTerm)))
    && (selectedCategory == "all" || faq.category == selectedCategory)
  }

  function MatchesFor(searchTerm: string, selectedCategory: string): Types.Faq -> bool
  {
    (f: Types.Faq) => Matches(f, searchTerm, selectedCategory)
  }

  /** `filteredFAQs`. */
  function FilteredFaqs(faqs: seq<Types.Faq>, searchTerm: string, selectedCategory: string): (shown: seq<Types.Faq>)
    ensures Subseq(shown, faqs)
    ensures |shown| == Count(faqs, MatchesFor(searchTerm, selectedCategory))
    ensures forall f :: f in shown <==> f in faqs && Matches(f, searchTerm, selectedCategory)
  {
    Filter(faqs, MatchesFor(searchTerm, selectedCategory))
  }

  /** With no search term and the 'all' category, every FAQ is shown, in order. */
  lemma EmptySearchShowsAll(faqs: seq<Types.Faq>)
    ensures FilteredFaqs(faqs, "", "all") == faqs
  {
    forall f | f in faqs ensures MatchesFor("", "all")(f) {
      assert Lower("") == "";
      IncludesEmpty(Lower(f.question));
    }
    FilterAll(faqs, MatchesFor("", "all"));
  }

  /** Narrowing to one category shows a subsequence of what 'all' shows for the same term. */
  lemma CategoryNarrows(faqs: seq<Types.Faq>, searchTerm: string, category: string)
    ensures Subseq(FilteredFaqs(faqs, searchTerm, category), FilteredFaqs(faqs, searchTerm, "all"))
  {
    FilterMonotone(faqs, MatchesFor(searchTerm, category), MatchesFor(searchTerm, "all"));
  }

  /** The copy-and-update of `toggleExpanded`: delete `id` when present, add it otherwise. */
  function Toggled(expanded: set<string>, id: string): (r: set<string>)
    ensures id in r <==> id !in expanded
    ensures forall other :: other != id ==> (other in r <==> other in expanded)
  {
    if id in expanded then expanded - {id} else expanded + {id}
  }

  /** Toggling the same id twice restores the set. */
  lemma ToggledTwice(expanded: set<string>, id: string)
    ensures Toggled(Toggled(expanded, id), id) == expanded
  {
  }

  /** The component's state: the search box, the selected category button and the expanded answers. */
  class FaqPanel {
    var searchTerm: string
    var selectedCategory: string
    var expandedItems: set<string>

    constructor ()
      ensures searchTerm == "" && selectedCategory == "all" && expandedItems == {}
    {
      searchTerm := "";
      selectedCategory := "all";
      expandedItems := {};
    }

    /** The FAQs drawn for the current search box and category. */
    function Shown(faqs: seq<Types.Faq>): seq<Types.Faq>
      reads this
    {
      FilteredFaqs(faqs, searchTerm, selectedCategory)
    }

    method SetSearchTerm(term: string)
      modifies this
      ensures searchTerm == term
      ensures selectedCategory == old(selectedCategory) && expandedItems == old(expandedItems)
    {
      searchTerm := term;
    }

    method SelectCategory(category: string)
      modifies this
      ensures selectedCategory == category
      ensures searchTerm == old(searchTerm) && expandedItems == old(expandedItems)
    {
      selectedCategory := category;
    }

    /** `toggleExpanded(id)`: copies the set, deletes or adds `id` on the copy, and stores the copy. */
    method ToggleExpanded(id: string)
      modifies this
      ensures expandedItems == Toggled(old(expandedItems), id)
      ensures searchTerm == old(searchTerm) && selectedCategory == old(selectedCategory)
    {
      var newExpanded := expandedItems;
      if id in newExpanded {
        newExpanded := newExpanded - {id};
      } else {
        newExpanded := newExpanded + {id};
      }
      expandedItems := newExpanded;
    }
  }
}
