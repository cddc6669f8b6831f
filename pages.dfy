/** What the Today and Week pages derive from a view of the hook: the search
    applied on top of the view, and the total / completed / pending header. */
module Pages {
  import opened Common
  import opened Text
  import opened Tasks
  import opened TaskFilters

  /** The header's three numbers. */
  datatype Header = Header(total: nat, completed: nat, pending: nat)

  /** The header of a view: its length and its completed and pending counts. */
  function HeaderCounts(view: seq<Task>): (h: Header)
    ensures h.total == |view|
    ensures h.completed + h.pending == h.total
    ensures h.completed == |Filter(view, IsCompleted)| && h.pending == |Filter(view, IsPending)|
  {
    FilterSplit(view, IsCompleted, IsPending);
    Header(|view|, |Filter(view, IsCompleted)|, |Filter(view, IsPending)|)
  }

  /** The page's filter over a view: every task when the trimmed query is
      empty, otherwise the case-insensitive match on the title or the
      description. */
  function Searched(view: seq<Task>, query: string): (r: seq<Task>)
    ensures IsSubsequence(r, view)
    ensures forall t :: t in r <==> t in view && PassesSearch(query, t)
  {
    FilterIsSubsequence(view, SearchTest(query));
    Filter(view, SearchTest(query))
  }

  /** The page's search keeps the view's order, adds nothing, keeps exactly
      the matching tasks, lets everything through for a blank query, and is
      the hook's own search step. */
  lemma SearchedSpec(view: seq<Task>, query: string)
    ensures IsSubsequence(Searched(view, query), view)
    ensures forall t :: t in Searched(view, query) <==> t in view && PassesSearch(query, t)
    ensures Blank(query) ==> Searched(view, query) == view
    ensures Searched(view, query) == SearchStep(view, query)
    ensures |Searched(view, query)| <= HeaderCounts(view).total
  {
    FilterIsSubsequence(view, SearchTest(query));
    if Blank(query) {
      FilterKeepsAll(view, SearchTest(query));
    }
    SearchStepIsFilter(view, query);
  }
}
