/** The conversation history of the sidebar (src/components/Sidebar.tsx):
    sorted newest first in place, each row titled and the active one
    highlighted. */
module Sidebar {
  import opened Wrappers
  import opened Seqs
  import opened Catalog

  function CreatedAt(c: Conversation): int { c.createdAt }

  predicate NewestFirst(s: seq<Conversation>) {
    forall i, j :: 0 <= i < j < |s| ==> s[i].createdAt >= s[j].createdAt
  }

  /** For every timestamp, the conversations created at it come in the same
      order in both lists. */
  ghost predicate SameTies(s: seq<Conversation>, t: seq<Conversation>) {
    forall c :: Select(s, CreatedAt, c) == Select(t, CreatedAt, c)
  }

  /** Exchanging two neighbours with different timestamps keeps the order
      among equal timestamps. */
  lemma SwapKeepsTies(s: seq<Conversation>, t: seq<Conversation>, j: int)
    requires 0 < j < |s| == |t|
    requires s[j - 1].createdAt != s[j].createdAt
    requires t == s[..j - 1] + [s[j], s[j - 1]] + s[j + 1..]
    ensures SameTies(s, t)
  {
    var pre, x, y, post := s[..j - 1], s[j - 1], s[j], s[j + 1..];
    assert s == pre + [x, y] + post;
    forall c ensures Select(s, CreatedAt, c) == Select(t, CreatedAt, c) {
      SelectAppend(pre + [x, y], post, CreatedAt, c);
      SelectAppend(pre, [x, y], CreatedAt, c);
      SelectAppend(pre + [y, x], post, CreatedAt, c);
      SelectAppend(pre, [y, x], CreatedAt, c);
      PairSwapTies(x, y, c);
    }
  }

  /** Two conversations with different timestamps are never both created at
      one timestamp, so their order does not show in any selection. */
  lemma PairSwapTies(x: Conversation, y: Conversation, c: int)
    requires x.createdAt != y.createdAt
    ensures Select([x, y], CreatedAt, c) == Select([y, x], CreatedAt, c)
  {
    assert [x, y] == [x] + [y] && [y, x] == [y] + [x];
    SelectAppend([x], [y], CreatedAt, c);
    SelectAppend([y], [x], CreatedAt, c);
  }

  lemma SameTiesTrans(s: seq<Conversation>, t: seq<Conversation>, u: seq<Conversation>)
    requires SameTies(s, t) && SameTies(t, u)
    ensures SameTies(s, u)
  {
  }

  /** `conversations.sort((a, b) => b.createdAt - a.createdAt)`: sorts the
      array itself, newest first. The sort is stable, so conversations with
      the same timestamp keep their order; being sorted, a permutation and
      stable together determine the result. Modelled as insertion sort by
      exchanging neighbours. */
  method SortNewestFirst(a: array<Conversation>)
    modifies a
    ensures NewestFirst(a[..])
    ensures multiset(a[..]) == multiset(old(a[..]))
    ensures SameTies(a[..], old(a[..]))
  {
    if a.Length == 0 { return; }
    var i := 1;
    while i < a.Length
      invariant 1 <= i <= a.Length
      invariant NewestFirst(a[..i])
      invariant multiset(a[..]) == multiset(old(a[..]))
      invariant SameTies(a[..], old(a[..]))
    {
      ghost var before := a[..];
      SiftUp(a, i);
      SameTiesTrans(a[..], before, old(a[..]));
      i := i + 1;
    }
    assert a[..] == a[..a.Length];
  }

  /** `s[..i + 1]` is newest first once the entry at `j` is left out. */
  predicate SortedExcept(s: seq<Conversation>, j: int, i: int)
    requires 0 <= j <= i < |s|
  {
    forall p, q :: 0 <= p < q <= i && p != j && q != j ==> s[p].createdAt >= s[q].createdAt
  }

  /** The entry at `j` is strictly newer than those after it up to `i`. */
  predicate NewerThanPassed(s: seq<Conversation>, j: int, i: int)
    requires 0 <= j <= i < |s|
  {
    forall q :: j < q <= i ==> s[j].createdAt > s[q].createdAt
  }

  lemma SiftStep(s: seq<Conversation>, t: seq<Conversation>, j: int, i: int)
    requires 0 < j <= i < |s| == |t|
    requires SortedExcept(s, j, i) && NewerThanPassed(s, j, i)
    requires s[j - 1].createdAt < s[j].createdAt
    requires t == s[..j - 1] + [s[j], s[j - 1]] + s[j + 1..]
    ensures SortedExcept(t, j - 1, i) && NewerThanPassed(t, j - 1, i)
  {
    assert forall k :: 0 <= k < |t| && k != j - 1 && k != j ==> t[k] == s[k];
  }

  lemma SiftDone(s: seq<Conversation>, j: int, i: int)
    requires 0 <= j <= i < |s|
    requires SortedExcept(s, j, i) && NewerThanPassed(s, j, i)
    requires j == 0 || s[j - 1].createdAt >= s[j].createdAt
    ensures NewestFirst(s[..i + 1])
  {
  }

  /** What holds while `a[i]` moves to its place: it is at `j`, newer than
      everything it has passed, the rest of `a[..i + 1]` is newest first, and
      the array is the original one with ties in their original order. */
  ghost predicate Sifting(s: seq<Conversation>, orig: seq<Conversation>, j: int, i: int) {
    0 <= j <= i < |s| &&
    SortedExcept(s, j, i) && NewerThanPassed(s, j, i) &&
    multiset(s) == multiset(orig) && SameTies(s, orig)
  }

  /** Exchanging the moving entry with an older neighbour keeps `Sifting`,
      one place further. */
  lemma SwapStep(s: seq<Conversation>, t: seq<Conversation>, orig: seq<Conversation>, j: int, i: int)
    requires Sifting(s, orig, j, i) && 0 < j
    requires s[j - 1].createdAt < s[j].createdAt
    requires |t| == |s| && t[j - 1] == s[j] && t[j] == s[j - 1]
    requires forall k :: 0 <= k < |s| && k != j - 1 && k != j ==> t[k] == s[k]
    ensures Sifting(t, orig, j - 1, i)
  {
    assert t == s[..j - 1] + [s[j], s[j - 1]] + s[j + 1..];
    assert s == s[..j - 1] + [s[j - 1], s[j]] + s[j + 1..];
    SiftStep(s, t, j, i);
    SwapKeepsTies(s, t, j);
    SameTiesTrans(t, s, orig);
  }

  /** Moves `a[i]` towards the front past every strictly older conversation,
      so that `a[..i + 1]` is newest first when `a[..i]` was. */
  method SiftUp(a: array<Conversation>, i: int)
    requires 0 < i < a.Length
    requires NewestFirst(a[..i])
    modifies a
    ensures NewestFirst(a[..i + 1])
    ensures multiset(a[..]) == multiset(old(a[..]))
    ensures SameTies(a[..], old(a[..]))
  {
    var j := i;
    while 0 < j && a[j - 1].createdAt < a[j].createdAt
      invariant Sifting(a[..], old(a[..]), j, i)
    {
      ghost var before := a[..];
      a[j - 1], a[j] := a[j], a[j - 1];
      SwapStep(before, a[..], old(a[..]), j, i);
      j := j - 1;
    }
    SiftDone(a[..], j, i);
  }

  /** `conv.title || "Nouvelle discussion"`: an empty title shows the
      placeholder. */
  function DisplayTitle(title: string): (r: string)
    ensures r != []
    ensures title != [] ==> r == title
  {
    if title == [] then "Nouvelle discussion" else title
  }

  datatype Row = Row(id: string, title: string, createdAt: int, highlighted: bool)
  datatype History = Placeholder | Rows(rows: seq<Row>)

  function RowOf(c: Conversation, activeId: Option<string>): Row {
    Row(c.id, DisplayTitle(c.title), c.createdAt, activeId == Some(c.id))
  }

  function RowsOf(convs: seq<Conversation>, activeId: Option<string>): (r: seq<Row>)
    ensures |r| == |convs|
    ensures forall i :: 0 <= i < |r| ==> r[i] == RowOf(convs[i], activeId)
  {
    seq(|convs|, i requires 0 <= i < |convs| => RowOf(convs[i], activeId))
  }

  /** When the ids are distinct, the row of the active conversation is the only
      highlighted one, and no row is highlighted when no conversation is
      active. */
  lemma HighlightUnique(convs: seq<Conversation>, activeId: Option<string>)
    requires forall i, j :: 0 <= i < j < |convs| ==> convs[i].id != convs[j].id
    ensures forall i, j :: 0 <= i < j < |convs| ==>
              !(RowsOf(convs, activeId)[i].highlighted && RowsOf(convs, activeId)[j].highlighted)
    ensures forall i :: 0 <= i < |convs| ==>
              (RowsOf(convs, activeId)[i].highlighted <==> activeId == Some(convs[i].id))
  {
  }

  /** The history list: a placeholder when there is no conversation, otherwise
      one row per conversation, newest first. Showing it sorts the array it is
      given. */
  method ShowHistory(a: array<Conversation>, activeId: Option<string>) returns (h: History)
    modifies a
    ensures a.Length == 0 ==> h == Placeholder
    ensures a.Length > 0 ==> h == Rows(RowsOf(a[..], activeId))
    ensures NewestFirst(a[..]) && multiset(a[..]) == multiset(old(a[..]))
    ensures SameTies(a[..], old(a[..]))
  {
    if a.Length == 0 {
      return Placeholder;
    }
    SortNewestFirst(a);
    h := Rows(RowsOf(a[..], activeId));
  }
}
