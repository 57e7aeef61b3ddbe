/**
 * The detail view's lists: a copy of the notes or care logs sorted newest
 * first (`[...xs].sort((a, b) => new Date(b.date) - new Date(a.date))`),
 * of which the first few are shown unless "show all" is on.
 */
module Detail {
  import opened Plants

  predicate NewestFirst(s: seq<Entry>) {
    forall i, j :: 0 <= i < j < |s| ==> s[i].date >= s[j].date
  }

  /** Puts `e` in front of the first entry that is not newer than it. */
  function Insert(e: Entry, s: seq<Entry>): (r: seq<Entry>)
    requires NewestFirst(s)
    ensures NewestFirst(r)
    ensures |r| == |s| + 1
    ensures r[0] == e || (s != [] && r[0] == s[0])
  {
    if s == [] || s[0].date <= e.date then [e] + s
    else
      var t := Insert(e, s[1..]);
      assert t[0].date <= s[0].date;
      [s[0]] + t
  }

  /** Inserting adds `e` and loses nothing. */
  lemma {:induction false} InsertPermutes(e: Entry, s: seq<Entry>)
    requires NewestFirst(s)
    ensures multiset(Insert(e, s)) == multiset(s) + multiset{e}
  {
    if s != [] && s[0].date > e.date {
      InsertPermutes(e, s[1..]);
      assert s == [s[0]] + s[1..];
    }
  }

  /** The sorted copy: newest first and a permutation of the input. */
  function SortNewestFirst(s: seq<Entry>): (r: seq<Entry>)
    ensures NewestFirst(r)
    ensures multiset(r) == multiset(s)
    ensures |r| == |s|
  {
    if s == [] then []
    else
      assert s == [s[0]] + s[1..];
      InsertPermutes(s[0], SortNewestFirst(s[1..]));
      Insert(s[0], SortNewestFirst(s[1..]))
  }

  /** The number of entries shown while "show all" is off. */
  function Visible(count: nat, limit: nat): nat {
    if count < limit then count else limit
  }

  /** `showAll ? sorted : sorted.slice(0, limit)`. */
  function Shown(sorted: seq<Entry>, limit: nat, showAll: bool): (r: seq<Entry>)
    ensures showAll ==> r == sorted
    ensures !showAll ==> |r| == Visible(|sorted|, limit) && r == sorted[..|r|]
  {
    if showAll then sorted else sorted[..Visible(|sorted|, limit)]
  }

  /** The "Ver todas" / "Ver todos" toggle appears only when something is hidden. */
  predicate HasToggle(sorted: seq<Entry>, limit: nat) {
    |sorted| > limit
  }

  /** The list the detail view shows for `entries` (absent lists are empty). */
  function DetailList(entries: seq<Entry>, limit: nat, showAll: bool): seq<Entry> {
    Shown(SortNewestFirst(entries), limit, showAll)
  }

  /**
   * What the detail view promises: every shown entry is at least as recent
   * as every hidden one, the toggle exists exactly when entries are hidden,
   * and without it every entry is shown.
   */
  lemma ShownAreNewest(entries: seq<Entry>, limit: nat)
    ensures var sorted := SortNewestFirst(entries);
            var shown := DetailList(entries, limit, false);
            && |shown| == Visible(|entries|, limit)
            && multiset(shown) <= multiset(entries)
            && (forall i, j :: 0 <= i < |shown| <= j < |sorted| ==> shown[i].date >= sorted[j].date)
            && (HasToggle(sorted, limit) <==> |shown| < |entries|)
            && (!HasToggle(sorted, limit) ==> multiset(shown) == multiset(entries))
  {
    var sorted := SortNewestFirst(entries);
    var shown := DetailList(entries, limit, false);
    assert sorted == shown + sorted[|shown|..];
    assert multiset(sorted) == multiset(shown) + multiset(sorted[|shown|..]);
  }
}
