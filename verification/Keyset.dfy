/**
 Keyset paging over a set of sort keys: one page, the walk over a catalogue that does
 not change, and the walk over a catalogue that changes between any two pages.
 */
module Keyset {
  import opened Options
  import opened KeyOrder

  datatype Page = Page(rows: seq<Key>, next: Option<Key>)

  /** The rows the cursor comparison lets through. */
  function After(s: set<Key>, cursor: Option<Key>): set<Key> {
    match cursor
    case None => s
    case Some(c) => set k | k in s && Less(c, k)
  }

  lemma AfterAfter(s: set<Key>, cursor: Option<Key>, c: Key)
    requires cursor.Some? ==> Less(cursor.value, c)
    ensures After(s, Some(c)) == set k | k in After(s, cursor) && Less(c, k)
  {
    forall k | k in s && Less(c, k) ensures k in After(s, cursor) {
      if cursor.Some? { LessTransitive(cursor.value, c, k); }
    }
  }

  /** ORDER BY ... LIMIT limit + 1; the extra row only says that another page exists. */
  function PageOf(s: set<Key>, cursor: Option<Key>, limit: nat): Page
    requires limit > 0
  {
    var fetched := Take(Sorted(After(s, cursor)), limit + 1);
    if |fetched| > limit
    then Page(fetched[..limit], Some(fetched[limit - 1]))
    else Page(fetched, None)
  }

  lemma PageShape(s: set<Key>, cursor: Option<Key>, limit: nat)
    requires limit > 0
    ensures var all := Sorted(After(s, cursor));
            PageOf(s, cursor, limit) ==
            if |all| <= limit then Page(all, None) else Page(all[..limit], Some(all[limit - 1]))
  {
    var all := Sorted(After(s, cursor));
    if |all| > limit + 1 {
      assert all[..limit + 1][..limit] == all[..limit];
    }
  }

  /** A page is a prefix of what remains, and its cursor separates it from the rest. */
  lemma PageSplits(s: set<Key>, cursor: Option<Key>, limit: nat)
    requires limit > 0
    ensures var p := PageOf(s, cursor, limit);
            var all := Sorted(After(s, cursor));
            if p.next.None? then p.rows == all && |all| <= limit
            else
              && |p.rows| == limit < |all|
              && p.next.value == p.rows[limit - 1]
              && p.next.value in After(s, cursor)
              && all == p.rows + Sorted(After(s, p.next))
  {
    PageShape(s, cursor, limit);
    var remaining := After(s, cursor);
    var all := Sorted(remaining);
    if |all| > limit {
      var last := all[limit - 1];
      SortedAt(remaining, limit - 1);
      AfterAfter(s, cursor, last);
      SortedSuffix(remaining, limit - 1);
      assert all == all[..limit] + all[limit..];
    }
  }

  /** Rows of a page are rows that remained, in order. */
  lemma PageRowRemains(s: set<Key>, cursor: Option<Key>, limit: nat, i: nat)
    requires limit > 0 && i < |PageOf(s, cursor, limit).rows|
    ensures PageOf(s, cursor, limit).rows[i] in After(s, cursor)
  {
    PageShape(s, cursor, limit);
    SortedAt(After(s, cursor), i);
  }

  lemma PageIncreases(s: set<Key>, cursor: Option<Key>, limit: nat)
    requires limit > 0
    ensures Increasing(PageOf(s, cursor, limit).rows)
  {
    PageShape(s, cursor, limit);
    SortedFacts(After(s, cursor));
    var all := Sorted(After(s, cursor));
    if |all| > limit { IncreasingPrefix(all, limit); }
  }

  lemma PageIsAPrefix(s: set<Key>, cursor: Option<Key>, limit: nat)
    requires limit > 0
    ensures var p := PageOf(s, cursor, limit);
            && Increasing(p.rows)
            && (forall k :: k in p.rows ==> k in After(s, cursor))
            && (p.next.Some? ==> p.rows != [] && p.next.value == p.rows[|p.rows| - 1])
            && (p.next.Some? ==> forall k :: k in After(s, p.next) ==> Less(p.next.value, k))
  {
    PageIncreases(s, cursor, limit);
    PageShape(s, cursor, limit);
    var rows := PageOf(s, cursor, limit).rows;
    forall k | k in rows ensures k in After(s, cursor) {
      var i: nat :| i < |rows| && rows[i] == k;
      PageRowRemains(s, cursor, limit, i);
    }
  }

  /** What remains is returned by this page or remains after it. */
  lemma PageKeeps(s: set<Key>, cursor: Option<Key>, limit: nat, k: Key)
    requires limit > 0 && k in After(s, cursor)
    ensures var p := PageOf(s, cursor, limit);
            k in p.rows || (p.next.Some? && Less(p.next.value, k))
  {
    PageSplits(s, cursor, limit);
    var p := PageOf(s, cursor, limit);
    SortedFacts(After(s, cursor));
    assert k in Sorted(After(s, cursor));
    if p.next.Some? && k !in p.rows {
      SortedFacts(After(s, p.next));
      assert k in Sorted(After(s, p.next));
    }
  }

  function Flatten(pages: seq<seq<Key>>): seq<Key> {
    if pages == [] then [] else pages[0] + Flatten(pages[1..])
  }

  lemma FlattenCons(page: seq<Key>, pages: seq<seq<Key>>)
    ensures Flatten([page] + pages) == page + Flatten(pages)
  {
    assert ([page] + pages)[1..] == pages;
  }

  // ---- A catalogue that stays as it is ---------------------------------------------------

  lemma AfterShrinks(s: set<Key>, cursor: Option<Key>, limit: nat)
    requires limit > 0 && PageOf(s, cursor, limit).next.Some?
    ensures |After(s, PageOf(s, cursor, limit).next)| < |After(s, cursor)|
  {
    PageSplits(s, cursor, limit);
    var p := PageOf(s, cursor, limit);
    assert |Sorted(After(s, cursor))| == |p.rows| + |Sorted(After(s, p.next))|;
  }

  /** Follow next_cursor until it is absent. */
  function FullWalk(s: set<Key>, cursor: Option<Key>, limit: nat): (pages: seq<seq<Key>>)
    requires limit > 0
    decreases |After(s, cursor)|
  {
    var p := PageOf(s, cursor, limit);
    if p.next.None? then [p.rows]
    else
      AfterShrinks(s, cursor, limit);
      [p.rows] + FullWalk(s, p.next, limit)
  }

  /** max(1, ceil(n / limit)), the number of pages a listing of n rows needs. */
  function PagesFor(n: nat, limit: nat): nat
    requires limit > 0
  {
    if n == 0 then 1 else (n + limit - 1) / limit
  }

  lemma CeilingStep(n: nat, limit: nat)
    requires limit > 0
    ensures n <= limit ==> PagesFor(n, limit) == 1
    ensures n > limit ==> PagesFor(n, limit) == 1 + PagesFor(n - limit, limit)
  {
    if n > limit {
      DivPlusOne(n - 1, limit);
      assert n - limit + limit - 1 == n - 1;
      assert n + limit - 1 == (n - 1) + limit;
    } else if n > 0 {
      DivPlusOne(n - 1, limit);
      assert (n - 1) / limit == 0;
    }
  }

  lemma DivPlusOne(a: nat, d: nat)
    requires d > 0
    ensures (a + d) / d == a / d + 1
  {
    var q, r := a / d, a % d;
    assert a + d == (q + 1) * d + r;
    QuotientUnique(a + d, d, q + 1, r);
  }

  lemma QuotientUnique(a: nat, d: nat, q: nat, r: nat)
    requires d > 0 && r < d && a == q * d + r
    ensures a / d == q
  {
    var q', r' := a / d, a % d;
    assert q' * d + r' == q * d + r;
    assert (q' - q) * d == r - r';
    if q' > q {
      MultipleIsAtLeast(q' - q, d);
    } else if q' < q {
      MultipleIsAtLeast(q - q', d);
    }
  }

  lemma MultipleIsAtLeast(e: nat, d: nat)
    requires e > 0
    ensures e * d >= d
  {
  }

  lemma FullWalkUnfolds(s: set<Key>, cursor: Option<Key>, limit: nat)
    requires limit > 0
    ensures var p := PageOf(s, cursor, limit);
            var pages := FullWalk(s, cursor, limit);
            if p.next.None?
            then pages == [p.rows] && Flatten(pages) == p.rows
            else
              && |After(s, p.next)| < |After(s, cursor)|
              && pages == [p.rows] + FullWalk(s, p.next, limit)
              && Flatten(pages) == p.rows + Flatten(FullWalk(s, p.next, limit))
  {
    var p := PageOf(s, cursor, limit);
    if p.next.None? {
      FlattenCons(p.rows, []);
    } else {
      AfterShrinks(s, cursor, limit);
      FlattenCons(p.rows, FullWalk(s, p.next, limit));
    }
  }

  /** On a fixed catalogue the walk returns exactly the sorted listing. */
  lemma {:induction false} FullWalkIsTheSortedListing(s: set<Key>, cursor: Option<Key>, limit: nat)
    requires limit > 0
    ensures Flatten(FullWalk(s, cursor, limit)) == Sorted(After(s, cursor))
    decreases |After(s, cursor)|
  {
    FullWalkUnfolds(s, cursor, limit);
    PageSplits(s, cursor, limit);
    var p := PageOf(s, cursor, limit);
    if p.next.Some? {
      FullWalkIsTheSortedListing(s, p.next, limit);
    }
  }

  /**
   It needs exactly max(1, ceil(n / limit)) pages: all but the last are full, and the
   last is empty only when there is nothing to list.
   */
  lemma {:induction false} FullWalkPageCount(s: set<Key>, cursor: Option<Key>, limit: nat)
    requires limit > 0
    ensures var pages := FullWalk(s, cursor, limit);
            && |pages| == PagesFor(|After(s, cursor)|, limit)
            && (forall i :: 0 <= i < |pages| - 1 ==> |pages[i]| == limit)
            && (After(s, cursor) != {} ==> pages[|pages| - 1] != [])
    decreases |After(s, cursor)|
  {
    FullWalkUnfolds(s, cursor, limit);
    PageSplits(s, cursor, limit);
    var n := |Sorted(After(s, cursor))|;
    CeilingStep(n, limit);
    var p := PageOf(s, cursor, limit);
    if p.next.Some? {
      assert n == limit + |Sorted(After(s, p.next))|;
      FullWalkPageCount(s, p.next, limit);
    }
  }

  // ---- A catalogue that changes between pages ---------------------------------------------

  datatype Walk = Walk(pages: seq<seq<Key>>, finished: bool)

  /** Page j is read from snaps[j]; the walk stops at the first page without a cursor. */
  function WalkOver(snaps: seq<set<Key>>, cursor: Option<Key>, limit: nat): Walk
    requires limit > 0
  {
    if snaps == [] then Walk([], false)
    else
      var p := PageOf(snaps[0], cursor, limit);
      if p.next.None? then Walk([p.rows], true)
      else
        var rest := WalkOver(snaps[1..], p.next, limit);
        Walk([p.rows] + rest.pages, rest.finished)
  }

  /**
   Whatever happens to the catalogue between pages, the walk only moves forward: its rows
   are strictly increasing (so no key comes twice) and all lie beyond the cursor.
   */
  lemma {:induction false} WalkMovesForward(snaps: seq<set<Key>>, cursor: Option<Key>, limit: nat)
    requires limit > 0
    ensures var rows := Flatten(WalkOver(snaps, cursor, limit).pages);
            && Increasing(rows)
            && (cursor.Some? ==> forall k :: k in rows ==> Less(cursor.value, k))
  {
    if snaps != [] {
      WalkUnfolds(snaps, cursor, limit);
      var p := PageOf(snaps[0], cursor, limit);
      PageIsAPrefix(snaps[0], cursor, limit);
      if p.next.Some? {
        var tail := Flatten(WalkOver(snaps[1..], p.next, limit).pages);
        WalkMovesForward(snaps[1..], p.next, limit);
        IncreasingConcat(p.rows, tail);
        if cursor.Some? {
          assert p.next.value in p.rows;
          forall k | k in tail ensures Less(cursor.value, k) {
            LessTransitive(cursor.value, p.next.value, k);
          }
        }
      }
    }
  }

  lemma WalkUnfolds(snaps: seq<set<Key>>, cursor: Option<Key>, limit: nat)
    requires limit > 0 && snaps != []
    ensures var p := PageOf(snaps[0], cursor, limit);
            var w := WalkOver(snaps, cursor, limit);
            if p.next.None? then w == Walk([p.rows], true) && Flatten(w.pages) == p.rows
            else
              var rest := WalkOver(snaps[1..], p.next, limit);
              && w == Walk([p.rows] + rest.pages, rest.finished)
              && Flatten(w.pages) == p.rows + Flatten(rest.pages)
  {
    var p := PageOf(snaps[0], cursor, limit);
    if p.next.None? {
      FlattenCons(p.rows, []);
    } else {
      FlattenCons(p.rows, WalkOver(snaps[1..], p.next, limit).pages);
    }
  }

  /** A key that is present in every snapshot of a finished walk is returned by it. */
  lemma {:induction false} WalkMissesNothing(snaps: seq<set<Key>>, cursor: Option<Key>, limit: nat, k: Key)
    requires limit > 0
    requires WalkOver(snaps, cursor, limit).finished
    requires forall j :: 0 <= j < |snaps| ==> k in snaps[j]
    requires cursor.Some? ==> Less(cursor.value, k)
    ensures k in Flatten(WalkOver(snaps, cursor, limit).pages)
  {
    WalkUnfolds(snaps, cursor, limit);
    PageKeeps(snaps[0], cursor, limit, k);
    var p := PageOf(snaps[0], cursor, limit);
    if k !in p.rows {
      WalkMissesNothing(snaps[1..], p.next, limit, k);
    }
  }

  /** A row of a walk is on its first page or in the rest of the walk. */
  lemma WalkRowOrigin(snaps: seq<set<Key>>, cursor: Option<Key>, limit: nat, k: Key)
    requires limit > 0 && snaps != [] && k in Flatten(WalkOver(snaps, cursor, limit).pages)
    ensures var p := PageOf(snaps[0], cursor, limit);
            k in p.rows || (p.next.Some? && k in Flatten(WalkOver(snaps[1..], p.next, limit).pages))
  {
    WalkUnfolds(snaps, cursor, limit);
  }

  /** Every row a walk returns was present in the snapshot its page was read from. */
  lemma {:induction false} WalkReturnsOnlyPresentKeys(snaps: seq<set<Key>>, cursor: Option<Key>, limit: nat, k: Key)
    returns (j: nat)
    requires limit > 0
    requires k in Flatten(WalkOver(snaps, cursor, limit).pages)
    ensures j < |snaps| && k in snaps[j]
  {
    if snaps == [] {
      assert false;
    } else {
      WalkRowOrigin(snaps, cursor, limit, k);
      var p := PageOf(snaps[0], cursor, limit);
      if i: nat :| i < |p.rows| && p.rows[i] == k {
        PageRowRemains(snaps[0], cursor, limit, i);
        j := 0;
      } else {
        var i := WalkReturnsOnlyPresentKeys(snaps[1..], p.next, limit, k);
        j := i + 1;
      }
    }
  }
}
