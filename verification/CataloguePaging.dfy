/**
 What a client sees that follows next_cursor from page to page: on a catalogue that stands
 still, and on one that other people create, edit and delete cards in between the pages.
 */
module CataloguePaging {
  import opened Options
  import opened KeyOrder
  import opened Keyset
  import opened Cursor
  import opened Catalogue

  datatype Browse = Browse(rows: seq<int>, pages: nat, finished: bool, failed: bool)

  /** Page j is answered from cats[j]; each request carries the cursor string of the page before. */
  function BrowseOver(env: Env, cats: seq<Tables>, q: Query, limit: int, cursor: Option<string>): Browse {
    if cats == [] then Browse([], 0, false, false)
    else match ListPage(env, cats[0], q, limit, cursor)
      case Err(_) => Browse([], 0, false, true)
      case Ok(page) =>
        if page.next.None? then Browse(page.rows, 1, true, false)
        else
          var rest := BrowseOver(env, cats[1..], q, limit, page.next);
          Browse(page.rows + rest.rows, 1 + rest.pages, rest.finished, rest.failed)
  }

  /** The key sets of a sequence of catalogue states. */
  function Snaps(env: Env, cats: seq<Tables>, q: Query): (s: seq<set<Key>>)
    ensures |s| == |cats| && forall i :: 0 <= i < |cats| ==> s[i] == MatchingKeys(env, cats[i], q)
  {
    seq(|cats|, i requires 0 <= i < |cats| => MatchingKeys(env, cats[i], q))
  }

  /** The string the server hands out brings it back to the key it was made from. */
  lemma CursorFindsItsPlace(env: Env, c: Tables, q: Query, k: Key)
    requires env.Sound() && k in MatchingKeys(env, c, q)
    ensures CursorPlace(env, q.sort, Some(CursorAt(env, c, q.sort, k))) == Ok(Rest(Some(k)))
  {
    MatchingKeyId(env, c, q, k);
    var id: nat := IdOf(q.sort, k);
    var value := SortValue(q.sort, c.cards[id]);
    CursorRoundTrip(env.formats, q.sort, value, env.idText(id), q.sort);
    CursorsAreNotEmpty(env.formats, q.sort, value, env.idText(id));
  }

  lemma PageRowsMatch(env: Env, c: Tables, q: Query, after: Option<Key>, limit: nat, k: Key)
    requires limit > 0 && k in PageOf(MatchingKeys(env, c, q), after, limit).rows
    ensures k in MatchingKeys(env, c, q)
  {
    PageIsAPrefix(MatchingKeys(env, c, q), after, limit);
  }

  lemma IdsOfConcat(sort: Sort, a: seq<Key>, b: seq<Key>)
    ensures IdsOf(sort, a + b) == IdsOf(sort, a) + IdsOf(sort, b)
  {
  }

  lemma BrowseUnfolds(env: Env, cats: seq<Tables>, q: Query, limit: int, cursor: Option<string>, after: Option<Key>)
    requires env.Sound() && cats != [] && Askable(q) && CursorPlace(env, q.sort, cursor) == Ok(Rest(after))
    ensures var p := PageOf(MatchingKeys(env, cats[0], q), after, ClampLimit(limit));
            var b := BrowseOver(env, cats, q, limit, cursor);
            if p.next.None? then b == Browse(IdsOf(q.sort, p.rows), 1, true, false)
            else
              var again := Some(CursorAt(env, cats[0], q.sort, p.next.value));
              var rest := BrowseOver(env, cats[1..], q, limit, again);
              && CursorPlace(env, q.sort, again) == Ok(Rest(p.next))
              && b == Browse(IdsOf(q.sort, p.rows) + rest.rows, 1 + rest.pages, rest.finished, rest.failed)
  {
    var size := ClampLimit(limit);
    var p := PageOf(MatchingKeys(env, cats[0], q), after, size);
    if p.next.Some? {
      PageIsAPrefix(MatchingKeys(env, cats[0], q), after, size);
      PageRowsMatch(env, cats[0], q, after, size, p.next.value);
      CursorFindsItsPlace(env, cats[0], q, p.next.value);
    }
  }

  /** A browse says what the walk says. */
  ghost predicate SameAsWalk(env: Env, cats: seq<Tables>, q: Query, limit: int, cursor: Option<string>, after: Option<Key>) {
    var w := WalkOver(Snaps(env, cats, q), after, ClampLimit(limit));
    BrowseOver(env, cats, q, limit, cursor) == Browse(IdsOf(q.sort, Flatten(w.pages)), |w.pages|, w.finished, false)
  }

  lemma BrowseStep(env: Env, cats: seq<Tables>, q: Query, limit: int, cursor: Option<string>, after: Option<Key>)
    requires env.Sound() && cats != [] && Askable(q) && CursorPlace(env, q.sort, cursor) == Ok(Rest(after))
    requires var next := PageOf(MatchingKeys(env, cats[0], q), after, ClampLimit(limit)).next;
             next.Some? ==> SameAsWalk(env, cats[1..], q, limit, Some(CursorAt(env, cats[0], q.sort, next.value)), next)
    ensures SameAsWalk(env, cats, q, limit, cursor, after)
  {
    var p := PageOf(MatchingKeys(env, cats[0], q), after, ClampLimit(limit));
    BrowseUnfolds(env, cats, q, limit, cursor, after);
    WalkUnfolds(Snaps(env, cats, q), after, ClampLimit(limit));
    assert Snaps(env, cats, q)[1..] == Snaps(env, cats[1..], q);
    if p.next.Some? {
      var rest := WalkOver(Snaps(env, cats[1..], q), p.next, ClampLimit(limit));
      IdsOfConcat(q.sort, p.rows, Flatten(rest.pages));
    }
  }

  /** Paging through cursor strings is paging through keys. */
  lemma {:induction false} BrowseIsWalk(env: Env, cats: seq<Tables>, q: Query, limit: int, cursor: Option<string>, after: Option<Key>)
    requires env.Sound() && Askable(q) && CursorPlace(env, q.sort, cursor) == Ok(Rest(after))
    ensures SameAsWalk(env, cats, q, limit, cursor, after)
    decreases |cats|
  {
    if cats != [] {
      var next := PageOf(MatchingKeys(env, cats[0], q), after, ClampLimit(limit)).next;
      BrowseUnfolds(env, cats, q, limit, cursor, after);
      if next.Some? {
        BrowseIsWalk(env, cats[1..], q, limit, Some(CursorAt(env, cats[0], q.sort, next.value)), next);
      }
      BrowseStep(env, cats, q, limit, cursor, after);
    }
  }

  /** No page at all: a request whose own text the database refuses. */
  const FailedBrowse := Browse([], 0, false, true)

  lemma UnaskableFails(env: Env, cats: seq<Tables>, q: Query, limit: int)
    requires cats != [] && !Askable(q)
    ensures BrowseOver(env, cats, q, limit, None) == FailedBrowse
  {
  }

  // ---- a catalogue that stands still ------------------------------------------------------

  /** Filter everything, sort everything. */
  function FullListing(env: Env, c: Tables, q: Query): seq<int> {
    IdsOf(q.sort, Sorted(MatchingKeys(env, c, q)))
  }

  function Repeat<T>(x: T, n: nat): (s: seq<T>)
    ensures |s| == n && forall i :: 0 <= i < n ==> s[i] == x
  {
    seq(n, _ => x)
  }

  /** A walk over a catalogue that stands still for n pages. */
  ghost predicate StandingWalk(s: set<Key>, n: nat, cursor: Option<Key>, limit: nat)
    requires limit > 0
  {
    WalkOver(Repeat(s, n), cursor, limit) == Walk(FullWalk(s, cursor, limit), true)
  }

  lemma StandingStep(s: set<Key>, n: nat, cursor: Option<Key>, next: Option<Key>, limit: nat)
    requires limit > 0 && n > 0 && next == PageOf(s, cursor, limit).next
    requires next.Some? ==> StandingWalk(s, n - 1, next, limit)
    ensures StandingWalk(s, n, cursor, limit)
  {
    assert Repeat(s, n)[0] == s && Repeat(s, n)[1..] == Repeat(s, n - 1);
    FullWalkUnfolds(s, cursor, limit);
    WalkUnfolds(Repeat(s, n), cursor, limit);
  }

  /** After one page of a walk that fits into n pages, the rest fits into n - 1. */
  lemma RestFits(s: set<Key>, n: nat, cursor: Option<Key>, next: Option<Key>, limit: nat)
    requires limit > 0 && n >= |FullWalk(s, cursor, limit)| && next == PageOf(s, cursor, limit).next
    ensures n > 0 && (next.Some? ==> n - 1 >= |FullWalk(s, next, limit)|)
  {
    FullWalkUnfolds(s, cursor, limit);
  }

  lemma {:induction false} WalkOverConstant(s: set<Key>, n: nat, cursor: Option<Key>, limit: nat)
    requires limit > 0 && n >= |FullWalk(s, cursor, limit)|
    ensures StandingWalk(s, n, cursor, limit)
    decreases n
  {
    var next := PageOf(s, cursor, limit).next;
    RestFits(s, n, cursor, next, limit);
    if next.Some? { WalkOverConstant(s, n - 1, next, limit); }
    StandingStep(s, n, cursor, next, limit);
  }

  /**
   Following next_cursor until it is absent gives exactly the filtered, visible cards in
   order, in max(1, ceil(n / limit)) pages, whatever the limit, the filter and the sort.
   */
  lemma PagingAFixedCatalogue(env: Env, c: Tables, q: Query, limit: int, n: nat)
    requires env.Sound()
    requires n >= PagesFor(|MatchingIds(env, c, q)|, ClampLimit(limit))
    ensures BrowseOver(env, Repeat(c, n), q, limit, None)
            == if Askable(q)
               then Browse(FullListing(env, c, q), PagesFor(|MatchingIds(env, c, q)|, ClampLimit(limit)), true, false)
               else FailedBrowse
  {
    if Askable(q) {
      StandingBrowse(env, c, q, limit, n);
    } else {
      UnaskableFails(env, Repeat(c, n), q, limit);
    }
  }

  lemma StandingBrowse(env: Env, c: Tables, q: Query, limit: int, n: nat)
    requires env.Sound() && Askable(q)
    requires n >= PagesFor(|MatchingIds(env, c, q)|, ClampLimit(limit))
    ensures BrowseOver(env, Repeat(c, n), q, limit, None)
            == Browse(FullListing(env, c, q), PagesFor(|MatchingIds(env, c, q)|, ClampLimit(limit)), true, false)
  {
    var s := MatchingKeys(env, c, q);
    var size := ClampLimit(limit);
    KeysAreAsManyAsIds(c.cards, q.sort, MatchingIds(env, c, q));
    FullWalkPageCount(s, None, size);
    FullWalkIsTheSortedListing(s, None, size);
    BrowseIsWalk(env, Repeat(c, n), q, limit, None, None);
    assert Snaps(env, Repeat(c, n), q) == Repeat(s, n);
    WalkOverConstant(s, n, None, size);
  }

  /** The listing holds each matching card once and nothing else. */
  lemma FullListingIsExact(env: Env, c: Tables, q: Query)
    ensures |FullListing(env, c, q)| == |MatchingIds(env, c, q)|
    ensures forall id: nat :: id in FullListing(env, c, q) <==> Matches(env, c, q, id)
  {
    var keys := Sorted(MatchingKeys(env, c, q));
    SortedFacts(MatchingKeys(env, c, q));
    KeysAreAsManyAsIds(c.cards, q.sort, MatchingIds(env, c, q));
    forall id: nat ensures id in FullListing(env, c, q) <==> Matches(env, c, q, id) {
      if id in FullListing(env, c, q) {
        var i :| 0 <= i < |keys| && IdOf(q.sort, keys[i]) == id;
        assert keys[i] in keys;
        MatchingKeyId(env, c, q, keys[i]);
      }
      if Matches(env, c, q, id) {
        var k := KeyOf(q.sort, c.cards[id], id);
        IdOfKey(q.sort, c.cards[id], id);
        MatchingKeyId(env, c, q, k);
        var i :| 0 <= i < |keys| && keys[i] == k;
        assert FullListing(env, c, q)[i] == id;
      }
    }
  }

  // ---- a catalogue that changes between the pages -----------------------------------------

  /** cats[i + 1] is what some sequence of committed transactions made of cats[i]. */
  ghost predicate History(cats: seq<Tables>, changes: seq<seq<Change>>) {
    && cats != [] && Valid(cats[0])
    && |changes| == |cats| - 1
    && forall i :: 0 <= i < |changes| ==> cats[i + 1] == Run(cats[i], changes[i])
  }

  lemma {:induction false} HistoryContinues(cats: seq<Tables>, changes: seq<seq<Change>>, i: nat, j: nat)
    requires History(cats, changes) && i <= j < |cats|
    ensures Continues(cats[i], cats[j])
    decreases j
  {
    if j == 0 {
    } else if i == j {
      HistoryContinues(cats, changes, i - 1, j - 1);
      RunContinues(cats[j - 1], changes[j - 1]);
    } else {
      HistoryContinues(cats, changes, i, j - 1);
      RunContinues(cats[j - 1], changes[j - 1]);
      ContinuesIsTransitive(cats[i], cats[j - 1], cats[j]);
    }
  }

  /** The card keeps its place in the order whenever it is in the catalogue. */
  ghost predicate Steady(cats: seq<Tables>, sort: Sort, id: nat) {
    forall i, j :: 0 <= i < |cats| && 0 <= j < |cats| && id in cats[i].cards && id in cats[j].cards
      ==> KeyOf(sort, cats[i].cards[id], id) == KeyOf(sort, cats[j].cards[id], id)
  }

  ghost predicate AtMostOnce(rows: seq<int>, id: int) {
    forall i, j :: 0 <= i < j < |rows| ==> !(rows[i] == id && rows[j] == id)
  }

  /** created_at is not among the columns an edit can set, so sorting by it keeps every card in place. */
  lemma RecentIsSteady(cats: seq<Tables>, changes: seq<seq<Change>>, id: nat)
    requires History(cats, changes)
    ensures Steady(cats, Recent, id)
  {
    forall i, j | 0 <= i < |cats| && 0 <= j < |cats| && id in cats[i].cards && id in cats[j].cards
      ensures KeyOf(Recent, cats[i].cards[id], id) == KeyOf(Recent, cats[j].cards[id], id)
    {
      if i <= j {
        HistoryContinues(cats, changes, i, j);
      } else {
        HistoryContinues(cats, changes, j, i);
      }
    }
  }

  /** A card that keeps its place is never returned twice, and never missed if it matches throughout. */
  lemma SteadyCards(env: Env, cats: seq<Tables>, q: Query, limit: int, id: nat)
    requires env.Sound() && cats != [] && Steady(cats, q.sort, id)
    ensures var b := BrowseOver(env, cats, q, limit, None);
            && (b.failed <==> !Askable(q))
            && AtMostOnce(b.rows, id)
            && (b.finished && (forall j :: 0 <= j < |cats| ==> Matches(env, cats[j], q, id)) ==> id in b.rows)
  {
    if !Askable(q) {
      UnaskableFails(env, cats, q, limit);
      return;
    }
    var size := ClampLimit(limit);
    var w := WalkOver(Snaps(env, cats, q), None, size);
    var keys := Flatten(w.pages);
    BrowseIsWalk(env, cats, q, limit, None, None);
    WalkMovesForward(Snaps(env, cats, q), None, size);
    var rows := IdsOf(q.sort, keys);
    forall i, j | 0 <= i < j < |rows| ensures !(rows[i] == id && rows[j] == id) {
      if rows[i] == id && rows[j] == id {
        var a := WalkReturnsOnlyPresentKeys(Snaps(env, cats, q), None, size, keys[i]);
        var b := WalkReturnsOnlyPresentKeys(Snaps(env, cats, q), None, size, keys[j]);
        MatchingKeyId(env, cats[a], q, keys[i]);
        MatchingKeyId(env, cats[b], q, keys[j]);
        LessIrreflexive(keys[i]);
        assert false;
      }
    }
    if w.finished && (forall j :: 0 <= j < |cats| ==> Matches(env, cats[j], q, id)) {
      var k := KeyOf(q.sort, cats[0].cards[id], id);
      IdOfKey(q.sort, cats[0].cards[id], id);
      forall j | 0 <= j < |cats| ensures k in Snaps(env, cats, q)[j] {
        assert Matches(env, cats[0], q, id) && Matches(env, cats[j], q, id);
        MatchingKeyId(env, cats[j], q, k);
      }
      WalkMissesNothing(Snaps(env, cats, q), None, size, k);
      var i :| 0 <= i < |keys| && keys[i] == k;
      assert rows[i] == id;
    }
  }

  /**
   sort=recent, with arbitrary creates, edits, archivings and deletes between the pages:
   no card comes twice, and one that matches throughout comes exactly once.
   */
  lemma PagingByRecencyUnderChange(env: Env, cats: seq<Tables>, changes: seq<seq<Change>>, q: Query, limit: int)
    requires env.Sound() && q.sort.Recent? && History(cats, changes)
    ensures var b := BrowseOver(env, cats, q, limit, None);
            && (b.failed <==> !Askable(q))
            && (forall id: nat :: AtMostOnce(b.rows, id))
            && (b.finished ==> forall id: nat ::
                  (forall j :: 0 <= j < |cats| ==> Matches(env, cats[j], q, id)) ==> id in b.rows)
  {
    forall id: nat
      ensures var b := BrowseOver(env, cats, q, limit, None);
              && (b.failed <==> !Askable(q))
              && AtMostOnce(b.rows, id)
              && (b.finished && (forall j :: 0 <= j < |cats| ==> Matches(env, cats[j], q, id)) ==> id in b.rows)
    {
      RecentIsSteady(cats, changes, id);
      SteadyCards(env, cats, q, limit, id);
    }
    SteadyForSome(env, cats, changes, q, limit);
  }

  lemma SteadyForSome(env: Env, cats: seq<Tables>, changes: seq<seq<Change>>, q: Query, limit: int)
    requires env.Sound() && History(cats, changes)
    ensures BrowseOver(env, cats, q, limit, None).failed <==> !Askable(q)
  {
    if Askable(q) {
      BrowseIsWalk(env, cats, q, limit, None, None);
    } else {
      UnaskableFails(env, cats, q, limit);
    }
  }

  /** sort=name: the same for every card that is not renamed while the client pages. */
  lemma PagingByNameUnderChange(env: Env, cats: seq<Tables>, q: Query, limit: int, id: nat, name: string)
    requires env.Sound() && q.sort.ByName? && cats != []
    requires forall j :: 0 <= j < |cats| && id in cats[j].cards ==> cats[j].cards[id].name == name
    ensures var b := BrowseOver(env, cats, q, limit, None);
            && (b.failed <==> !Askable(q))
            && AtMostOnce(b.rows, id)
            && (b.finished && (forall j :: 0 <= j < |cats| ==> Matches(env, cats[j], q, id)) ==> id in b.rows)
  {
    SteadyCards(env, cats, q, limit, id);
  }

  // ---- views that must agree --------------------------------------------------------------

  function HealthOf(c: Tables, id: nat): Status {
    if id in c.health then c.health[id] else Unknown
  }

  function ListedIds(c: Tables, v: Viewer): set<nat> {
    set id | id in c.cards && !c.cards[id].archived && Visible(c, v, id)
  }

  function WithStatus(c: Tables, ids: set<nat>, s: Status): set<nat> {
    set id | id in ids && HealthOf(c, id) == s
  }

  /** SELECT health_status, count(*) ... GROUP BY 1 */
  function CountWithStatus(c: Tables, v: Viewer, s: Status): nat {
    |WithStatus(c, ListedIds(c, v), s)|
  }

  function CatalogTotal(c: Tables, v: Viewer): nat {
    CountWithStatus(c, v, Unknown) + CountWithStatus(c, v, Healthy) + CountWithStatus(c, v, Unhealthy)
  }

  /** SELECT tag, count(*) FROM connector_tags JOIN connectors ... GROUP BY tag */
  function TagCount(c: Tables, v: Viewer, tag: string): nat {
    |set p | p in c.tags && p.1 == tag && p.0 in c.cards && !c.cards[p.0].archived && Visible(c, v, p.0)|
  }

  lemma StatusesPartition(c: Tables, ids: set<nat>)
    ensures |ids| == |WithStatus(c, ids, Unknown)| + |WithStatus(c, ids, Healthy)| + |WithStatus(c, ids, Unhealthy)|
  {
    var u, h, x := WithStatus(c, ids, Unknown), WithStatus(c, ids, Healthy), WithStatus(c, ids, Unhealthy);
    assert ids == u + h + x;
    assert |u + h| == |u| + |h| && |u + h + x| == |u + h| + |x|;
  }

  lemma UnfilteredListing(env: Env, c: Tables, v: Viewer, sort: Sort)
    ensures MatchingIds(env, c, Query(v, "", [], sort)) == ListedIds(c, v)
  {
  }

  /** The stats total is the length of the unfiltered listing. */
  lemma StatsAgreeWithListing(env: Env, c: Tables, v: Viewer, sort: Sort)
    ensures CatalogTotal(c, v) == |FullListing(env, c, Query(v, "", [], sort))|
  {
    FullListingIsExact(env, c, Query(v, "", [], sort));
    UnfilteredListing(env, c, v, sort);
    StatusesPartition(c, ListedIds(c, v));
  }

  lemma ProjectionCount(pairs: set<(nat, string)>, tag: string, ids: set<nat>)
    requires forall p :: p in pairs ==> p.1 == tag
    requires forall id: nat :: id in ids <==> (id, tag) in pairs
    ensures |pairs| == |ids|
  {
    forall p | p in pairs ensures p.0 in ids {
      assert p == (p.0, tag);
    }
    if ids == {} {
      assert pairs == {};
    } else {
      var id :| id in ids;
      ProjectionCount(pairs - {(id, tag)}, tag, ids - {id});
    }
  }

  /** Each tag's count is the length of the listing filtered by that tag. */
  lemma TagCountsAgreeWithListing(env: Env, c: Tables, v: Viewer, tag: string, sort: Sort)
    ensures TagCount(c, v, tag) == |FullListing(env, c, Query(v, "", [tag], sort))|
  {
    var q := Query(v, "", [tag], sort);
    FullListingIsExact(env, c, q);
    var pairs := set p | p in c.tags && p.1 == tag && p.0 in c.cards && !c.cards[p.0].archived && Visible(c, v, p.0);
    forall id: nat ensures id in MatchingIds(env, c, q) <==> (id, tag) in pairs {
      assert forall t :: t in [tag] <==> t == tag;
    }
    ProjectionCount(pairs, tag, MatchingIds(env, c, q));
  }
}
