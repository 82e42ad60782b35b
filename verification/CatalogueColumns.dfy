/**
 The catalogue on its columns: who may see a card, what the filters select, in which order the
 listing and a page come, what a cursor lets through, what the counts count and what each write
 leaves behind.
 */
module CatalogueColumns {
  import opened Options
  import opened KeyOrder
  import opened Keyset
  import opened Cursor
  import opened Catalogue
  import opened CataloguePaging

  // ---- who sees what ------------------------------------------------------------------------

  /**
   A card is listed exactly if it is unarchived; global, the viewer's own, scoped to one of the
   viewer's teams or opened to one of them; matches the search text by name or summary, or has
   it, lowered, as a tag; and has every tag asked for.
   */
  lemma ListedByColumns(env: Env, c: Tables, v: Viewer, text: string, tags: seq<string>, sort: Sort, id: nat)
    ensures id in FullListing(env, c, Query(v, text, tags, sort)) <==>
              && id in c.cards && !c.cards[id].archived
              && (|| c.cards[id].scope == Global
                  || c.cards[id].creator == (if v.userId.Some? then v.userId.value else "")
                  || (c.cards[id].scope.Team? && c.cards[id].scope.code in v.teams)
                  || exists t :: t in v.teams && (id, t) in c.teams)
              && (|| text == ""
                  || env.matches(text, c.cards[id].name, c.cards[id].shortDescription)
                  || (id, env.lower(text)) in c.tags)
              && (forall t: string :: t in tags ==> (id, t) in c.tags)
  {
    FullListingIsExact(env, c, Query(v, text, tags, sort));
  }

  /** Without a session only global cards are listed, and any whose creator is the empty text. */
  lemma AnonymousListing(env: Env, c: Tables, sort: Sort, id: nat)
    ensures id in FullListing(env, c, Query(Viewer(None, []), "", [], sort)) <==>
              id in c.cards && !c.cards[id].archived && (c.cards[id].scope == Global || c.cards[id].creator == "")
  {
    ListedByColumns(env, c, Viewer(None, []), "", [], sort, id);
  }

  /** They are exactly the unarchived global ones if and only if no other unarchived card has the empty creator. */
  lemma AnonymousSeesGlobal(env: Env, c: Tables, sort: Sort)
    ensures (forall id: nat :: id in FullListing(env, c, Query(Viewer(None, []), "", [], sort)) <==>
               id in c.cards && !c.cards[id].archived && c.cards[id].scope == Global)
            <==> (forall id :: id in c.cards && !c.cards[id].archived && c.cards[id].scope != Global ==> c.cards[id].creator != "")
  {
    forall id: nat
      ensures id in FullListing(env, c, Query(Viewer(None, []), "", [], sort)) <==>
                id in c.cards && !c.cards[id].archived && (c.cards[id].scope == Global || c.cards[id].creator == "")
    {
      AnonymousListing(env, c, sort, id);
    }
    if id :| id in c.cards && !c.cards[id].archived && c.cards[id].scope != Global && c.cards[id].creator == "" {
      assert id in FullListing(env, c, Query(Viewer(None, []), "", [], sort));
    }
  }

  /** The counts by health status are over the cards the viewer may see; no row counts as unknown. */
  lemma StatsByColumns(c: Tables, v: Viewer, status: Status)
    ensures CountWithStatus(c, v, status) ==
              |set id | id in c.cards && !c.cards[id].archived
                 && (|| c.cards[id].scope == Global
                     || c.cards[id].creator == (if v.userId.Some? then v.userId.value else "")
                     || (c.cards[id].scope.Team? && c.cards[id].scope.code in v.teams)
                     || exists t :: t in v.teams && (id, t) in c.teams)
                 && (if id in c.health then c.health[id] == status else status == Unknown)|
    ensures CatalogTotal(c, v) == CountWithStatus(c, v, Unknown) + CountWithStatus(c, v, Healthy) + CountWithStatus(c, v, Unhealthy)
  {
    assert WithStatus(c, ListedIds(c, v), status) ==
              set id | id in c.cards && !c.cards[id].archived
                 && (|| c.cards[id].scope == Global
                     || c.cards[id].creator == (if v.userId.Some? then v.userId.value else "")
                     || (c.cards[id].scope.Team? && c.cards[id].scope.code in v.teams)
                     || exists t :: t in v.teams && (id, t) in c.teams)
                 && (if id in c.health then c.health[id] == status else status == Unknown);
  }

  /** A tag counts the cards with it that the viewer may see. */
  lemma TagCountByColumns(c: Tables, v: Viewer, tag: string)
    ensures TagCount(c, v, tag) ==
              |set id | id in c.cards && (id, tag) in c.tags && !c.cards[id].archived
                 && (|| c.cards[id].scope == Global
                     || c.cards[id].creator == (if v.userId.Some? then v.userId.value else "")
                     || (c.cards[id].scope.Team? && c.cards[id].scope.code in v.teams)
                     || exists t :: t in v.teams && (id, t) in c.teams)|
  {
    var ids := TaggedIds(c, v, tag);
    TaggedPairs(c, v, tag);
    assert ids == set id | id in c.cards && (id, tag) in c.tags && !c.cards[id].archived
                 && (|| c.cards[id].scope == Global
                     || c.cards[id].creator == (if v.userId.Some? then v.userId.value else "")
                     || (c.cards[id].scope.Team? && c.cards[id].scope.code in v.teams)
                     || exists t :: t in v.teams && (id, t) in c.teams);
  }

  ghost function TaggedIds(c: Tables, v: Viewer, tag: string): set<nat> {
    set id | id in c.cards && (id, tag) in c.tags && !c.cards[id].archived && Visible(c, v, id)
  }

  lemma TaggedPairs(c: Tables, v: Viewer, tag: string)
    ensures TagCount(c, v, tag) == |TaggedIds(c, v, tag)|
  {
    var pairs := set p | p in c.tags && p.1 == tag && p.0 in c.cards && !c.cards[p.0].archived && Visible(c, v, p.0);
    var ids := TaggedIds(c, v, tag);
    forall id: nat ensures id in ids <==> (id, tag) in pairs {
    }
    ProjectionCount(pairs, tag, ids);
  }

  // ---- in which order -------------------------------------------------------------------------

  /** Texts in order of their code points: the first difference decides, a prefix comes first. */
  ghost predicate TextBefore(a: string, b: string) {
    exists k :: 0 <= k <= |a| && k < |b| && a[..k] == b[..k] && (k == |a| || a[k] < b[k])
  }

  lemma {:induction false} LexIsTextOrder(a: string, b: string)
    ensures LexLess(CodePoints(a), CodePoints(b)) <==> TextBefore(a, b)
    decreases |a|
  {
    if b == "" {
    } else if a == "" {
      assert a[..0] == b[..0];
    } else if a[0] != b[0] {
      if a[0] < b[0] { assert a[..0] == b[..0]; }
      if TextBefore(a, b) {
        var k :| 0 <= k <= |a| && k < |b| && a[..k] == b[..k] && (k == |a| || a[k] < b[k]);
        if k > 0 { SameBeginning(a, b, k); }
      }
    } else {
      LexIsTextOrder(a[1..], b[1..]);
      assert CodePoints(a)[1..] == CodePoints(a[1..]) && CodePoints(b)[1..] == CodePoints(b[1..]);
      TextBeforeTail(a, b);
    }
  }

  lemma SameBeginning(a: string, b: string, k: nat)
    requires 0 < k <= |a| && k <= |b| && a[..k] == b[..k]
    ensures a[0] == b[0]
  {
    assert a[0] == a[..k][0] && b[0] == b[..k][0];
  }

  lemma TextBeforeTail(a: string, b: string)
    requires a != "" && b != "" && a[0] == b[0]
    ensures TextBefore(a, b) <==> TextBefore(a[1..], b[1..])
  {
    var s, t := a[1..], b[1..];
    if TextBefore(a, b) {
      var k :| 0 <= k <= |a| && k < |b| && a[..k] == b[..k] && (k == |a| || a[k] < b[k]);
      assert k > 0;
      SamePrefix(a, b, k);
      assert s[..k - 1] == t[..k - 1];
    }
    if TextBefore(s, t) {
      var k :| 0 <= k <= |s| && k < |t| && s[..k] == t[..k] && (k == |s| || s[k] < t[k]);
      SamePrefix(a, b, k + 1);
      assert a[..k + 1] == b[..k + 1];
    }
  }

  lemma SamePrefix(a: string, b: string, k: nat)
    requires 0 < k <= |a| && k <= |b| && a[0] == b[0]
    ensures a[..k] == b[..k] <==> a[1..][..k - 1] == b[1..][..k - 1]
  {
    assert a[..k] == [a[0]] + a[1..][..k - 1];
    assert b[..k] == [b[0]] + b[1..][..k - 1];
    assert a[..k][1..] == a[1..][..k - 1] && b[..k][1..] == b[1..][..k - 1];
  }

  lemma CodePointsInjective(a: string, b: string)
    ensures CodePoints(a) == CodePoints(b) <==> a == b
  {
    if CodePoints(a) == CodePoints(b) {
      assert |CodePoints(a)| == |a| && |CodePoints(b)| == |b|;
      forall i | 0 <= i < |a| ensures a[i] == b[i] {
        assert CodePoints(a)[i] == CodePoints(b)[i];
      }
    }
  }

  /** The listing's order on the columns: newest first, or by name; then by id the same way round. */
  ghost predicate Comes(c: Tables, sort: Sort, a: nat, b: nat)
    requires a in c.cards && b in c.cards
  {
    match sort
    case Recent => c.cards[a].createdAt > c.cards[b].createdAt || (c.cards[a].createdAt == c.cards[b].createdAt && a > b)
    case ByName => TextBefore(c.cards[a].name, c.cards[b].name) || (c.cards[a].name == c.cards[b].name && a < b)
  }

  lemma KeysInColumnOrder(sort: Sort, s: Card, a: nat, t: Card, b: nat)
    ensures Less(KeyOf(sort, s, a), KeyOf(sort, t, b)) <==>
              match sort
              case Recent => s.createdAt > t.createdAt || (s.createdAt == t.createdAt && a > b)
              case ByName => TextBefore(s.name, t.name) || (s.name == t.name && a < b)
  {
    match sort
    case Recent =>
      var x, y: seq<int> := [-(s.createdAt as int)], [-(t.createdAt as int)];
      assert x[1..] == [] && y[1..] == [];
      assert LexLess(x, y) <==> s.createdAt > t.createdAt;
    case ByName =>
      LexIsTextOrder(s.name, t.name);
      CodePointsInjective(s.name, t.name);
  }

  lemma ListingByColumns(env: Env, c: Tables, q: Query, i: nat, j: nat)
    requires i < j < |FullListing(env, c, q)|
    ensures var a, b := FullListing(env, c, q)[i], FullListing(env, c, q)[j];
            && a >= 0 && b >= 0 && a in c.cards && b in c.cards
            && Comes(c, q.sort, a, b)
  {
    var keys := Sorted(MatchingKeys(env, c, q));
    SortedFacts(MatchingKeys(env, c, q));
    assert keys[i] in keys && keys[j] in keys && Less(keys[i], keys[j]);
    MatchingKeyId(env, c, q, keys[i]);
    MatchingKeyId(env, c, q, keys[j]);
    var a: nat, b: nat := FullListing(env, c, q)[i], FullListing(env, c, q)[j];
    KeysInColumnOrder(q.sort, c.cards[a], a, c.cards[b], b);
  }

  // ---- pages ----------------------------------------------------------------------------------

  /**
   What a cursor's value and id let through, on the columns: older, or as old with a smaller id;
   a later name, or the same with a greater id. A null id drops the ties, a null name everything.
   */
  ghost predicate LetThrough(c: Tables, v: Value, i: Option<nat>, id: nat)
    requires id in c.cards
  {
    match v
    case Instant(t) => c.cards[id].createdAt < t || (c.cards[id].createdAt == t && i.Some? && id < i.value)
    case Text(x) => TextBefore(x, c.cards[id].name) || (c.cards[id].name == x && i.Some? && id > i.value)
    case NoText => false
    case NotText => false
  }

  /** The keys a place allows are those of the cards it lets through. */
  lemma AllowedByColumns(env: Env, c: Tables, q: Query, v: Value, i: Option<nat>, id: nat)
    requires (v.Instant? && q.sort.Recent?) || ((v.Text? || v.NoText?) && q.sort.ByName?)
    requires Matches(env, c, q, id)
    ensures KeyOf(q.sort, c.cards[id], id) in Allowed(MatchingKeys(env, c, q), PlaceOf(q.sort, v, i))
            <==> LetThrough(c, v, i, id)
  {
    var k := KeyOf(q.sort, c.cards[id], id);
    IdOfKey(q.sort, c.cards[id], id);
    MatchingKeyId(env, c, q, k);
    match v
    case Instant(t) =>
      var x, y: seq<int> := [-t], [-(c.cards[id].createdAt as int)];
      assert x[1..] == [] && y[1..] == [];
      assert LexLess(x, y) <==> c.cards[id].createdAt < t;
    case Text(x) =>
      LexIsTextOrder(x, c.cards[id].name);
      CodePointsInjective(x, c.cards[id].name);
    case NoText =>
    case NotText =>
  }

  /** The first of a set of cards, in column order. */
  ghost predicate FirstRows(c: Tables, sort: Sort, rows: seq<int>, rest: set<nat>)
    requires forall id :: id in rest ==> id in c.cards
  {
    && (forall i :: 0 <= i < |rows| ==> rows[i] >= 0 && rows[i] in rest)
    && (forall i, j :: 0 <= i < j < |rows| ==> Comes(c, sort, rows[i], rows[j]))
    && (forall id, i :: id in rest && id !in rows && 0 <= i < |rows| ==> Comes(c, sort, rows[i], id))
  }

  /** As many of n cards as the limit allows, and a cursor made of the last if there are more. */
  ghost predicate SizedPage(env: Env, c: Tables, sort: Sort, limit: int, p: Listing, n: nat) {
    var size := if limit < 1 then 1 else if limit > 100 then 100 else limit;
    && |p.rows| == (if n < size then n else size)
    && (p.next.Some? <==> n > size)
    && (p.next.Some? ==>
          var last := p.rows[size - 1];
          last in c.cards && p.next.value == EncodeCursor(env.formats, sort,
            if sort.Recent? then Instant(c.cards[last].createdAt) else Text(c.cards[last].name), env.idText(last)))
  }

  /** A page of a set of cards. */
  ghost predicate IsPage(env: Env, c: Tables, q: Query, limit: int, p: Listing, rest: set<nat>)
    requires forall id :: id in rest ==> id in c.cards
  {
    FirstRows(c, q.sort, p.rows, rest) && SizedPage(env, c, q.sort, limit, p, |rest|)
  }

  /** The cards of the listing that a place lets through. */
  ghost function AllowedIds(env: Env, c: Tables, q: Query, place: Place): set<nat> {
    set id | id in MatchingIds(env, c, q) && KeyOf(q.sort, c.cards[id], id) in Allowed(MatchingKeys(env, c, q), place)
  }

  lemma AllowedKeysAreOfIds(env: Env, c: Tables, q: Query, place: Place)
    ensures Allowed(MatchingKeys(env, c, q), place) == KeysOf(c.cards, q.sort, AllowedIds(env, c, q, place))
    ensures |Allowed(MatchingKeys(env, c, q), place)| == |AllowedIds(env, c, q, place)|
  {
    var keys, ids := Allowed(MatchingKeys(env, c, q), place), AllowedIds(env, c, q, place);
    forall k | k in keys ensures k in KeysOf(c.cards, q.sort, ids) {
      MatchingKeyId(env, c, q, k);
      assert IdOf(q.sort, k) in ids;
    }
    KeysAreAsManyAsIds(c.cards, q.sort, ids);
  }

  lemma RowOfPage(env: Env, c: Tables, q: Query, limit: int, place: Place, i: nat)
    requires i < |PageAt(env, c, q, limit, place).rows|
    ensures var id := PageAt(env, c, q, limit, place).rows[i];
            var keys := Sorted(Allowed(MatchingKeys(env, c, q), place));
            && id >= 0 && id in AllowedIds(env, c, q, place)
            && i < |keys| && keys[i] == KeyOf(q.sort, c.cards[id], id)
  {
    var allowed := Allowed(MatchingKeys(env, c, q), place);
    PageShape(allowed, None, ClampLimit(limit));
    SortedAt(allowed, i);
    MatchingKeyId(env, c, q, Sorted(allowed)[i]);
  }

  lemma UnlistedComesLater(env: Env, c: Tables, q: Query, limit: int, place: Place, id: nat, i: nat)
    requires id in AllowedIds(env, c, q, place) && i < |PageAt(env, c, q, limit, place).rows|
    requires id !in PageAt(env, c, q, limit, place).rows
    ensures PageAt(env, c, q, limit, place).rows[i] in c.cards
    ensures Comes(c, q.sort, PageAt(env, c, q, limit, place).rows[i], id)
  {
    var allowed := Allowed(MatchingKeys(env, c, q), place);
    var keys, rows := Sorted(allowed), PageAt(env, c, q, limit, place).rows;
    var k := KeyOf(q.sort, c.cards[id], id);
    SortedFacts(allowed);
    RowOfPage(env, c, q, limit, place, i);
    assert k in keys;
    var r: nat :| r < |keys| && keys[r] == k;
    if r < |rows| {
      RowOfPage(env, c, q, limit, place, r);
      var same: nat := rows[r];
      IdOfKey(q.sort, c.cards[same], same);
      IdOfKey(q.sort, c.cards[id], id);
    }
    assert Less(keys[i], keys[r]);
    var a: nat := rows[i];
    KeysInColumnOrder(q.sort, c.cards[a], a, c.cards[id], id);
  }

  lemma RowsInOrder(env: Env, c: Tables, q: Query, limit: int, place: Place, i: nat, j: nat)
    requires i < j < |PageAt(env, c, q, limit, place).rows|
    ensures var a, b := PageAt(env, c, q, limit, place).rows[i], PageAt(env, c, q, limit, place).rows[j];
            && a >= 0 && b >= 0 && a in c.cards && b in c.cards
            && Comes(c, q.sort, a, b)
  {
    RowOfPage(env, c, q, limit, place, i);
    RowOfPage(env, c, q, limit, place, j);
    SortedFacts(Allowed(MatchingKeys(env, c, q), place));
    var a: nat, b: nat := PageAt(env, c, q, limit, place).rows[i], PageAt(env, c, q, limit, place).rows[j];
    KeysInColumnOrder(q.sort, c.cards[a], a, c.cards[b], b);
  }

  lemma SizeAndNext(env: Env, c: Tables, q: Query, limit: int, place: Place)
    ensures SizedPage(env, c, q.sort, limit, PageAt(env, c, q, limit, place), |AllowedIds(env, c, q, place)|)
  {
    var allowed, size := Allowed(MatchingKeys(env, c, q), place), ClampLimit(limit);
    var keys := Sorted(allowed);
    AllowedKeysAreOfIds(env, c, q, place);
    PageShape(allowed, None, size);
    if |keys| > size {
      RowOfPage(env, c, q, limit, place, size - 1);
      assert PageAt(env, c, q, limit, place).next == Some(CursorAt(env, c, q.sort, keys[size - 1]));
    }
  }

  lemma RowsAreFirst(env: Env, c: Tables, q: Query, limit: int, place: Place)
    ensures FirstRows(c, q.sort, PageAt(env, c, q, limit, place).rows, AllowedIds(env, c, q, place))
  {
    var rows, rest := PageAt(env, c, q, limit, place).rows, AllowedIds(env, c, q, place);
    forall i: nat | i < |rows| ensures rows[i] >= 0 && rows[i] in rest {
      RowOfPage(env, c, q, limit, place, i);
    }
    forall i: nat, j: nat | i < j < |rows| ensures Comes(c, q.sort, rows[i], rows[j]) {
      RowsInOrder(env, c, q, limit, place, i, j);
    }
    forall id, i: nat | id in rest && id !in rows && i < |rows| ensures Comes(c, q.sort, rows[i], id) {
      UnlistedComesLater(env, c, q, limit, place, id, i);
    }
  }

  lemma PageIsPage(env: Env, c: Tables, q: Query, limit: int, place: Place)
    ensures IsPage(env, c, q, limit, PageAt(env, c, q, limit, place), AllowedIds(env, c, q, place))
  {
    SizeAndNext(env, c, q, limit, place);
    RowsAreFirst(env, c, q, limit, place);
  }

  /** The cards of the listing. */
  ghost function Listed(env: Env, c: Tables, q: Query): set<nat> {
    set id | id in c.cards && id in FullListing(env, c, q)
  }

  lemma ListedIsMatching(env: Env, c: Tables, q: Query)
    ensures Listed(env, c, q) == MatchingIds(env, c, q) == AllowedIds(env, c, q, Rest(None))
  {
    FullListingIsExact(env, c, q);
    forall id | id in MatchingIds(env, c, q) ensures KeyOf(q.sort, c.cards[id], id) in MatchingKeys(env, c, q) {
    }
  }

  /** Those of them that a cursor's value and id let through. */
  ghost function ListedBeyond(env: Env, c: Tables, q: Query, v: Value, i: Option<nat>): set<nat> {
    set id | id in Listed(env, c, q) && LetThrough(c, v, i, id)
  }

  lemma BeyondIsAllowed(env: Env, c: Tables, q: Query, v: Value, i: Option<nat>)
    requires (v.Instant? && q.sort.Recent?) || ((v.Text? || v.NoText?) && q.sort.ByName?)
    ensures ListedBeyond(env, c, q, v, i) == AllowedIds(env, c, q, PlaceOf(q.sort, v, i))
  {
    ListedIsMatching(env, c, q);
    forall id | id in MatchingIds(env, c, q)
      ensures id in AllowedIds(env, c, q, PlaceOf(q.sort, v, i)) <==> LetThrough(c, v, i, id)
    {
      AllowedByColumns(env, c, q, v, i, id);
    }
  }

  /** The first page: the beginning of the listing. */
  lemma FirstPageByColumns(env: Env, c: Tables, q: Query, limit: int, cursor: Option<string>)
    requires Askable(q) && (cursor.None? || cursor.value == "")
    ensures ListPage(env, c, q, limit, cursor).Ok?
    ensures IsPage(env, c, q, limit, ListPage(env, c, q, limit, cursor).value, Listed(env, c, q))
  {
    PageIsPage(env, c, q, limit, Rest(None));
    ListedIsMatching(env, c, q);
  }

  /** A later page: the beginning of what the cursor lets through of the listing. */
  lemma PageByColumns(env: Env, c: Tables, q: Query, limit: int, cursor: string, v: Value, i: Json)
    requires cursor != "" && Placed(env, q.sort, cursor, v, i) && Taken(env, v, i) && Askable(q)
    ensures ListPage(env, c, q, limit, Some(cursor)).Ok?
    ensures IsPage(env, c, q, limit, ListPage(env, c, q, limit, Some(cursor)).value,
                   ListedBeyond(env, c, q, v, if i.JText? then env.idOf(i.text) else None))
  {
    PlacedFits(env, q.sort, cursor, v, i);
    PageOfACursor(env, c, q, limit, cursor, v, i);
    var bound := BoundId(env, i).value;
    PageIsPage(env, c, q, limit, PlaceOf(q.sort, v, bound));
    BeyondIsAllowed(env, c, q, v, bound);
  }

  lemma PlacedFits(env: Env, sort: Sort, cursor: string, v: Value, i: Json)
    requires Placed(env, sort, cursor, v, i) && Taken(env, v, i)
    ensures (v.Instant? && sort.Recent?) || ((v.Text? || v.NoText?) && sort.ByName?)
    ensures BoundId(env, i).value == if i.JText? then env.idOf(i.text) else None
  {
  }

  // ---- writes ---------------------------------------------------------------------------------

  /** The card's child rows are exactly these, and no other card's change. */
  ghost predicate ChildRows(before: set<(nat, DbText)>, after: set<(nat, DbText)>, id: nat, values: seq<DbText>) {
    forall k: nat, t: DbText :: (k, t) in after <==> if k == id then t in values else (k, t) in before
  }

  ghost predicate Distinctly(values: seq<DbText>) {
    forall i, j :: 0 <= i < j < |values| ==> values[i] != values[j]
  }

  /** A new card has the columns given, its own tags and teams and an unknown health; nothing else changes. */
  lemma CreateByColumns(c: Tables, id: nat, b: Body, tags: seq<DbText>, teams: seq<DbText>, creator: string, at: DbTime)
    requires Valid(c) && id !in c.issued
    ensures var d := Apply(c, Create(id, b, tags, teams, creator, at));
            if Distinctly(tags) && Distinctly(teams) then
              && d.cards.Keys == c.cards.Keys + {id} && (forall k :: k in c.cards ==> d.cards[k] == c.cards[k])
              && d.cards[id].name == b.name && d.cards[id].shortDescription == b.shortDescription
              && d.cards[id].scope == b.scope && d.cards[id].creator == creator
              && d.cards[id].createdAt == at && !d.cards[id].archived
              && ChildRows(c.tags, d.tags, id, tags) && ChildRows(c.teams, d.teams, id, teams)
              && d.health == c.health[id := Unknown] && d.issued == c.issued + {id}
            else d == c
  {
  }

  /** An edit replaces the editable columns and all tags and teams; creator, time and archiving stay. */
  lemma UpdateByColumns(c: Tables, id: nat, b: Body, tags: seq<DbText>, teams: seq<DbText>)
    ensures var d := Apply(c, Update(id, b, tags, teams));
            if id in c.cards && Distinctly(tags) && Distinctly(teams) then
              && d.cards.Keys == c.cards.Keys && (forall k :: k in c.cards && k != id ==> d.cards[k] == c.cards[k])
              && d.cards[id].name == b.name && d.cards[id].shortDescription == b.shortDescription
              && d.cards[id].scope == b.scope && d.cards[id].creator == c.cards[id].creator
              && d.cards[id].createdAt == c.cards[id].createdAt && d.cards[id].archived == c.cards[id].archived
              && ChildRows(c.tags, d.tags, id, tags) && ChildRows(c.teams, d.teams, id, teams)
              && d.health == c.health && d.issued == c.issued
            else d == c
  {
  }

  /** A delete removes the card and its rows everywhere; archiving and health records touch one column of one row. */
  lemma OtherWritesByColumns(c: Tables, id: nat, archived: bool, status: Status)
    ensures var d := Apply(c, Delete(id));
            && d.cards == c.cards - {id} && d.health == c.health - {id} && d.issued == c.issued
            && ChildRows(c.tags, d.tags, id, []) && ChildRows(c.teams, d.teams, id, [])
    ensures var d := Apply(c, SetArchived(id, archived));
            if id in c.cards then
              && d == c.(cards := d.cards) && d.cards.Keys == c.cards.Keys
              && (forall k :: k in c.cards && k != id ==> d.cards[k] == c.cards[k])
              && d.cards[id] == Card(c.cards[id].name, c.cards[id].shortDescription, c.cards[id].scope, c.cards[id].creator,
                                     c.cards[id].createdAt, archived)
            else d == c
    ensures Apply(c, RecordStatus(id, status)) == if id in c.cards then c.(health := c.health[id := status]) else c
  {
  }
}
