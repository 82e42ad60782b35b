/**
 The card catalogue: rows and child rows, the visibility predicate every read shares, the
 write transactions, and the listing with its filters and cursors.
 */
module Catalogue {
  import opened Options
  import opened KeyOrder
  import opened Keyset
  import opened Cursor

  const MAX_PAGE_SIZE := 100

  datatype Scope = Global | Team(code: DbText)

  datatype Status = Unknown | Healthy | Unhealthy

  /** What the database can hold as text: anything without a NUL. */
  predicate Storable(s: string) {
    '\0' !in s
  }

  type DbText = s: string | Storable(s)

  /** 0001-01-01 to 9999-12-31 in UTC: the times the driver can send and read. */
  const MIN_TIME := -62_135_596_800_000_000
  const MAX_TIME := 253_402_300_799_999_999

  predicate Sendable(t: int) {
    MIN_TIME <= t <= MAX_TIME
  }

  type DbTime = t: int | Sendable(t)

  datatype Card = Card(
    name: DbText, shortDescription: string, scope: Scope, creator: string,
    createdAt: DbTime, archived: bool)

  /** The columns a caller supplies on create and update; created_at and creator are not among them. */
  datatype Body = Body(name: DbText, shortDescription: string, scope: Scope)

  /** `issued` remembers every id gen_random_uuid() has handed out. */
  datatype Tables = Tables(
    cards: map<nat, Card>, tags: set<(nat, DbText)>, teams: set<(nat, DbText)>,
    health: map<nat, Status>, issued: set<nat>)

  ghost predicate Valid(c: Tables) {
    && c.cards.Keys <= c.issued
    && (forall p :: p in c.tags ==> p.0 in c.cards)
    && (forall p :: p in c.teams ==> p.0 in c.cards)
    && c.health.Keys <= c.cards.Keys
  }

  // ---- writes -----------------------------------------------------------------------------

  datatype Change =
    | Create(id: nat, body: Body, tags: seq<DbText>, teams: seq<DbText>, creator: string, at: DbTime)
    | Update(id: nat, body: Body, tags: seq<DbText>, teams: seq<DbText>)
    | Delete(id: nat)
    | SetArchived(id: nat, archived: bool)
    | RecordStatus(id: nat, status: Status)

  predicate NoDuplicates(s: seq<DbText>) {
    forall i, j :: 0 <= i < j < |s| ==> s[i] != s[j]
  }

  /** DELETE the card's child rows, INSERT the given values. */
  function Replaced(rows: set<(nat, DbText)>, id: nat, values: seq<DbText>): set<(nat, DbText)> {
    (set p | p in rows && p.0 != id) + (set v | v in values :: (id, v))
  }

  /** What one committed transaction leaves behind; a failed one leaves the tables as they were. */
  function Apply(c: Tables, ch: Change): Tables {
    match ch
    case Create(id, b, tags, teams, creator, at) =>
      if id in c.issued || !NoDuplicates(tags) || !NoDuplicates(teams) then c
      else Tables(
        c.cards[id := Card(b.name, b.shortDescription, b.scope, creator, at, false)],
        Replaced(c.tags, id, tags), Replaced(c.teams, id, teams),
        c.health[id := Unknown], c.issued + {id})
    case Update(id, b, tags, teams) =>
      if id !in c.cards || !NoDuplicates(tags) || !NoDuplicates(teams) then c
      else c.(
        cards := c.cards[id := c.cards[id].(name := b.name, shortDescription := b.shortDescription, scope := b.scope)],
        tags := Replaced(c.tags, id, tags), teams := Replaced(c.teams, id, teams))
    case Delete(id) =>
      c.(cards := c.cards - {id},
         tags := (set p | p in c.tags && p.0 != id),
         teams := (set p | p in c.teams && p.0 != id),
         health := c.health - {id})
    case SetArchived(id, archived) =>
      if id in c.cards then c.(cards := c.cards[id := c.cards[id].(archived := archived)]) else c
    case RecordStatus(id, status) =>
      if id in c.cards then c.(health := c.health[id := status]) else c
  }

  function Run(c: Tables, changes: seq<Change>): Tables
    decreases |changes|
  {
    if changes == [] then c else Run(Apply(c, changes[0]), changes[1..])
  }

  /** What no sequence of transactions can alter: a card's created_at, and that a gone id stays gone. */
  ghost predicate Continues(c: Tables, d: Tables) {
    && Valid(c) && Valid(d)
    && c.issued <= d.issued
    && (forall id :: id in c.cards && id in d.cards ==> d.cards[id].createdAt == c.cards[id].createdAt)
    && (forall id :: id in c.issued && id !in c.cards ==> id !in d.cards)
  }

  lemma ApplyContinues(c: Tables, ch: Change)
    requires Valid(c)
    ensures Continues(c, Apply(c, ch))
  {
  }

  lemma ContinuesIsTransitive(c: Tables, d: Tables, e: Tables)
    requires Continues(c, d) && Continues(d, e)
    ensures Continues(c, e)
  {
    forall id | id in c.cards && id in e.cards ensures e.cards[id].createdAt == c.cards[id].createdAt {
      assert id in d.cards;
    }
  }

  lemma {:induction false} RunContinues(c: Tables, changes: seq<Change>)
    requires Valid(c)
    ensures Continues(c, Run(c, changes))
    decreases |changes|
  {
    if changes != [] {
      ApplyContinues(c, changes[0]);
      RunContinues(Apply(c, changes[0]), changes[1..]);
      ContinuesIsTransitive(c, Apply(c, changes[0]), Run(c, changes));
    }
  }

  // ---- reads ------------------------------------------------------------------------------

  /** The text engine and the uuid text form are the database's; any will do that round-trips ids. */
  datatype Env = Env(
    formats: Formats,
    matches: (string, string, string) -> bool,
    lower: string -> string,
    idText: nat -> string,
    idOf: string -> Option<nat>) {

    ghost predicate Sound() {
      && formats.RoundTrips()
      && (forall p :: formats.dumps(p) != [])
      && (forall i: nat :: idOf(idText(i)) == Some(i))
    }
  }

  /** A session's own texts are ones the database can be sent. */
  datatype Viewer = Viewer(userId: Option<DbText>, teams: seq<DbText>)

  datatype Query = Query(viewer: Viewer, q: string, tags: seq<string>, sort: Sort)

  /** The texts a request puts into the statement; one with a NUL is refused by the database. */
  predicate Askable(q: Query) {
    Storable(q.q) && forall t :: t in q.tags ==> Storable(t)
  }

  function ViewerId(v: Viewer): string {
    if v.userId.Some? then v.userId.value else ""
  }

  predicate Visible(c: Tables, v: Viewer, id: nat)
    requires id in c.cards
  {
    var card := c.cards[id];
    || card.scope.Global?
    || card.creator == ViewerId(v)
    || (card.scope.Team? && card.scope.code in v.teams)
    || (exists t :: t in v.teams && (id, t) in c.teams)
  }

  /** What each filter means, one conjunct a filter. */
  predicate Matches(env: Env, c: Tables, q: Query, id: nat) {
    && id in c.cards
    && Visible(c, q.viewer, id)
    && !c.cards[id].archived
    && (q.q != "" ==>
          || env.matches(q.q, c.cards[id].name, c.cards[id].shortDescription)
          || (id, env.lower(q.q)) in c.tags)
    && (forall t: string :: t in q.tags ==> (id, t) in c.tags)
  }

  function CodePoints(s: string): seq<int> {
    seq(|s|, i requires 0 <= i < |s| => s[i] as int)
  }

  /** A value the statement can be run with: a time in range, a text without a NUL, or NULL. */
  predicate Bindable(v: Value) {
    match v case Instant(t) => Sendable(t) case Text(x) => Storable(x) case NoText => true case NotText => false
  }

  function PositionOf(sort: Sort, v: Value, id: nat): Key
    requires v.Instant? || v.Text?
  {
    match v
    case Instant(t) => Key([-t], -(id as int))
    case Text(x) => Key(CodePoints(x), id)
  }

  function SortValue(sort: Sort, card: Card): (v: Value)
    ensures Fits(sort, v) && Bindable(v)
  {
    match sort case Recent => Instant(card.createdAt) case ByName => Text(card.name)
  }

  function KeyOf(sort: Sort, card: Card, id: nat): Key {
    PositionOf(sort, SortValue(sort, card), id)
  }

  function IdOf(sort: Sort, k: Key): int {
    if sort.Recent? then -k.minor else k.minor
  }

  function MatchingIds(env: Env, c: Tables, q: Query): set<nat> {
    set id | id in c.cards && Matches(env, c, q, id)
  }

  function KeysOf(cards: map<nat, Card>, sort: Sort, ids: set<nat>): set<Key>
    requires ids <= cards.Keys
  {
    set id | id in ids :: KeyOf(sort, cards[id], id)
  }

  function MatchingKeys(env: Env, c: Tables, q: Query): set<Key> {
    KeysOf(c.cards, q.sort, MatchingIds(env, c, q))
  }

  function IdsOf(sort: Sort, rows: seq<Key>): (ids: seq<int>)
    ensures |ids| == |rows| && forall i :: 0 <= i < |rows| ==> ids[i] == IdOf(sort, rows[i])
  {
    seq(|rows|, i requires 0 <= i < |rows| => IdOf(sort, rows[i]))
  }

  function ClampLimit(limit: int): (r: nat)
    ensures 1 <= r <= MAX_PAGE_SIZE
    ensures 1 <= limit <= MAX_PAGE_SIZE ==> r == limit
    ensures (limit < 1 ==> r == 1) && (limit > 100 ==> r == 100)
  {
    if limit < 1 then 1 else if limit > MAX_PAGE_SIZE then MAX_PAGE_SIZE else limit
  }

  datatype Listing = Listing(rows: seq<int>, next: Option<string>)

  /**
   What the row comparison with the cursor lets through: the rest of the listing; only what is
   strictly beyond a value, when the id is NULL; or nothing, when the value is.
   */
  datatype Place = Rest(after: Option<Key>) | Beyond(value: seq<int>) | Nowhere

  function Allowed(keys: set<Key>, place: Place): set<Key> {
    match place
    case Rest(after) => After(keys, after)
    case Beyond(value) => set k | k in keys && LexLess(value, k.major)
    case Nowhere => {}
  }

  /** The id parameter: None is an error in the driver, Some(None) is NULL. */
  function BoundId(env: Env, i: Json): Option<Option<nat>> {
    match i
    case JNull => Some(None)
    case JText(text) => (match env.idOf(text) case None => None case Some(id) => Some(Some(id)))
    case JOther(_) => None
  }

  function PlaceOf(sort: Sort, v: Value, id: Option<nat>): Place
    requires v.Instant? || v.Text? || v.NoText?
  {
    if v.NoText? then Nowhere
    else match id
      case None => Beyond(PositionOf(sort, v, 0).major)
      case Some(id) => Rest(Some(PositionOf(sort, v, id)))
  }

  /** An absent or empty cursor starts from the beginning. */
  function CursorPlace(env: Env, sort: Sort, cursor: Option<string>): Result<Place, CursorError> {
    if cursor.None? || cursor.value == "" then Ok(Rest(None))
    else match DecodeCursor(env.formats, cursor.value, sort)
      case Err(e) => Err(e)
      case Ok((v, i)) =>
        if !Bindable(v) || BoundId(env, i).None? then Err(Unhandled)
        else Ok(PlaceOf(sort, v, BoundId(env, i).value))
  }

  /** One page of what the cursor lets through of the matching cards. */
  function PageAt(env: Env, c: Tables, q: Query, limit: int, place: Place): Listing {
    var p := PageOf(Allowed(MatchingKeys(env, c, q), place), None, ClampLimit(limit));
    Listing(
      IdsOf(q.sort, p.rows),
      match p.next
      case None => None
      case Some(k) => Some(CursorAt(env, c, q.sort, k)))
  }

  /** The cursor is decoded before the statement is sent. */
  function ListPage(env: Env, c: Tables, q: Query, limit: int, cursor: Option<string>): Result<Listing, CursorError> {
    match CursorPlace(env, q.sort, cursor)
    case Err(e) => Err(e)
    case Ok(place) => if Askable(q) then Ok(PageAt(env, c, q, limit, place)) else Err(Unhandled)
  }

  function CursorAt(env: Env, c: Tables, sort: Sort, k: Key): string {
    var id := IdOf(sort, k);
    if id in c.cards
    then EncodeCursor(env.formats, sort, SortValue(sort, c.cards[id]), env.idText(id))
    else ""
  }

  lemma IdOfKey(sort: Sort, card: Card, id: nat)
    ensures IdOf(sort, KeyOf(sort, card, id)) == id
  {
  }

  lemma MatchingKeyId(env: Env, c: Tables, q: Query, k: Key)
    ensures k in MatchingKeys(env, c, q) <==>
            var id := IdOf(q.sort, k);
            id >= 0 && Matches(env, c, q, id) && k == KeyOf(q.sort, c.cards[id], id)
  {
    if k in MatchingKeys(env, c, q) {
      var id :| id in MatchingIds(env, c, q) && k == KeyOf(q.sort, c.cards[id], id);
      IdOfKey(q.sort, c.cards[id], id);
    } else {
      var id := IdOf(q.sort, k);
      if id >= 0 && Matches(env, c, q, id) {
        assert id in MatchingIds(env, c, q);
      }
    }
  }

  lemma KeysAreAsManyAsIds(cards: map<nat, Card>, sort: Sort, ids: set<nat>)
    requires ids <= cards.Keys
    ensures |KeysOf(cards, sort, ids)| == |ids|
  {
    if ids == {} {
      assert KeysOf(cards, sort, ids) == {};
    } else {
      var id :| id in ids;
      var k := KeyOf(sort, cards[id], id);
      KeysAreAsManyAsIds(cards, sort, ids - {id});
      assert KeysOf(cards, sort, ids) == KeysOf(cards, sort, ids - {id}) + {k};
      if k in KeysOf(cards, sort, ids - {id}) {
        var other :| other in ids - {id} && k == KeyOf(sort, cards[other], other);
        IdOfKey(sort, cards[other], other);
        IdOfKey(sort, cards[id], id);
        assert false;
      }
    }
  }

  function Distinct(tags: seq<string>): set<string> {
    set t | t in tags
  }

  /** SELECT DISTINCT tag ... WHERE connector_id = id AND tag = ANY(tags) */
  function Found(rows: set<(nat, string)>, id: nat, tags: seq<string>): set<string> {
    set t | t in tags && (id, t) in rows
  }

  /** count(DISTINCT tag) equals the number of distinct requested tags exactly when the card has them all. */
  lemma DistinctCountMeansAll(rows: set<(nat, string)>, id: nat, tags: seq<string>)
    ensures |Found(rows, id, tags)| == |Distinct(tags)| <==> forall t :: t in tags ==> (id, t) in rows
  {
    var wanted, found := Distinct(tags), Found(rows, id, tags);
    assert found <= wanted;
    if |found| == |wanted| {
      assert |wanted - found| == |wanted| - |found|;
      assert wanted - found == {};
      forall t | t in tags ensures (id, t) in rows {
        assert t in wanted && t !in wanted - found;
      }
    }
    if forall t :: t in tags ==> (id, t) in rows {
      assert wanted <= found;
    }
  }

  // ---- what a cursor is answered with --------------------------------------------------------

  /** The cursor carries a place in this sort: a value that reads as one, and an id. */
  ghost predicate Placed(env: Env, sort: Sort, cursor: string, v: Value, i: Json) {
    exists p :: Carries(env.formats, cursor, p) && p.s == JText(SortName(sort))
                && ReadValue(env.formats, sort, p.v) == Some(v) && p.i == i
  }

  /** A value and an id the statement can be run with; either may be null. */
  ghost predicate Taken(env: Env, v: Value, i: Json) {
    Bindable(v) && BoundId(env, i).Some?
  }

  lemma PlacedDecodes(env: Env, sort: Sort, cursor: string, v: Value, i: Json)
    ensures Placed(env, sort, cursor, v, i) <==> DecodeCursor(env.formats, cursor, sort) == Ok((v, i))
  {
    DecodeByContents(env.formats, cursor, sort);
  }

  /** The handler gets past the cursor and the statement is refused. */
  ghost predicate Refuses(env: Env, q: Query, cursor: string) {
    exists v, i :: Placed(env, q.sort, cursor, v, i) && (!Taken(env, v, i) || !Askable(q))
  }

  ghost predicate Serves(env: Env, q: Query, cursor: string) {
    Askable(q) && exists v, i :: Placed(env, q.sort, cursor, v, i) && Taken(env, v, i)
  }

  /**
   A non-empty cursor is answered with 500 exactly when its text is not ASCII, its bytes make
   the parser raise an unlisted error, or it carries a place and the statement cannot be run
   with it or with the search text and tags; with a page exactly when it carries a place and
   the statement can be run; with 400 otherwise.
   */
  lemma AnswerOfACursor(env: Env, c: Tables, q: Query, limit: int, cursor: string)
    requires cursor != ""
    ensures var answer := ListPage(env, c, q, limit, Some(cursor));
            var fails := !IsAscii(cursor) || Stumbles(env.formats, cursor) || Refuses(env, q, cursor);
            && (answer == Err(Unhandled) <==> fails)
            && (answer.Ok? <==> Serves(env, q, cursor))
            && (answer == Err(Invalid) <==> !fails && !Serves(env, q, cursor))
  {
    var decoded := DecodeCursor(env.formats, cursor, q.sort);
    DecodeByContents(env.formats, cursor, q.sort);
    forall v, i ensures Placed(env, q.sort, cursor, v, i) <==> decoded == Ok((v, i)) {
      PlacedDecodes(env, q.sort, cursor, v, i);
    }
    if decoded.Ok? {
      assert Placed(env, q.sort, cursor, decoded.value.0, decoded.value.1);
    }
  }

  /** Without a cursor only the request's own texts can be refused. */
  lemma AnswerWithoutACursor(env: Env, c: Tables, q: Query, limit: int, cursor: Option<string>)
    requires cursor.None? || cursor.value == ""
    ensures ListPage(env, c, q, limit, cursor)
            == if Askable(q) then Ok(PageAt(env, c, q, limit, Rest(None))) else Err(Unhandled)
    ensures ListPage(env, c, q, limit, cursor).Ok? <==> '\0' !in q.q && forall t: string :: t in q.tags ==> '\0' !in t
  {
  }

  /** The page that is served, by what the cursor carries. */
  lemma PageOfACursor(env: Env, c: Tables, q: Query, limit: int, cursor: string, v: Value, i: Json)
    requires cursor != "" && Placed(env, q.sort, cursor, v, i) && Taken(env, v, i) && Askable(q)
    ensures ListPage(env, c, q, limit, Some(cursor))
            == Ok(PageAt(env, c, q, limit, PlaceOf(q.sort, v, BoundId(env, i).value)))
  {
    PlacedDecodes(env, q.sort, cursor, v, i);
  }

  // Inputs of each kind.

  /** 500: text that is not ASCII, wherever that is. */
  lemma AccentFails(env: Env, c: Tables, q: Query, limit: int, cursor: string, i: nat)
    requires i < |cursor| && cursor[i] > '\U{007F}'
    ensures ListPage(env, c, q, limit, Some(cursor)) == Err(Unhandled)
  {
  }

  /** 500: a number of 5000 digits where JSON of an object should be. */
  lemma LongNumberFails(env: Env, c: Tables, q: Query, limit: int)
    requires env.formats.LimitsIntegers()
    ensures var number := StripPadding(Encode64(seq(5000, _ => '1' as Byte)));
            IsAscii(number) && ListPage(env, c, q, limit, Some(number)) == Err(Unhandled)
  {
    LongNumberStumbles(env.formats, 5000);
    BytesMakeText(seq(5000, _ => '1' as Byte));
    AnswerOfACursor(env, c, q, limit, StripPadding(Encode64(seq(5000, _ => '1' as Byte))));
  }

  /** 500: an id that is no uuid, or a value that cannot be sent. */
  lemma MisplacedFails(env: Env, c: Tables, q: Query, limit: int, value: Value, id: string)
    requires env.Sound() && Fits(q.sort, value) && (env.idOf(id).None? || !Bindable(value))
    ensures var cursor := EncodeCursor(env.formats, q.sort, value, id);
            IsAscii(cursor) && ListPage(env, c, q, limit, Some(cursor)) == Err(Unhandled)
  {
    CursorRoundTrip(env.formats, q.sort, value, id, q.sort);
    CursorsAreNotEmpty(env.formats, q.sort, value, id);
  }

  /** Such as a name that is a NUL. */
  lemma NulFails(env: Env, c: Tables, q: Query, limit: int)
    requires env.Sound() && q.sort.ByName?
    ensures var cursor := EncodeCursor(env.formats, ByName, Text("\0"), env.idText(0));
            IsAscii(cursor) && ListPage(env, c, q, limit, Some(cursor)) == Err(Unhandled)
  {
    assert "\0"[0] == '\0';
    MisplacedFails(env, c, q, limit, Text("\0"), env.idText(0));
  }

  /** Or a time just outside the range: 0001-01-01T00:00:00+14:00 is one, 14 hours below it. */
  lemma OutOfRangeFails(env: Env, c: Tables, q: Query, limit: int)
    requires env.Sound() && q.sort.Recent?
    ensures var early := EncodeCursor(env.formats, Recent, Instant(MIN_TIME - 14 * 3_600_000_000), env.idText(0));
            IsAscii(early) && ListPage(env, c, q, limit, Some(early)) == Err(Unhandled)
    ensures var late := EncodeCursor(env.formats, Recent, Instant(MAX_TIME + 14 * 3_600_000_000), env.idText(0));
            IsAscii(late) && ListPage(env, c, q, limit, Some(late)) == Err(Unhandled)
  {
    MisplacedFails(env, c, q, limit, Instant(MIN_TIME - 14 * 3_600_000_000), env.idText(0));
    MisplacedFails(env, c, q, limit, Instant(MAX_TIME + 14 * 3_600_000_000), env.idText(0));
  }

  /** To the microsecond: a time is served exactly from 0001-01-01 to before 10000-01-01, in UTC. */
  lemma TimesThatServe(env: Env, c: Tables, q: Query, limit: int, t: int, id: nat)
    requires env.Sound() && q.sort.Recent? && Askable(q)
    ensures var answer := ListPage(env, c, q, limit, Some(EncodeCursor(env.formats, Recent, Instant(t), env.idText(id))));
            if -62_135_596_800_000_000 <= t < 253_402_300_800_000_000 then answer.Ok? else answer == Err(Unhandled)
  {
    CursorRoundTrip(env.formats, Recent, Instant(t), env.idText(id), Recent);
    CursorsAreNotEmpty(env.formats, Recent, Instant(t), env.idText(id));
  }

  /** 500: a NUL in the search text, whatever place the cursor carries, or without one. */
  lemma NulInTheSearchFails(env: Env, c: Tables, viewer: Viewer, tags: seq<string>, sort: Sort, limit: int)
    ensures ListPage(env, c, Query(viewer, "\0", tags, sort), limit, None) == Err(Unhandled)
    ensures ListPage(env, c, Query(viewer, "", ["\0"], sort), limit, None) == Err(Unhandled)
  {
    assert "\0"[0] == '\0' && ["\0"][0] == "\0";
  }

  lemma SentServes(env: Env, c: Tables, q: Query, limit: int, p: Payload, v: Value)
    requires env.Sound() && Askable(q) && Plain(p.v) && Plain(p.i)
    requires p.s == JText(SortName(q.sort)) && ReadValue(env.formats, q.sort, p.v) == Some(v) && Taken(env, v, p.i)
    ensures ListPage(env, c, q, limit, Some(Sent(env.formats, p)))
            == Ok(PageAt(env, c, q, limit, PlaceOf(q.sort, v, BoundId(env, p.i).value)))
  {
    SentIsCarried(env.formats, p);
    BytesMakeText(env.formats.dumps(p));
    PageOfACursor(env, c, q, limit, Sent(env.formats, p), v, p.i);
  }

  /** A page: a null id with a good value lists what is strictly beyond the value, ties left out. */
  lemma NullIdServes(env: Env, c: Tables, q: Query, limit: int, v: Value)
    requires env.Sound() && Askable(q) && Fits(q.sort, v) && Bindable(v)
    ensures var text := if v.Instant? then env.formats.isoFormat(v.at) else v.text;
            ListPage(env, c, q, limit, Some(Sent(env.formats, Payload(JText(if q.sort.Recent? then "recent" else "name"), JText(text), JNull))))
            == Ok(PageAt(env, c, q, limit, Beyond(PositionOf(q.sort, v, 0).major)))
  {
    var text := if v.Instant? then env.formats.isoFormat(v.at) else v.text;
    SentServes(env, c, q, limit, Payload(JText(SortName(q.sort)), JText(text), JNull), v);
  }

  /** A page, and an empty one: a null name. */
  lemma NullNameServesNothing(env: Env, c: Tables, q: Query, limit: int, i: Json)
    requires env.Sound() && Askable(q) && q.sort.ByName? && Plain(i) && BoundId(env, i).Some?
    ensures ListPage(env, c, q, limit, Some(Sent(env.formats, Payload(JText("name"), JNull, i)))) == Ok(Listing([], None))
  {
    SentServes(env, c, q, limit, Payload(JText("name"), JNull, i), NoText);
    var none: set<Key> := {};
    assert Allowed(MatchingKeys(env, c, q), Nowhere) == none && After(none, None) == none && Sorted(none) == [];
  }

  /** 400: a null time. */
  lemma NullTimeIsRefused(env: Env, c: Tables, q: Query, limit: int, i: Json)
    requires env.Sound() && q.sort.Recent? && Plain(i)
    ensures ListPage(env, c, q, limit, Some(Sent(env.formats, Payload(JText("recent"), JNull, i)))) == Err(Invalid)
  {
    var p := Payload(JText("recent"), JNull, i);
    SentIsCarried(env.formats, p);
    BytesMakeText(env.formats.dumps(p));
    DecodeByContents(env.formats, Sent(env.formats, p), Recent);
  }

  // ---- the store --------------------------------------------------------------------------

  /** ORDER BY and LIMIT limit + 1; the last row kept is the one the next cursor is made of. */
  method FetchPage(keys: set<Key>, limit: nat) returns (p: Page)
    requires limit > 0
    ensures p == PageOf(keys, None, limit)
  {
    var rows := Take(Sorted(keys), limit + 1);
    var next := None;
    if |rows| > limit {
      rows := rows[..limit];
      next := Some(rows[limit - 1]);
    }
    p := Page(rows, next);
  }

  /** `if cursor:` and what binding its two values to the statement comes to. */
  method ReadCursor(env: Env, sort: Sort, cursor: Option<string>) returns (r: Result<Place, CursorError>)
    ensures r == CursorPlace(env, sort, cursor)
  {
    if cursor.None? || cursor.value == "" {
      return Ok(Rest(None));
    }
    var decoded := DecodeCursor(env.formats, cursor.value, sort);
    if decoded.Err? {
      return Err(decoded.error);
    }
    var (value, i) := decoded.value;
    if !Bindable(value) || i.JOther? {
      return Err(Unhandled);
    }
    if i.JText? {
      var id := env.idOf(i.text);
      if id.None? {
        return Err(Unhandled);
      }
      return Ok(if value.NoText? then Nowhere else Rest(Some(PositionOf(sort, value, id.value))));
    }
    r := Ok(if value.NoText? then Nowhere else Beyond(PositionOf(sort, value, 0).major));
  }

  class Store {
    var cards: map<nat, Card>
    var tags: set<(nat, DbText)>
    var teams: set<(nat, DbText)>
    var health: map<nat, Status>
    ghost var issued: set<nat>

    ghost function State(): Tables
      reads this
    {
      Tables(cards, tags, teams, health, issued)
    }

    constructor ()
      ensures Valid(State()) && cards == map[] && issued == {}
    {
      cards, tags, teams, health, issued := map[], {}, {}, map[], {};
    }

    /** `id` is the uuid the database generates; false is a unique violation, rolled back. */
    method CreateConnector(id: nat, body: Body, newTags: seq<DbText>, newTeams: seq<DbText>, creator: string, now: DbTime)
      returns (ok: bool)
      requires Valid(State()) && id !in issued
      modifies this
      ensures Valid(State())
      ensures State() == Apply(old(State()), Create(id, body, newTags, newTeams, creator, now))
      ensures ok <==> NoDuplicates(newTags) && NoDuplicates(newTeams)
    {
      ApplyContinues(State(), Create(id, body, newTags, newTeams, creator, now));
      ok := NoDuplicates(newTags) && NoDuplicates(newTeams);
      if ok {
        cards := cards[id := Card(body.name, body.shortDescription, body.scope, creator, now, false)];
        ReplaceChildren(id, newTags, newTeams);
        health := health[id := Unknown];
        issued := issued + {id};
      }
    }

    /** An unknown id updates no row; child rows for it would violate the foreign key. */
    method UpdateConnector(id: nat, body: Body, newTags: seq<DbText>, newTeams: seq<DbText>) returns (ok: bool)
      requires Valid(State())
      modifies this
      ensures Valid(State())
      ensures State() == Apply(old(State()), Update(id, body, newTags, newTeams))
      ensures ok <==> NoDuplicates(newTags) && NoDuplicates(newTeams)
                      && (id in cards || (newTags == [] && newTeams == []))
    {
      ApplyContinues(State(), Update(id, body, newTags, newTeams));
      ok := NoDuplicates(newTags) && NoDuplicates(newTeams)
            && (id in cards || (newTags == [] && newTeams == []));
      if ok && id in cards {
        cards := cards[id := cards[id].(name := body.name, shortDescription := body.shortDescription, scope := body.scope)];
        ReplaceChildren(id, newTags, newTeams);
      }
    }

    method ReplaceChildren(id: nat, newTags: seq<DbText>, newTeams: seq<DbText>)
      modifies this`tags, this`teams
      ensures tags == Replaced(old(tags), id, newTags)
      ensures teams == Replaced(old(teams), id, newTeams)
    {
      tags := (set p | p in tags && p.0 != id);
      tags := tags + (set v | v in newTags :: (id, v));
      teams := (set p | p in teams && p.0 != id);
      teams := teams + (set v | v in newTeams :: (id, v));
    }

    /** The foreign keys cascade. */
    method DeleteConnector(id: nat)
      requires Valid(State())
      modifies this
      ensures Valid(State())
      ensures State() == Apply(old(State()), Delete(id))
      ensures id !in cards && id !in health && (forall p :: p in tags + teams ==> p.0 != id)
    {
      ApplyContinues(State(), Delete(id));
      cards := cards - {id};
      tags := (set p | p in tags && p.0 != id);
      teams := (set p | p in teams && p.0 != id);
      health := health - {id};
    }

    /** The WHERE clause, grown filter by filter. */
    method FilterCards(env: Env, viewer: Viewer, q: string, wanted: seq<string>, sort: Sort)
      returns (rows: set<nat>)
      ensures rows == MatchingIds(env, State(), Query(viewer, q, wanted, sort))
      ensures forall id: nat :: id in rows <==>
                && id in cards && !cards[id].archived
                && (|| cards[id].scope == Global
                    || cards[id].creator == (if viewer.userId.Some? then viewer.userId.value else "")
                    || (cards[id].scope.Team? && cards[id].scope.code in viewer.teams)
                    || exists t :: t in viewer.teams && (id, t) in teams)
                && (q == "" || env.matches(q, cards[id].name, cards[id].shortDescription) || (id, env.lower(q)) in tags)
                && (forall t: string :: t in wanted ==> (id, t) in tags)
    {
      var viewerId := ViewerId(viewer);
      rows := set id | id in cards && !cards[id].archived &&
        (|| cards[id].scope.Global?
         || cards[id].creator == viewerId
         || (cards[id].scope.Team? && cards[id].scope.code in viewer.teams)
         || (exists t :: t in viewer.teams && (id, t) in teams));
      if q != "" {
        rows := set id | id in rows &&
          (env.matches(q, cards[id].name, cards[id].shortDescription) || (id, env.lower(q)) in tags);
      }
      if wanted != [] {
        forall id: nat ensures |Found(tags, id, wanted)| == |Distinct(wanted)| <==> forall t: string :: t in wanted ==> (id, t) in tags {
          DistinctCountMeansAll(tags, id, wanted);
        }
        var tagCount := |Distinct(wanted)|;
        rows := set id | id in rows && |Found(tags, id, wanted)| == tagCount;
      }
      assert forall id :: id in rows <==> Matches(env, State(), Query(viewer, q, wanted, sort), id);
    }

    /** A page: one row more than asked for is read, and only tells that there is a next page. */
    method ListConnectors(env: Env, viewer: Viewer, q: string, wanted: seq<string>, sort: Sort, limit: int, cursor: Option<string>)
      returns (r: Result<Listing, CursorError>)
      ensures r == ListPage(env, State(), Query(viewer, q, wanted, sort), limit, cursor)
    {
      var size := ClampLimit(limit);
      var ids := FilterCards(env, viewer, q, wanted, sort);
      var keys := KeysOf(cards, sort, ids);
      var place := ReadCursor(env, sort, cursor);
      if place.Err? {
        return Err(place.error);
      }
      if !Storable(q) || exists t :: t in wanted && !Storable(t) {
        return Err(Unhandled);
      }
      var page := FetchPage(Allowed(keys, place.value), size);
      var next := None;
      if page.next.Some? {
        var last := IdOf(sort, page.next.value);
        next := Some(if last in cards
                     then EncodeCursor(env.formats, sort, SortValue(sort, cards[last]), env.idText(last))
                     else "");
      }
      r := Ok(Listing(IdsOf(sort, page.rows), next));
    }
  }
}
