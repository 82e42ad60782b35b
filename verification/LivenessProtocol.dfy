/**
 The liveness protocol: sweeps of the worker, manual rechecks, tool refreshes and card
 changes, interleaved at every point where the code awaits the network or the database.

 A sweep reads its candidates in one statement, probes each outside any transaction, and
 records each result in a transaction of its own, guarded by a compare-and-set on
 last_checked_at. A manual recheck does the same without the guard. Each event below is one
 such atomic piece; a run is any sequence of enabled events.

 A record is stamped with now(), the start of its transaction, and transactions commit in any
 order. So nothing is assumed about stamps: two records may share one, and a later record may
 carry an earlier one.
 */
module LivenessProtocol {
  import opened Options
  import opened KeyOrder
  import opened McpClient
  import opened Probes

  // ---- history ----------------------------------------------------------------------------

  /** Who wrote an accepted record: a recheck, or one candidate of one sweep. */
  datatype Writer = Manual | Worker(tick: nat, slot: nat)

  /** The accepted records of one connector, oldest first. */
  datatype History = History(checks: seq<Check>, writers: seq<Writer>)

  const NoHistory := History([], [])

  function Extend(h: History, c: Check, writer: Writer): History {
    History(h.checks + [c], h.writers + [writer])
  }

  function LastAt(checks: seq<Check>): Option<int> {
    if checks == [] then None else Some(checks[|checks| - 1].at)
  }

  // ---- sweeps -----------------------------------------------------------------------------

  /** `observed` counts the records accepted for the connector before the sweep read it. */
  datatype Candidate = Candidate(id: nat, transport: Transport, seen: Option<int>, observed: nat)

  datatype Verdict = WasHealthy | WasUnhealthy | WasSuperseded | WasError | DidRaise

  datatype Task = Queued | Probing | Probed(result: Liveness) | Done(verdict: Verdict)

  /** `timeout` is the limit of one attempt, as the process that started it was configured. */
  datatype Tick = Tick(candidates: seq<Candidate>, tasks: seq<Task>, alive: bool, timeout: real)

  /** A manual recheck or a tools refresh between its read and its write. */
  datatype Request = Request(id: nat, transport: Transport, timeout: real)

  datatype World = World(
    db: Db, log: map<nat, History>, ticks: map<nat, Tick>,
    rechecks: map<nat, Request>, refreshes: map<nat, Request>,
    saves: map<nat, seq<Fetch>>)   // the committed saves of each card's tools, oldest first

  predicate Eligible(db: Db, id: nat) {
    && id in db.cards
    && !db.cards[id].archived && db.cards[id].endpoint.Some? && db.cards[id].transport.Some?
  }

  /** The LEFT JOIN: no health row reads as never checked. */
  function LastChecked(db: Db, id: nat): Option<int> {
    if id in db.health then db.health[id].lastChecked else None
  }

  /** ORDER BY last_checked_at ASC NULLS FIRST, connector_id */
  function DueKey(db: Db, id: nat): Key {
    Key(match LastChecked(db, id) case None => [] case Some(t) => [t], id)
  }

  function DueKeys(db: Db): set<Key> {
    set id | id in db.cards && Eligible(db, id) :: DueKey(db, id)
  }

  function Due(db: Db, limit: nat): seq<Key> {
    Take(Sorted(DueKeys(db)), limit)
  }

  function LogOf(log: map<nat, History>, id: nat): History {
    if id in log then log[id] else NoHistory
  }

  function CandidateFor(w: World, id: nat): Candidate {
    Candidate(
      id,
      if Eligible(w.db, id) then w.db.cards[id].transport.value else StreamableHttp,
      LastChecked(w.db, id),
      |LogOf(w.log, id).checks|)
  }

  /** One statement: the connectors longest unchecked, never-checked ones first. */
  function FetchCandidates(w: World, limit: nat): (c: seq<Candidate>)
    ensures |c| == |Due(w.db, limit)|
  {
    var due := Due(w.db, limit);
    seq(|due|, i requires 0 <= i < |due| => CandidateFor(w, RowId(due[i])))
  }

  function FreshTick(c: seq<Candidate>, timeout: real): Tick {
    Tick(c, seq(|c|, _ => Queued), true, timeout)
  }

  function InFlight(tick: Tick): set<nat> {
    set i: nat | i < |tick.tasks| && (tick.tasks[i].Probing? || tick.tasks[i].Probed?)
  }

  // ---- the record transaction -------------------------------------------------------------

  datatype Settled = Stored | Superseded | RolledBack

  /**
   record_health, then correct_transport if another transport answered, in one transaction:
   a constraint violation in either leaves nothing behind.
   */
  function Settle(db: Db, id: nat, read: Transport, result: Liveness, guard: Guard, now: int): (Db, Settled) {
    var (recorded, r) := RecordHealth(db, id, result.healthy, result.failure, guard, now);
    match r
    case ForeignKeyViolation => (db, RolledBack)
    case Yielded => (db, Superseded)
    case Written(_) =>
      if result.transport.Some? && result.transport.value != read then
        match CorrectTransport(recorded, id, result.transport.value)
        case None => (db, RolledBack)
        case Some(corrected) => (corrected, Stored)
      else (recorded, Stored)
  }

  function VerdictOf(s: Settled, result: Liveness): Verdict {
    match s
    case RolledBack => WasError
    case Superseded => WasSuperseded
    case Stored => if result.healthy then WasHealthy else WasUnhealthy
  }

  // ---- steps ------------------------------------------------------------------------------

  datatype Event =
    // the worker
    | StartTick(tick: nat, limit: nat, timeout: real)
    | Acquire(tick: nat, slot: nat)
    | ProbeEnds(tick: nat, slot: nat, result: Liveness)
    | ProbeRaises(tick: nat, slot: nat)
    | Record(tick: nat, slot: nat, now: int)
    | RecordFails(tick: nat, slot: nat)
    | CrashTick(tick: nat)
    // the API
    | StartRecheck(req: nat, id: nat, timeout: real)
    | FinishRecheck(req: nat, result: Liveness, now: int)
    | AbandonRecheck(req: nat)
    | StartRefresh(req: nat, id: nat, timeout: real)
    | FinishRefresh(req: nat, tools: Option<seq<string>>, used: Transport, failure: Option<Failure>, now: int)
    | AbandonRefresh(req: nat)
    // people; registering a card goes on to a refresh from the transport it was posted with
    | CreateCard(id: nat, card: Card, withHealthRow: bool, req: nat, timeout: real)
    | EditCard(id: nat, endpoint: Option<string>, transport: Option<Transport>)
    | SetArchived(id: nat, archived: bool)
    | DeleteCard(id: nat)

  ghost predicate AtTask(w: World, t: nat, i: nat) {
    t in w.ticks && w.ticks[t].alive && i < |w.ticks[t].tasks| && i < |w.ticks[t].candidates|
  }

  ghost predicate CardAllowed(c: Card) {
    c.transport.Some? ==> c.endpoint.Some? && Supported(c.transport.value)
  }

  ghost predicate HasTarget(db: Db, id: nat) {
    id in db.cards && db.cards[id].endpoint.Some? && db.cards[id].transport.Some?
  }

  /** cap is connector_outbound_concurrency. */
  ghost predicate Enabled(w: World, cap: nat, e: Event) {
    match e
    case StartTick(t, limit, _) => t !in w.ticks && limit >= 1
    case Acquire(t, i) => AtTask(w, t, i) && w.ticks[t].tasks[i].Queued? && |InFlight(w.ticks[t])| < cap
    case ProbeEnds(t, i, _) => AtTask(w, t, i) && w.ticks[t].tasks[i].Probing?
    case ProbeRaises(t, i) => AtTask(w, t, i) && w.ticks[t].tasks[i].Probing?
    case Record(t, i, _) => AtTask(w, t, i) && w.ticks[t].tasks[i].Probed?
    case RecordFails(t, i) => AtTask(w, t, i) && w.ticks[t].tasks[i].Probed?
    case CrashTick(t) => t in w.ticks && w.ticks[t].alive
    case StartRecheck(r, id, _) => r !in w.rechecks && HasTarget(w.db, id)
    case FinishRecheck(r, _, _) => r in w.rechecks
    case AbandonRecheck(r) => r in w.rechecks
    case StartRefresh(r, id, _) => r !in w.refreshes && HasTarget(w.db, id)
    case FinishRefresh(r, _, _, _, _) => r in w.refreshes
    case AbandonRefresh(r) => r in w.refreshes
    case CreateCard(id, card, _, req, _) => id !in w.log && CardAllowed(card) && req !in w.refreshes
    case EditCard(id, endpoint, transport) => id in w.db.cards && CardAllowed(Card(endpoint, transport, false))
    case SetArchived(id, _) => id in w.db.cards
    case DeleteCard(id) => id in w.db.cards
  }

  function SetTask(w: World, t: nat, i: nat, task: Task): World {
    if t in w.ticks && i < |w.ticks[t].tasks|
    then w.(ticks := w.ticks[t := w.ticks[t].(tasks := w.ticks[t].tasks[i := task])])
    else w
  }

  /** An accepted record enters the history of its connector. */
  function Accept(w: World, id: nat, c: Check, writer: Writer): World {
    w.(log := w.log[id := Extend(LogOf(w.log, id), c, writer)])
  }

  function ApplyRecord(w: World, t: nat, i: nat, now: int): World {
    if t in w.ticks && i < |w.ticks[t].tasks| && i < |w.ticks[t].candidates| && w.ticks[t].tasks[i].Probed? then
      var c := w.ticks[t].candidates[i];
      var result := w.ticks[t].tasks[i].result;
      var (db, settled) := Settle(w.db, c.id, c.transport, result, Seen(c.seen), now);
      var done := SetTask(w.(db := db), t, i, Done(VerdictOf(settled, result)));
      if settled.Stored?
      then Accept(done, c.id, Check(result.healthy, result.failure, now), Worker(t, i))
      else done
    else w
  }

  function ApplyRecheck(w: World, r: nat, result: Liveness, now: int): World {
    if r in w.rechecks then
      var q := w.rechecks[r];
      var (db, settled) := Settle(w.db, q.id, q.transport, result, AnyState, now);
      var done := w.(db := db, rechecks := w.rechecks - {r});
      if settled.Stored? then Accept(done, q.id, Check(result.healthy, result.failure, now), Manual) else done
    else w
  }

  /**
   A refresh writes the tools cache and, if another transport answered, the transport, in one
   transaction; None is a rollback.
   */
  function Refresh(db: Db, q: Request, tools: Option<seq<string>>, used: Transport, failure: Option<Failure>, now: int): Option<Db> {
    match SaveTools(db, q.id, tools, failure, now)
    case None => None
    case Some(saved) =>
      if tools.Some? && used != q.transport then CorrectTransport(saved, q.id, used) else Some(saved)
  }

  function RefreshDb(db: Db, q: Request, tools: Option<seq<string>>, used: Transport, failure: Option<Failure>, now: int): Db {
    match Refresh(db, q, tools, used, failure, now) case None => db case Some(after) => after
  }

  function SavesIn(saves: map<nat, seq<Fetch>>, id: nat): seq<Fetch> {
    if id in saves then saves[id] else []
  }

  function ApplyRefresh(w: World, r: nat, tools: Option<seq<string>>, used: Transport, failure: Option<Failure>, now: int): World {
    if r in w.refreshes then
      var q := w.refreshes[r];
      var done := w.(db := RefreshDb(w.db, q, tools, used, failure, now), refreshes := w.refreshes - {r});
      if Refresh(w.db, q, tools, used, failure, now).Some?
      then done.(saves := w.saves[q.id := SavesIn(w.saves, q.id) + [Fetch(tools, failure, now)]])
      else done
    else w
  }

  function Apply(w: World, e: Event): World {
    match e
    case StartTick(t, limit, timeout) =>
      w.(ticks := w.ticks[t := FreshTick(FetchCandidates(w, limit), timeout)])
    case Acquire(t, i) => SetTask(w, t, i, Probing)
    case ProbeEnds(t, i, result) => SetTask(w, t, i, Probed(result))
    case ProbeRaises(t, i) => SetTask(w, t, i, Done(DidRaise))
    case Record(t, i, now) => ApplyRecord(w, t, i, now)
    case RecordFails(t, i) => SetTask(w, t, i, Done(WasError))
    case CrashTick(t) => if t in w.ticks then w.(ticks := w.ticks[t := w.ticks[t].(alive := false)]) else w
    case StartRecheck(r, id, timeout) =>
      if id in w.db.cards && w.db.cards[id].transport.Some?
      then w.(rechecks := w.rechecks[r := Request(id, w.db.cards[id].transport.value, timeout)]) else w
    case FinishRecheck(r, result, now) => ApplyRecheck(w, r, result, now)
    case AbandonRecheck(r) => w.(rechecks := w.rechecks - {r})
    case StartRefresh(r, id, timeout) =>
      if id in w.db.cards && w.db.cards[id].transport.Some?
      then w.(refreshes := w.refreshes[r := Request(id, w.db.cards[id].transport.value, timeout)]) else w
    case FinishRefresh(r, tools, used, failure, now) => ApplyRefresh(w, r, tools, used, failure, now)
    case AbandonRefresh(r) => w.(refreshes := w.refreshes - {r})
    case CreateCard(id, card, withHealthRow, req, timeout) =>
      w.(db := w.db.(cards := w.db.cards[id := card],
                     health := if withHealthRow then w.db.health[id := FreshRow] else w.db.health),
         log := w.log[id := NoHistory],
         refreshes := if card.transport.Some?
                      then w.refreshes[req := Request(id, card.transport.value, timeout)] else w.refreshes)
    case EditCard(id, endpoint, transport) =>
      if id in w.db.cards
      then w.(db := w.db.(cards := w.db.cards[id := w.db.cards[id].(endpoint := endpoint, transport := transport)])) else w
    case SetArchived(id, archived) =>
      if id in w.db.cards
      then w.(db := w.db.(cards := w.db.cards[id := w.db.cards[id].(archived := archived)])) else w
    case DeleteCard(id) =>
      w.(db := Db(w.db.cards - {id}, w.db.health - {id}, w.db.tools - {id}))
  }

  // ---- runs -------------------------------------------------------------------------------

  const EmptyWorld := World(Db(map[], map[], map[]), map[], map[], map[], map[], map[])

  function Run(w: World, es: seq<Event>): World {
    if es == [] then w else Apply(Run(w, es[..|es| - 1]), es[|es| - 1])
  }

  ghost predicate Legal(w: World, cap: nat, es: seq<Event>) {
    es == [] ||
    (Legal(w, cap, es[..|es| - 1]) && Enabled(Run(w, es[..|es| - 1]), cap, es[|es| - 1]))
  }
}
