/**
 Writing the answering transport back: against a server that behaves the same way every time,
 and while the owner does not edit the card, the stored transport settles after the first
 healthy check, with sweeps, rechecks and tools refreshes interleaved in any way.
 */
module WriteBack {
  import opened Options
  import opened McpClient
  import opened Probes
  import opened LivenessProtocol
  import opened LivenessSafety
  import opened LivenessResults

  // ---- a server with a fixed behaviour ----------------------------------------------------

  /**
   One server, asked for a bare handshake or for a handshake and its tools, under timeouts that
   differ: a registration, a later refresh and a check each have their own.
   */
  datatype Server = Server(live: Endpoint<bool>, tools: Endpoint<seq<string>>) {
    /** A liveness check succeeds by the handshake, which a tools fetch goes through as well. */
    ghost predicate Same() {
      && live.allowed == tools.allowed
      && (forall t :: live.reply(t).result.Ok? <==> tools.reply(t).handshake)
      && (forall t :: tools.reply(t).result.Ok? ==> tools.reply(t).handshake)
    }

    ghost function Probe(t: Transport, timeout: real): Result<Liveness, Exc> {
      LivenessOf(Fallback(live, t, timeout).outcome)
    }

    ghost function Fetch(t: Transport, timeout: real): Outcome<seq<string>> {
      Fallback(tools, t, timeout).outcome
    }

    /** The first attempt of a check on t succeeds. */
    ghost predicate Answers(t: Transport, timeout: real) {
      Attempt(live, t, timeout).result.Ok?
    }

    ghost predicate AnswersFetch(t: Transport, timeout: real) {
      Attempt(tools, t, timeout).result.Ok?
    }

    /** It shakes hands on t, given time. */
    ghost predicate Serves(t: Transport) {
      live.allowed && Supported(t) && live.reply(t).result.Ok?
    }

    ghost predicate ProbeMoves(t: Transport, timeout: real) {
      Probe(t, timeout).Ok? && Probe(t, timeout).value.transport == Some(OtherTransport(t))
    }

    ghost predicate FetchMoves(t: Transport, timeout: real) {
      Fetch(t, timeout).Success? && Fetch(t, timeout).transport == OtherTransport(t)
    }

    /** Some check or tools fetch that starts from t succeeds on the other transport. */
    ghost predicate MovesAway(t: Transport) {
      (exists timeout :: ProbeMoves(t, timeout)) || (exists timeout :: FetchMoves(t, timeout))
    }
  }

  /** A transport that serves never declines, whatever the timeout, so nothing moves away from it. */
  lemma ServingTransportStays(sv: Server, t: Transport)
    requires sv.Same() && sv.Serves(t)
    ensures !sv.MovesAway(t)
  {
    assert OtherTransport(t) != t;
    forall timeout ensures !sv.ProbeMoves(t, timeout) && !sv.FetchMoves(t, timeout) {
      assert !Declined(Attempt(sv.live, t, timeout)) && !Declined(Attempt(sv.tools, t, timeout));
    }
  }

  /**
   On a transport that answered a check, a check that is given at least as long needs one
   attempt, and nothing moves away from it.
   */
  lemma AnsweringTransportStays(sv: Server, t: Transport, timeout: real, longer: real)
    requires sv.Same() && sv.Answers(t, timeout) && timeout <= longer
    ensures Fallback(sv.live, t, longer).tried == [t]
    ensures sv.Probe(t, longer) == Ok(Liveness(true, Some(t), None))
    ensures sv.Serves(t) && !sv.MovesAway(t)
  {
    ServingTransportStays(sv, t);
  }

  lemma FetchingTransportStays(sv: Server, t: Transport, timeout: real, longer: real)
    requires sv.Same() && sv.AnswersFetch(t, timeout) && timeout <= longer
    ensures Fallback(sv.tools, t, longer).tried == [t]
    ensures sv.Fetch(t, longer).Success? && sv.Fetch(t, longer).transport == t
    ensures sv.Serves(t) && !sv.MovesAway(t)
  {
    ServingTransportStays(sv, t);
  }

  /** The two transports cannot both be left for each other, under any timeouts. */
  lemma NeverBackAndForth(sv: Server, t: Transport)
    requires sv.Same() && Supported(t) && sv.MovesAway(t)
    ensures sv.Serves(OtherTransport(t)) && !sv.MovesAway(OtherTransport(t))
  {
    if timeout :| sv.ProbeMoves(t, timeout) {
      ProbeLands(sv, t, timeout);
    } else {
      var timeout :| sv.FetchMoves(t, timeout);
      FetchLands(sv, t, timeout);
    }
    ServingTransportStays(sv, OtherTransport(t));
  }

  lemma ProbeLands(sv: Server, t: Transport, timeout: real)
    requires sv.Same() && Supported(t)
    ensures sv.Probe(t, timeout).Ok? && sv.Probe(t, timeout).value.transport.Some? ==>
              var u := sv.Probe(t, timeout).value.transport.value;
              && (u == t || (u == OtherTransport(t) && sv.MovesAway(t)))
              && sv.Answers(u, timeout) && sv.Serves(u)
    ensures sv.Probe(t, timeout).Ok? ==>
              (sv.Probe(t, timeout).value.healthy <==> sv.Probe(t, timeout).value.transport.Some?)
  {
    assert sv.ProbeMoves(t, timeout) ==> sv.MovesAway(t);
  }

  lemma FetchLands(sv: Server, t: Transport, timeout: real)
    requires sv.Same() && Supported(t)
    ensures sv.Fetch(t, timeout).Success? ==>
              var u := sv.Fetch(t, timeout).transport;
              && (u == t || (u == OtherTransport(t) && sv.MovesAway(t)))
              && sv.AnswersFetch(u, timeout) && sv.Serves(u)
  {
    assert sv.FetchMoves(t, timeout) ==> sv.MovesAway(t);
  }

  // ---- honest runs ------------------------------------------------------------------------

  /** For card x the server's own answers come in, and the owner leaves the card as it is. */
  ghost predicate Honest(w: World, e: Event, x: nat, sv: Server) {
    match e
    case ProbeEnds(t, i, result) =>
      AtTask(w, t, i) && w.ticks[t].candidates[i].id == x ==>
        sv.Probe(w.ticks[t].candidates[i].transport, w.ticks[t].timeout) == Ok(result)
    case FinishRecheck(r, result, _) =>
      r in w.rechecks && w.rechecks[r].id == x ==> sv.Probe(w.rechecks[r].transport, w.rechecks[r].timeout) == Ok(result)
    case FinishRefresh(r, tools, used, _, _) =>
      r in w.refreshes && w.refreshes[r].id == x ==> HonestFetch(w.refreshes[r], tools, used, sv)
    case EditCard(id, _, _) => id != x
    case _ => true
  }

  ghost predicate HonestRun(w: World, es: seq<Event>, x: nat, sv: Server) {
    forall i :: 0 <= i < |es| ==> Honest(Run(w, es[..i]), es[i], x, sv)
  }

  ghost function Stored(w: World, x: nat): Option<Transport> {
    if x in w.db.cards then w.db.cards[x].transport else None
  }

  ghost predicate OpenTask(ticks: map<nat, Tick>, x: nat, t: nat, i: nat) {
    && t in ticks && i < |ticks[t].tasks| && i < |ticks[t].candidates|
    && ticks[t].candidates[i].id == x && !ticks[t].tasks[i].Done?
  }

  // ---- what the steps keep ------------------------------------------------------------------

  ghost predicate TasksFit(ticks: map<nat, Tick>, x: nat, a: Transport, s: Transport, sv: Server) {
    forall t: nat, i: nat :: OpenTask(ticks, x, t, i) ==>
      && (ticks[t].candidates[i].transport == a || ticks[t].candidates[i].transport == s)
      && (ticks[t].tasks[i].Probed? ==> sv.Probe(ticks[t].candidates[i].transport, ticks[t].timeout) == Ok(ticks[t].tasks[i].result))
  }

  ghost predicate RequestsFit(reqs: map<nat, Request>, x: nat, a: Transport, s: Transport) {
    forall r :: r in reqs && reqs[r].id == x ==> reqs[r].transport == a || reqs[r].transport == s
  }

  /** From a, the stored transport may have moved to s; everything in flight read a or s. */
  ghost predicate Moved(a: Transport, s: Transport, sv: Server) {
    s == a || (s == OtherTransport(a) && sv.MovesAway(a))
  }

  ghost predicate Tracks(w: World, x: nat, a: Transport, sv: Server) {
    && x in w.log
    && (x in w.db.cards ==>
          && w.db.cards[x].transport.Some?
          && var s := w.db.cards[x].transport.value;
             && Moved(a, s, sv)
             && TasksFit(w.ticks, x, a, s, sv)
             && RequestsFit(w.rechecks, x, a, s) && RequestsFit(w.refreshes, x, a, s))
  }

  /** Moving on from a does not unsettle what has read a or the transport stored before. */
  lemma FitsAfterMove(ticks: map<nat, Tick>, reqs: map<nat, Request>, x: nat, a: Transport, s: Transport, s': Transport, sv: Server)
    requires s' == s || s == a
    ensures TasksFit(ticks, x, a, s, sv) ==> TasksFit(ticks, x, a, s', sv)
    ensures RequestsFit(reqs, x, a, s) ==> RequestsFit(reqs, x, a, s')
  {
    if TasksFit(ticks, x, a, s, sv) {
      forall t: nat, i: nat | OpenTask(ticks, x, t, i)
        ensures ticks[t].candidates[i].transport == a || ticks[t].candidates[i].transport == s'
        ensures ticks[t].tasks[i].Probed? ==> sv.Probe(ticks[t].candidates[i].transport, ticks[t].timeout) == Ok(ticks[t].tasks[i].result)
      {
      }
    }
  }

  /** Tasks only get closed, or keep their candidate and their result. */
  ghost predicate FewerOpen(ticks: map<nat, Tick>, ticks': map<nat, Tick>, x: nat) {
    forall t: nat, i: nat :: OpenTask(ticks', x, t, i) ==>
      && OpenTask(ticks, x, t, i)
      && ticks'[t].candidates[i] == ticks[t].candidates[i] && ticks'[t].timeout == ticks[t].timeout
      && (ticks'[t].tasks[i].Probed? ==> ticks'[t].tasks[i] == ticks[t].tasks[i])
  }

  lemma FewerOpenFits(ticks: map<nat, Tick>, ticks': map<nat, Tick>, x: nat, a: Transport, s: Transport, sv: Server)
    requires TasksFit(ticks, x, a, s, sv) && FewerOpen(ticks, ticks', x)
    ensures TasksFit(ticks', x, a, s, sv)
  {
    forall t: nat, i: nat | OpenTask(ticks', x, t, i)
      ensures ticks'[t].candidates[i].transport == a || ticks'[t].candidates[i].transport == s
      ensures ticks'[t].tasks[i].Probed? ==> sv.Probe(ticks'[t].candidates[i].transport, ticks'[t].timeout) == Ok(ticks'[t].tasks[i].result)
    {
      assert OpenTask(ticks, x, t, i);
    }
  }

  /** What a correction made from a read r does to the stored transport. */
  lemma CorrectionMoves(a: Transport, s: Transport, r: Transport, u: Transport, sv: Server)
    requires sv.Same() && Supported(a) && Moved(a, s, sv) && (r == a || r == s)
    requires u == OtherTransport(r) && sv.MovesAway(r)
    ensures r == a && u == OtherTransport(a) && sv.MovesAway(a) && Moved(a, u, sv)
    ensures s == a || s == u
  {
    if r != a { NeverBackAndForth(sv, a); }
  }

  /** The step relation of the stored transport. */
  ghost predicate Advances(a: Transport, s: Transport, s': Transport, sv: Server) {
    s' == s || (s == a && s' == OtherTransport(a) && sv.MovesAway(a))
  }

  lemma SettleTransport(db: Db, id: nat, read: Transport, timeout: real, result: Liveness, guard: Guard, now: int,
                        x: nat, a: Transport, sv: Server)
    requires sv.Same() && Supported(a) && x in db.cards && db.cards[x].transport.Some?
    requires Moved(a, db.cards[x].transport.value, sv)
    requires id == x ==> (read == a || read == db.cards[x].transport.value) && sv.Probe(read, timeout) == Ok(result)
    ensures var (db', settled) := Settle(db, id, read, result, guard, now);
            && x in db'.cards && db'.cards[x].transport.Some?
            && Moved(a, db'.cards[x].transport.value, sv)
            && Advances(a, db.cards[x].transport.value, db'.cards[x].transport.value, sv)
            && (id == x && settled.Stored? && result.healthy ==> sv.Answers(db'.cards[x].transport.value, timeout))
  {
    if id == x {
      var s := db.cards[x].transport.value;
      var (db', settled) := Settle(db, id, read, result, guard, now);
      ProbeLands(sv, read, timeout);
      if settled.Stored? && result.transport.Some? {
        var u := result.transport.value;
        if u != read {
          CorrectionMoves(a, s, read, u, sv);
        } else if s != read {
          ServingTransportStays(sv, read);
        }
      }
    }
  }

  /** A step that closes or keeps what is in flight for x and advances the stored transport. */
  lemma TracksFrame(w: World, w': World, x: nat, a: Transport, sv: Server)
    requires Tracks(w, x, a, sv) && x in w'.log
    requires x in w'.db.cards ==>
               && x in w.db.cards && w'.db.cards[x].transport.Some?
               && Advances(a, w.db.cards[x].transport.value, w'.db.cards[x].transport.value, sv)
    requires FewerOpen(w.ticks, w'.ticks, x)
    requires FewerRequests(w, w', x)
    ensures Tracks(w', x, a, sv)
  {
    if x in w'.db.cards {
      var s, s' := w.db.cards[x].transport.value, w'.db.cards[x].transport.value;
      FewerOpenFits(w.ticks, w'.ticks, x, a, s, sv);
      FitsAfterMove(w'.ticks, w'.rechecks, x, a, s, s', sv);
      FitsAfterMove(w'.ticks, w'.refreshes, x, a, s, s', sv);
    }
  }

  /** What one step owes: the tracking goes on, and an accepted healthy check is on an answering transport. */
  ghost predicate GoesOn(w: World, w': World, timeout: real, x: nat, a: Transport, sv: Server) {
    && Tracks(w', x, a, sv)
    && (x in w'.db.cards ==>
          && x in w.db.cards && w.db.cards[x].transport.Some?
          && Advances(a, w.db.cards[x].transport.value, w'.db.cards[x].transport.value, sv)
          && (HealthyAccepted(w, w', x) ==> sv.Answers(w'.db.cards[x].transport.value, timeout)))
  }

  /** A healthy check of x was committed in this step. */
  ghost predicate HealthyAccepted(w: World, w': World, x: nat) {
    var checks := LogOf(w'.log, x).checks;
    |LogOf(w.log, x).checks| < |checks| && checks[|checks| - 1].healthy
  }

  ghost predicate FewerRequests(w: World, w': World, x: nat) {
    && (forall r :: r in w'.rechecks && w'.rechecks[r].id == x ==> r in w.rechecks && w'.rechecks[r] == w.rechecks[r])
    && (forall r :: r in w'.refreshes && w'.refreshes[r].id == x ==> r in w.refreshes && w'.refreshes[r] == w.refreshes[r])
  }

  /** One settlement, by a sweep or by a recheck, with what it read and what the probe said. */
  ghost predicate Settles(w: World, w': World, id: nat, read: Transport, result: Liveness, guard: Guard, now: int) {
    var (db, settled) := Settle(w.db, id, read, result, guard, now);
    && w'.db == db && w'.log.Keys >= w.log.Keys && (forall k :: FewerRequests(w, w', k))
    && forall k :: HealthyAccepted(w, w', k) ==> k == id && settled.Stored? && result.healthy
  }

  /** The timeout of the check or the fetch that ends in this step. */
  function TimeoutOf(w: World, e: Event): real {
    match e
    case Record(t, _, _) => if t in w.ticks then w.ticks[t].timeout else 0.0
    case FinishRecheck(r, _, _) => if r in w.rechecks then w.rechecks[r].timeout else 0.0
    case FinishRefresh(r, _, _, _, _) => if r in w.refreshes then w.refreshes[r].timeout else 0.0
    case _ => 0.0
  }

  lemma SettlementGoesOn(w: World, w': World, id: nat, read: Transport, timeout: real, result: Liveness, guard: Guard, now: int,
                         x: nat, a: Transport, sv: Server)
    requires Settles(w, w', id, read, result, guard, now) && FewerOpen(w.ticks, w'.ticks, x)
    requires sv.Same() && Supported(a) && Tracks(w, x, a, sv) && Consistent(w.db)
    requires id == x && x in w.db.cards ==>
               (read == a || Some(read) == w.db.cards[x].transport) && sv.Probe(read, timeout) == Ok(result)
    ensures GoesOn(w, w', timeout, x, a, sv)
  {
    SettleShape(w.db, id, read, result, guard, now);
    if x in w.db.cards {
      SettleTransport(w.db, id, read, timeout, result, guard, now, x, a, sv);
    }
    TracksFrame(w, w', x, a, sv);
  }

  lemma ClosingATask(w: World, t: nat, i: nat, v: Verdict, x: nat)
    ensures FewerOpen(w.ticks, SetTask(w, t, i, Done(v)).ticks, x)
  {
  }

  lemma RecordSettles(w: World, cap: nat, t: nat, i: nat, now: int, x: nat)
    requires Enabled(w, cap, Record(t, i, now))
    ensures var c, result := w.ticks[t].candidates[i], w.ticks[t].tasks[i].result;
            && Settles(w, ApplyRecord(w, t, i, now), c.id, c.transport, result, Seen(c.seen), now)
            && FewerOpen(w.ticks, ApplyRecord(w, t, i, now).ticks, x)
  {
    var c, result := w.ticks[t].candidates[i], w.ticks[t].tasks[i].result;
    var settled := Settle(w.db, c.id, c.transport, result, Seen(c.seen), now).1;
    ClosingATask(w, t, i, VerdictOf(settled, result), x);
  }

  lemma RecordGoesOn(w: World, cap: nat, t: nat, i: nat, now: int, x: nat, a: Transport, sv: Server)
    requires Consistent(w.db) && Enabled(w, cap, Record(t, i, now))
    requires sv.Same() && Supported(a) && Tracks(w, x, a, sv)
    ensures GoesOn(w, ApplyRecord(w, t, i, now), w.ticks[t].timeout, x, a, sv)
  {
    var c, result := w.ticks[t].candidates[i], w.ticks[t].tasks[i].result;
    RecordSettles(w, cap, t, i, now, x);
    assert c.id == x ==> OpenTask(w.ticks, x, t, i);
    SettlementGoesOn(w, ApplyRecord(w, t, i, now), c.id, c.transport, w.ticks[t].timeout, result, Seen(c.seen), now, x, a, sv);
  }

  lemma RecheckSettles(w: World, r: nat, result: Liveness, now: int)
    requires r in w.rechecks
    ensures Settles(w, ApplyRecheck(w, r, result, now), w.rechecks[r].id, w.rechecks[r].transport, result, AnyState, now)
    ensures ApplyRecheck(w, r, result, now).ticks == w.ticks
  {
  }

  lemma RecheckGoesOn(w: World, r: nat, result: Liveness, now: int, x: nat, a: Transport, sv: Server)
    requires Consistent(w.db) && r in w.rechecks && Honest(w, FinishRecheck(r, result, now), x, sv)
    requires sv.Same() && Supported(a) && Tracks(w, x, a, sv)
    ensures GoesOn(w, ApplyRecheck(w, r, result, now), w.rechecks[r].timeout, x, a, sv)
  {
    var q := w.rechecks[r];
    RecheckSettles(w, r, result, now);
    SettlementGoesOn(w, ApplyRecheck(w, r, result, now), q.id, q.transport, q.timeout, result, AnyState, now, x, a, sv);
  }

  lemma RefreshTransport(db: Db, q: Request, tools: Option<seq<string>>, used: Transport, failure: Option<Failure>, now: int,
                         x: nat, a: Transport, sv: Server)
    requires sv.Same() && Supported(a) && x in db.cards && db.cards[x].transport.Some?
    requires Moved(a, db.cards[x].transport.value, sv)
    requires q.id == x ==> q.transport == a || q.transport == db.cards[x].transport.value
    requires q.id == x && tools.Some? ==> sv.Fetch(q.transport, q.timeout).Success? && used == sv.Fetch(q.transport, q.timeout).transport
    ensures var db' := RefreshDb(db, q, tools, used, failure, now);
            && x in db'.cards && db'.cards[x].transport.Some?
            && Advances(a, db.cards[x].transport.value, db'.cards[x].transport.value, sv)
  {
    if q.id == x && tools.Some? && used != q.transport {
      FetchLands(sv, q.transport, q.timeout);
      CorrectionMoves(a, db.cards[x].transport.value, q.transport, used, sv);
    }
  }

  /** The fetch that ends here is the server's own answer under the request's timeout. */
  ghost predicate HonestFetch(q: Request, tools: Option<seq<string>>, used: Transport, sv: Server) {
    var fetched := sv.Fetch(q.transport, q.timeout);
    (tools.Some? <==> fetched.Success?) && (fetched.Success? ==> used == fetched.transport)
  }

  lemma RefreshGoesOn(w: World, r: nat, tools: Option<seq<string>>, used: Transport, failure: Option<Failure>, now: int,
                      x: nat, a: Transport, sv: Server)
    requires Consistent(w.db) && r in w.refreshes
    requires w.refreshes[r].id == x ==> HonestFetch(w.refreshes[r], tools, used, sv)
    requires sv.Same() && Supported(a) && Tracks(w, x, a, sv)
    ensures GoesOn(w, ApplyRefresh(w, r, tools, used, failure, now), w.refreshes[r].timeout, x, a, sv)
  {
    var q := w.refreshes[r];
    var w' := ApplyRefresh(w, r, tools, used, failure, now);
    RefreshShape(w.db, q, tools, used, failure, now);
    if x in w.db.cards {
      RefreshTransport(w.db, q, tools, used, failure, now, x, a, sv);
    }
    assert w'.db == RefreshDb(w.db, q, tools, used, failure, now);
    UnrecordedGoesOn(w, w', q.timeout, x, a, sv);
  }

  /** A step that records no check and starts nothing. */
  lemma UnrecordedGoesOn(w: World, w': World, timeout: real, x: nat, a: Transport, sv: Server)
    requires Tracks(w, x, a, sv) && w'.log == w.log && w'.ticks == w.ticks && FewerRequests(w, w', x)
    requires x in w'.db.cards ==>
               && x in w.db.cards && w'.db.cards[x].transport.Some?
               && Advances(a, w.db.cards[x].transport.value, w'.db.cards[x].transport.value, sv)
    ensures GoesOn(w, w', timeout, x, a, sv)
  {
    TracksFrame(w, w', x, a, sv);
  }

  lemma RefreshDbLands(db: Db, q: Request, tools: Option<seq<string>>, used: Transport, failure: Option<Failure>, now: int,
                       a: Transport, sv: Server)
    requires Consistent(db) && q.id in db.cards && db.cards[q.id].transport.Some? && tools.Some?
    requires HonestFetch(q, tools, used, sv) && sv.Same() && Supported(a)
    requires Moved(a, db.cards[q.id].transport.value, sv)
    requires q.transport == a || q.transport == db.cards[q.id].transport.value
    ensures var db' := RefreshDb(db, q, tools, used, failure, now);
            && q.id in db'.cards && db'.cards[q.id].transport.Some?
            && sv.AnswersFetch(db'.cards[q.id].transport.value, q.timeout)
  {
    FetchLands(sv, q.transport, q.timeout);
    if used == q.transport {
      ServingTransportStays(sv, q.transport);
    } else {
      CorrectionMoves(a, db.cards[q.id].transport.value, q.transport, used, sv);
    }
  }

  /** A refresh that brought tools leaves the stored transport on one that a fetch succeeds on. */
  lemma RefreshLands(w: World, r: nat, tools: Option<seq<string>>, used: Transport, failure: Option<Failure>, now: int,
                     x: nat, a: Transport, sv: Server)
    requires Consistent(w.db) && r in w.refreshes && w.refreshes[r].id == x && tools.Some?
    requires HonestFetch(w.refreshes[r], tools, used, sv)
    requires sv.Same() && Supported(a) && Tracks(w, x, a, sv) && x in w.db.cards
    ensures var w' := ApplyRefresh(w, r, tools, used, failure, now);
            Stored(w', x).Some? && sv.AnswersFetch(Stored(w', x).value, w.refreshes[r].timeout)
  {
    RefreshDbLands(w.db, w.refreshes[r], tools, used, failure, now, a, sv);
  }

  lemma SweepStartGoesOn(w: World, cap: nat, e: Event, x: nat, a: Transport, sv: Server)
    requires Enabled(w, cap, e) && e.StartTick?
    requires Tracks(w, x, a, sv)
    ensures GoesOn(w, Apply(w, e), TimeoutOf(w, e), x, a, sv)
  {
    var w' := Apply(w, e);
    if x in w.db.cards {
      CandidatesAreDue(w, e.limit);
      var s := w.db.cards[x].transport.value;
      forall t: nat, i: nat | OpenTask(w'.ticks, x, t, i)
        ensures w'.ticks[t].candidates[i].transport == a || w'.ticks[t].candidates[i].transport == s
        ensures w'.ticks[t].tasks[i].Probed? ==> sv.Probe(w'.ticks[t].candidates[i].transport, w'.ticks[t].timeout) == Ok(w'.ticks[t].tasks[i].result)
      {
        if t == e.tick {
          assert FetchCandidates(w, e.limit)[i] == CandidateFor(w, x);
        } else {
          assert OpenTask(w.ticks, x, t, i);
        }
      }
    }
  }

  lemma ProbeGoesOn(w: World, cap: nat, e: Event, x: nat, a: Transport, sv: Server)
    requires Enabled(w, cap, e) && e.ProbeEnds? && Honest(w, e, x, sv)
    requires Tracks(w, x, a, sv)
    ensures GoesOn(w, Apply(w, e), TimeoutOf(w, e), x, a, sv)
  {
    var w' := Apply(w, e);
    if x in w.db.cards {
      var s := w.db.cards[x].transport.value;
      forall t: nat, i: nat | OpenTask(w'.ticks, x, t, i)
        ensures w'.ticks[t].candidates[i].transport == a || w'.ticks[t].candidates[i].transport == s
        ensures w'.ticks[t].tasks[i].Probed? ==> sv.Probe(w'.ticks[t].candidates[i].transport, w'.ticks[t].timeout) == Ok(w'.ticks[t].tasks[i].result)
      {
        assert OpenTask(w.ticks, x, t, i);
      }
    }
  }

  /** Task steps that end or open a probe without a result, and requests given up. */
  lemma QuietStepGoesOn(w: World, cap: nat, e: Event, x: nat, a: Transport, sv: Server)
    requires Enabled(w, cap, e) && Tracks(w, x, a, sv)
    requires e.Acquire? || e.ProbeRaises? || e.RecordFails? || e.CrashTick? || e.AbandonRecheck? || e.AbandonRefresh?
    ensures GoesOn(w, Apply(w, e), TimeoutOf(w, e), x, a, sv)
  {
    TracksFrame(w, Apply(w, e), x, a, sv);
  }

  lemma CardStepGoesOn(w: World, cap: nat, e: Event, x: nat, a: Transport, sv: Server)
    requires Enabled(w, cap, e) && Honest(w, e, x, sv) && Tracks(w, x, a, sv)
    requires e.CreateCard? || e.EditCard? || e.SetArchived? || e.DeleteCard?
    ensures GoesOn(w, Apply(w, e), TimeoutOf(w, e), x, a, sv)
  {
    TracksFrame(w, Apply(w, e), x, a, sv);
  }

  lemma RequestStartGoesOn(w: World, cap: nat, e: Event, x: nat, a: Transport, sv: Server)
    requires Enabled(w, cap, e) && Tracks(w, x, a, sv) && (e.StartRecheck? || e.StartRefresh?)
    ensures GoesOn(w, Apply(w, e), TimeoutOf(w, e), x, a, sv)
  {
  }

  predicate Commits(e: Event) {
    e.Record? || e.FinishRecheck? || e.FinishRefresh?
  }

  /** The three steps that may write a transport. */
  lemma CommitGoesOn(w: World, cap: nat, e: Event, x: nat, a: Transport, sv: Server)
    requires Consistent(w.db) && Enabled(w, cap, e) && Honest(w, e, x, sv) && Commits(e)
    requires sv.Same() && Supported(a) && Tracks(w, x, a, sv)
    ensures GoesOn(w, Apply(w, e), TimeoutOf(w, e), x, a, sv)
  {
    if e.Record? {
      RecordGoesOn(w, cap, e.tick, e.slot, e.now, x, a, sv);
    } else if e.FinishRecheck? {
      RecheckGoesOn(w, e.req, e.result, e.now, x, a, sv);
    } else {
      RefreshGoesOn(w, e.req, e.tools, e.used, e.failure, e.now, x, a, sv);
    }
  }

  lemma StepGoesOn(w: World, cap: nat, e: Event, x: nat, a: Transport, sv: Server)
    requires Consistent(w.db) && Enabled(w, cap, e) && Honest(w, e, x, sv)
    requires sv.Same() && Supported(a) && Tracks(w, x, a, sv)
    ensures GoesOn(w, Apply(w, e), TimeoutOf(w, e), x, a, sv)
  {
    if Commits(e) {
      CommitGoesOn(w, cap, e, x, a, sv);
    } else if e.StartTick? {
      SweepStartGoesOn(w, cap, e, x, a, sv);
    } else if e.ProbeEnds? {
      ProbeGoesOn(w, cap, e, x, a, sv);
    } else if e.StartRecheck? || e.StartRefresh? {
      RequestStartGoesOn(w, cap, e, x, a, sv);
    } else if e.CreateCard? || e.EditCard? || e.SetArchived? || e.DeleteCard? {
      CardStepGoesOn(w, cap, e, x, a, sv);
    } else {
      QuietStepGoesOn(w, cap, e, x, a, sv);
    }
  }

  // ---- along a run ------------------------------------------------------------------------

  ghost function Along(w: World, es: seq<Event>, i: nat): World
    requires i <= |es|
  {
    Run(w, es[..i])
  }

  /**
   Every check and refresh of x that is under way read the transport that is stored. So it is
   right after the card is created, and whenever nothing is under way.
   */
  ghost predicate Aligned(w: World, x: nat, sv: Server) {
    && x in w.log && x in w.db.cards && w.db.cards[x].transport.Some?
    && var s := w.db.cards[x].transport.value;
       TasksFit(w.ticks, x, s, s, sv) && RequestsFit(w.rechecks, x, s, s) && RequestsFit(w.refreshes, x, s, s)
  }

  lemma AlignedTracks(w: World, cap: nat, x: nat, sv: Server)
    requires Inv(w, cap) && Aligned(w, x, sv)
    ensures Stored(w, x).Some? && Supported(Stored(w, x).value) && Tracks(w, x, Stored(w, x).value, sv)
  {
  }

  lemma OpenTaskIsLogged(w: World, cap: nat, x: nat, t: nat, i: nat)
    requires Inv(w, cap) && OpenTask(w.ticks, x, t, i)
    ensures x in w.log
  {
    assert SlotOk(w.ticks[t], t, i, w.log);
  }

  /** A card just created has its registration's refresh under way, from the transport it was posted with. */
  lemma NewCardIsAligned(w: World, cap: nat, id: nat, card: Card, withHealthRow: bool, req: nat, timeout: real, sv: Server)
    requires Inv(w, cap) && Enabled(w, cap, CreateCard(id, card, withHealthRow, req, timeout)) && card.transport.Some?
    ensures Aligned(Apply(w, CreateCard(id, card, withHealthRow, req, timeout)), id, sv)
  {
    var w' := Apply(w, CreateCard(id, card, withHealthRow, req, timeout));
    var s := card.transport.value;
    forall t: nat, i: nat ensures !OpenTask(w.ticks, id, t, i) {
      if OpenTask(w.ticks, id, t, i) { OpenTaskIsLogged(w, cap, id, t, i); }
    }
    assert TasksFit(w'.ticks, id, s, s, sv);
  }

  lemma {:induction false} RunTracks(cap: nat, w: World, es: seq<Event>, i: nat, x: nat, a: Transport, sv: Server)
    requires Inv(w, cap) && Legal(w, cap, es) && HonestRun(w, es, x, sv) && i <= |es|
    requires sv.Same() && Supported(a) && Tracks(w, x, a, sv)
    ensures Inv(Along(w, es, i), cap) && Tracks(Along(w, es, i), x, a, sv)
  {
    if i > 0 {
      RunTracks(cap, w, es, i - 1, x, a, sv);
      LegalPrefix(w, cap, es, i - 1);
      StepKeepsInv(Along(w, es, i - 1), cap, es[i - 1]);
      StepGoesOn(Along(w, es, i - 1), cap, es[i - 1], x, a, sv);
    }
  }

  lemma StepAlong(cap: nat, w: World, es: seq<Event>, i: nat, x: nat, a: Transport, sv: Server)
    requires Inv(w, cap) && Legal(w, cap, es) && HonestRun(w, es, x, sv) && i < |es|
    requires sv.Same() && Supported(a) && Tracks(w, x, a, sv)
    ensures GoesOn(Along(w, es, i), Along(w, es, i + 1), TimeoutOf(Along(w, es, i), es[i]), x, a, sv)
  {
    RunTracks(cap, w, es, i, x, a, sv);
    LegalPrefix(w, cap, es, i);
    StepGoesOn(Along(w, es, i), cap, es[i], x, a, sv);
  }

  /** A transport s that is never left: one that serves, or the one already moved to. */
  ghost predicate Final(a: Transport, s: Transport, sv: Server) {
    sv.Serves(s) || s != a
  }

  lemma FinalStays(w: World, w': World, timeout: real, x: nat, a: Transport, s: Transport, sv: Server)
    requires sv.Same() && GoesOn(w, w', timeout, x, a, sv) && Final(a, s, sv)
    requires x in w.db.cards ==> Stored(w, x) == Some(s)
    ensures x in w'.db.cards ==> Stored(w', x) == Some(s)
  {
    if sv.Serves(s) { ServingTransportStays(sv, s); }
  }

  ghost predicate HoldsIfPresent(w: World, x: nat, s: Transport) {
    x in w.db.cards ==> Stored(w, x) == Some(s)
  }

  lemma FinalStep(cap: nat, w: World, es: seq<Event>, i: nat, x: nat, a: Transport, s: Transport, sv: Server)
    requires Inv(w, cap) && Legal(w, cap, es) && HonestRun(w, es, x, sv) && i < |es|
    requires sv.Same() && Supported(a) && Tracks(w, x, a, sv) && Final(a, s, sv)
    requires HoldsIfPresent(Along(w, es, i), x, s)
    ensures HoldsIfPresent(Along(w, es, i + 1), x, s)
  {
    StepAlong(cap, w, es, i, x, a, sv);
    FinalStays(Along(w, es, i), Along(w, es, i + 1), TimeoutOf(Along(w, es, i), es[i]), x, a, s, sv);
  }

  ghost function HoldsAlong(w: World, es: seq<Event>, x: nat, s: Transport): (r: seq<bool>)
    ensures |r| == |es| + 1 && forall i :: 0 <= i <= |es| ==> r[i] == HoldsIfPresent(Along(w, es, i), x, s)
  {
    seq(|es| + 1, i requires 0 <= i <= |es| => HoldsIfPresent(Along(w, es, i), x, s))
  }

  lemma {:induction false} StaysTrue(r: seq<bool>, n: nat, m: nat)
    requires n <= m < |r| && r[n] && forall i :: n <= i < m && r[i] ==> r[i + 1]
    ensures r[m]
    decreases m
  {
    if n < m { StaysTrue(r, n, m - 1); }
  }

  lemma FinalStaysAlong(cap: nat, w: World, es: seq<Event>, n: nat, m: nat, x: nat, a: Transport, s: Transport, sv: Server)
    requires Inv(w, cap) && Legal(w, cap, es) && HonestRun(w, es, x, sv) && n <= m <= |es|
    requires sv.Same() && Supported(a) && Tracks(w, x, a, sv) && Final(a, s, sv)
    requires HoldsIfPresent(Along(w, es, n), x, s)
    ensures HoldsIfPresent(Along(w, es, m), x, s)
  {
    var r := HoldsAlong(w, es, x, s);
    forall i | n <= i < m && r[i] ensures r[i + 1] {
      FinalStep(cap, w, es, i, x, a, s, sv);
    }
    StaysTrue(r, n, m);
  }

  lemma {:induction false} StillThere(cap: nat, w: World, es: seq<Event>, n: nat, m: nat, x: nat, a: Transport, sv: Server)
    requires Inv(w, cap) && Legal(w, cap, es) && HonestRun(w, es, x, sv) && n <= m <= |es|
    requires sv.Same() && Supported(a) && Tracks(w, x, a, sv)
    requires x in Along(w, es, m).db.cards
    ensures Stored(Along(w, es, n), x).Some?
    decreases m
  {
    if n < m {
      StepAlong(cap, w, es, m - 1, x, a, sv);
      StillThere(cap, w, es, n, m - 1, x, a, sv);
    } else {
      RunTracks(cap, w, es, m, x, a, sv);
    }
  }

  /**
   After the first committed healthy check (step n) the stored transport never changes again,
   and every check that reads it from then on makes one attempt, which succeeds if it is given
   at least as long.
   */
  lemma WriteBackConverges(cap: nat, w: World, es: seq<Event>, n: nat, m: nat, x: nat, sv: Server, timeout: real)
    requires Inv(w, cap) && Aligned(w, x, sv) && sv.Same()
    requires Legal(w, cap, es) && HonestRun(w, es, x, sv) && n < m <= |es|
    requires HealthyAccepted(Along(w, es, n), Along(w, es, n + 1), x)
    requires x in Along(w, es, m).db.cards
    ensures Stored(Along(w, es, m), x) == Stored(Along(w, es, n + 1), x)
    ensures Stored(Along(w, es, m), x).Some?
    ensures var s := Stored(Along(w, es, m), x).value;
            && Fallback(sv.live, s, timeout).tried == [s]
            && (timeout >= TimeoutOf(Along(w, es, n), es[n]) ==> sv.Probe(s, timeout) == Ok(Liveness(true, Some(s), None)))
  {
    var a := Stored(w, x).value;
    AlignedTracks(w, cap, x, sv);
    StillThere(cap, w, es, n + 1, m, x, a, sv);
    StepAlong(cap, w, es, n, x, a, sv);
    var s := Stored(Along(w, es, n + 1), x).value;
    var first := TimeoutOf(Along(w, es, n), es[n]);
    AnsweringTransportStays(sv, s, first, first);
    FinalStaysAlong(cap, w, es, n + 1, m, x, a, s, sv);
    OneAttemptOnServing(sv, s, timeout);
    if timeout >= first { AnsweringTransportStays(sv, s, first, timeout); }
  }

  lemma OneAttemptOnServing(sv: Server, t: Transport, timeout: real)
    requires sv.Same() && sv.Serves(t)
    ensures Fallback(sv.live, t, timeout).tried == [t] && Fallback(sv.tools, t, timeout).tried == [t]
  {
  }

  /** The same after the first committed refresh that brought tools, for refreshes. */
  lemma RefreshConverges(cap: nat, w: World, es: seq<Event>, n: nat, m: nat, x: nat, sv: Server, timeout: real)
    requires Inv(w, cap) && Aligned(w, x, sv) && sv.Same()
    requires Legal(w, cap, es) && HonestRun(w, es, x, sv) && n < m <= |es|
    requires es[n].FinishRefresh? && es[n].tools.Some? && es[n].req in Along(w, es, n).refreshes
    requires Along(w, es, n).refreshes[es[n].req].id == x
    requires x in Along(w, es, m).db.cards
    ensures Stored(Along(w, es, m), x) == Stored(Along(w, es, n + 1), x)
    ensures Stored(Along(w, es, m), x).Some?
    ensures var s := Stored(Along(w, es, m), x).value;
            && Fallback(sv.tools, s, timeout).tried == [s]
            && (timeout >= TimeoutOf(Along(w, es, n), es[n]) ==> sv.Fetch(s, timeout).Success?)
  {
    var a := Stored(w, x).value;
    AlignedTracks(w, cap, x, sv);
    StillThere(cap, w, es, n, m, x, a, sv);
    RunTracks(cap, w, es, n, x, a, sv);
    LegalPrefix(w, cap, es, n);
    RefreshLands(Along(w, es, n), es[n].req, es[n].tools, es[n].used, es[n].failure, es[n].now, x, a, sv);
    var s := Stored(Along(w, es, n + 1), x).value;
    var first := TimeoutOf(Along(w, es, n), es[n]);
    FetchingTransportStays(sv, s, first, first);
    FinalStaysAlong(cap, w, es, n + 1, m, x, a, s, sv);
    OneAttemptOnServing(sv, s, timeout);
    if timeout >= first { FetchingTransportStays(sv, s, first, timeout); }
  }

  /** The stored transport moves at most once, and only to the other one. */
  lemma AtMostOneMove(cap: nat, w: World, es: seq<Event>, n: nat, m: nat, x: nat, sv: Server)
    requires Inv(w, cap) && Aligned(w, x, sv) && sv.Same()
    requires Legal(w, cap, es) && HonestRun(w, es, x, sv) && n <= m <= |es|
    requires x in Along(w, es, m).db.cards && Stored(Along(w, es, n), x) != Stored(w, x)
    ensures Stored(Along(w, es, m), x) == Stored(Along(w, es, n), x) == Some(OtherTransport(Stored(w, x).value))
  {
    var a := Stored(w, x).value;
    AlignedTracks(w, cap, x, sv);
    StillThere(cap, w, es, n, m, x, a, sv);
    RunTracks(cap, w, es, n, x, a, sv);
    FinalStaysAlong(cap, w, es, n, m, x, a, OtherTransport(a), sv);
  }

  /**
   Why the owner must not edit meanwhile: a correction carries no guard. Whatever the card
   holds by then, a recheck that was answered on another transport than it read writes that one.
   */
  lemma CorrectionIgnoresEdits(db: Db, id: nat, read: Transport, result: Liveness, now: int)
    requires id in db.cards && result.transport.Some? && result.transport.value != read
    ensures var (db', settled) := Settle(db, id, read, result, AnyState, now);
            && (settled.Stored? <==> db.cards[id].endpoint.Some? && Supported(result.transport.value))
            && (settled.Stored? ==> db'.cards == db.cards[id := db.cards[id].(transport := result.transport)])
            && (!settled.Stored? ==> db' == db)
  {
  }
}
