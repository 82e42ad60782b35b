/**
 The liveness protocol over whole runs: which results are stored, how often one observed state
 can be written over, what the health row says, and how a finished tick adds up.
 */
module LivenessResults {
  import opened Options
  import opened Sets
  import opened McpClient
  import opened Probes
  import opened LivenessProtocol
  import opened LivenessSafety

  // ---- what a step leaves alone -----------------------------------------------------------

  /** Histories only grow, sweeps keep their candidates, and finished tasks keep their verdict. */
  ghost predicate Later(w: World, w': World) {
    && Grown(w.log, w'.log)
    && w.ticks.Keys <= w'.ticks.Keys
    && (forall t :: t in w.ticks ==> SweepLater(w.ticks[t], w'.ticks[t]))
  }

  ghost predicate SweepLater(a: Tick, b: Tick) {
    && b.candidates == a.candidates && |b.tasks| == |a.tasks|
    && (forall i :: 0 <= i < |a.tasks| && a.tasks[i].Done? ==> b.tasks[i] == a.tasks[i])
  }

  lemma LaterTransitive(a: World, b: World, c: World)
    requires Later(a, b) && Later(b, c)
    ensures Later(a, c)
  {
    forall t | t in a.ticks ensures SweepLater(a.ticks[t], c.ticks[t]) {
      assert SweepLater(a.ticks[t], b.ticks[t]) && SweepLater(b.ticks[t], c.ticks[t]);
    }
  }

  /** A step that moves one open task on, and may add one record to one history. */
  lemma OneRecordIsLater(w: World, w': World, id: nat, c: Check, writer: Writer)
    requires id in w.log
    requires w'.log == w.log || w'.log == Accept(w, id, c, writer).log
    requires w'.ticks == w.ticks || exists t: nat, i: nat, task ::
               AtTask(w, t, i) && !w.ticks[t].tasks[i].Done? && w'.ticks == SetTask(w, t, i, task).ticks
    ensures Later(w, w')
  {
    AcceptGrows(w, id, c, writer);
  }

  lemma RecordIsLater(w: World, cap: nat, t: nat, i: nat, now: int)
    requires Inv(w, cap) && Enabled(w, cap, Record(t, i, now))
    ensures Later(w, ApplyRecord(w, t, i, now))
  {
    var c := w.ticks[t].candidates[i];
    var result := w.ticks[t].tasks[i].result;
    var settled := Settle(w.db, c.id, c.transport, result, Seen(c.seen), now).1;
    var w' := ApplyRecord(w, t, i, now);
    assert SlotOk(w.ticks[t], t, i, w.log);
    assert w'.ticks == SetTask(w, t, i, Done(VerdictOf(settled, result))).ticks;
    OneRecordIsLater(w, w', c.id, Check(result.healthy, result.failure, now), Worker(t, i));
  }

  lemma RecheckIsLater(w: World, cap: nat, r: nat, result: Liveness, now: int)
    requires Inv(w, cap) && Enabled(w, cap, FinishRecheck(r, result, now))
    ensures Later(w, ApplyRecheck(w, r, result, now))
  {
    OneRecordIsLater(w, ApplyRecheck(w, r, result, now), w.rechecks[r].id,
                     Check(result.healthy, result.failure, now), Manual);
  }

  predicate OfSweep(e: Event) {
    e.StartTick? || e.Acquire? || e.ProbeEnds? || e.ProbeRaises? || e.RecordFails? || e.CrashTick?
  }

  lemma SweepStepIsLater(w: World, cap: nat, e: Event)
    requires Enabled(w, cap, e) && OfSweep(e)
    ensures Later(w, Apply(w, e))
  {
  }

  /** Requests and people touch no sweep, and no history but that of a new card. */
  lemma OtherStepIsLater(w: World, cap: nat, e: Event)
    requires Enabled(w, cap, e) && !OfSweep(e) && !e.Record? && !e.FinishRecheck?
    ensures Later(w, Apply(w, e))
  {
    var w' := Apply(w, e);
    assert w'.ticks == w.ticks;
    assert w'.log == if e.CreateCard? then w.log[e.id := NoHistory] else w.log;
  }

  lemma StepIsLater(w: World, cap: nat, e: Event)
    requires Inv(w, cap) && Enabled(w, cap, e)
    ensures Later(w, Apply(w, e))
  {
    if OfSweep(e) {
      SweepStepIsLater(w, cap, e);
    } else if e.Record? {
      RecordIsLater(w, cap, e.tick, e.slot, e.now);
    } else if e.FinishRecheck? {
      RecheckIsLater(w, cap, e.req, e.result, e.now);
    } else {
      OtherStepIsLater(w, cap, e);
    }
  }

  lemma {:induction false} LegalPrefix(w: World, cap: nat, es: seq<Event>, n: nat)
    requires Legal(w, cap, es) && n <= |es|
    ensures Legal(w, cap, es[..n])
    ensures n < |es| ==> Enabled(Run(w, es[..n]), cap, es[n]) && Run(w, es[..n + 1]) == Apply(Run(w, es[..n]), es[n])
    decreases |es|
  {
    if n == |es| {
      assert es[..n] == es;
    } else {
      var front := es[..|es| - 1];
      if n == |es| - 1 {
        assert es[..n + 1] == es;
      } else {
        LegalPrefix(w, cap, front, n);
        assert front[..n] == es[..n] && front[..n + 1] == es[..n + 1];
      }
      if n < |es| - 1 { assert front[..n] == es[..n]; }
    }
  }

  lemma StepStaysLater(from: World, w: World, cap: nat, e: Event)
    requires Later(from, w) && Inv(w, cap) && Enabled(w, cap, e)
    ensures Later(from, Apply(w, e))
  {
    StepIsLater(w, cap, e);
    LaterTransitive(from, w, Apply(w, e));
  }

  lemma LaterReflexive(w: World)
    ensures Later(w, w)
  {
  }

  lemma {:induction false} RunIsLater(cap: nat, es: seq<Event>, a: nat, b: nat)
    requires Legal(EmptyWorld, cap, es) && a <= b <= |es|
    ensures Later(Run(EmptyWorld, es[..a]), Run(EmptyWorld, es[..b]))
    decreases b
  {
    if a == b {
      LaterReflexive(Run(EmptyWorld, es[..a]));
    } else {
      RunIsLater(cap, es, a, b - 1);
      LegalPrefix(EmptyWorld, cap, es, b - 1);
      RunKeepsInv(cap, es[..b - 1]);
      StepStaysLater(Run(EmptyWorld, es[..a]), Run(EmptyWorld, es[..b - 1]), cap, es[b - 1]);
    }
  }

  // ---- a slow probe never overwrites a newer result ---------------------------------------

  /** The correction that goes with a result is refused when the card lost its address. */
  ghost predicate CorrectionFits(db: Db, c: Candidate, result: Liveness) {
    c.id in db.cards &&
    (result.transport.Some? && result.transport.value != c.transport ==>
       db.cards[c.id].endpoint.Some? && Supported(result.transport.value))
  }

  /**
   One record step: stored exactly when the latest accepted stamp is the one its sweep read
   (and the correction fits); otherwise nothing stored changes at all.
   */
  lemma RecordIsExact(w: World, cap: nat, t: nat, i: nat, now: int)
    requires Inv(w, cap) && Enabled(w, cap, Record(t, i, now))
    ensures var c := w.ticks[t].candidates[i];
            var result := w.ticks[t].tasks[i].result;
            var check := Check(result.healthy, result.failure, now);
            var w' := Apply(w, Record(t, i, now));
            var same := LastAt(LogOf(w.log, c.id).checks) == c.seen;
            && (w'.log != w.log <==> same && CorrectionFits(w.db, c, result))
            && (w'.log != w.log ==>
                  && w'.log == w.log[c.id := Extend(LogOf(w.log, c.id), check, Worker(t, i))]
                  && w'.ticks[t].tasks[i] == StoredTask(check))
            && (w'.log == w.log ==> w'.db == w.db)
            && (w'.ticks[t].tasks[i] == Done(WasSuperseded) <==> c.id in w.db.cards && !same)
  {
    var c := w.ticks[t].candidates[i];
    var result := w.ticks[t].tasks[i].result;
    SettleShape(w.db, c.id, c.transport, result, Seen(c.seen), now);
    assert SlotOk(w.ticks[t], t, i, w.log);
    var check := Check(result.healthy, result.failure, now);
    assert Extend(w.log[c.id], check, Worker(t, i)).checks != w.log[c.id].checks;
    if c.id in w.db.cards {
      CompareAndSetIsExact(w, cap, t, i, now);
      SettleOutcome(w.db, c, result, Seen(c.seen), now);
    }
  }

  lemma SettleOutcome(db: Db, c: Candidate, result: Liveness, guard: Guard, now: int)
    requires c.id in db.cards
    ensures var settled := Settle(db, c.id, c.transport, result, guard, now).1;
            !settled.Superseded? ==> (settled.Stored? <==> CorrectionFits(db, c, result))
  {
  }

  /**
   `read` is the state a sweep read, `at` the one its task i records in, `after` the next. The
   result is stored exactly when the latest stamp of the connector is still the one that was
   read (and the card can still take it); otherwise neither rows nor histories change.
   */
  ghost predicate StoredIffSameStamp(read: World, at: World, after: World, t: nat, i: nat, now: int)
    requires AtTask(at, t, i) && at.ticks[t].tasks[i].Probed?
  {
    var c, result := at.ticks[t].candidates[i], at.ticks[t].tasks[i].result;
    var check := Check(result.healthy, result.failure, now);
    var before, current := LogOf(read.log, c.id), LogOf(at.log, c.id);
    && (after.log != at.log <==> LastAt(current.checks) == LastAt(before.checks) && CorrectionFits(at.db, c, result))
    && (after.log == at.log ==> after.db == at.db)
    && (after.log != at.log ==> after.log == at.log[c.id := Extend(current, check, Worker(t, i))])
  }

  lemma RecordAfterRead(read: World, cap: nat, at: World, limit: nat, t: nat, i: nat, now: int)
    requires Inv(read, cap) && Inv(at, cap) && Enabled(at, cap, Record(t, i, now))
    requires at.ticks[t].candidates == FetchCandidates(read, limit)
    ensures StoredIffSameStamp(read, at, Apply(at, Record(t, i, now)), t, i, now)
  {
    var c := at.ticks[t].candidates[i];
    CandidatesAreDue(read, limit);
    assert c == CandidateFor(read, c.id);
    ReadIsCurrent(read, c.id);
    RecordIsExact(at, cap, t, i, now);
  }

  /** A step that reads candidates, and a later one that records task `slot` of them. */
  ghost predicate ReadThenRecord(es: seq<Event>, a: nat, b: nat) {
    a < b < |es| && es[a].StartTick? && es[b].Record? && es[a].tick == es[b].tick
  }

  lemma CandidatesStay(cap: nat, es: seq<Event>, p: nat, q: nat)
    requires Legal(EmptyWorld, cap, es) && p < q <= |es| && es[p].StartTick?
    ensures var w := Run(EmptyWorld, es[..q]);
            && es[p].tick in w.ticks
            && w.ticks[es[p].tick].candidates == FetchCandidates(Run(EmptyWorld, es[..p]), es[p].limit)
  {
    LegalPrefix(EmptyWorld, cap, es, p);
    RunIsLater(cap, es, p + 1, q);
    assert SweepLater(Run(EmptyWorld, es[..p + 1]).ticks[es[p].tick], Run(EmptyWorld, es[..q]).ticks[es[p].tick]);
  }

  /**
   Over a whole run: between the read of a sweep (step a) and the record of one of its
   candidates (step b) anything may happen, at any stamps. A probe's result is stored exactly
   over the stamp its sweep read.
   */
  lemma SlowProbeNeverOverwrites(cap: nat, es: seq<Event>, a: nat, b: nat)
    requires Legal(EmptyWorld, cap, es) && ReadThenRecord(es, a, b)
    ensures var at := Run(EmptyWorld, es[..b]);
            && AtTask(at, es[b].tick, es[b].slot) && at.ticks[es[b].tick].tasks[es[b].slot].Probed?
            && StoredIffSameStamp(Run(EmptyWorld, es[..a]), at, Run(EmptyWorld, es[..b + 1]),
                                  es[b].tick, es[b].slot, es[b].now)
  {
    LegalPrefix(EmptyWorld, cap, es, a);
    LegalPrefix(EmptyWorld, cap, es, b);
    RunKeepsInv(cap, es[..a]);
    RunKeepsInv(cap, es[..b]);
    CandidatesStay(cap, es, a, b);
    RecordAfterRead(Run(EmptyWorld, es[..a]), cap, Run(EmptyWorld, es[..b]), es[a].limit, es[b].tick, es[b].slot, es[b].now);
  }

  /** At most one record of the history carries this stamp. */
  ghost predicate AtMostOnce(checks: seq<Check>, stamp: Option<int>) {
    forall p, q :: 0 <= p < q < |checks| && Some(checks[p].at) == stamp ==> checks[q].at != checks[p].at
  }

  /** A stamp that is not repeated tells where in the history it was read. */
  lemma StampTellsPlace(checks: seq<Check>, n: nat, m: nat)
    requires n <= m <= |checks| && LastAt(checks[..n]) == LastAt(checks[..m])
    requires AtMostOnce(checks, LastAt(checks[..n]))
    ensures n == m
  {
  }

  lemma SameHistoryIffSameStamp(h: History, h': History)
    requires HistoryOk(h) && HistoryOk(h') && h.checks <= h'.checks && h.writers <= h'.writers
    requires AtMostOnce(h'.checks, LastAt(h.checks))
    ensures LastAt(h'.checks) == LastAt(h.checks) <==> h == h'
  {
    var n, m := |h.checks|, |h'.checks|;
    assert h'.checks[..n] == h.checks && h'.checks[..m] == h'.checks;
    if LastAt(h'.checks) == LastAt(h.checks) {
      StampTellsPlace(h'.checks, n, m);
      assert h.checks == h'.checks && h.writers == h'.writers;
    }
  }

  /** While the stamp that was read is not repeated: stored exactly over the very history that was read. */
  ghost predicate StoredIffUnchanged(read: World, at: World, after: World, t: nat, i: nat)
    requires AtTask(at, t, i) && at.ticks[t].tasks[i].Probed?
  {
    var c, result := at.ticks[t].candidates[i], at.ticks[t].tasks[i].result;
    AtMostOnce(LogOf(at.log, c.id).checks, c.seen) ==>
      (after.log != at.log <==> LogOf(read.log, c.id) == LogOf(at.log, c.id) && CorrectionFits(at.db, c, result))
  }

  /** Stored over newer records exactly when the latest of them repeats the stamp that was read. */
  ghost predicate StaleIffRepeated(read: World, at: World, after: World, t: nat, i: nat)
    requires AtTask(at, t, i) && at.ticks[t].tasks[i].Probed?
  {
    var c, result := at.ticks[t].candidates[i], at.ticks[t].tasks[i].result;
    var before, current := LogOf(read.log, c.id).checks, LogOf(at.log, c.id).checks;
    && before <= current
    && (before < current ==>
          (after.log != at.log
           <==> before != [] && current[|current| - 1].at == before[|before| - 1].at && CorrectionFits(at.db, c, result)))
  }

  lemma StampAndHistory(read: World, at: World, after: World, cap: nat, limit: nat, t: nat, i: nat, now: int)
    requires Inv(read, cap) && Inv(at, cap) && Grown(read.log, at.log)
    requires AtTask(at, t, i) && at.ticks[t].tasks[i].Probed?
    requires at.ticks[t].candidates == FetchCandidates(read, limit)
    requires StoredIffSameStamp(read, at, after, t, i, now)
    ensures StoredIffUnchanged(read, at, after, t, i) && StaleIffRepeated(read, at, after, t, i)
  {
    var c := at.ticks[t].candidates[i];
    CandidatesAreDue(read, limit);
    assert c == CandidateFor(read, c.id);
    ReadIsCurrent(read, c.id);
    assert HistoryOk(read.log[c.id]) && HistoryOk(at.log[c.id]);
    if AtMostOnce(at.log[c.id].checks, c.seen) {
      SameHistoryIffSameStamp(read.log[c.id], at.log[c.id]);
    }
  }

  lemma BetweenReadAndRecord(cap: nat, es: seq<Event>, a: nat, b: nat)
    requires Legal(EmptyWorld, cap, es) && ReadThenRecord(es, a, b)
    ensures var read, at, after := Run(EmptyWorld, es[..a]), Run(EmptyWorld, es[..b]), Run(EmptyWorld, es[..b + 1]);
            && AtTask(at, es[b].tick, es[b].slot) && at.ticks[es[b].tick].tasks[es[b].slot].Probed?
            && StoredIffUnchanged(read, at, after, es[b].tick, es[b].slot)
            && StaleIffRepeated(read, at, after, es[b].tick, es[b].slot)
  {
    LegalPrefix(EmptyWorld, cap, es, a);
    LegalPrefix(EmptyWorld, cap, es, b);
    RunKeepsInv(cap, es[..a]);
    RunKeepsInv(cap, es[..b]);
    RunIsLater(cap, es, a, b);
    CandidatesStay(cap, es, a, b);
    SlowProbeNeverOverwrites(cap, es, a, b);
    StampAndHistory(Run(EmptyWorld, es[..a]), Run(EmptyWorld, es[..b]), Run(EmptyWorld, es[..b + 1]), cap,
                    es[a].limit, es[b].tick, es[b].slot, es[b].now);
  }

  /**
   While the stamp a sweep read is not repeated in the connector's history, its result is
   stored exactly when nothing at all was accepted for the connector since.
   */
  lemma NothingNewerIsOverwritten(cap: nat, es: seq<Event>, a: nat, b: nat)
    requires Legal(EmptyWorld, cap, es) && ReadThenRecord(es, a, b)
    ensures var at := Run(EmptyWorld, es[..b]);
            && AtTask(at, es[b].tick, es[b].slot) && at.ticks[es[b].tick].tasks[es[b].slot].Probed?
            && StoredIffUnchanged(Run(EmptyWorld, es[..a]), at, Run(EmptyWorld, es[..b + 1]), es[b].tick, es[b].slot)
  {
    BetweenReadAndRecord(cap, es, a, b);
  }

  /**
   What the guard cannot see: over newer records of its connector a result is stored exactly
   when the latest of them repeats the stamp that was read.
   */
  lemma StaleResultNeedsARepeatedStamp(cap: nat, es: seq<Event>, a: nat, b: nat)
    requires Legal(EmptyWorld, cap, es) && ReadThenRecord(es, a, b)
    ensures var at := Run(EmptyWorld, es[..b]);
            && AtTask(at, es[b].tick, es[b].slot) && at.ticks[es[b].tick].tasks[es[b].slot].Probed?
            && StaleIffRepeated(Run(EmptyWorld, es[..a]), at, Run(EmptyWorld, es[..b + 1]), es[b].tick, es[b].slot)
  {
    BetweenReadAndRecord(cap, es, a, b);
  }

  ghost predicate HasStored(w: World, t: nat, i: nat) {
    && t in w.ticks && i < |w.ticks[t].tasks| && i < |w.ticks[t].candidates|
    && (w.ticks[t].tasks[i] == Done(WasHealthy) || w.ticks[t].tasks[i] == Done(WasUnhealthy))
  }

  lemma StoredSomewhere(w: World, cap: nat, t: nat, i: nat) returns (p: nat)
    requires Inv(w, cap) && HasStored(w, t, i)
    ensures var c := w.ticks[t].candidates[i];
            && c.id in w.log && HistoryOk(w.log[c.id])
            && c.observed <= p < |w.log[c.id].checks| && w.log[c.id].writers[p] == Worker(t, i)
            && LastAt(w.log[c.id].checks[..p]) == c.seen
  {
    var c := w.ticks[t].candidates[i];
    assert TickOk(w.ticks[t], t, w.log, cap) && SlotOk(w.ticks[t], t, i, w.log) && HistoryOk(w.log[c.id]);
    if w.ticks[t].tasks[i] == Done(WasHealthy) {
      p :| StandsAt(w.log[c.id], t, i, c, true, p);
    } else {
      p :| StandsAt(w.log[c.id], t, i, c, false, p);
    }
  }

  lemma StoredSlots(w: World, cap: nat, t: nat, i: nat, t': nat, i': nat)
    requires Inv(w, cap) && HasStored(w, t, i) && HasStored(w, t', i')
    requires w.ticks[t].candidates[i].id == w.ticks[t'].candidates[i'].id
    requires w.ticks[t].candidates[i].seen == w.ticks[t'].candidates[i'].seen
    requires AtMostOnce(LogOf(w.log, w.ticks[t].candidates[i].id).checks, w.ticks[t].candidates[i].seen)
    ensures t == t' && i == i'
  {
    var p := StoredSomewhere(w, cap, t, i);
    var q := StoredSomewhere(w, cap, t', i');
    StampTellsPlace(w.log[w.ticks[t].candidates[i].id].checks, if p < q then p else q, if p < q then q else p);
  }

  /**
   Even if sweeps overlap, one observed state of a connector is written over by at most one
   worker result: two stored tasks that read the same stamp are the same task, unless the
   history repeats that stamp. "Never checked" is never repeated.
   */
  lemma ObservedStateConsumedOnce(cap: nat, es: seq<Event>, t: nat, i: nat, t': nat, i': nat)
    requires Legal(EmptyWorld, cap, es)
    requires HasStored(Run(EmptyWorld, es), t, i) && HasStored(Run(EmptyWorld, es), t', i')
    requires Run(EmptyWorld, es).ticks[t].candidates[i].id == Run(EmptyWorld, es).ticks[t'].candidates[i'].id
    requires Run(EmptyWorld, es).ticks[t].candidates[i].seen == Run(EmptyWorld, es).ticks[t'].candidates[i'].seen
    requires AtMostOnce(LogOf(Run(EmptyWorld, es).log, Run(EmptyWorld, es).ticks[t].candidates[i].id).checks,
                        Run(EmptyWorld, es).ticks[t].candidates[i].seen)
    ensures t == t' && i == i'
  {
    RunKeepsInv(cap, es);
    StoredSlots(Run(EmptyWorld, es), cap, t, i, t', i');
  }

  lemma NeverCheckedIsNotRepeated(checks: seq<Check>)
    ensures AtMostOnce(checks, None)
  {
  }

  // ---- the health row ---------------------------------------------------------------------

  ghost predicate RowTells(row: HealthRow, checks: seq<Check>) {
    && (row.status == Unknown <==> checks == [])
    && row.lastChecked == LastAt(checks)
    && row.failures <= |checks|
    && (forall k :: |checks| - row.failures <= k < |checks| ==> !checks[k].healthy)
    && (row.failures < |checks| ==> checks[|checks| - row.failures - 1].healthy)
    && (checks != [] ==> row.lastError == checks[|checks| - 1].error
                         && (row.status == Healthy <==> checks[|checks| - 1].healthy))
    && (row.failures == 0 <==> row.status != Unhealthy)
  }

  lemma SummaryTells(checks: seq<Check>)
    ensures RowTells(Summary(checks), checks)
  {
    TrailingFailuresIsTheRun(checks);
  }

  /** In every reachable state a card's row says what was accepted for it, and nothing else. */
  lemma HealthRowIsTheHistory(cap: nat, es: seq<Event>, id: nat)
    requires Legal(EmptyWorld, cap, es) && id in Run(EmptyWorld, es).db.cards
    ensures var w := Run(EmptyWorld, es);
            var checks := LogOf(w.log, id).checks;
            if id in w.db.health then RowTells(w.db.health[id], checks) else checks == []
  {
    RunKeepsInv(cap, es);
    var w := Run(EmptyWorld, es);
    assert RowIsSummary(w.db, w.log, id);
    SummaryTells(LogOf(w.log, id).checks);
  }

  // ---- a tick adds up ---------------------------------------------------------------------

  ghost predicate Finished(tick: Tick) {
    forall i :: 0 <= i < |tick.tasks| ==> tick.tasks[i].Done?
  }

  /** gather returns the outcomes in the order of the candidates. */
  ghost function Outcomes(tick: Tick): seq<Verdict>
    requires Finished(tick)
  {
    seq(|tick.tasks|, i requires 0 <= i < |tick.tasks| => tick.tasks[i].verdict)
  }

  function CountOf(outcomes: seq<Verdict>, v: Verdict): nat {
    if outcomes == [] then 0
    else CountOf(outcomes[..|outcomes| - 1], v) + if outcomes[|outcomes| - 1] == v then 1 else 0
  }

  datatype Counts = Counts(checked: nat, healthy: nat, unhealthy: nat, superseded: nat)

  /** The counts the sweep logs; an outcome that is an exception is in none of them. */
  method Tally(outcomes: seq<Verdict>) returns (c: Counts)
    ensures c.healthy == CountOf(outcomes, WasHealthy) && c.unhealthy == CountOf(outcomes, WasUnhealthy)
    ensures c.superseded == CountOf(outcomes, WasSuperseded)
    ensures c.checked == c.healthy + c.unhealthy + c.superseded + CountOf(outcomes, WasError)
    ensures c.checked == |outcomes| - CountOf(outcomes, DidRaise)
  {
    var checked, healthy, unhealthy, superseded := 0, 0, 0, 0;
    for i := 0 to |outcomes|
      invariant healthy == CountOf(outcomes[..i], WasHealthy) && unhealthy == CountOf(outcomes[..i], WasUnhealthy)
      invariant superseded == CountOf(outcomes[..i], WasSuperseded)
      invariant checked == healthy + unhealthy + superseded + CountOf(outcomes[..i], WasError)
      invariant checked == i - CountOf(outcomes[..i], DidRaise)
    {
      assert outcomes[..i + 1][..i] == outcomes[..i];
      match outcomes[i] {
        case WasHealthy => checked, healthy := checked + 1, healthy + 1;
        case WasUnhealthy => checked, unhealthy := checked + 1, unhealthy + 1;
        case WasSuperseded => checked, superseded := checked + 1, superseded + 1;
        case WasError => checked := checked + 1;
        case DidRaise =>
      }
    }
    assert outcomes[..|outcomes|] == outcomes;
    c := Counts(checked, healthy, unhealthy, superseded);
  }

  ghost function SlotsWith(outcomes: seq<Verdict>, v: Verdict): set<nat> {
    set i: nat | i < |outcomes| && outcomes[i] == v
  }

  lemma {:induction false} CountIsSlots(outcomes: seq<Verdict>, v: Verdict)
    ensures CountOf(outcomes, v) == |SlotsWith(outcomes, v)|
    decreases |outcomes|
  {
    if outcomes == [] {
      assert SlotsWith(outcomes, v) == {};
    } else {
      var n := |outcomes| - 1;
      var front := outcomes[..n];
      CountIsSlots(front, v);
      if outcomes[n] == v {
        assert SlotsWith(outcomes, v) == SlotsWith(front, v) + {n};
      } else {
        assert SlotsWith(outcomes, v) == SlotsWith(front, v);
      }
    }
  }

  /** The records a sweep left behind: the connector, and the place in its history. */
  ghost function WrittenBy(log: map<nat, History>, t: nat): set<(nat, nat)> {
    set id, p | id in log && 0 <= p < |log[id].writers| && log[id].writers[p].Worker? && log[id].writers[p].tick == t :: (id, p)
  }

  ghost function SlotOfRecord(log: map<nat, History>): ((nat, nat)) -> nat {
    (x: (nat, nat)) =>
      if x.0 in log && x.1 < |log[x.0].writers| && log[x.0].writers[x.1].Worker? then log[x.0].writers[x.1].slot else 0
  }

  /** The record a slot left behind, if it counts as healthy or unhealthy. */
  lemma RecordOfSlot(w: World, cap: nat, t: nat, i: nat) returns (x: (nat, nat))
    requires Inv(w, cap) && HasStored(w, t, i)
    ensures x in WrittenBy(w.log, t) && SlotOfRecord(w.log)(x) == i
  {
    var p := StoredSomewhere(w, cap, t, i);
    x := (w.ticks[t].candidates[i].id, p);
  }

  lemma SlotsDiffer(w: World, cap: nat, t: nat, x: (nat, nat), y: (nat, nat))
    requires Inv(w, cap) && x in WrittenBy(w.log, t) && y in WrittenBy(w.log, t)
    requires SlotOfRecord(w.log)(x) == SlotOfRecord(w.log)(y)
    ensures x == y
  {
    assert HistoryOk(w.log[x.0]) && HistoryOk(w.log[y.0]);
    assert WriterOk(w.ticks, x.0, x.1, w.log[x.0].checks[x.1], w.log[x.0].writers[x.1]);
    assert WriterOk(w.ticks, y.0, y.1, w.log[y.0].checks[y.1], w.log[y.0].writers[y.1]);
  }

  ghost function CommittedBy(outcomes: seq<Verdict>): set<nat> {
    SlotsWith(outcomes, WasHealthy) + SlotsWith(outcomes, WasUnhealthy)
  }

  lemma SlotIsCommitted(w: World, cap: nat, t: nat, x: (nat, nat))
    requires Inv(w, cap) && t in w.ticks && Finished(w.ticks[t]) && x in WrittenBy(w.log, t)
    ensures SlotOfRecord(w.log)(x) in CommittedBy(Outcomes(w.ticks[t]))
  {
    assert HistoryOk(w.log[x.0]);
    assert WriterOk(w.ticks, x.0, x.1, w.log[x.0].checks[x.1], w.log[x.0].writers[x.1]);
  }

  /** The slots that count as healthy or unhealthy are the records the sweep committed. */
  lemma CommittedSlots(w: World, cap: nat, t: nat)
    requires Inv(w, cap) && t in w.ticks && Finished(w.ticks[t])
    ensures |CommittedBy(Outcomes(w.ticks[t]))| == |WrittenBy(w.log, t)|
  {
    var slots, records, f := CommittedBy(Outcomes(w.ticks[t])), WrittenBy(w.log, t), SlotOfRecord(w.log);
    forall x | x in records ensures f(x) in slots {
      SlotIsCommitted(w, cap, t, x);
    }
    forall x, y | x in records && y in records && f(x) == f(y) ensures x == y {
      SlotsDiffer(w, cap, t, x, y);
    }
    forall i | i in slots ensures exists x :: x in records && f(x) == i {
      assert TickOk(w.ticks[t], t, w.log, cap);
      var x := RecordOfSlot(w, cap, t, i);
    }
    SameSize(records, slots, f);
  }

  /**
   However the bodies were scheduled: at most cap bodies are in flight at once, each candidate
   ends with one outcome, healthy + unhealthy counts exactly the records this sweep committed,
   and checked leaves out only the bodies that raised.
   */
  lemma TickAddsUp(cap: nat, es: seq<Event>, t: nat)
    requires Legal(EmptyWorld, cap, es) && t in Run(EmptyWorld, es).ticks
    ensures var w := Run(EmptyWorld, es);
            && |set i: nat | i < |w.ticks[t].tasks| && (w.ticks[t].tasks[i].Probing? || w.ticks[t].tasks[i].Probed?)| <= cap
            && |w.ticks[t].tasks| == |w.ticks[t].candidates|
            && (Finished(w.ticks[t]) ==>
                  var outcomes := Outcomes(w.ticks[t]);
                  CountOf(outcomes, WasHealthy) + CountOf(outcomes, WasUnhealthy) == |WrittenBy(w.log, t)|)
  {
    var w := Run(EmptyWorld, es);
    RunKeepsInv(cap, es);
    assert TickOk(w.ticks[t], t, w.log, cap);
    assert InFlight(w.ticks[t]) ==
           set i: nat | i < |w.ticks[t].tasks| && (w.ticks[t].tasks[i].Probing? || w.ticks[t].tasks[i].Probed?);
    if Finished(w.ticks[t]) {
      var outcomes := Outcomes(w.ticks[t]);
      CountIsSlots(outcomes, WasHealthy);
      CountIsSlots(outcomes, WasUnhealthy);
      CommittedSlots(w, cap, t);
      assert SlotsWith(outcomes, WasHealthy) !! SlotsWith(outcomes, WasUnhealthy);
    }
  }

  /** A verdict, once reached, is final: nothing later in the run changes it. */
  lemma VerdictsAreFinal(cap: nat, es: seq<Event>, n: nat, t: nat, i: nat)
    requires Legal(EmptyWorld, cap, es) && n <= |es|
    requires var w := Run(EmptyWorld, es[..n]);
             t in w.ticks && i < |w.ticks[t].tasks| && w.ticks[t].tasks[i].Done?
    ensures var w, w' := Run(EmptyWorld, es[..n]), Run(EmptyWorld, es);
            t in w'.ticks && i < |w'.ticks[t].tasks| && w'.ticks[t].tasks[i] == w.ticks[t].tasks[i]
  {
    RunIsLater(cap, es, n, |es|);
    assert es[..|es|] == es;
    assert SweepLater(Run(EmptyWorld, es[..n]).ticks[t], Run(EmptyWorld, es).ticks[t]);
  }
}
