/**
 What every step of the liveness protocol keeps, and what follows for whole runs: a sweep's
 result is stored only over the state it saw, the health row is the summary of the accepted
 records, and a tick accounts for each of its candidates.
 */
module LivenessSafety {
  import opened Options
  import opened KeyOrder
  import opened Sets
  import opened McpClient
  import opened Probes
  import opened LivenessProtocol

  // ---- invariants -------------------------------------------------------------------------

  /** The stored health row is the summary of the accepted records. */
  ghost predicate RowIsSummary(db: Db, log: map<nat, History>, id: nat) {
    if id in db.health then db.health[id] == Summary(LogOf(log, id).checks) else LogOf(log, id).checks == []
  }

  ghost predicate DbOk(db: Db, log: map<nat, History>) {
    && Consistent(db)
    && db.cards.Keys <= log.Keys
    && (forall id :: id in db.cards ==> RowIsSummary(db, log, id))
  }

  /** No candidate of a sweep has written twice. */
  ghost predicate HistoryOk(h: History) {
    && |h.checks| == |h.writers|
    && (forall p, q :: 0 <= p < q < |h.writers| && h.writers[p].Worker? ==> h.writers[p] != h.writers[q])
  }

  ghost predicate LogOk(log: map<nat, History>) {
    forall id :: id in log ==> HistoryOk(log[id])
  }

  /** Candidate i of sweep t wrote record p, over a record with the very stamp it had read. */
  ghost predicate StandsAt(h: History, t: nat, i: nat, c: Candidate, healthy: bool, p: nat) {
    && c.observed <= p < |h.checks| && p < |h.writers|
    && h.writers[p] == Worker(t, i) && h.checks[p].healthy == healthy
    && LastAt(h.checks[..p]) == c.seen
  }

  ghost predicate Stands(h: History, t: nat, i: nat, c: Candidate, healthy: bool) {
    exists p: nat :: StandsAt(h, t, i, c, healthy, p)
  }

  /** What a sweep knows of one candidate, and what its finished task left in the history. */
  ghost predicate SlotOk(tick: Tick, t: nat, i: nat, log: map<nat, History>)
    requires i < |tick.candidates| && i < |tick.tasks|
  {
    var c := tick.candidates[i];
    && c.id in log
    && c.observed <= |log[c.id].checks|
    && c.seen == LastAt(log[c.id].checks[..c.observed])
    && |log[c.id].checks| == |log[c.id].writers|
    && (tick.tasks[i] == Done(WasSuperseded) ==> c.observed < |log[c.id].checks|)
    && (tick.tasks[i] == Done(WasHealthy) ==> Stands(log[c.id], t, i, c, true))
    && (tick.tasks[i] == Done(WasUnhealthy) ==> Stands(log[c.id], t, i, c, false))
  }

  ghost predicate TickOk(tick: Tick, t: nat, log: map<nat, History>, cap: nat) {
    && |tick.candidates| == |tick.tasks|
    && (forall i, j :: 0 <= i < j < |tick.candidates| ==> tick.candidates[i].id != tick.candidates[j].id)
    && (forall i: nat :: i < |tick.candidates| ==> SlotOk(tick, t, i, log))
    && |InFlight(tick)| <= cap
  }

  /** A worker's record stands after all its sweep had seen, and its task says so. */
  ghost predicate WriterOk(ticks: map<nat, Tick>, id: nat, p: nat, c: Check, writer: Writer) {
    writer.Worker? ==>
      && writer.tick in ticks
      && var tick := ticks[writer.tick];
         && writer.slot < |tick.candidates| == |tick.tasks|
         && tick.candidates[writer.slot].id == id
         && tick.candidates[writer.slot].observed <= p
         && tick.tasks[writer.slot] == Done(if c.healthy then WasHealthy else WasUnhealthy)
  }

  ghost predicate WritersOk(log: map<nat, History>, ticks: map<nat, Tick>) {
    forall id, p: nat :: id in log && p < |log[id].checks| && p < |log[id].writers| ==>
      WriterOk(ticks, id, p, log[id].checks[p], log[id].writers[p])
  }

  ghost predicate TicksOk(ticks: map<nat, Tick>, log: map<nat, History>, cap: nat) {
    forall t :: t in ticks ==> TickOk(ticks[t], t, log, cap)
  }

  ghost predicate RequestsOk(reqs: map<nat, Request>, log: map<nat, History>) {
    forall r :: r in reqs ==> reqs[r].id in log
  }

  ghost predicate Inv(w: World, cap: nat) {
    && DbOk(w.db, w.log)
    && LogOk(w.log)
    && TicksOk(w.ticks, w.log, cap)
    && WritersOk(w.log, w.ticks)
    && RequestsOk(w.rechecks, w.log) && RequestsOk(w.refreshes, w.log)
  }

  lemma EmptyWorldOk(cap: nat)
    ensures Inv(EmptyWorld, cap)
  {
  }

  // ---- the compare-and-set ----------------------------------------------------------------

  lemma GuardReadsTheRow(db: Db, id: nat, read: Transport, result: Liveness, seen: Option<int>, now: int)
    requires id in db.cards
    ensures var (after, settled) := Settle(db, id, read, result, Seen(seen), now);
            && (settled.Superseded? <==> id in db.health && db.health[id].lastChecked != seen)
            && (!settled.Stored? ==> after == db)
  {
  }

  /**
   The guarded record gives way exactly when the latest accepted stamp is not the one its sweep
   read; then, and when it is rolled back, the state stays as it is.
   */
  lemma CompareAndSetIsExact(w: World, cap: nat, t: nat, i: nat, now: int)
    requires Inv(w, cap) && AtTask(w, t, i) && w.ticks[t].tasks[i].Probed?
    requires w.ticks[t].candidates[i].id in w.db.cards
    ensures var c := w.ticks[t].candidates[i];
            var (db, settled) := Settle(w.db, c.id, c.transport, w.ticks[t].tasks[i].result, Seen(c.seen), now);
            && (settled.Superseded? <==> LastAt(LogOf(w.log, c.id).checks) != c.seen)
            && (!settled.Stored? ==> db == w.db)
  {
    var c := w.ticks[t].candidates[i];
    assert SlotOk(w.ticks[t], t, i, w.log);
    assert RowIsSummary(w.db, w.log, c.id);
    GuardReadsTheRow(w.db, c.id, c.transport, w.ticks[t].tasks[i].result, c.seen, now);
  }

  // ---- steps keep the invariant -----------------------------------------------------------

  ghost predicate Grown(log: map<nat, History>, log': map<nat, History>) {
    forall id :: id in log ==>
      && id in log'
      && log[id].checks <= log'[id].checks && log[id].writers <= log'[id].writers
      && (|log[id].checks| == |log[id].writers| ==> |log'[id].checks| == |log'[id].writers|)
  }

  lemma StandsAfterGrowth(h: History, h': History, t: nat, i: nat, c: Candidate, healthy: bool)
    requires Stands(h, t, i, c, healthy) && h.checks <= h'.checks && h.writers <= h'.writers
    ensures Stands(h', t, i, c, healthy)
  {
    var p: nat :| StandsAt(h, t, i, c, healthy, p);
    assert h'.checks[..p] == h.checks[..p];
    assert StandsAt(h', t, i, c, healthy, p);
  }

  lemma SlotSurvivesGrowth(tick: Tick, t: nat, i: nat, log: map<nat, History>, log': map<nat, History>)
    requires i < |tick.candidates| && i < |tick.tasks|
    requires SlotOk(tick, t, i, log) && Grown(log, log')
    ensures SlotOk(tick, t, i, log')
  {
    var c := tick.candidates[i];
    assert log'[c.id].checks[..c.observed] == log[c.id].checks[..c.observed];
    if tick.tasks[i] == Done(WasHealthy) { StandsAfterGrowth(log[c.id], log'[c.id], t, i, c, true); }
    if tick.tasks[i] == Done(WasUnhealthy) { StandsAfterGrowth(log[c.id], log'[c.id], t, i, c, false); }
  }

  lemma TicksSurviveGrowth(ticks: map<nat, Tick>, log: map<nat, History>, log': map<nat, History>, cap: nat)
    requires TicksOk(ticks, log, cap) && Grown(log, log')
    ensures TicksOk(ticks, log', cap)
  {
    forall t | t in ticks ensures TickOk(ticks[t], t, log', cap) {
      assert TickOk(ticks[t], t, log, cap);
      forall i: nat | i < |ticks[t].candidates| ensures SlotOk(ticks[t], t, i, log') {
        SlotSurvivesGrowth(ticks[t], t, i, log, log');
      }
    }
  }

  lemma AcceptGrows(w: World, id: nat, c: Check, writer: Writer)
    requires id in w.log
    ensures Grown(w.log, Accept(w, id, c, writer).log)
  {
  }

  lemma AcceptKeepsLog(w: World, id: nat, c: Check, writer: Writer)
    requires id in w.log && LogOk(w.log)
    requires writer.Worker? ==> writer !in w.log[id].writers
    ensures LogOk(Accept(w, id, c, writer).log)
  {
    var log' := Accept(w, id, c, writer).log;
    forall k | k in log' ensures HistoryOk(log'[k]) {
      assert HistoryOk(w.log[k]);
    }
  }

  /** A task that is not finished has written nothing yet. */
  lemma NotYetWritten(w: World, t: nat, i: nat)
    requires LogOk(w.log) && WritersOk(w.log, w.ticks) && AtTask(w, t, i) && w.ticks[t].tasks[i].Probed?
    requires w.ticks[t].candidates[i].id in w.log
    ensures Worker(t, i) !in w.log[w.ticks[t].candidates[i].id].writers
  {
    var id := w.ticks[t].candidates[i].id;
    assert HistoryOk(w.log[id]);
    forall p: nat | p < |w.log[id].writers| ensures w.log[id].writers[p] != Worker(t, i) {
      assert WriterOk(w.ticks, id, p, w.log[id].checks[p], w.log[id].writers[p]);
    }
  }

  function RowOf(db: Db, id: nat): HealthRow {
    if id in db.health then db.health[id] else FreshRow
  }

  /** A settlement writes the health row and perhaps the transport of its own card, or nothing; no other row or column. */
  lemma SettleShape(db: Db, id: nat, read: Transport, result: Liveness, guard: Guard, now: int)
    requires Consistent(db)
    ensures var (after, settled) := Settle(db, id, read, result, guard, now);
            && (!settled.Stored? ==> after == db)
            && (settled.Stored? ==>
                  && id in db.cards
                  && after.cards.Keys == db.cards.Keys
                  && after.cards == (if result.transport.Some? && result.transport.value != read
                                     then db.cards[id := db.cards[id].(transport := result.transport)] else db.cards)
                  && after.health == db.health[id := Bumped(RowOf(db, id), result.healthy, result.failure, now)]
                  && after.tools == db.tools
                  && Consistent(after))
  {
  }

  /** The health row moves as the history moves, and no other row does. */
  lemma RowsFollowHistory(db: Db, after: Db, log: map<nat, History>, id: nat, c: Check, writer: Writer)
    requires DbOk(db, log) && id in db.cards && Consistent(after)
    requires after.cards.Keys == db.cards.Keys
    requires after.health == db.health[id := Bumped(RowOf(db, id), c.healthy, c.error, c.at)]
    ensures DbOk(after, log[id := Extend(LogOf(log, id), c, writer)])
  {
    var log' := log[id := Extend(log[id], c, writer)];
    SummaryAppend(log[id].checks, c);
    assert RowIsSummary(db, log, id);
    forall k | k in after.cards ensures RowIsSummary(after, log', k) {
      if k != id { assert RowIsSummary(db, log, k); }
    }
  }

  /** Moving one task along: only its own slot and the number in flight have to be looked at. */
  lemma SetTaskKeepsTicks(w: World, cap: nat, t: nat, i: nat, task: Task)
    requires TicksOk(w.ticks, w.log, cap) && AtTask(w, t, i)
    requires var tick := w.ticks[t].(tasks := w.ticks[t].tasks[i := task]);
             SlotOk(tick, t, i, w.log) && |InFlight(tick)| <= cap
    ensures TicksOk(SetTask(w, t, i, task).ticks, w.log, cap)
  {
    var old' := w.ticks[t];
    var tick := old'.(tasks := old'.tasks[i := task]);
    assert TickOk(old', t, w.log, cap);
    forall j: nat | j < |tick.candidates| ensures SlotOk(tick, t, j, w.log) {
      if j != i { assert SlotOk(old', t, j, w.log); }
    }
  }

  lemma InFlightAfter(tick: Tick, i: nat, task: Task)
    requires i < |tick.tasks|
    ensures var after := tick.(tasks := tick.tasks[i := task]);
            && |InFlight(after)| <= |InFlight(tick)| + 1
            && (!task.Probing? && !task.Probed? ==> |InFlight(after)| <= |InFlight(tick)|)
            && (tick.tasks[i].Probing? || tick.tasks[i].Probed? ==> |InFlight(after)| <= |InFlight(tick)|)
  {
    var after := tick.(tasks := tick.tasks[i := task]);
    assert InFlight(after) <= InFlight(tick) + {i};
    if !task.Probing? && !task.Probed? {
      assert InFlight(after) <= InFlight(tick);
    }
    if tick.tasks[i].Probing? || tick.tasks[i].Probed? {
      assert InFlight(tick) + {i} == InFlight(tick);
    }
    SubsetSize(InFlight(after), InFlight(tick) + {i});
    if InFlight(after) <= InFlight(tick) { SubsetSize(InFlight(after), InFlight(tick)); }
  }

  /** A task that was not finished has written nothing, so nothing in the history refers to it. */
  lemma SetTaskKeepsWriters(w: World, t: nat, i: nat, task: Task)
    requires WritersOk(w.log, w.ticks) && AtTask(w, t, i) && !w.ticks[t].tasks[i].Done?
    ensures WritersOk(w.log, SetTask(w, t, i, task).ticks)
  {
    var ticks' := SetTask(w, t, i, task).ticks;
    forall id, p: nat | id in w.log && p < |w.log[id].checks| && p < |w.log[id].writers|
      ensures WriterOk(ticks', id, p, w.log[id].checks[p], w.log[id].writers[p])
    {
      assert WriterOk(w.ticks, id, p, w.log[id].checks[p], w.log[id].writers[p]);
    }
  }

  /** Any change of a task that records nothing. */
  lemma QuietTaskStep(w: World, cap: nat, t: nat, i: nat, task: Task)
    requires Inv(w, cap) && AtTask(w, t, i) && !w.ticks[t].tasks[i].Done?
    requires task.Done? ==> task.verdict.WasError? || task.verdict.DidRaise?
    requires task.Probing? ==> |InFlight(w.ticks[t])| < cap
    requires task.Probed? ==> w.ticks[t].tasks[i].Probing?
    ensures Inv(SetTask(w, t, i, task), cap)
  {
    var tick := w.ticks[t];
    assert TickOk(tick, t, w.log, cap) && SlotOk(tick, t, i, w.log);
    InFlightAfter(tick, i, task);
    assert SlotOk(tick.(tasks := tick.tasks[i := task]), t, i, w.log);
    SetTaskKeepsTicks(w, cap, t, i, task);
    SetTaskKeepsWriters(w, t, i, task);
  }

  /** The new record is the only one whose place has to be looked at. */
  lemma AcceptKeepsWriters(w: World, id: nat, c: Check, writer: Writer)
    requires WritersOk(w.log, w.ticks)
    requires id in w.log && |w.log[id].checks| == |w.log[id].writers|
    requires WriterOk(w.ticks, id, |w.log[id].checks|, c, writer)
    ensures WritersOk(Accept(w, id, c, writer).log, w.ticks)
  {
    var log' := Accept(w, id, c, writer).log;
    forall k, p: nat | k in log' && p < |log'[k].checks| && p < |log'[k].writers|
      ensures WriterOk(w.ticks, k, p, log'[k].checks[p], log'[k].writers[p])
    {
      if k != id || p < |w.log[id].checks| {
        assert WriterOk(w.ticks, k, p, w.log[k].checks[p], w.log[k].writers[p]);
      }
    }
  }

  lemma RecordKeepsInv(w: World, cap: nat, t: nat, i: nat, now: int)
    requires Inv(w, cap) && Enabled(w, cap, Record(t, i, now))
    ensures Inv(ApplyRecord(w, t, i, now), cap)
  {
    var c := w.ticks[t].candidates[i];
    var result := w.ticks[t].tasks[i].result;
    var (db, settled) := Settle(w.db, c.id, c.transport, result, Seen(c.seen), now);
    var task := Done(VerdictOf(settled, result));
    SettleShape(w.db, c.id, c.transport, result, Seen(c.seen), now);
    assert SlotOk(w.ticks[t], t, i, w.log);
    if settled.RolledBack? {
      QuietTaskStep(w, cap, t, i, task);
    } else {
      CompareAndSetIsExact(w, cap, t, i, now);
      if settled.Stored? {
        StoredRecordKeepsInv(w, cap, t, i, db, Check(result.healthy, result.failure, now));
      } else {
        SupersededKeepsInv(w, cap, t, i);
      }
    }
  }

  lemma SupersededKeepsInv(w: World, cap: nat, t: nat, i: nat)
    requires Inv(w, cap) && AtTask(w, t, i) && w.ticks[t].tasks[i].Probed?
    requires LastAt(LogOf(w.log, w.ticks[t].candidates[i].id).checks) != w.ticks[t].candidates[i].seen
    ensures Inv(SetTask(w, t, i, Done(WasSuperseded)), cap)
  {
    var task := Done(WasSuperseded);
    var tick := w.ticks[t];
    assert TickOk(tick, t, w.log, cap) && SlotOk(tick, t, i, w.log);
    var checks := w.log[tick.candidates[i].id].checks;
    assert checks[..|checks|] == checks;
    assert SlotOk(tick.(tasks := tick.tasks[i := task]), t, i, w.log);
    FinishedTaskKeepsTicks(w, cap, t, i, task);
    SetTaskKeepsWriters(w, t, i, task);
  }

  lemma FinishedTaskKeepsTicks(w: World, cap: nat, t: nat, i: nat, task: Task)
    requires TicksOk(w.ticks, w.log, cap) && AtTask(w, t, i) && task.Done?
    requires SlotOk(w.ticks[t].(tasks := w.ticks[t].tasks[i := task]), t, i, w.log)
    ensures TicksOk(SetTask(w, t, i, task).ticks, w.log, cap)
  {
    assert TickOk(w.ticks[t], t, w.log, cap);
    InFlightAfter(w.ticks[t], i, task);
    SetTaskKeepsTicks(w, cap, t, i, task);
  }

  /** The latest stamp of the connector is the one the sweep read. */
  ghost predicate ReadyToStore(w: World, t: nat, i: nat) {
    && AtTask(w, t, i) && w.ticks[t].tasks[i].Probed?
    && w.ticks[t].candidates[i].id in w.log
    && LastAt(w.log[w.ticks[t].candidates[i].id].checks) == w.ticks[t].candidates[i].seen
  }

  function StoredTask(check: Check): Task {
    Done(if check.healthy then WasHealthy else WasUnhealthy)
  }

  lemma StandsWhereAccepted(h: History, t: nat, i: nat, c: Candidate, check: Check)
    requires |h.checks| == |h.writers| && c.observed <= |h.checks| && LastAt(h.checks) == c.seen
    ensures Stands(Extend(h, check, Worker(t, i)), t, i, c, check.healthy)
  {
    var p, h' := |h.checks|, Extend(h, check, Worker(t, i));
    assert h'.checks[..p] == h.checks;
    assert StandsAt(h', t, i, c, check.healthy, p);
  }

  lemma StoredRecordKeepsTicks(w: World, cap: nat, t: nat, i: nat, check: Check)
    requires TicksOk(w.ticks, w.log, cap) && LogOk(w.log) && WritersOk(w.log, w.ticks) && ReadyToStore(w, t, i)
    ensures var log' := Accept(w, w.ticks[t].candidates[i].id, check, Worker(t, i)).log;
            TicksOk(SetTask(w, t, i, StoredTask(check)).ticks, log', cap)
  {
    var c := w.ticks[t].candidates[i];
    var grown := Accept(w, c.id, check, Worker(t, i));
    AcceptGrows(w, c.id, check, Worker(t, i));
    TicksSurviveGrowth(w.ticks, w.log, grown.log, cap);
    assert HistoryOk(w.log[c.id]) && SlotOk(w.ticks[t], t, i, w.log) && SlotOk(w.ticks[t], t, i, grown.log);
    StandsWhereAccepted(w.log[c.id], t, i, c, check);
    FinishedTaskKeepsTicks(grown, cap, t, i, StoredTask(check));
  }

  lemma StoredRecordKeepsWriters(w: World, cap: nat, t: nat, i: nat, check: Check)
    requires TicksOk(w.ticks, w.log, cap) && WritersOk(w.log, w.ticks) && LogOk(w.log)
    requires ReadyToStore(w, t, i)
    ensures var log' := Accept(w, w.ticks[t].candidates[i].id, check, Worker(t, i)).log;
            WritersOk(log', SetTask(w, t, i, StoredTask(check)).ticks)
  {
    var c := w.ticks[t].candidates[i];
    var done := SetTask(w, t, i, StoredTask(check));
    SetTaskKeepsWriters(w, t, i, StoredTask(check));
    assert TickOk(w.ticks[t], t, w.log, cap) && SlotOk(w.ticks[t], t, i, w.log) && HistoryOk(w.log[c.id]);
    AcceptKeepsWriters(done, c.id, check, Worker(t, i));
  }

  lemma StoredRecordKeepsInv(w: World, cap: nat, t: nat, i: nat, db: Db, check: Check)
    requires Inv(w, cap) && ReadyToStore(w, t, i)
    requires var id := w.ticks[t].candidates[i].id;
             && id in w.db.cards
             && Consistent(db) && db.cards.Keys == w.db.cards.Keys
             && db.health == w.db.health[id := Bumped(RowOf(w.db, id), check.healthy, check.error, check.at)]
    ensures var done := SetTask(w.(db := db), t, i, StoredTask(check));
            Inv(Accept(done, w.ticks[t].candidates[i].id, check, Worker(t, i)), cap)
  {
    var c := w.ticks[t].candidates[i];
    var writer := Worker(t, i);
    RowsFollowHistory(w.db, db, w.log, c.id, check, writer);
    NotYetWritten(w, t, i);
    AcceptGrows(w, c.id, check, writer);
    AcceptKeepsLog(w, c.id, check, writer);
    StoredRecordKeepsTicks(w, cap, t, i, check);
    StoredRecordKeepsWriters(w, cap, t, i, check);
    RequestsSurviveGrowth(w.rechecks, w.log, Accept(w, c.id, check, writer).log);
    RequestsSurviveGrowth(w.refreshes, w.log, Accept(w, c.id, check, writer).log);
  }

  lemma RequestsSurviveGrowth(reqs: map<nat, Request>, log: map<nat, History>, log': map<nat, History>)
    requires RequestsOk(reqs, log) && Grown(log, log')
    ensures RequestsOk(reqs, log')
  {
  }

  lemma RecheckKeepsInv(w: World, cap: nat, r: nat, result: Liveness, now: int)
    requires Inv(w, cap) && Enabled(w, cap, FinishRecheck(r, result, now))
    ensures Inv(ApplyRecheck(w, r, result, now), cap)
  {
    var q := w.rechecks[r];
    var (db, settled) := Settle(w.db, q.id, q.transport, result, AnyState, now);
    var check := Check(result.healthy, result.failure, now);
    var done := w.(db := db, rechecks := w.rechecks - {r});
    SettleShape(w.db, q.id, q.transport, result, AnyState, now);
    if settled.Stored? {
      var after := Accept(done, q.id, check, Manual);
      assert HistoryOk(w.log[q.id]);
      RowsFollowHistory(w.db, db, w.log, q.id, check, Manual);
      AcceptGrows(done, q.id, check, Manual);
      AcceptKeepsLog(done, q.id, check, Manual);
      TicksSurviveGrowth(w.ticks, w.log, after.log, cap);
      AcceptKeepsWriters(done, q.id, check, Manual);
      RequestsSurviveGrowth(done.rechecks, w.log, after.log);
      RequestsSurviveGrowth(w.refreshes, w.log, after.log);
    }
  }

  /** The candidates are eligible cards, no two the same, each read as it is now. */
  lemma CandidatesAreDue(w: World, limit: nat)
    ensures var c := FetchCandidates(w, limit);
            && (forall i :: 0 <= i < |c| ==> Eligible(w.db, c[i].id) && c[i] == CandidateFor(w, c[i].id)
                                             && DueKey(w.db, c[i].id) == Due(w.db, limit)[i])
            && (forall i, j :: 0 <= i < j < |c| ==> c[i].id != c[j].id)
  {
    var c, due := FetchCandidates(w, limit), Due(w.db, limit);
    var all := Sorted(DueKeys(w.db));
    SortedFacts(DueKeys(w.db));
    forall i | 0 <= i < |c|
      ensures Eligible(w.db, c[i].id) && c[i] == CandidateFor(w, c[i].id) && DueKey(w.db, c[i].id) == due[i]
    {
      assert due[i] == all[i] && all[i] in all;
    }
    forall i, j | 0 <= i < j < |c| ensures c[i].id != c[j].id {
      assert Less(all[i], all[j]);
      LessAsymmetric(all[i], all[j]);
    }
  }

  lemma FreshTickOk(w: World, cap: nat, t: nat, limit: nat, timeout: real)
    requires DbOk(w.db, w.log) && LogOk(w.log)
    ensures TickOk(FreshTick(FetchCandidates(w, limit), timeout), t, w.log, cap)
  {
    var c := FetchCandidates(w, limit);
    var tick := FreshTick(c, timeout);
    CandidatesAreDue(w, limit);
    forall i: nat | i < |c| ensures SlotOk(tick, t, i, w.log) {
      assert c[i] == CandidateFor(w, c[i].id);
      ReadIsCurrent(w, c[i].id);
    }
    assert InFlight(tick) == {};
  }

  /** What a sweep reads of a card agrees with the history as it stands. */
  lemma ReadIsCurrent(w: World, id: nat)
    requires DbOk(w.db, w.log) && LogOk(w.log) && id in w.db.cards
    ensures id in w.log && |w.log[id].checks| == |w.log[id].writers|
    ensures w.log[id].checks[..|w.log[id].checks|] == w.log[id].checks
    ensures LastChecked(w.db, id) == LastAt(w.log[id].checks)
  {
    assert RowIsSummary(w.db, w.log, id) && HistoryOk(w.log[id]);
  }

  /** The history refers to sweeps by their candidates and tasks only. */
  lemma WritersSurvive(log: map<nat, History>, ticks: map<nat, Tick>, ticks': map<nat, Tick>)
    requires WritersOk(log, ticks) && ticks.Keys <= ticks'.Keys
    requires forall t :: t in ticks ==>
               ticks'[t].candidates == ticks[t].candidates && ticks'[t].tasks == ticks[t].tasks
    ensures WritersOk(log, ticks')
  {
    forall id, p: nat | id in log && p < |log[id].checks| && p < |log[id].writers|
      ensures WriterOk(ticks', id, p, log[id].checks[p], log[id].writers[p])
    {
      assert WriterOk(ticks, id, p, log[id].checks[p], log[id].writers[p]);
    }
  }

  lemma StartTickKeepsInv(w: World, cap: nat, t: nat, limit: nat, timeout: real)
    requires Inv(w, cap) && t !in w.ticks
    ensures Inv(Apply(w, StartTick(t, limit, timeout)), cap)
  {
    FreshTickOk(w, cap, t, limit, timeout);
    WritersSurvive(w.log, w.ticks, Apply(w, StartTick(t, limit, timeout)).ticks);
  }

  lemma CrashKeepsInv(w: World, cap: nat, t: nat)
    requires Inv(w, cap) && t in w.ticks
    ensures Inv(Apply(w, CrashTick(t)), cap)
  {
    var tick := w.ticks[t].(alive := false);
    assert TickOk(w.ticks[t], t, w.log, cap);
    assert InFlight(tick) == InFlight(w.ticks[t]);
    forall i: nat | i < |tick.candidates| ensures SlotOk(tick, t, i, w.log) {
      assert SlotOk(w.ticks[t], t, i, w.log);
    }
    WritersSurvive(w.log, w.ticks, Apply(w, CrashTick(t)).ticks);
  }

  /** Steps of the API and of people that record no check leave every health row alone. */
  lemma QuietDbStep(w: World, cap: nat, db: Db)
    requires Inv(w, cap) && Consistent(db)
    requires db.cards.Keys <= w.db.cards.Keys
    requires forall id :: id in db.cards ==> (id in db.health <==> id in w.db.health)
    requires forall id :: id in db.cards && id in db.health ==> db.health[id] == w.db.health[id]
    ensures Inv(w.(db := db), cap)
  {
    forall id | id in db.cards ensures RowIsSummary(db, w.log, id) {
      assert RowIsSummary(w.db, w.log, id);
    }
  }

  lemma CreateKeepsDb(db: Db, log: map<nat, History>, id: nat, card: Card, health': map<nat, HealthRow>)
    requires DbOk(db, log) && id !in log && CardAllowed(card)
    requires health' == db.health || health' == db.health[id := FreshRow]
    ensures DbOk(db.(cards := db.cards[id := card], health := health'), log[id := NoHistory])
  {
    var db', log' := db.(cards := db.cards[id := card], health := health'), log[id := NoHistory];
    forall k | k in db'.cards ensures RowIsSummary(db', log', k) {
      if k != id { assert RowIsSummary(db, log, k); }
    }
  }

  lemma CreateKeepsLog(log: map<nat, History>, ticks: map<nat, Tick>, id: nat)
    requires LogOk(log) && WritersOk(log, ticks) && id !in log
    ensures LogOk(log[id := NoHistory]) && WritersOk(log[id := NoHistory], ticks)
  {
    var log' := log[id := NoHistory];
    forall k | k in log' ensures HistoryOk(log'[k]) {
      if k != id { assert HistoryOk(log[k]); }
    }
    forall k, p: nat | k in log' && p < |log'[k].checks| && p < |log'[k].writers|
      ensures WriterOk(ticks, k, p, log'[k].checks[p], log'[k].writers[p])
    {
      assert WriterOk(ticks, k, p, log[k].checks[p], log[k].writers[p]);
    }
  }

  lemma CreateKeepsInv(w: World, cap: nat, id: nat, card: Card, withHealthRow: bool, req: nat, timeout: real)
    requires Inv(w, cap) && id !in w.log && CardAllowed(card)
    ensures Inv(Apply(w, CreateCard(id, card, withHealthRow, req, timeout)), cap)
  {
    var after := Apply(w, CreateCard(id, card, withHealthRow, req, timeout));
    CreateKeepsDb(w.db, w.log, id, card, after.db.health);
    CreateKeepsLog(w.log, w.ticks, id);
    TicksSurviveGrowth(w.ticks, w.log, after.log, cap);
  }

  lemma SaveToolsShape(db: Db, id: nat, tools: Option<seq<string>>, failure: Option<Failure>, now: int)
    requires Consistent(db)
    ensures var saved := SaveTools(db, id, tools, failure, now);
            saved.Some? ==> Consistent(saved.value) && saved.value.cards == db.cards && saved.value.health == db.health
  {
  }

  lemma CorrectTransportShape(db: Db, id: nat, used: Transport)
    requires Consistent(db)
    ensures var corrected := CorrectTransport(db, id, used);
            corrected.Some? ==> Consistent(corrected.value) && corrected.value.cards.Keys == db.cards.Keys
                                && corrected.value.health == db.health
  {
  }

  lemma RefreshShape(db: Db, q: Request, tools: Option<seq<string>>, used: Transport, failure: Option<Failure>, now: int)
    requires Consistent(db)
    ensures var after := RefreshDb(db, q, tools, used, failure, now);
            Consistent(after) && after.cards.Keys == db.cards.Keys && after.health == db.health
  {
    var saved := SaveTools(db, q.id, tools, failure, now);
    if saved.Some? {
      SaveToolsShape(db, q.id, tools, failure, now);
      if q.id in saved.value.cards { CorrectTransportShape(saved.value, q.id, used); }
    }
  }

  lemma RefreshKeepsInv(w: World, cap: nat, r: nat, tools: Option<seq<string>>, used: Transport, failure: Option<Failure>, now: int)
    requires Inv(w, cap) && r in w.refreshes
    ensures Inv(Apply(w, FinishRefresh(r, tools, used, failure, now)), cap)
  {
    RefreshShape(w.db, w.refreshes[r], tools, used, failure, now);
    QuietDbStep(w, cap, RefreshDb(w.db, w.refreshes[r], tools, used, failure, now));
  }

  /** Editing or archiving a card, or deleting it with its side rows. */
  lemma CardStepShape(w: World, cap: nat, e: Event)
    requires Consistent(w.db) && Enabled(w, cap, e) && (e.EditCard? || e.SetArchived? || e.DeleteCard?)
    ensures var after := Apply(w, e);
            && after == w.(db := after.db) && Consistent(after.db)
            && after.db.cards.Keys <= w.db.cards.Keys
            && after.db.health.Keys == w.db.health.Keys * after.db.cards.Keys
            && (forall id :: id in after.db.health ==> after.db.health[id] == w.db.health[id])
  {
  }

  lemma CardStepKeepsInv(w: World, cap: nat, e: Event)
    requires Inv(w, cap) && Enabled(w, cap, e) && (e.EditCard? || e.SetArchived? || e.DeleteCard?)
    ensures Inv(Apply(w, e), cap)
  {
    var after := Apply(w, e);
    CardStepShape(w, cap, e);
    forall id | id in after.db.cards ensures RowIsSummary(after.db, w.log, id) {
      assert RowIsSummary(w.db, w.log, id);
      assert id in after.db.health <==> id in w.db.health;
    }
  }

  lemma TaskStepKeepsInv(w: World, cap: nat, e: Event)
    requires Inv(w, cap) && Enabled(w, cap, e)
    requires e.Acquire? || e.ProbeEnds? || e.ProbeRaises? || e.RecordFails?
    ensures Inv(Apply(w, e), cap)
  {
    var task := match e
      case Acquire(_, _) => Probing
      case ProbeEnds(_, _, result) => Probed(result)
      case ProbeRaises(_, _) => Done(DidRaise)
      case _ => Done(WasError);
    QuietTaskStep(w, cap, e.tick, e.slot, task);
  }

  /** Every event of the protocol keeps the invariant, whoever takes it. */
  lemma StepKeepsInv(w: World, cap: nat, e: Event)
    requires Inv(w, cap) && Enabled(w, cap, e)
    ensures Inv(Apply(w, e), cap)
  {
    if e.Acquire? || e.ProbeEnds? || e.ProbeRaises? || e.RecordFails? {
      TaskStepKeepsInv(w, cap, e);
    } else if e.EditCard? || e.SetArchived? || e.DeleteCard? {
      CardStepKeepsInv(w, cap, e);
    } else {
      match e
      case StartTick(t, limit, timeout) => StartTickKeepsInv(w, cap, t, limit, timeout);
      case Record(t, i, now) => RecordKeepsInv(w, cap, t, i, now);
      case CrashTick(t) => CrashKeepsInv(w, cap, t);
      case FinishRecheck(r, result, now) => RecheckKeepsInv(w, cap, r, result, now);
      case FinishRefresh(r, tools, used, failure, now) => RefreshKeepsInv(w, cap, r, tools, used, failure, now);
      case CreateCard(id, card, withHealthRow, req, timeout) =>
        CreateKeepsInv(w, cap, id, card, withHealthRow, req, timeout);
      case _ =>
    }
  }

  lemma {:induction false} RunKeepsInv(cap: nat, es: seq<Event>)
    requires Legal(EmptyWorld, cap, es)
    ensures Inv(Run(EmptyWorld, es), cap)
  {
    if es == [] {
      EmptyWorldOk(cap);
    } else {
      RunKeepsInv(cap, es[..|es| - 1]);
      StepKeepsInv(Run(EmptyWorld, es[..|es| - 1]), cap, es[|es| - 1]);
    }
  }
}
