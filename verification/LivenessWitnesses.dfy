/**
 Two runs from the empty database: the guard at work, and the one case it cannot see. In both,
 a sweep's probe of a broken server is under way while its owner repairs it and rechecks.
 */
module LivenessWitnesses {
  import opened Options
  import opened McpClient
  import opened Probes
  import opened LivenessProtocol
  import opened LivenessSafety

  const Down := Liveness(false, None, Some(Timeout))
  const Up := Liveness(true, Some(Sse), None)

  const TheCard := Card(Some("url"), Some(Sse), false)

  /** The row after a first recheck that found the server down, stamped 5. */
  const DownRow := HealthRow(Unhealthy, Some(5), 1, Some(Timeout))

  function Sweep(row: HealthRow, seen: nat, task: Task): map<nat, Tick> {
    map[0 := Tick([Candidate(7, Sse, row.lastChecked, seen)], [task], true, 10.0)]
  }

  lemma OneMoreEvent(w: World, cap: nat, es: seq<Event>, e: Event)
    requires Legal(w, cap, es) && Enabled(Run(w, es), cap, e)
    ensures Legal(w, cap, es + [e]) && Run(w, es + [e]) == Apply(Run(w, es), e)
  {
    assert (es + [e])[..|es|] == es;
  }

  lemma TaskMoves(w: World, row: HealthRow, seen: nat, task: Task, next: Task)
    requires w.ticks == Sweep(row, seen, task)
    ensures SetTask(w, 0, 0, next).ticks == Sweep(row, seen, next)
  {
    assert [task][0 := next] == [next];
  }

  /** Card 7 alone, with `seen` records behind its row, nothing being checked. */
  ghost predicate Resting(w: World, row: HealthRow, seen: nat) {
    && w.ticks == map[] && w.rechecks == map[]
    && w.db == Db(map[7 := TheCard], map[7 := row], map[])
    && |LogOf(w.log, 7).checks| == seen
  }

  ghost predicate Queueing(w: World, row: HealthRow, seen: nat) {
    && w.ticks == Sweep(row, seen, Queued) && w.rechecks == map[]
    && w.db == Db(map[7 := TheCard], map[7 := row], map[])
  }

  /** The sweep's probe is under way, and a recheck has just recorded "up" at 5. */
  ghost predicate RecheckedMeanwhile(w: World, row: HealthRow, seen: nat) {
    && w.ticks == Sweep(row, seen, Probing)
    && w.db == Db(map[7 := TheCard], map[7 := HealthRow(Healthy, Some(5), 0, None)], map[])
  }

  lemma Created(w: World)
    requires w == Apply(EmptyWorld, CreateCard(7, TheCard, true, 0, 10.0))
    ensures Resting(w, FreshRow, 0)
  {
  }

  lemma FirstRecheck(w: World, w1: World, w2: World)
    requires Resting(w, FreshRow, 0)
    requires w1 == Apply(w, StartRecheck(0, 7, 10.0)) && w2 == Apply(w1, FinishRecheck(0, Down, 5))
    ensures Enabled(w, 1, StartRecheck(0, 7, 10.0)) && Enabled(w1, 1, FinishRecheck(0, Down, 5))
    ensures Resting(w2, DownRow, 1)
  {
    assert w1.rechecks == map[0 := Request(7, Sse, 10.0)];
    assert w2.rechecks == map[];
  }

  lemma SweepStarts(w: World, row: HealthRow, seen: nat)
    requires Resting(w, row, seen)
    ensures Queueing(Apply(w, StartTick(0, 1, 10.0)), row, seen)
  {
    var c := FetchCandidates(w, 1);
    assert DueKeys(w.db) == {DueKey(w.db, 7)};
    assert |c| == 1;
    CandidatesAreDue(w, 1);
    assert c[0] == CandidateFor(w, 7) == Candidate(7, Sse, row.lastChecked, seen);
    assert c == [c[0]];
    assert FreshTick(c, 10.0).tasks == [Queued];
    assert w.ticks[0 := FreshTick(c, 10.0)] == map[0 := FreshTick(c, 10.0)];
  }

  lemma RecheckSteps(w: World, w1: World, w2: World, w3: World, row: HealthRow, seen: nat)
    requires Queueing(w, row, seen)
    requires w1 == Apply(w, Acquire(0, 0)) && w2 == Apply(w1, StartRecheck(0, 7, 10.0)) && w3 == Apply(w2, FinishRecheck(0, Up, 5))
    ensures Enabled(w, 1, Acquire(0, 0)) && Enabled(w1, 1, StartRecheck(0, 7, 10.0)) && Enabled(w2, 1, FinishRecheck(0, Up, 5))
    ensures RecheckedMeanwhile(w3, row, seen)
  {
    assert InFlight(w.ticks[0]) == {};
    TaskMoves(w, row, seen, Queued, Probing);
    assert w2.rechecks == map[0 := Request(7, Sse, 10.0)];
  }

  /** The late "down": dropped if the row's stamp moved, stored if it did not. */
  lemma LateRecordSteps(w: World, w1: World, w2: World, row: HealthRow, seen: nat)
    requires RecheckedMeanwhile(w, row, seen)
    requires w1 == Apply(w, ProbeEnds(0, 0, Down)) && w2 == Apply(w1, Record(0, 0, 6))
    ensures Enabled(w, 1, ProbeEnds(0, 0, Down)) && Enabled(w1, 1, Record(0, 0, 6))
    ensures row.lastChecked != Some(5) ==> w2.ticks == Sweep(row, seen, Done(WasSuperseded)) && w2.db == w.db
    ensures row.lastChecked == Some(5) ==>
              && w2.ticks == Sweep(row, seen, Done(WasUnhealthy))
              && w2.db.health == map[7 := HealthRow(Unhealthy, Some(6), 1, Some(Timeout))]
  {
    TaskMoves(w, row, seen, Probing, Probed(Down));
    TaskMoves(w1, row, seen, Probed(Down), Done(WasSuperseded));
    TaskMoves(w1, row, seen, Probed(Down), Done(WasUnhealthy));
  }

  lemma StartOver() returns (es: seq<Event>)
    ensures Legal(EmptyWorld, 1, es) && Resting(Run(EmptyWorld, es), FreshRow, 0)
  {
    var e := CreateCard(7, TheCard, true, 0, 10.0);
    OneMoreEvent(EmptyWorld, 1, [], e);
    es := [] + [e];
    Created(Run(EmptyWorld, es));
  }

  lemma AfterFirstRecheck() returns (es: seq<Event>)
    ensures Legal(EmptyWorld, 1, es) && Resting(Run(EmptyWorld, es), DownRow, 1)
  {
    es := StartOver();
    var w := Run(EmptyWorld, es);
    var w1 := Apply(w, StartRecheck(0, 7, 10.0));
    FirstRecheck(w, w1, Apply(w1, FinishRecheck(0, Down, 5)));
    OneMoreEvent(EmptyWorld, 1, es, StartRecheck(0, 7, 10.0));
    es := es + [StartRecheck(0, 7, 10.0)];
    OneMoreEvent(EmptyWorld, 1, es, FinishRecheck(0, Down, 5));
    es := es + [FinishRecheck(0, Down, 5)];
  }

  lemma RecheckMeanwhile(before: seq<Event>, row: HealthRow, seen: nat) returns (es: seq<Event>)
    requires Legal(EmptyWorld, 1, before) && Resting(Run(EmptyWorld, before), row, seen)
    ensures Legal(EmptyWorld, 1, es) && RecheckedMeanwhile(Run(EmptyWorld, es), row, seen)
  {
    var w := Apply(Run(EmptyWorld, before), StartTick(0, 1, 10.0));
    var w1 := Apply(w, Acquire(0, 0));
    var w2 := Apply(w1, StartRecheck(0, 7, 10.0));
    SweepStarts(Run(EmptyWorld, before), row, seen);
    RecheckSteps(w, w1, w2, Apply(w2, FinishRecheck(0, Up, 5)), row, seen);
    OneMoreEvent(EmptyWorld, 1, before, StartTick(0, 1, 10.0));
    es := before + [StartTick(0, 1, 10.0)];
    OneMoreEvent(EmptyWorld, 1, es, Acquire(0, 0));
    es := es + [Acquire(0, 0)];
    OneMoreEvent(EmptyWorld, 1, es, StartRecheck(0, 7, 10.0));
    es := es + [StartRecheck(0, 7, 10.0)];
    OneMoreEvent(EmptyWorld, 1, es, FinishRecheck(0, Up, 5));
    es := es + [FinishRecheck(0, Up, 5)];
  }

  lemma LateRecord(before: seq<Event>, row: HealthRow, seen: nat) returns (es: seq<Event>)
    requires Legal(EmptyWorld, 1, before) && RecheckedMeanwhile(Run(EmptyWorld, before), row, seen)
    ensures Legal(EmptyWorld, 1, es)
    ensures row.lastChecked != Some(5) ==>
              Run(EmptyWorld, es).ticks == Sweep(row, seen, Done(WasSuperseded)) && Run(EmptyWorld, es).db == Run(EmptyWorld, before).db
    ensures row.lastChecked == Some(5) ==>
              && Run(EmptyWorld, es).ticks == Sweep(row, seen, Done(WasUnhealthy))
              && Run(EmptyWorld, es).db.health == map[7 := HealthRow(Unhealthy, Some(6), 1, Some(Timeout))]
  {
    var w1 := Apply(Run(EmptyWorld, before), ProbeEnds(0, 0, Down));
    LateRecordSteps(Run(EmptyWorld, before), w1, Apply(w1, Record(0, 0, 6)), row, seen);
    OneMoreEvent(EmptyWorld, 1, before, ProbeEnds(0, 0, Down));
    es := before + [ProbeEnds(0, 0, Down)];
    OneMoreEvent(EmptyWorld, 1, es, Record(0, 0, 6));
    es := es + [Record(0, 0, 6)];
  }

  /** The case the guard is for: the late "down" gives way to the newer "up". */
  lemma ALateResultGivesWay() returns (es: seq<Event>)
    ensures Legal(EmptyWorld, 1, es)
    ensures Run(EmptyWorld, es).ticks == Sweep(FreshRow, 0, Done(WasSuperseded))
    ensures Run(EmptyWorld, es).db.health == map[7 := HealthRow(Healthy, Some(5), 0, None)]
  {
    es := StartOver();
    es := RecheckMeanwhile(es, FreshRow, 0);
    es := LateRecord(es, FreshRow, 0);
  }

  /** The case it cannot see: two rechecks share a stamp, and the late "down" covers the newer "up". */
  lemma ARepeatedStampIsNotSeen() returns (es: seq<Event>)
    ensures Legal(EmptyWorld, 1, es)
    ensures Run(EmptyWorld, es).ticks == Sweep(DownRow, 1, Done(WasUnhealthy))
    ensures Run(EmptyWorld, es).db.health == map[7 := HealthRow(Unhealthy, Some(6), 1, Some(Timeout))]
  {
    es := AfterFirstRecheck();
    es := RecheckMeanwhile(es, DownRow, 1);
    es := LateRecord(es, DownRow, 1);
  }
}
