/**
 Each step of the liveness protocol on the rows and histories themselves: what a manual recheck,
 a sweep's record and a refresh leave behind column by column, which connectors a sweep reads
 and in what order, and what the steps of people do.
 */
module LivenessRows {
  import opened Options
  import opened KeyOrder
  import opened McpClient
  import opened Probes
  import opened LivenessProtocol
  import opened LivenessSafety
  import opened LivenessResults

  // ---- records ----------------------------------------------------------------------------

  /** The card is there, and can take the transport that answered if it is another than was read. */
  ghost predicate Takes(db: Db, id: nat, read: Transport, result: Liveness) {
    && id in db.cards
    && (result.transport.Some? && result.transport.value != read ==>
          db.cards[id].endpoint.Some? && result.transport.value in {StreamableHttp, Sse})
  }

  /** One check written on the rows: the health row, perhaps the transport, and nothing else. */
  ghost predicate Written(db: Db, after: Db, id: nat, read: Transport, result: Liveness, now: int)
    requires id in db.cards
  {
    && after.health.Keys == db.health.Keys + {id}
    && (forall k :: k in db.health && k != id ==> after.health[k] == db.health[k])
    && after.health[id].status == (if result.healthy then Healthy else Unhealthy)
    && after.health[id].lastChecked == Some(now)
    && after.health[id].lastError == result.failure
    && after.health[id].failures == (if result.healthy then 0 else 1 + if id in db.health then db.health[id].failures else 0)
    && after.cards.Keys == db.cards.Keys
    && (forall k :: k in db.cards && k != id ==> after.cards[k] == db.cards[k])
    && after.cards[id].endpoint == db.cards[id].endpoint && after.cards[id].archived == db.cards[id].archived
    && after.cards[id].transport ==
         (if result.transport.Some? && result.transport.value != read then result.transport else db.cards[id].transport)
    && after.tools == db.tools
  }

  /** One more entry at the end of one history. */
  ghost predicate Logged(log: map<nat, History>, after: map<nat, History>, id: nat, c: Check, writer: Writer) {
    && after.Keys == log.Keys + {id}
    && (forall k :: k in log && k != id ==> after[k] == log[k])
    && after[id].checks == (if id in log then log[id].checks else []) + [c]
    && after[id].writers == (if id in log then log[id].writers else []) + [writer]
  }

  lemma SettleOnRows(db: Db, id: nat, read: Transport, result: Liveness, guard: Guard, now: int)
    requires Consistent(db)
    ensures var (after, settled) := Settle(db, id, read, result, guard, now);
            var passes := guard.AnyState? || id !in db.health || db.health[id].lastChecked == guard.at;
            && (settled == Stored <==> passes && Takes(db, id, read, result))
            && (settled == Superseded <==> !passes)
            && (settled == Stored ==> Written(db, after, id, read, result, now))
            && (settled != Stored ==> after == db)
  {
  }

  /**
   A manual recheck is recorded whatever the row holds by then: the history grows by exactly
   this check, the row is that of this check, and the transport that answered is stored. Only a
   card that is gone, or that cannot take the transport, leaves everything as it was.
   */
  lemma RecheckIsRecorded(w: World, cap: nat, r: nat, result: Liveness, now: int)
    requires Consistent(w.db) && Enabled(w, cap, FinishRecheck(r, result, now))
    ensures var w' := Apply(w, FinishRecheck(r, result, now));
            var q := w.rechecks[r];
            && (Takes(w.db, q.id, q.transport, result) ==>
                  && Written(w.db, w'.db, q.id, q.transport, result, now)
                  && Logged(w.log, w'.log, q.id, Check(result.healthy, result.failure, now), Manual))
            && (!Takes(w.db, q.id, q.transport, result) ==> w'.db == w.db && w'.log == w.log)
            && w'.rechecks == w.rechecks - {r}
            && w'.ticks == w.ticks && w'.refreshes == w.refreshes && w'.saves == w.saves
  {
    var q := w.rechecks[r];
    SettleOnRows(w.db, q.id, q.transport, result, AnyState, now);
    AcceptIsLogged(w, q.id, Check(result.healthy, result.failure, now), Manual);
  }

  /** The same over whole runs: at whatever step a recheck ends, nothing that happened since it began makes it yield. */
  lemma RechecksNeverYield(cap: nat, es: seq<Event>, n: nat)
    requires Legal(EmptyWorld, cap, es) && n < |es| && es[n].FinishRecheck?
    ensures var w, w' := Run(EmptyWorld, es[..n]), Run(EmptyWorld, es[..n + 1]);
            es[n].req in w.rechecks
            && var q := w.rechecks[es[n].req];
               && (Takes(w.db, q.id, q.transport, es[n].result) ==>
                     && Written(w.db, w'.db, q.id, q.transport, es[n].result, es[n].now)
                     && Logged(w.log, w'.log, q.id, Check(es[n].result.healthy, es[n].result.failure, es[n].now), Manual))
               && (!Takes(w.db, q.id, q.transport, es[n].result) ==> w'.db == w.db && w'.log == w.log)
  {
    LegalPrefix(EmptyWorld, cap, es, n);
    RunKeepsInv(cap, es[..n]);
    RecheckIsRecorded(Run(EmptyWorld, es[..n]), cap, es[n].req, es[n].result, es[n].now);
  }

  /**
   A sweep's record on the rows: written if the row's stamp is the one read and the card can take
   it; superseded if the stamp is another; an error, never "raised", if the card is gone or
   cannot take it. Only a written one changes anything but the outcome.
   */
  lemma RecordOnRows(w: World, cap: nat, t: nat, i: nat, now: int)
    requires Consistent(w.db) && Enabled(w, cap, Record(t, i, now))
    ensures var w' := Apply(w, Record(t, i, now));
            var c, result := w.ticks[t].candidates[i], w.ticks[t].tasks[i].result;
            var passes := c.id !in w.db.health || w.db.health[c.id].lastChecked == c.seen;
            var writes := passes && Takes(w.db, c.id, c.transport, result);
            && (writes ==>
                  && Written(w.db, w'.db, c.id, c.transport, result, now)
                  && Logged(w.log, w'.log, c.id, Check(result.healthy, result.failure, now), Worker(t, i)))
            && (!writes ==> w'.db == w.db && w'.log == w.log)
            && w'.ticks == w.ticks[t := w.ticks[t].(tasks := w.ticks[t].tasks[i := Done(
                 if !passes then WasSuperseded else if !writes then WasError
                 else if result.healthy then WasHealthy else WasUnhealthy)])]
            && w'.rechecks == w.rechecks && w'.refreshes == w.refreshes && w'.saves == w.saves
  {
    var c, result := w.ticks[t].candidates[i], w.ticks[t].tasks[i].result;
    SettleOnRows(w.db, c.id, c.transport, result, Seen(c.seen), now);
    AcceptIsLogged(w, c.id, Check(result.healthy, result.failure, now), Worker(t, i));
  }

  lemma AcceptIsLogged(w: World, id: nat, c: Check, writer: Writer)
    ensures Logged(w.log, Accept(w, id, c, writer).log, id, c, writer)
  {
  }

  // ---- refreshes --------------------------------------------------------------------------

  /** The cached row after a fetch: a list replaces list and time, a failure neither. */
  ghost predicate Cached(db: Db, after: Db, id: nat, tools: Option<seq<string>>, failure: Option<Failure>, now: int) {
    && after.tools.Keys == db.tools.Keys + {id}
    && (forall k :: k in db.tools && k != id ==> after.tools[k] == db.tools[k])
    && after.tools[id].fetchError == failure
    && (tools.Some? ==> after.tools[id].tools == tools && after.tools[id].fetchedAt == Some(now))
    && (tools.None? && id in db.tools ==>
          after.tools[id].tools == db.tools[id].tools && after.tools[id].fetchedAt == db.tools[id].fetchedAt)
    && (tools.None? && id !in db.tools ==> after.tools[id].tools == None && after.tools[id].fetchedAt == None)
  }

  /**
   A refresh of an existing card is committed, failed or not, unless the card cannot take the
   transport that brought the list: the cached row, the transport, and no other row or column.
   */
  lemma RefreshOnRows(w: World, cap: nat, r: nat, tools: Option<seq<string>>, used: Transport, failure: Option<Failure>, now: int)
    requires Enabled(w, cap, FinishRefresh(r, tools, used, failure, now)) && Consistent(w.db)
    ensures var w' := Apply(w, FinishRefresh(r, tools, used, failure, now));
            var q := w.refreshes[r];
            var moves := tools.Some? && used != q.transport;
            var commits := q.id in w.db.cards && (moves ==> w.db.cards[q.id].endpoint.Some? && used in {StreamableHttp, Sse});
            && (commits ==>
                  && Cached(w.db, w'.db, q.id, tools, failure, now)
                  && w'.db.cards == (if moves then w.db.cards[q.id := w.db.cards[q.id].(transport := Some(used))] else w.db.cards)
                  && w'.saves == w.saves[q.id := (if q.id in w.saves then w.saves[q.id] else []) + [Fetch(tools, failure, now)]])
            && (!commits ==> w'.db == w.db && w'.saves == w.saves)
            && w'.db.health == w.db.health && w'.refreshes == w.refreshes - {r}
            && w'.log == w.log && w'.ticks == w.ticks && w'.rechecks == w.rechecks
  {
    RefreshDbOnRows(w.db, w.refreshes[r], tools, used, failure, now);
  }

  lemma RefreshDbOnRows(db: Db, q: Request, tools: Option<seq<string>>, used: Transport, failure: Option<Failure>, now: int)
    requires Consistent(db)
    ensures var after := Refresh(db, q, tools, used, failure, now);
            var moves := tools.Some? && used != q.transport;
            && (after.Some? <==> q.id in db.cards && (moves ==> db.cards[q.id].endpoint.Some? && used in {StreamableHttp, Sse}))
            && (after.Some? ==>
                  && Cached(db, after.value, q.id, tools, failure, now)
                  && after.value.cards == (if moves then db.cards[q.id := db.cards[q.id].(transport := Some(used))] else db.cards)
                  && after.value.health == db.health)
  {
    var saved := SaveTools(db, q.id, tools, failure, now);
    if saved.Some? {
      SaveOnRows(db, q.id, tools, failure, now);
      CorrectOnRows(saved.value, q.id, used);
    }
  }

  lemma SaveOnRows(db: Db, id: nat, tools: Option<seq<string>>, failure: Option<Failure>, now: int)
    requires Consistent(db)
    ensures var saved := SaveTools(db, id, tools, failure, now);
            && (saved.Some? <==> id in db.cards)
            && (saved.Some? ==> Cached(db, saved.value, id, tools, failure, now)
                                && saved.value.cards == db.cards && saved.value.health == db.health)
  {
  }

  lemma CorrectOnRows(db: Db, id: nat, used: Transport)
    requires id in db.cards
    ensures var corrected := CorrectTransport(db, id, used);
            && (corrected.Some? <==> db.cards[id].endpoint.Some? && used in {StreamableHttp, Sse})
            && (corrected.Some? ==> corrected.value == db.(cards := db.cards[id := db.cards[id].(transport := Some(used))]))
  {
  }

  // ---- what a sweep reads -------------------------------------------------------------------

  /** ORDER BY last_checked_at ASC NULLS FIRST, connector_id, on the columns. */
  ghost predicate DueBefore(db: Db, a: nat, b: nat) {
    var s, t := if a in db.health then db.health[a].lastChecked else None, if b in db.health then db.health[b].lastChecked else None;
    || (s.None? && t.Some?)
    || (s.Some? && t.Some? && s.value < t.value)
    || (s == t && a < b)
  }

  lemma DueKeyOnColumns(db: Db, a: nat, b: nat)
    ensures Less(DueKey(db, a), DueKey(db, b)) <==> DueBefore(db, a, b)
  {
    var s, t := LastChecked(db, a), LastChecked(db, b);
    var x: seq<int> := match s case None => [] case Some(v) => [v];
    var y: seq<int> := match t case None => [] case Some(v) => [v];
    assert DueKey(db, a) == Key(x, a) && DueKey(db, b) == Key(y, b);
    if s.Some? && t.Some? {
      assert x[1..] == [] && y[1..] == [];
      assert LexLess(x, y) <==> s.value < t.value;
    }
  }

  /**
   A sweep reads the unarchived cards with an address and a transport, however often they failed
   before: as many as the limit allows, never-checked and longest-unchecked first, each with the
   transport and the stamp it has then.
   */
  lemma CandidatesOnColumns(w: World, limit: nat)
    ensures var c := FetchCandidates(w, limit);
            var due := set id | id in w.db.cards && !w.db.cards[id].archived
                               && w.db.cards[id].endpoint.Some? && w.db.cards[id].transport.Some?;
            && |c| == (if |due| < limit then |due| else limit)
            && (forall i :: 0 <= i < |c| ==>
                  && c[i].id in due && Some(c[i].transport) == w.db.cards[c[i].id].transport
                  && c[i].seen == (if c[i].id in w.db.health then w.db.health[c[i].id].lastChecked else None))
            && (forall i, j :: 0 <= i < j < |c| ==> DueBefore(w.db, c[i].id, c[j].id))
            && (forall id, i :: id in due && 0 <= i < |c| && (forall k :: 0 <= k < |c| ==> c[k].id != id) ==>
                  DueBefore(w.db, c[i].id, id))
  {
    var c := FetchCandidates(w, limit);
    var due := set id | id in w.db.cards && !w.db.cards[id].archived
                       && w.db.cards[id].endpoint.Some? && w.db.cards[id].transport.Some?;
    CandidatesAreDue(w, limit);
    DueKeysAreAsMany(w.db, due);
    forall i, j | 0 <= i < j < |c| ensures DueBefore(w.db, c[i].id, c[j].id) {
      SortedFacts(DueKeys(w.db));
      DueKeyOnColumns(w.db, c[i].id, c[j].id);
    }
    forall id, i | id in due && 0 <= i < |c| && (forall k :: 0 <= k < |c| ==> c[k].id != id)
      ensures DueBefore(w.db, c[i].id, id)
    {
      UnreadComesLater(w, limit, i, id);
    }
  }

  lemma DueKeysAreAsMany(db: Db, due: set<nat>)
    requires due == set id | id in db.cards && !db.cards[id].archived && db.cards[id].endpoint.Some? && db.cards[id].transport.Some?
    ensures |DueKeys(db)| == |due|
  {
    KeysOfIds(db, due);
    assert DueKeys(db) == set id | id in due :: DueKey(db, id);
  }

  lemma {:induction false} KeysOfIds(db: Db, ids: set<nat>)
    ensures |set id | id in ids :: DueKey(db, id)| == |ids|
    decreases ids
  {
    var keys := set id | id in ids :: DueKey(db, id);
    if ids == {} {
      assert keys == {};
    } else {
      var id :| id in ids;
      var rest := set k | k in ids - {id} :: DueKey(db, k);
      KeysOfIds(db, ids - {id});
      assert keys == rest + {DueKey(db, id)};
    }
  }

  lemma UnreadComesLater(w: World, limit: nat, i: nat, id: nat)
    requires i < |FetchCandidates(w, limit)| && Eligible(w.db, id)
    requires forall k :: 0 <= k < |FetchCandidates(w, limit)| ==> FetchCandidates(w, limit)[k].id != id
    ensures DueBefore(w.db, FetchCandidates(w, limit)[i].id, id)
  {
    var r := PlaceInOrder(w.db, id);
    if r < |FetchCandidates(w, limit)| { CandidateInPlace(w, limit, r); }
    CandidateInPlace(w, limit, i);
    DueKeyOnColumns(w.db, FetchCandidates(w, limit)[i].id, id);
  }

  lemma CandidateInPlace(w: World, limit: nat, i: nat)
    requires i < |FetchCandidates(w, limit)|
    ensures var id := FetchCandidates(w, limit)[i].id;
            Eligible(w.db, id) && i < |Sorted(DueKeys(w.db))| && DueKey(w.db, id) == Sorted(DueKeys(w.db))[i]
  {
    CandidatesAreDue(w, limit);
  }

  lemma PlaceInOrder(db: Db, id: nat) returns (r: nat)
    requires Eligible(db, id)
    ensures r < |Sorted(DueKeys(db))| && Sorted(DueKeys(db))[r] == DueKey(db, id)
    ensures forall i :: 0 <= i < r ==> Less(Sorted(DueKeys(db))[i], DueKey(db, id))
  {
    var all := Sorted(DueKeys(db));
    SortedFacts(DueKeys(db));
    assert DueKey(db, id) in DueKeys(db);
    r :| r < |all| && all[r] == DueKey(db, id);
  }

  // ---- the other steps -----------------------------------------------------------------------

  /** Sweep steps on the tasks; no row and no history changes. */
  lemma SweepStepsOnTasks(w: World, cap: nat, e: Event)
    requires Enabled(w, cap, e) && (OfSweep(e) || e.AbandonRecheck? || e.AbandonRefresh?)
    ensures var w' := Apply(w, e);
            && w'.db == w.db && w'.log == w.log && w'.saves == w.saves
            && w'.rechecks == (if e.AbandonRecheck? then w.rechecks - {e.req} else w.rechecks)
            && w'.refreshes == (if e.AbandonRefresh? then w.refreshes - {e.req} else w.refreshes)
            && (e.StartTick? ==>
                  var c := FetchCandidates(w, e.limit);
                  w'.ticks == w.ticks[e.tick := Tick(c, seq(|c|, _ => Queued), true, e.timeout)])
            && (e.Acquire? || e.ProbeEnds? || e.ProbeRaises? || e.RecordFails? ==>
                  w'.ticks == w.ticks[e.tick := w.ticks[e.tick].(tasks := w.ticks[e.tick].tasks[e.slot :=
                    if e.Acquire? then Probing else if e.ProbeEnds? then Probed(e.result)
                    else if e.ProbeRaises? then Done(DidRaise) else Done(WasError)])])
            && (e.CrashTick? ==> w'.ticks == w.ticks[e.tick := w.ticks[e.tick].(alive := false)])
            && (e.AbandonRecheck? || e.AbandonRefresh? ==> w'.ticks == w.ticks)
  {
  }

  /** A request reads the card's transport as it is; registering a card starts one from what was posted. */
  lemma RequestsOnRows(w: World, cap: nat, e: Event)
    requires Enabled(w, cap, e) && (e.StartRecheck? || e.StartRefresh?)
    ensures var w' := Apply(w, e);
            var q := Request(e.id, w.db.cards[e.id].transport.value, e.timeout);
            && w' == (if e.StartRecheck? then w.(rechecks := w.rechecks[e.req := q]) else w.(refreshes := w.refreshes[e.req := q]))
  {
  }

  /** What people do to the rows. */
  lemma CardStepsOnRows(w: World, cap: nat, e: Event)
    requires Enabled(w, cap, e) && (e.CreateCard? || e.EditCard? || e.SetArchived? || e.DeleteCard?)
    ensures var w' := Apply(w, e);
            && (e.CreateCard? ==>
                  && w'.db.cards == w.db.cards[e.id := e.card] && w'.db.tools == w.db.tools
                  && w'.db.health == (if e.withHealthRow then w.db.health[e.id := HealthRow(Unknown, None, 0, None)] else w.db.health)
                  && w'.log == w.log[e.id := History([], [])]
                  && w'.refreshes == (if e.card.transport.Some?
                                      then w.refreshes[e.req := Request(e.id, e.card.transport.value, e.timeout)] else w.refreshes))
            && (e.EditCard? ==>
                  w'.db == w.db.(cards := w.db.cards[e.id := Card(e.endpoint, e.transport, w.db.cards[e.id].archived)]))
            && (e.SetArchived? ==>
                  w'.db == w.db.(cards := w.db.cards[e.id := Card(w.db.cards[e.id].endpoint, w.db.cards[e.id].transport, e.archived)]))
            && (e.DeleteCard? ==> w'.db == Db(w.db.cards - {e.id}, w.db.health - {e.id}, w.db.tools - {e.id}))
            && (!e.CreateCard? ==> w'.log == w.log && w'.refreshes == w.refreshes)
            && w'.ticks == w.ticks && w'.rechecks == w.rechecks && w'.saves == w.saves
  {
  }

  /** When each step of a sweep can be taken: probing waits only for one of cap places. */
  lemma SweepStepsThatCanBeTaken(w: World, cap: nat)
    ensures forall t, limit: nat, timeout :: Enabled(w, cap, StartTick(t, limit, timeout)) <==> t !in w.ticks && limit >= 1
    ensures forall t, i: nat, now :: Enabled(w, cap, Record(t, i, now)) <==> AtTask(w, t, i) && w.ticks[t].tasks[i].Probed?
    ensures forall t, i: nat :: Enabled(w, cap, RecordFails(t, i)) <==> AtTask(w, t, i) && w.ticks[t].tasks[i].Probed?
    ensures forall t, i: nat, result :: Enabled(w, cap, ProbeEnds(t, i, result)) <==> AtTask(w, t, i) && w.ticks[t].tasks[i].Probing?
    ensures forall t, i: nat :: Enabled(w, cap, ProbeRaises(t, i)) <==> AtTask(w, t, i) && w.ticks[t].tasks[i].Probing?
    ensures forall t, i: nat :: Enabled(w, cap, Acquire(t, i)) <==>
              && AtTask(w, t, i) && w.ticks[t].tasks[i].Queued?
              && |set k: nat | k < |w.ticks[t].tasks| && (w.ticks[t].tasks[k].Probing? || w.ticks[t].tasks[k].Probed?)| < cap
    ensures forall t: nat :: Enabled(w, cap, CrashTick(t)) <==> t in w.ticks && w.ticks[t].alive
  {
    forall t | t in w.ticks
      ensures InFlight(w.ticks[t]) ==
              set k: nat | k < |w.ticks[t].tasks| && (w.ticks[t].tasks[k].Probing? || w.ticks[t].tasks[k].Probed?)
    {
    }
  }

  /** And each step of the API and of people: nothing holds back the end of a request. */
  lemma StepsThatCanBeTaken(w: World, cap: nat)
    ensures forall r, id: nat, timeout :: Enabled(w, cap, StartRecheck(r, id, timeout)) <==>
              r !in w.rechecks && id in w.db.cards && w.db.cards[id].endpoint.Some? && w.db.cards[id].transport.Some?
    ensures forall r, result, now :: Enabled(w, cap, FinishRecheck(r, result, now)) <==> r in w.rechecks
    ensures forall r: nat :: Enabled(w, cap, AbandonRecheck(r)) <==> r in w.rechecks
    ensures forall r, id: nat, timeout :: Enabled(w, cap, StartRefresh(r, id, timeout)) <==>
              r !in w.refreshes && id in w.db.cards && w.db.cards[id].endpoint.Some? && w.db.cards[id].transport.Some?
    ensures forall r, tools, used, failure, now :: Enabled(w, cap, FinishRefresh(r, tools, used, failure, now)) <==> r in w.refreshes
    ensures forall r: nat :: Enabled(w, cap, AbandonRefresh(r)) <==> r in w.refreshes
    ensures forall id: nat, archived :: Enabled(w, cap, SetArchived(id, archived)) <==> id in w.db.cards
    ensures forall id: nat :: Enabled(w, cap, DeleteCard(id)) <==> id in w.db.cards
    ensures forall id: nat, endpoint: Option<string>, transport :: Enabled(w, cap, EditCard(id, endpoint, transport)) <==>
              id in w.db.cards && (transport.Some? ==> endpoint.Some? && transport.value in {StreamableHttp, Sse})
  {
  }
}
