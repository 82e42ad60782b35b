/**
 The tools cache over whole runs of the liveness protocol: refreshes from registrations and
 from people interleave with each other, with sweeps, rechecks and card changes, some roll
 back, and cards come and go.
 */
module ToolsHistory {
  import opened Options
  import opened McpClient
  import opened Probes
  import opened LivenessProtocol
  import opened LivenessSafety

  /** The cached row of a card is the summary of the saves committed for it. */
  ghost predicate CacheTells(db: Db, saves: map<nat, seq<Fetch>>, id: nat) {
    if id in db.tools then SavesIn(saves, id) != [] && db.tools[id] == ToolsSummary(SavesIn(saves, id))
    else SavesIn(saves, id) == []
  }

  ghost predicate ToolsOk(w: World) {
    && w.saves.Keys <= w.log.Keys
    && (forall id :: id in w.db.cards ==> CacheTells(w.db, w.saves, id))
  }

  /** A step that leaves the saves and the tools of the remaining cards alone. */
  lemma UntouchedTools(w: World, w': World)
    requires ToolsOk(w) && w'.saves == w.saves && w.log.Keys <= w'.log.Keys
    requires w'.db.cards.Keys <= w.db.cards.Keys
    requires forall id :: id in w'.db.cards ==> (id in w'.db.tools <==> id in w.db.tools)
    requires forall id :: id in w'.db.cards && id in w'.db.tools ==> w'.db.tools[id] == w.db.tools[id]
    ensures ToolsOk(w')
  {
    forall id | id in w'.db.cards ensures CacheTells(w'.db, w'.saves, id) {
      assert CacheTells(w.db, w.saves, id);
    }
  }

  lemma RecordKeepsTools(w: World, cap: nat, e: Event)
    requires Inv(w, cap) && Enabled(w, cap, e) && ToolsOk(w) && e.Record?
    ensures ToolsOk(Apply(w, e))
  {
    var c, result := w.ticks[e.tick].candidates[e.slot], w.ticks[e.tick].tasks[e.slot].result;
    SettleShape(w.db, c.id, c.transport, result, Seen(c.seen), e.now);
    UntouchedTools(w, Apply(w, e));
  }

  lemma RecheckKeepsTools(w: World, cap: nat, e: Event)
    requires Inv(w, cap) && Enabled(w, cap, e) && ToolsOk(w) && e.FinishRecheck?
    ensures ToolsOk(Apply(w, e))
  {
    var q := w.rechecks[e.req];
    SettleShape(w.db, q.id, q.transport, e.result, AnyState, e.now);
    UntouchedTools(w, Apply(w, e));
  }

  /** A committed refresh writes its own card's row as the summary moves, a rolled back one nothing. */
  lemma RefreshMoves(db: Db, q: Request, tools: Option<seq<string>>, used: Transport, failure: Option<Failure>, now: int,
                     saves: map<nat, seq<Fetch>>)
    requires Consistent(db) && forall id :: id in db.cards ==> CacheTells(db, saves, id)
    ensures var after := Refresh(db, q, tools, used, failure, now);
            after.Some? ==>
              && q.id in db.cards && after.value.cards.Keys == db.cards.Keys
              && after.value.tools == db.tools[q.id := ToolsSummary(SavesIn(saves, q.id) + [Fetch(tools, failure, now)])]
  {
    SummaryOfMore(SavesIn(saves, q.id), Fetch(tools, failure, now));
    if q.id in db.cards { assert CacheTells(db, saves, q.id); }
  }

  lemma RefreshKeepsTools(w: World, cap: nat, e: Event)
    requires Inv(w, cap) && Enabled(w, cap, e) && ToolsOk(w) && e.FinishRefresh?
    ensures ToolsOk(Apply(w, e))
  {
    var q := w.refreshes[e.req];
    var w' := Apply(w, e);
    RefreshMoves(w.db, q, e.tools, e.used, e.failure, e.now, w.saves);
    if Refresh(w.db, q, e.tools, e.used, e.failure, e.now).Some? {
      forall id | id in w'.db.cards ensures CacheTells(w'.db, w'.saves, id) {
        assert CacheTells(w.db, w.saves, id);
      }
    }
  }

  /** A new card's id has no saves behind it: ids are never given out twice. */
  lemma CardStepKeepsTools(w: World, cap: nat, e: Event)
    requires Inv(w, cap) && Enabled(w, cap, e) && ToolsOk(w)
    requires e.CreateCard? || e.EditCard? || e.SetArchived? || e.DeleteCard?
    ensures ToolsOk(Apply(w, e))
  {
    var w' := Apply(w, e);
    forall id | id in w'.db.cards ensures CacheTells(w'.db, w'.saves, id) {
      if id in w.db.cards { assert CacheTells(w.db, w.saves, id); }
    }
  }

  lemma StepKeepsTools(w: World, cap: nat, e: Event)
    requires Inv(w, cap) && Enabled(w, cap, e) && ToolsOk(w)
    ensures ToolsOk(Apply(w, e))
  {
    if e.Record? {
      RecordKeepsTools(w, cap, e);
    } else if e.FinishRecheck? {
      RecheckKeepsTools(w, cap, e);
    } else if e.FinishRefresh? {
      RefreshKeepsTools(w, cap, e);
    } else if e.CreateCard? || e.EditCard? || e.SetArchived? || e.DeleteCard? {
      CardStepKeepsTools(w, cap, e);
    } else {
      UntouchedTools(w, Apply(w, e));
    }
  }

  lemma {:induction false} RunKeepsTools(cap: nat, es: seq<Event>)
    requires Legal(EmptyWorld, cap, es)
    ensures ToolsOk(Run(EmptyWorld, es))
  {
    if es != [] {
      RunKeepsTools(cap, es[..|es| - 1]);
      RunKeepsInv(cap, es[..|es| - 1]);
      StepKeepsTools(Run(EmptyWorld, es[..|es| - 1]), cap, es[|es| - 1]);
    }
  }

  ghost predicate RowTellsSaves(row: ToolsRow, log: seq<Fetch>) {
    && log != [] && row.fetchError == log[|log| - 1].error
    && (row.tools.None? <==> forall k :: 0 <= k < |log| ==> log[k].tools.None?)
    && (forall k :: 0 <= k < |log| && log[k].tools.Some? && (forall i :: k < i < |log| ==> log[i].tools.None?) ==>
          row.tools == log[k].tools && row.fetchedAt == Some(log[k].at))
  }

  /**
   In every reachable state: a card without a cached row has no committed save; the row of any
   other holds the list and time of the last save that brought one and the error of the last.
   */
  lemma ToolsCacheIsTheHistory(cap: nat, es: seq<Event>, id: nat)
    requires Legal(EmptyWorld, cap, es) && id in Run(EmptyWorld, es).db.cards
    ensures var w := Run(EmptyWorld, es);
            if id in w.db.tools then RowTellsSaves(w.db.tools[id], SavesIn(w.saves, id)) else SavesIn(w.saves, id) == []
  {
    RunKeepsTools(cap, es);
    var w := Run(EmptyWorld, es);
    assert CacheTells(w.db, w.saves, id);
    SummaryHoldsLastSuccess(SavesIn(w.saves, id));
  }
}
