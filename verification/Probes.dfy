/**
 What is stored about an endpoint besides the card: its health row and its tools cache. The
 statements here are shared by the worker and the API; each one is atomic.
 */
module Probes {
  import opened Options
  import opened McpClient

  datatype Card = Card(endpoint: Option<string>, transport: Option<Transport>, archived: bool)

  datatype Status = Unknown | Healthy | Unhealthy

  datatype HealthRow = HealthRow(status: Status, lastChecked: Option<int>, failures: nat, lastError: Option<Failure>)

  datatype ToolsRow = ToolsRow(tools: Option<seq<string>>, fetchedAt: Option<int>, fetchError: Option<Failure>)

  datatype Db = Db(cards: map<nat, Card>, health: map<nat, HealthRow>, tools: map<nat, ToolsRow>)

  /** The CHECK constraints on a card, and the foreign keys of the two side tables. */
  ghost predicate Consistent(db: Db) {
    && db.health.Keys <= db.cards.Keys
    && db.tools.Keys <= db.cards.Keys
    && (forall id :: id in db.cards && db.cards[id].transport.Some? ==>
          db.cards[id].endpoint.Some? && Supported(db.cards[id].transport.value))
  }

  // ---- health -----------------------------------------------------------------------------

  /** The row create_connector inserts. */
  const FreshRow := HealthRow(Unknown, None, 0, None)

  /** AnyState is the manual path; Seen(None) is "never checked", a value like any other. */
  datatype Guard = AnyState | Seen(at: Option<int>)

  datatype Recorded = Written(at: int) | Yielded | ForeignKeyViolation

  function Bumped(row: HealthRow, healthy: bool, error: Option<Failure>, now: int): HealthRow {
    HealthRow(if healthy then Healthy else Unhealthy, Some(now), if healthy then 0 else row.failures + 1, error)
  }

  function RecordHealth(db: Db, id: nat, healthy: bool, error: Option<Failure>, guard: Guard, now: int): (Db, Recorded) {
    if id in db.health then
      if guard.AnyState? || guard.at == db.health[id].lastChecked
      then (db.(health := db.health[id := Bumped(db.health[id], healthy, error, now)]), Written(now))
      else (db, Yielded)
    else if id in db.cards
    then (db.(health := db.health[id := Bumped(FreshRow, healthy, error, now)]), Written(now))
    else (db, ForeignKeyViolation)
  }

  /** None is a CHECK violation: a transport needs an endpoint. An unknown id updates no row. */
  function CorrectTransport(db: Db, id: nat, t: Transport): Option<Db> {
    if id !in db.cards then Some(db)
    else if db.cards[id].endpoint.None? || !Supported(t) then None
    else Some(db.(cards := db.cards[id := db.cards[id].(transport := Some(t))]))
  }

  /** `tools` None is a failed fetch: the old list and its time stay, the error is replaced. */
  function SaveTools(db: Db, id: nat, tools: Option<seq<string>>, error: Option<Failure>, now: int): Option<Db> {
    if id in db.tools then
      var row := db.tools[id];
      Some(db.(tools := db.tools[id := ToolsRow(
        if tools.Some? then tools else row.tools,
        if tools.Some? then Some(now) else row.fetchedAt,
        error)]))
    else if id in db.cards then
      Some(db.(tools := db.tools[id := ToolsRow(tools, if tools.Some? then Some(now) else None, error)]))
    else None
  }

  class Store {
    var cards: map<nat, Card>
    var health: map<nat, HealthRow>
    var tools: map<nat, ToolsRow>

    /** All saves of each card's tools, oldest first. */
    ghost var saves: map<nat, seq<Fetch>>

    ghost function SavesOf(id: nat): seq<Fetch>
      reads this`saves
    {
      if id in saves then saves[id] else []
    }

    /** Each cached row is the summary of the saves made for its card. */
    ghost predicate CacheIsSummary()
      reads this`tools, this`saves
    {
      saves.Keys == tools.Keys && forall id :: id in tools ==> saves[id] != [] && tools[id] == ToolsSummary(saves[id])
    }

    ghost function State(): Db
      reads this
    {
      Db(cards, health, tools)
    }

    constructor (cards: map<nat, Card>)
      requires Consistent(Db(cards, map[], map[]))
      ensures State() == Db(cards, map[], map[]) && Consistent(State())
      ensures CacheIsSummary() && saves == map[]
    {
      this.cards, health, tools, saves := cards, map[], map[], map[];
    }

    /** One upsert; the failure count is raised inside the statement, from the row as it is now. */
    method RecordHealthStatement(id: nat, healthy: bool, error: Option<Failure>, guard: Guard, now: int)
      returns (r: Recorded)
      requires Consistent(State())
      modifies this`health
      ensures Consistent(State())
      ensures (State(), r) == RecordHealth(old(State()), id, healthy, error, guard, now)
    {
      if id in health {
        var row := health[id];
        if guard.Seen? && guard.at != row.lastChecked {
          return Yielded;
        }
        var failures := if healthy then 0 else row.failures + 1;
        health := health[id := HealthRow(if healthy then Healthy else Unhealthy, Some(now), failures, error)];
        return Written(now);
      }
      if id !in cards {
        return ForeignKeyViolation;
      }
      health := health[id := HealthRow(if healthy then Healthy else Unhealthy, Some(now), if healthy then 0 else 1, error)];
      return Written(now);
    }

    method CorrectTransportStatement(id: nat, t: Transport) returns (ok: bool)
      requires Consistent(State())
      modifies this`cards
      ensures Consistent(State())
      ensures ok <==> CorrectTransport(old(State()), id, t).Some?
      ensures ok <==> (id in old(cards) ==> old(cards)[id].endpoint.Some? && t in {StreamableHttp, Sse})
      ensures cards == if ok && id in old(cards) then old(cards)[id := old(cards)[id].(transport := Some(t))] else old(cards)
      ensures State() == if ok then CorrectTransport(old(State()), id, t).value else old(State())
    {
      ok := true;
      if id in cards {
        ok := cards[id].endpoint.Some? && t in TRANSPORTS;
        if ok {
          cards := cards[id := cards[id].(transport := Some(t))];
        }
      }
    }

    method SaveToolsStatement(id: nat, fetched: Option<seq<string>>, error: Option<Failure>, now: int) returns (ok: bool)
      requires Consistent(State()) && CacheIsSummary()
      modifies this`tools, this`saves
      ensures Consistent(State()) && CacheIsSummary()
      ensures saves == if ok then old(saves)[id := old(SavesOf(id)) + [Fetch(fetched, error, now)]] else old(saves)
      ensures ok <==> SaveTools(old(State()), id, fetched, error, now).Some?
      ensures State() == if ok then SaveTools(old(State()), id, fetched, error, now).value else old(State())
    {
      if id !in tools && id !in cards {
        return false;
      }
      var row := if id in tools then tools[id] else NoTools;
      SummaryOfMore(SavesOf(id), Fetch(fetched, error, now));
      if fetched.Some? {
        row := row.(tools := fetched, fetchedAt := Some(now));
      }
      tools := tools[id := row.(fetchError := error)];
      saves := saves[id := SavesOf(id) + [Fetch(fetched, error, now)]];
      return true;
    }

    /** The list and time of the last save that brought one, and the error of the last save. */
    method ReadToolsCache(id: nat) returns (r: ToolsRow)
      requires CacheIsSummary()
      ensures SavesOf(id) == [] ==> r == NoTools
      ensures SavesOf(id) != [] ==> r.fetchError == SavesOf(id)[|SavesOf(id)| - 1].error
      ensures r.tools.None? <==> forall k :: 0 <= k < |SavesOf(id)| ==> SavesOf(id)[k].tools.None?
      ensures forall k :: 0 <= k < |SavesOf(id)| && SavesOf(id)[k].tools.Some?
                          && (forall i :: k < i < |SavesOf(id)| ==> SavesOf(id)[i].tools.None?) ==>
                r.tools == SavesOf(id)[k].tools && r.fetchedAt == Some(SavesOf(id)[k].at)
    {
      if id in tools {
        r := tools[id];
        SummaryHoldsLastSuccess(saves[id]);
      } else {
        r := NoTools;
      }
    }
  }

  // ---- the rows are summaries of what was recorded ------------------------------------------

  datatype Check = Check(healthy: bool, error: Option<Failure>, at: int)

  function TrailingFailures(log: seq<Check>): nat {
    if log == [] || log[|log| - 1].healthy then 0 else 1 + TrailingFailures(log[..|log| - 1])
  }

  function Summary(log: seq<Check>): HealthRow {
    if log == [] then FreshRow
    else
      var last := log[|log| - 1];
      HealthRow(if last.healthy then Healthy else Unhealthy, Some(last.at), TrailingFailures(log), last.error)
  }

  /** The count is the length of the longest run of failures at the end of the history. */
  lemma {:induction false} TrailingFailuresIsTheRun(log: seq<Check>)
    ensures var n := TrailingFailures(log);
            && n <= |log|
            && (forall i :: |log| - n <= i < |log| ==> !log[i].healthy)
            && (n < |log| ==> log[|log| - n - 1].healthy)
  {
    if log != [] && !log[|log| - 1].healthy {
      TrailingFailuresIsTheRun(log[..|log| - 1]);
    }
  }

  lemma FailuresZeroIffNotUnhealthy(log: seq<Check>)
    ensures Summary(log).failures == 0 <==> Summary(log).status != Unhealthy
  {
  }

  /** Recording one more check takes the summary of a history to the summary of the longer one. */
  lemma SummaryAppend(log: seq<Check>, c: Check)
    ensures Summary(log + [c]) == Bumped(Summary(log), c.healthy, c.error, c.at)
  {
    assert (log + [c])[..|log|] == log;
  }

  datatype Fetch = Fetch(tools: Option<seq<string>>, error: Option<Failure>, at: int)

  /** Saves of one card's tools, from no cached row. */
  function SaveAll(db: Db, id: nat, log: seq<Fetch>): Db
    requires id in db.cards
    ensures SaveAll(db, id, log).cards == db.cards
  {
    if log == [] then db
    else
      var before := SaveAll(db, id, log[..|log| - 1]);
      var f := log[|log| - 1];
      SaveTools(before, id, f.tools, f.error, f.at).value
  }

  const NoTools := ToolsRow(None, None, None)

  function LastSuccess(log: seq<Fetch>): Option<Fetch> {
    if log == [] then None
    else if log[|log| - 1].tools.Some? then Some(log[|log| - 1])
    else LastSuccess(log[..|log| - 1])
  }

  function ToolsSummary(log: seq<Fetch>): ToolsRow {
    if log == [] then NoTools
    else
      var good := LastSuccess(log);
      ToolsRow(if good.Some? then good.value.tools else None,
               if good.Some? then Some(good.value.at) else None,
               log[|log| - 1].error)
  }

  ghost predicate IsLastSuccess(log: seq<Fetch>, k: nat)
    requires k < |log|
  {
    log[k].tools.Some? && forall i :: k < i < |log| ==> log[i].tools.None?
  }

  lemma {:induction false} SummaryHoldsLastSuccess(log: seq<Fetch>)
    ensures LastSuccess(log).None? <==> forall k :: 0 <= k < |log| ==> log[k].tools.None?
    ensures LastSuccess(log).Some? ==> LastSuccess(log).value.tools.Some?
    ensures forall k :: 0 <= k < |log| && log[k].tools.Some? && (forall i :: k < i < |log| ==> log[i].tools.None?)
                        ==> IsLastSuccess(log, k)
    ensures forall k :: 0 <= k < |log| && IsLastSuccess(log, k) ==> LastSuccess(log) == Some(log[k])
    decreases |log|
  {
    if log != [] && log[|log| - 1].tools.None? {
      var front := log[..|log| - 1];
      SummaryHoldsLastSuccess(front);
      forall k | 0 <= k < |log| && IsLastSuccess(log, k) ensures LastSuccess(log) == Some(log[k]) {
        assert IsLastSuccess(front, k);
      }
    }
  }

  /** One more save: a list replaces list and time, a failure keeps them; the error is replaced. */
  lemma SummaryOfMore(log: seq<Fetch>, f: Fetch)
    ensures ToolsSummary(log + [f]) ==
              if f.tools.Some? then ToolsRow(f.tools, Some(f.at), f.error)
              else ToolsSummary(log).(fetchError := f.error)
  {
    assert (log + [f])[..|log|] == log;
  }

  /** Saving again and again leaves the cache with that summary. */
  lemma {:induction false} ToolsCacheIsTheLastSuccess(db: Db, id: nat, log: seq<Fetch>)
    requires id in db.cards && id !in db.tools && log != []
    ensures var d := SaveAll(db, id, log);
            id in d.tools && d.tools[id] == ToolsSummary(log)
    decreases |log|
  {
    var front, last := log[..|log| - 1], log[|log| - 1];
    assert log == front + [last];
    SummaryOfMore(front, last);
    if front != [] {
      ToolsCacheIsTheLastSuccess(db, id, front);
    }
  }
}
