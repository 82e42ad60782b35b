/**
 One sweep at a time, without a broker: every worker process tries for one PostgreSQL
 advisory lock before it sweeps. The lock belongs to the database session, so it is
 re-entrant on one connection, outlives a transaction and dies with its connection.
 */
module AdvisoryLock {
  datatype Phase = Idle | Connected | Sweeping | Releasing

  datatype Proc = Proc(phase: Phase, conn: nat)

  /**
   live: connections the database still has; pool: idle connections and the process that
   keeps each; held: how often a session holds the lock; issued: connections ever opened;
   stuck: how many unlocks failed on a session that lives on.
   */
  datatype State = State(
    procs: map<nat, Proc>, live: set<nat>, pool: map<nat, nat>, held: map<nat, nat>, issued: set<nat>,
    stuck: map<nat, nat>)

  datatype Event =
    | Connect(p: nat, c: nat)     // a pooled connection of this process, or a new one
    | TryLock(p: nat)             // pg_try_advisory_lock, then commit
    | TryFails(p: nat)            // the connection breaks while trying
    | TickEnds(p: nat)            // run_tick returns or raises
    | Unlock(p: nat)              // pg_advisory_unlock, connection back to the pool
    | UnlockFails(p: nat)         // the connection is gone
    | UnlockErrors(p: nat)        // the unlock fails on a live connection, which goes back to the pool
    | Drop(c: nat)                // a connection is cut; its process does not notice
    | Crash(p: nat)               // the process dies and with it all its connections

  ghost predicate InPhase(s: State, p: nat, phase: Phase) {
    p in s.procs && s.procs[p].phase == phase
  }

  ghost predicate Enabled(s: State, e: Event) {
    match e
    case Connect(p, c) => InPhase(s, p, Idle) && ((c in s.pool && s.pool[c] == p) || c !in s.issued)
    case TryLock(p) => InPhase(s, p, Connected) && s.procs[p].conn in s.live
    case TryFails(p) => InPhase(s, p, Connected)
    case TickEnds(p) => InPhase(s, p, Sweeping)
    case Unlock(p) => InPhase(s, p, Releasing) && s.procs[p].conn in s.live
    case UnlockFails(p) => InPhase(s, p, Releasing) && s.procs[p].conn !in s.live
    case UnlockErrors(p) => InPhase(s, p, Releasing) && s.procs[p].conn in s.live
    case Drop(c) => c in s.live
    case Crash(p) => p in s.procs
  }

  predicate HeldElsewhere(s: State, c: nat) {
    exists d :: d in s.held && d != c
  }

  function Enter(s: State, p: nat, phase: Phase, c: nat): State {
    s.(procs := s.procs[p := Proc(phase, c)])
  }

  /** The session ends; the database drops its lock with it. */
  function Close(s: State, cs: set<nat>): State {
    s.(live := s.live - cs, held := s.held - cs, pool := s.pool - cs, stuck := s.stuck - cs)
  }

  function ConnsOf(s: State, p: nat): set<nat> {
    (if p in s.procs && !s.procs[p].phase.Idle? then {s.procs[p].conn} else {})
    + set c | c in s.pool && s.pool[c] == p
  }

  function StuckOn(s: State, c: nat): nat {
    if c in s.stuck then s.stuck[c] else 0
  }

  function Release(s: State, c: nat): map<nat, nat> {
    if c !in s.held then s.held
    else if s.held[c] <= 1 then s.held - {c}
    else s.held[c := s.held[c] - 1]
  }

  function Apply(s: State, e: Event): State {
    match e
    case Connect(p, c) =>
      Enter(s, p, Connected, c).(
        pool := s.pool - {c}, issued := s.issued + {c},
        live := if c in s.issued then s.live else s.live + {c})
    case TryLock(p) =>
      if p !in s.procs then s else
        var c := s.procs[p].conn;
        if HeldElsewhere(s, c) then Enter(s, p, Idle, c).(pool := s.pool[c := p])
        else Enter(s, p, Sweeping, c).(held := s.held[c := 1 + if c in s.held then s.held[c] else 0])
    case TryFails(p) =>
      if p !in s.procs then s else Close(Enter(s, p, Idle, s.procs[p].conn), {s.procs[p].conn})
    case TickEnds(p) =>
      if p !in s.procs then s else Enter(s, p, Releasing, s.procs[p].conn)
    case Unlock(p) =>
      if p !in s.procs then s else
        var c := s.procs[p].conn;
        Enter(s, p, Idle, c).(held := Release(s, c), pool := s.pool[c := p])
    case UnlockFails(p) =>
      if p !in s.procs then s else Enter(s, p, Idle, s.procs[p].conn)
    case UnlockErrors(p) =>
      if p !in s.procs then s else
        var c := s.procs[p].conn;
        Enter(s, p, Idle, c).(pool := s.pool[c := p], stuck := s.stuck[c := StuckOn(s, c) + 1])
    case Drop(c) => Close(s, {c})
    case Crash(p) => Close(Enter(s, p, Idle, 0), ConnsOf(s, p))
  }

  function Run(s: State, es: seq<Event>): State
    decreases |es|
  {
    if es == [] then s else Run(Apply(s, es[0]), es[1..])
  }

  ghost predicate Legal(s: State, es: seq<Event>)
    decreases |es|
  {
    es == [] || (Enabled(s, es[0]) && Legal(Apply(s, es[0]), es[1..]))
  }

  /**
   What each process can do, whatever the others do: only the outcome of a try depends on the lock,
   and a connection may break at any time.
   */
  lemma ProcessesRunOnTheirOwn(s: State, p: nat)
    requires p in s.procs
    ensures Enabled(s, Crash(p))
    ensures s.procs[p].phase.Idle? ==> forall c: nat :: c !in s.issued || (c in s.pool && s.pool[c] == p) ==> Enabled(s, Connect(p, c))
    ensures s.procs[p].phase.Connected? ==> Enabled(s, TryFails(p)) && (s.procs[p].conn in s.live ==> Enabled(s, TryLock(p)))
    ensures s.procs[p].phase.Sweeping? ==> Enabled(s, TickEnds(p))
    ensures s.procs[p].phase.Releasing? ==>
              if s.procs[p].conn in s.live then Enabled(s, Unlock(p)) && Enabled(s, UnlockErrors(p)) else Enabled(s, UnlockFails(p))
    ensures forall c: nat :: c in s.live ==> Enabled(s, Drop(c))
  {
  }

  /** What each step does to the sessions and the process: the rest of the state stays. */
  lemma StepsOnSessions(s: State, e: Event)
    requires Enabled(s, e)
    ensures var t := Apply(s, e);
            && (e.Connect? ==>
                  && t.procs == s.procs[e.p := Proc(Connected, e.c)] && t.issued == s.issued + {e.c}
                  && t.pool == s.pool - {e.c} && t.held == s.held && t.stuck == s.stuck
                  && t.live == (if e.c in s.issued then s.live else s.live + {e.c}))
            && (e.TryLock? ==>
                  var c := s.procs[e.p].conn;
                  var free := s.held.Keys <= {c};
                  && t.procs == s.procs[e.p := Proc(if free then Sweeping else Idle, c)]
                  && t.held == (if free then s.held[c := 1 + if c in s.held then s.held[c] else 0] else s.held)
                  && t.pool == (if free then s.pool else s.pool[c := e.p])
                  && t.live == s.live && t.issued == s.issued && t.stuck == s.stuck)
            && (e.TickEnds? ==> t == s.(procs := s.procs[e.p := Proc(Releasing, s.procs[e.p].conn)]))
            && (e.UnlockFails? ==> t == s.(procs := s.procs[e.p := Proc(Idle, s.procs[e.p].conn)]))
            && (e.Unlock? || e.UnlockErrors? ==>
                  var c := s.procs[e.p].conn;
                  && t.procs == s.procs[e.p := Proc(Idle, c)] && t.pool == s.pool[c := e.p]
                  && t.live == s.live && t.issued == s.issued
                  && (e.UnlockErrors? ==> t.held == s.held && t.stuck == s.stuck[c := 1 + if c in s.stuck then s.stuck[c] else 0])
                  && (e.Unlock? ==> t.stuck == s.stuck)
                  && (e.Unlock? && c in s.held ==> t.held == if s.held[c] <= 1 then s.held - {c} else s.held[c := s.held[c] - 1]))
  {
    if e.TryLock? {
      assert HeldElsewhere(s, s.procs[e.p].conn) <==> !(s.held.Keys <= {s.procs[e.p].conn});
    }
  }

  ghost predicate EndsSession(s: State, e: Event, c: nat) {
    || (e.TryFails? && e.p in s.procs && c == s.procs[e.p].conn)
    || (e.Drop? && c == e.c)
    || (e.Crash? && c in s.pool && s.pool[c] == e.p)
    || (e.Crash? && e.p in s.procs && !s.procs[e.p].phase.Idle? && c == s.procs[e.p].conn)
  }

  /** With a connection that breaks, or all those of a process that dies, go its locks and its place in the pool. */
  lemma SessionsEnd(s: State, e: Event)
    requires Enabled(s, e) && (e.TryFails? || e.Drop? || e.Crash?)
    ensures var t := Apply(s, e);
            && (forall c :: c in t.live <==> c in s.live && !EndsSession(s, e, c))
            && (forall c :: c in t.held <==> c in s.held && !EndsSession(s, e, c))
            && (forall c :: c in t.pool <==> c in s.pool && !EndsSession(s, e, c))
            && (forall c :: c in t.stuck <==> c in s.stuck && !EndsSession(s, e, c))
            && (forall c :: c in t.held ==> t.held[c] == s.held[c]) && (forall c :: c in t.pool ==> t.pool[c] == s.pool[c])
            && (forall c :: c in t.stuck ==> t.stuck[c] == s.stuck[c])
            && t.issued == s.issued
            && t.procs == (if e.TryFails? then s.procs[e.p := Proc(Idle, s.procs[e.p].conn)]
                           else if e.Crash? then s.procs[e.p := Proc(Idle, 0)] else s.procs)
  {
  }

  /** Any set of worker processes, none of them connected yet. */
  ghost predicate Boot(s: State) {
    && (forall p :: p in s.procs ==> s.procs[p].phase.Idle?)
    && s.live == {} && s.pool == map[] && s.held == map[] && s.issued == {} && s.stuck == map[]
  }

  /** Inside run_tick or about to unlock, on a connection the database still has. */
  ghost predicate Holds(s: State, p: nat) {
    p in s.procs && (s.procs[p].phase.Sweeping? || s.procs[p].phase.Releasing?) && s.procs[p].conn in s.live
  }

  ghost predicate UsesConn(s: State, p: nat, c: nat) {
    p in s.procs && !s.procs[p].phase.Idle? && s.procs[p].conn == c
  }

  /** A connection is used by one process, or pooled by one, and was opened at some time. */
  ghost predicate ConnsExclusive(s: State) {
    && (forall p, q, c :: UsesConn(s, p, c) && UsesConn(s, q, c) ==> p == q)
    && (forall p, c :: UsesConn(s, p, c) ==> c !in s.pool && c in s.issued)
    && s.pool.Keys <= s.issued && s.live <= s.issued
  }

  ghost predicate HolderOn(s: State, c: nat) {
    exists p :: Holds(s, p) && s.procs[p].conn == c
  }

  /** A session holds the lock once for the process inside run_tick, and once for each failed unlock. */
  ghost predicate HeldByHolders(s: State) {
    && (forall c :: c in s.held ==> s.held[c] == StuckOn(s, c) + if HolderOn(s, c) then 1 else 0)
    && (forall c :: c in s.held ==> s.held[c] >= 1)
    && (forall p :: Holds(s, p) ==> s.procs[p].conn in s.held)
    && (forall c :: c in s.stuck ==> c in s.held && s.stuck[c] >= 1)
  }

  ghost predicate OneHolder(s: State) {
    forall c, d :: c in s.held && d in s.held ==> c == d
  }

  ghost predicate Inv(s: State) {
    ConnsExclusive(s) && HeldByHolders(s) && OneHolder(s)
  }

  lemma NotHeldUnlessStuck(s: State, p: nat)
    requires Inv(s) && p in s.procs && s.procs[p].phase.Connected?
    ensures !HolderOn(s, s.procs[p].conn)
    ensures s.procs[p].conn in s.held ==> s.procs[p].conn in s.stuck
  {
    var c := s.procs[p].conn;
    if HolderOn(s, c) {
      var q :| Holds(s, q) && s.procs[q].conn == c;
      assert UsesConn(s, p, c) && UsesConn(s, q, c);
    }
  }

  lemma ExclusiveStep(s: State, e: Event)
    requires Inv(s) && Enabled(s, e)
    ensures ConnsExclusive(Apply(s, e))
  {
    var t := Apply(s, e);
    forall p, c | UsesConn(t, p, c) ensures UsesConn(s, p, c) || (e.Connect? && e.p == p && e.c == c) {
    }
    forall p, q, c | UsesConn(t, p, c) && UsesConn(t, q, c) ensures p == q {
    }
    forall p, c | UsesConn(t, p, c) ensures c !in t.pool && c in t.issued {
      if (e.TryLock? || e.Unlock? || e.UnlockErrors?) && e.p != p {
        assert UsesConn(s, p, c) && UsesConn(s, e.p, s.procs[e.p].conn);
      }
    }
  }

  /** Who holds after a step: those who held, less the one that let go, plus the one that got in. */
  lemma HoldersStep(s: State, e: Event, p: nat)
    requires Inv(s) && Enabled(s, e)
    ensures Holds(Apply(s, e), p) ==>
              && Apply(s, e).procs[p].conn == s.procs[p].conn
              && (Holds(s, p) || (e == TryLock(p) && !HeldElsewhere(s, s.procs[p].conn)))
    ensures Holds(s, p) && !Holds(Apply(s, e), p) ==>
              ((e.Unlock? || e.UnlockErrors?) && e.p == p) || (e.Crash? && e.p == p) || s.procs[p].conn !in Apply(s, e).live
  {
    if p in s.procs && !s.procs[p].phase.Idle? {
      assert UsesConn(s, p, s.procs[p].conn);
    }
  }

  /** Whether a connection that stays has a holder changes only when its process gets in or lets go. */
  lemma HolderOnStep(s: State, e: Event, c: nat)
    requires Inv(s) && Enabled(s, e) && c in Apply(s, e).live && c in s.live
    ensures (e.TryLock? && s.procs[e.p].conn == c && !HeldElsewhere(s, c)) ==> HolderOn(Apply(s, e), c)
    ensures ((e.Unlock? || e.UnlockErrors?) && s.procs[e.p].conn == c) ==> HolderOn(s, c) && !HolderOn(Apply(s, e), c)
    ensures !((e.TryLock? || e.Unlock? || e.UnlockErrors?) && s.procs[e.p].conn == c)
            ==> (HolderOn(Apply(s, e), c) <==> HolderOn(s, c))
  {
    var t := Apply(s, e);
    forall p | Holds(t, p) && t.procs[p].conn == c
      ensures (Holds(s, p) && s.procs[p].conn == c) || (e == TryLock(p) && s.procs[p].conn == c)
    {
      HoldersStep(s, e, p);
    }
    if e.TryLock? && s.procs[e.p].conn == c && !HeldElsewhere(s, c) {
      assert Holds(t, e.p) && t.procs[e.p].conn == c;
    }
    if (e.Unlock? || e.UnlockErrors?) && s.procs[e.p].conn == c {
      assert Holds(s, e.p);
      if HolderOn(t, c) {
        var p :| Holds(t, p) && t.procs[p].conn == c;
        assert UsesConn(s, p, c) && UsesConn(s, e.p, c);
      }
    } else if HolderOn(s, c) {
      var p :| Holds(s, p) && s.procs[p].conn == c;
      HoldersStep(s, e, p);
      assert UsesConn(s, p, c);
      assert Holds(t, p) && t.procs[p].conn == c;
    }
  }

  lemma HeldIsLive(s: State, e: Event)
    requires HeldLive(s) && Inv(s) && Enabled(s, e)
    ensures HeldLive(Apply(s, e))
  {
  }

  /** Only sessions the database still has hold the lock. */
  ghost predicate HeldLive(s: State) {
    forall c :: c in s.held ==> c in s.live
  }

  lemma OneHolderStep(s: State, e: Event)
    requires Inv(s) && Enabled(s, e)
    ensures OneHolder(Apply(s, e))
  {
  }

  lemma HoldersAreHeld(s: State, e: Event)
    requires Inv(s) && Enabled(s, e)
    ensures forall p :: Holds(Apply(s, e), p) ==> Apply(s, e).procs[p].conn in Apply(s, e).held
  {
    var t := Apply(s, e);
    forall p | Holds(t, p) ensures t.procs[p].conn in t.held {
      HoldersStep(s, e, p);
      var c := t.procs[p].conn;
      if Holds(s, p) && c !in t.held {
        assert UsesConn(s, p, c);
        assert e.Unlock? ==> UsesConn(s, e.p, s.procs[e.p].conn);
        assert false;
      }
    }
  }

  lemma HeldStep(s: State, e: Event)
    requires Inv(s) && HeldLive(s) && Enabled(s, e)
    ensures HeldByHolders(Apply(s, e)) && OneHolder(Apply(s, e))
  {
    var t := Apply(s, e);
    OneHolderStep(s, e);
    HoldersAreHeld(s, e);
    forall c | c in t.held ensures t.held[c] >= 1 && t.held[c] == StuckOn(t, c) + if HolderOn(t, c) then 1 else 0 {
      HeldIsLive(s, e);
      HeldCount(s, e, c);
    }
    forall c | c in t.stuck ensures c in t.held && t.stuck[c] >= 1 {
      StuckIsHeld(s, e, c);
    }
  }

  lemma HeldCount(s: State, e: Event, c: nat)
    requires Inv(s) && HeldLive(s) && Enabled(s, e) && c in Apply(s, e).held && c in Apply(s, e).live
    ensures var t := Apply(s, e);
            t.held[c] >= 1 && t.held[c] == StuckOn(t, c) + if HolderOn(t, c) then 1 else 0
  {
    if c in s.live {
      HolderOnStep(s, e, c);
      if e.TryLock? { NotHeldUnlessStuck(s, e.p); }
    }
  }

  lemma StuckIsHeld(s: State, e: Event, c: nat)
    requires Inv(s) && Enabled(s, e) && c in Apply(s, e).stuck
    ensures c in Apply(s, e).held && Apply(s, e).stuck[c] >= 1
  {
    if e.UnlockErrors? || e.Unlock? {
      assert Holds(s, e.p) && s.procs[e.p].conn in s.held;
      assert HolderOn(s, s.procs[e.p].conn);
    }
  }

  lemma {:induction false} RunKeepsInv(s: State, es: seq<Event>)
    requires Inv(s) && HeldLive(s) && Legal(s, es)
    ensures Inv(Run(s, es)) && HeldLive(Run(s, es))
    decreases |es|
  {
    if es != [] {
      ExclusiveStep(s, es[0]);
      HeldStep(s, es[0]);
      HeldIsLive(s, es[0]);
      RunKeepsInv(Apply(s, es[0]), es[1..]);
    }
  }

  /**
   In every run, with failed tries, exceptions in the tick, cut connections, failed unlocks and
   crashes: at most one process with a live lock connection is inside run_tick, and the lock is
   free exactly when no process holds it there and no failed unlock left it with a session.
   */
  lemma SingleSweep(boot: State, es: seq<Event>)
    requires Boot(boot) && Legal(boot, es)
    ensures var s := Run(boot, es);
            && (forall p, q :: Holds(s, p) && Holds(s, q) ==> p == q)
            && (s.held == map[] <==> (forall p :: !Holds(s, p)) && s.stuck == map[])
  {
    RunKeepsInv(boot, es);
    var s := Run(boot, es);
    forall p, q | Holds(s, p) && Holds(s, q) ensures p == q {
      assert UsesConn(s, p, s.procs[p].conn) && UsesConn(s, q, s.procs[q].conn);
    }
    if (forall p :: !Holds(s, p)) && s.stuck == map[] {
      forall c ensures c !in s.held {
        assert c in s.held ==> s.held[c] == StuckOn(s, c) + if HolderOn(s, c) then 1 else 0;
      }
      assert s.held.Keys == {};
    }
    if s.held == map[] {
      assert s.stuck.Keys == {};
    }
  }

  /** A session the database has is in use by a process or in a pool, and pooled ones are live. */
  ghost predicate Accounted(s: State) {
    && s.pool.Keys <= s.live
    && forall c :: c in s.live ==> c in s.pool || exists p :: UsesConn(s, p, c)
  }

  lemma StepKeepsAccounts(s: State, e: Event)
    requires Accounted(s) && ConnsExclusive(s) && Enabled(s, e)
    ensures Accounted(Apply(s, e))
  {
    var t := Apply(s, e);
    forall c | c in t.live ensures c in t.pool || exists p :: UsesConn(t, p, c) {
      if c in s.live && c !in s.pool {
        var p :| UsesConn(s, p, c);
        if !UsesConn(t, p, c) { assert c in t.pool; }
      } else if c !in s.live {
        assert UsesConn(t, e.p, c);
      } else if c !in t.pool {
        assert UsesConn(t, e.p, c);
      }
    }
  }

  lemma {:induction false} RunKeepsAccounts(s: State, es: seq<Event>)
    requires Accounted(s) && Inv(s) && HeldLive(s) && Legal(s, es)
    ensures Accounted(Run(s, es))
    decreases |es|
  {
    if es != [] {
      StepKeepsAccounts(s, es[0]);
      ExclusiveStep(s, es[0]);
      HeldStep(s, es[0]);
      HeldIsLive(s, es[0]);
      RunKeepsAccounts(Apply(s, es[0]), es[1..]);
    }
  }

  /**
   No connection leaks: in every reachable state each session of the database is used by exactly
   one process or kept by exactly one, whatever failed or crashed before.
   */
  lemma NoConnectionLeaks(boot: State, es: seq<Event>, c: nat)
    requires Boot(boot) && Legal(boot, es)
    ensures var s := Run(boot, es);
            && (c in s.live ==> (c in s.pool <==> !exists p :: UsesConn(s, p, c)))
            && (c in s.pool ==> c in s.live)
            && (forall p, q :: UsesConn(s, p, c) && UsesConn(s, q, c) ==> p == q)
  {
    RunKeepsAccounts(boot, es);
    RunKeepsInv(boot, es);
  }

  /**
   Who tries on a live connection gets in exactly when no process holds the lock and no failed
   unlock left it with another session.
   */
  lemma FreeLockIsTaken(boot: State, es: seq<Event>, p: nat)
    requires Boot(boot) && Legal(boot, es) && Enabled(Run(boot, es), TryLock(p))
    ensures var s := Run(boot, es);
            InPhase(Apply(s, TryLock(p)), p, Sweeping)
            <==> (forall q :: !Holds(s, q)) && (forall c :: c in s.stuck ==> c == s.procs[p].conn)
  {
    RunKeepsInv(boot, es);
    WhoGetsIn(Run(boot, es), p);
  }

  lemma WhoGetsIn(s: State, p: nat)
    requires Inv(s) && Enabled(s, TryLock(p))
    ensures !HeldElsewhere(s, s.procs[p].conn)
            <==> (forall q :: !Holds(s, q)) && (forall c :: c in s.stuck ==> c == s.procs[p].conn)
  {
    var mine := s.procs[p].conn;
    NotHeldUnlessStuck(s, p);
    assert forall q :: Holds(s, q) ==> HolderOn(s, s.procs[q].conn);
    if (forall q :: !Holds(s, q)) && (forall c :: c in s.stuck ==> c == mine) {
      forall c | c in s.held ensures c == mine {
        assert s.held[c] == StuckOn(s, c) + if HolderOn(s, c) then 1 else 0;
      }
    }
  }

  /** A lock left by a failed unlock stays with its session until that session ends. */
  lemma StuckUntilClosed(boot: State, es: seq<Event>, e: Event, c: nat)
    requires Boot(boot) && Legal(boot, es) && Enabled(Run(boot, es), e) && c in Run(boot, es).stuck
    ensures c in Apply(Run(boot, es), e).stuck || c !in Apply(Run(boot, es), e).live
    ensures c in Apply(Run(boot, es), e).stuck ==> c in Apply(Run(boot, es), e).held
  {
    RunKeepsInv(boot, es);
    if c in Apply(Run(boot, es), e).stuck { StuckIsHeld(Run(boot, es), e, c); }
  }

  /** Inside run_tick on a connection that was cut: the process does not know it. */
  ghost predicate SweepsBlind(s: State, p: nat) {
    InPhase(s, p, Sweeping) && s.procs[p].conn !in s.live
  }

  /** Idle, with a new connection or a pooled one of its own that still lives. */
  ghost predicate Connectable(s: State, q: nat, c: nat) {
    Enabled(s, Connect(q, c)) && (c in s.issued ==> c in s.live)
  }

  /** An idle process gets a connection, new or pooled, and tries. */
  function ConnectAndTry(p: nat, c: nat): seq<Event> {
    [Connect(p, c), TryLock(p)]
  }

  /**
   Exactly when two processes can sweep at once: whenever one sweeps on a cut connection and the
   lock is free, any idle process that connects and tries joins it; while none sweeps on a cut
   connection, all who sweep hold the lock, so there is at most one.
   */
  lemma OverlapNeedsACut(boot: State, es: seq<Event>, p: nat, q: nat, c: nat)
    requires Boot(boot) && Legal(boot, es)
    ensures var s := Run(boot, es);
            && (InPhase(s, p, Sweeping) && InPhase(s, q, Sweeping) && p != q ==> SweepsBlind(s, p) || SweepsBlind(s, q))
            && (SweepsBlind(s, p) && s.held == map[] && Connectable(s, q, c) ==>
                  && Legal(s, ConnectAndTry(q, c))
                  && InPhase(Run(s, ConnectAndTry(q, c)), p, Sweeping)
                  && InPhase(Run(s, ConnectAndTry(q, c)), q, Sweeping))
  {
    SingleSweep(boot, es);
    var s := Run(boot, es);
    assert InPhase(s, p, Sweeping) ==> SweepsBlind(s, p) || Holds(s, p);
    assert InPhase(s, q, Sweeping) ==> SweepsBlind(s, q) || Holds(s, q);
    if SweepsBlind(s, p) && s.held == map[] && Connectable(s, q, c) {
      JoinsTheBlind(s, p, q, c);
    }
  }

  lemma JoinsTheBlind(s: State, p: nat, q: nat, c: nat)
    requires s.held == map[] && SweepsBlind(s, p) && Connectable(s, q, c)
    ensures Legal(s, ConnectAndTry(q, c))
    ensures InPhase(Run(s, ConnectAndTry(q, c)), p, Sweeping) && InPhase(Run(s, ConnectAndTry(q, c)), q, Sweeping)
  {
    var t := Apply(s, Connect(q, c));
    var u := Apply(t, TryLock(q));
    assert ConnectAndTry(q, c)[1..] == [TryLock(q)] && [TryLock(q)][1..] == [];
    assert t.held == map[] && !HeldElsewhere(t, c);
    assert InPhase(u, p, Sweeping) && InPhase(u, q, Sweeping);
    assert Run(t, [TryLock(q)]) == u;
  }

  /**
   Without "live" the claim is false: a process whose lock connection was cut keeps sweeping,
   and a second one may start beside it. The compare-and-set on each record covers that case.
   */
  lemma CutConnectionsOverlap() returns (boot: State, es: seq<Event>)
    ensures Boot(boot) && Legal(boot, es)
    ensures var s := Run(boot, es);
            1 in s.procs && 2 in s.procs && s.procs[1].phase.Sweeping? && s.procs[2].phase.Sweeping?
  {
    boot := State(map[1 := Proc(Idle, 0), 2 := Proc(Idle, 0)], {}, map[], map[], {}, map[]);
    var s1 := Apply(boot, Connect(1, 10));
    var s2 := Apply(s1, TryLock(1));
    var s3 := Apply(s2, Drop(10));
    var s4 := Apply(s3, Connect(2, 20));
    var s5 := Apply(s4, TryLock(2));
    var r4 := [TryLock(2)];
    var r3 := [Connect(2, 20)] + r4;
    var r2 := [Drop(10)] + r3;
    var r1 := [TryLock(1)] + r2;
    es := [Connect(1, 10)] + r1;
    assert r4[1..] == [] && r3[1..] == r4 && r2[1..] == r3 && r1[1..] == r2 && es[1..] == r1;
    assert s2.procs[1].phase.Sweeping? && s2.held == map[10 := 1];
    assert s4.held == map[] && s4.live == {20};
    assert s5.procs[1].phase.Sweeping? && s5.procs[2].phase.Sweeping?;
    assert Run(s4, r4) == s5 && Legal(s4, r4);
    assert Run(s3, r3) == s5 && Legal(s3, r3);
    assert Run(s2, r2) == s5 && Legal(s2, r2);
    assert Run(s1, r1) == s5 && Legal(s1, r1);
  }

  lemma Prepend(s: State, e: Event, rest: seq<Event>, end: State)
    requires Enabled(s, e) && Legal(Apply(s, e), rest) && Run(Apply(s, e), rest) == end
    ensures Legal(s, [e] + rest) && Run(s, [e] + rest) == end
  {
    assert ([e] + rest)[1..] == rest;
  }

  /** One failed unlock, and the lock is taken although nobody sweeps: the next process is turned away. */
  lemma AFailedUnlockShutsOut() returns (boot: State, es: seq<Event>)
    ensures Boot(boot) && Legal(boot, es)
    ensures var s := Run(boot, es);
            && (forall p :: !Holds(s, p)) && s.held == map[10 := 1]
            && Enabled(s, TryLock(2)) && !InPhase(Apply(s, TryLock(2)), 2, Sweeping)
  {
    boot := State(map[1 := Proc(Idle, 0), 2 := Proc(Idle, 0)], {}, map[], map[], {}, map[]);
    var s1, s2, s3, s4 := SweepAndFail(boot);
    var s5 := Apply(s4, Connect(2, 20));
    TurnedAway(s5);
    Prepend(s4, Connect(2, 20), [], s5);
    es := [Connect(2, 20)] + [];
    Prepend(s3, UnlockErrors(1), es, s5);
    es := [UnlockErrors(1)] + es;
    Prepend(s2, TickEnds(1), es, s5);
    es := [TickEnds(1)] + es;
    Prepend(s1, TryLock(1), es, s5);
    es := [TryLock(1)] + es;
    Prepend(boot, Connect(1, 10), es, s5);
    es := [Connect(1, 10)] + es;
  }

  lemma TurnedAway(s: State)
    requires s.procs == map[1 := Proc(Idle, 10), 2 := Proc(Connected, 20)] && s.live == {10, 20} && s.held == map[10 := 1]
    ensures (forall p :: !Holds(s, p)) && Enabled(s, TryLock(2)) && !InPhase(Apply(s, TryLock(2)), 2, Sweeping)
  {
    assert 10 in s.held && HeldElsewhere(s, 20);
  }

  lemma SweepAndFail(s: State) returns (s1: State, s2: State, s3: State, s4: State)
    requires s == State(map[1 := Proc(Idle, 0), 2 := Proc(Idle, 0)], {}, map[], map[], {}, map[])
    ensures s1 == Apply(s, Connect(1, 10)) && s2 == Apply(s1, TryLock(1))
    ensures s3 == Apply(s2, TickEnds(1)) && s4 == Apply(s3, UnlockErrors(1))
    ensures Enabled(s, Connect(1, 10)) && Enabled(s1, TryLock(1)) && Enabled(s2, TickEnds(1)) && Enabled(s3, UnlockErrors(1))
    ensures s4.procs == map[1 := Proc(Idle, 10), 2 := Proc(Idle, 0)] && s4.held == map[10 := 1]
    ensures s4.live == {10} && s4.issued == {10} && s4.pool == map[10 := 1]
    ensures var s5 := Apply(s4, Connect(2, 20));
            && Enabled(s4, Connect(2, 20)) && s5.procs == map[1 := Proc(Idle, 10), 2 := Proc(Connected, 20)]
            && s5.live == {10, 20} && s5.held == map[10 := 1]
  {
    s1 := Apply(s, Connect(1, 10));
    s2 := Apply(s1, TryLock(1));
    s3 := Apply(s2, TickEnds(1));
    s4 := Apply(s3, UnlockErrors(1));
    assert s1.held == map[] && s2.procs == map[1 := Proc(Sweeping, 10), 2 := Proc(Idle, 0)];
  }
}
