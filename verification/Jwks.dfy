/**
 The signing-key cache. Coroutines look a key id up; a miss in a fresh cache may force a
 refetch, at most one per cooldown. One lock serialises the fetches, and every await (the
 lock, the fetch) is a point where other coroutines run.
 */
module Jwks {
  import opened Options
  import opened Sets

  /** Key id to the algorithm the key set gives for it. */
  type Keys = map<string, string>

  datatype CachedKeys = CachedKeys(keys: Keys, expiresAt: real)

  /** ttl is jwks_cache_sec, cooldown is jwks_min_refetch_sec. */
  datatype Config = Config(ttl: real, cooldown: real)

  predicate Fresh(cache: Option<CachedKeys>, now: real) {
    cache.Some? && cache.value.expiresAt > now
  }

  /** What a fetch that ended at this time leaves in the cache. */
  function Kept(keys: Keys, at: real, cfg: Config): Option<CachedKeys> {
    Some(CachedKeys(keys, at + cfg.ttl))
  }

  /** The forced-refetch decision, taken without an await in between. */
  predicate MayForce(lastForced: real, now: real, cooldown: real) {
    now - lastForced >= cooldown
  }

  datatype Phase = WantLock | Fetching

  datatype Co = Co(kid: string, forced: bool, phase: Phase)

  /** What happened, in order: forced-refetch decisions, fetch starts, successful fetches. */
  datatype Entry =
    | Forced(at: real)
    | Started(forced: bool, at: real)
    | Succeeded(at: real)

  datatype State = State(
    cache: Option<CachedKeys>, lastForced: real, holder: Option<nat>,
    cos: map<nat, Co>, clock: real, log: seq<Entry>)

  const Initial := State(None, 0.0, None, map[], 0.0, [])

  /** `at` is the segment's first clock reading, `later` its last. */
  datatype Event =
    | Lookup(co: nat, kid: string, at: real, later: real)
    | Acquire(co: nat, at: real, later: real)
    | FetchOk(co: nat, keys: Keys, at: real, later: real)
    | FetchFail(co: nat, at: real, later: real)
    | Cancel(co: nat, at: real, later: real)

  ghost predicate Enabled(s: State, e: Event) {
    && s.clock <= e.at <= e.later
    && match e
       case Lookup(c, _, _, _) => c !in s.cos
       case Acquire(c, _, _) => c in s.cos && s.cos[c].phase.WantLock? && s.holder.None?
       case FetchOk(c, _, _, _) => c in s.cos && s.cos[c].phase.Fetching?
       case FetchFail(c, _, _) => c in s.cos && s.cos[c].phase.Fetching?
       case Cancel(c, _, _) => c in s.cos && s.cos[c].phase.WantLock?
  }

  /** The unforced lookup has its keys: found, refused by the cooldown, or a forced refetch. */
  function Decide(s: State, cfg: Config, c: nat, kid: string, keys: Keys, now: real): State {
    if kid in keys || !MayForce(s.lastForced, now, cfg.cooldown) then s.(cos := s.cos - {c})
    else s.(lastForced := now, cos := s.cos[c := Co(kid, true, WantLock)], log := s.log + [Forced(now)])
  }

  function Apply(s: State, cfg: Config, e: Event): State {
    var t := s.(clock := e.later);
    match e
    case Lookup(c, kid, at, later) =>
      if Fresh(s.cache, at) then Decide(t, cfg, c, kid, s.cache.value.keys, later)
      else t.(cos := t.cos[c := Co(kid, false, WantLock)])
    case Acquire(c, at, later) =>
      if c !in s.cos then t
      else if !s.cos[c].forced && Fresh(s.cache, at)
      then Decide(t, cfg, c, s.cos[c].kid, s.cache.value.keys, later)
      else t.(holder := Some(c), cos := t.cos[c := s.cos[c].(phase := Fetching)],
              log := t.log + [Started(s.cos[c].forced, at)])
    case FetchOk(c, keys, at, later) =>
      if c !in s.cos then t
      else
        var u := t.(cache := Kept(keys, at, cfg), holder := None, log := t.log + [Succeeded(at)]);
        if s.cos[c].forced then u.(cos := u.cos - {c}) else Decide(u, cfg, c, s.cos[c].kid, keys, later)
    case FetchFail(c, _, _) => t.(holder := None, cos := t.cos - {c})
    case Cancel(c, _, _) => t.(cos := t.cos - {c})
  }

  function Run(s: State, cfg: Config, es: seq<Event>): State
    decreases |es|
  {
    if es == [] then s else Run(Apply(s, cfg, es[0]), cfg, es[1..])
  }

  ghost predicate Legal(s: State, cfg: Config, es: seq<Event>)
    decreases |es|
  {
    es == [] || (Enabled(s, es[0]) && Legal(Apply(s, cfg, es[0]), cfg, es[1..]))
  }

  // ---- each step ----------------------------------------------------------------------------

  /** The keys a coroutine's unforced lookup gets in this step: from the cache while it lasts, or fetched. */
  ghost function KeysInHand(s: State, e: Event): Option<Keys> {
    match e
    case Lookup(_, _, at, _) => if s.cache.Some? && at < s.cache.value.expiresAt then Some(s.cache.value.keys) else None
    case Acquire(c, at, _) =>
      if c in s.cos && !s.cos[c].forced && s.cache.Some? && at < s.cache.value.expiresAt then Some(s.cache.value.keys) else None
    case FetchOk(c, keys, _, _) => if c in s.cos && !s.cos[c].forced then Some(keys) else None
    case _ => None
  }

  ghost function KidOf(s: State, e: Event): string {
    if e.Lookup? then e.kid else if e.co in s.cos then s.cos[e.co].kid else ""
  }

  /**
   With keys in hand a lookup ends at once if it finds its key id, or if the last forced refetch
   was decided less than a cooldown ago; once a cooldown has elapsed an unknown key id is
   refetched, and the cooldown starts again.
   */
  lemma UnknownKidIsRefetched(s: State, cfg: Config, e: Event)
    requires Enabled(s, e) && KeysInHand(s, e).Some?
    ensures var t, keys, kid := Apply(s, cfg, e), KeysInHand(s, e).value, KidOf(s, e);
            var refetches := kid !in keys && e.later - s.lastForced >= cfg.cooldown;
            && (refetches ==> e.co in t.cos && t.cos[e.co] == Co(kid, true, WantLock)
                              && t.lastForced == e.later && Forced(e.later) in t.log)
            && (!refetches ==> e.co !in t.cos && t.lastForced == s.lastForced)
            && (forall k :: k in s.cos && k != e.co ==> k in t.cos && t.cos[k] == s.cos[k])
            && t.holder == (if e.FetchOk? then None else s.holder)
            && t.cache == (if e.FetchOk? then Some(CachedKeys(keys, e.at + cfg.ttl)) else s.cache)
  {
  }

  /** Without keys in hand: wait for the lock, fetch under it, store what a forced fetch brings, or give up. */
  lemma OtherSteps(s: State, cfg: Config, e: Event)
    requires Enabled(s, e) && KeysInHand(s, e).None?
    ensures var t := Apply(s, cfg, e);
            && t.lastForced == s.lastForced && t.clock == e.later
            && (e.Lookup? ==> t.cos == s.cos[e.co := Co(e.kid, false, WantLock)] && t.holder == s.holder && t.cache == s.cache)
            && (e.Acquire? ==>
                  && t.cos == s.cos[e.co := Co(s.cos[e.co].kid, s.cos[e.co].forced, Fetching)]
                  && t.holder == Some(e.co) && t.cache == s.cache && t.log == s.log + [Started(s.cos[e.co].forced, e.at)])
            && (e.FetchOk? ==>
                  && t.cos == s.cos - {e.co} && t.holder == None
                  && t.cache == Some(CachedKeys(e.keys, e.at + cfg.ttl)) && t.log == s.log + [Succeeded(e.at)])
            && (e.FetchFail? ==> t.cos == s.cos - {e.co} && t.holder == None && t.cache == s.cache && t.log == s.log)
            && (e.Cancel? ==> t.cos == s.cos - {e.co} && t.holder == s.holder && t.cache == s.cache && t.log == s.log)
  {
  }

  // ---- invariants -------------------------------------------------------------------------

  /** The lock is held by the one coroutine that is fetching. */
  ghost predicate OneFetch(s: State) {
    && (s.holder.Some? ==> s.holder.value in s.cos)
    && (forall c :: c in s.cos ==> (s.cos[c].phase.Fetching? <==> s.holder == Some(c)))
  }

  ghost predicate Timely(s: State) {
    && s.lastForced <= s.clock
    && (forall i :: 0 <= i < |s.log| ==> s.log[i].at <= s.clock)
    && (forall i :: 0 <= i < |s.log| && s.log[i].Forced? ==> s.log[i].at <= s.lastForced)
  }

  ghost predicate ForcedApart(log: seq<Entry>, cooldown: real) {
    forall i, j :: 0 <= i < j < |log| && log[i].Forced? && log[j].Forced? ==> log[j].at - log[i].at >= cooldown
  }

  ghost predicate QuietAfterSuccess(log: seq<Entry>, ttl: real) {
    forall i, j :: 0 <= i < j < |log| && log[i].Succeeded? && log[j].Started? && !log[j].forced
      ==> log[j].at >= log[i].at + ttl
  }

  ghost predicate CacheOutlivesSuccesses(s: State, ttl: real) {
    forall i :: 0 <= i < |s.log| && s.log[i].Succeeded? ==>
      s.cache.Some? && s.cache.value.expiresAt >= s.log[i].at + ttl
  }

  ghost predicate Inv(s: State, cfg: Config) {
    && OneFetch(s) && Timely(s)
    && ForcedApart(s.log, cfg.cooldown)
    && QuietAfterSuccess(s.log, cfg.ttl)
    && CacheOutlivesSuccesses(s, cfg.ttl)
  }

  lemma DecideKeepsInv(s: State, cfg: Config, c: nat, kid: string, keys: Keys, now: real)
    requires Inv(s, cfg) && s.holder != Some(c) && now == s.clock
    ensures Inv(Decide(s, cfg, c, kid, keys, now), cfg)
  {
  }

  lemma TimePasses(s: State, cfg: Config, later: real)
    requires Inv(s, cfg) && s.clock <= later
    ensures Inv(s.(clock := later), cfg)
  {
  }

  lemma AcquireKeepsInv(s: State, cfg: Config, c: nat, at: real)
    requires Inv(s, cfg) && c in s.cos && s.cos[c].phase.WantLock? && s.holder.None?
    requires at <= s.clock && (forall i :: 0 <= i < |s.log| ==> s.log[i].at <= at)
    requires s.cos[c].forced || !Fresh(s.cache, at)
    ensures Inv(s.(holder := Some(c), cos := s.cos[c := s.cos[c].(phase := Fetching)],
                   log := s.log + [Started(s.cos[c].forced, at)]), cfg)
  {
  }

  /** The state between the end of a successful fetch and what its coroutine does next. */
  function Stored(s: State, cfg: Config, c: nat, keys: Keys, at: real): State {
    s.(cache := Kept(keys, at, cfg), holder := None, log := s.log + [Succeeded(at)],
       cos := s.cos - {c})
  }

  lemma StoreKeepsInv(s: State, cfg: Config, c: nat, keys: Keys, at: real)
    requires Inv(s, cfg) && c in s.cos && s.cos[c].phase.Fetching?
    requires at <= s.clock && (forall i :: 0 <= i < |s.log| ==> s.log[i].at <= at)
    ensures Inv(Stored(s, cfg, c, keys, at), cfg)
  {
  }

  lemma LeaveKeepsInv(s: State, cfg: Config, c: nat)
    requires Inv(s, cfg) && c in s.cos
    ensures s.cos[c].phase.Fetching? ==> Inv(s.(holder := None, cos := s.cos - {c}), cfg)
    ensures s.cos[c].phase.WantLock? ==> Inv(s.(cos := s.cos - {c}), cfg)
  {
  }

  lemma StepKeepsInv(s: State, cfg: Config, e: Event)
    requires Inv(s, cfg) && Enabled(s, e)
    ensures Inv(Apply(s, cfg, e), cfg)
  {
    var t := s.(clock := e.later);
    TimePasses(s, cfg, e.later);
    match e {
      case Lookup(c, kid, at, later) =>
        if Fresh(s.cache, at) {
          DecideKeepsInv(t, cfg, c, kid, s.cache.value.keys, later);
        }
      case Acquire(c, at, later) =>
        if !s.cos[c].forced && Fresh(s.cache, at) {
          DecideKeepsInv(t, cfg, c, s.cos[c].kid, s.cache.value.keys, later);
        } else {
          AcquireKeepsInv(t, cfg, c, at);
        }
      case FetchOk(c, keys, at, later) =>
        StoreKeepsInv(t, cfg, c, keys, at);
        if !s.cos[c].forced {
          var v := Stored(t, cfg, c, keys, at);
          DecideKeepsInv(v, cfg, c, s.cos[c].kid, keys, later);
          assert v.cos - {c} == v.cos;
          assert v.cos[c := Co(s.cos[c].kid, true, WantLock)] == t.cos[c := Co(s.cos[c].kid, true, WantLock)];
        }
      case FetchFail(c, _, _) =>
        LeaveKeepsInv(t, cfg, c);
      case Cancel(c, _, _) =>
        LeaveKeepsInv(t, cfg, c);
    }
  }

  lemma {:induction false} RunKeepsInv(s: State, cfg: Config, es: seq<Event>)
    requires Inv(s, cfg) && Legal(s, cfg, es)
    ensures Inv(Run(s, cfg, es), cfg)
    decreases |es|
  {
    if es != [] {
      StepKeepsInv(s, cfg, es[0]);
      RunKeepsInv(Apply(s, cfg, es[0]), cfg, es[1..]);
    }
  }

  // ---- traffic ----------------------------------------------------------------------------

  /**
   Whatever tokens arrive and however the coroutines interleave: forced refetch decisions
   are a cooldown apart, and a successful fetch silences unforced ones for the cache time.
   */
  lemma TrafficBounds(cfg: Config, es: seq<Event>)
    requires Legal(Initial, cfg, es)
    ensures ForcedApart(Run(Initial, cfg, es).log, cfg.cooldown)
    ensures QuietAfterSuccess(Run(Initial, cfg, es).log, cfg.ttl)
    ensures OneFetch(Run(Initial, cfg, es))
  {
    RunKeepsInv(Initial, cfg, es);
  }

  /**
   Nobody is locked out: a new lookup may start and a waiting one may give up at any time; a free
   lock may be taken by anyone who waits; and whoever holds it is fetching, with either outcome.
   */
  lemma SomeoneCanMove(cfg: Config, es: seq<Event>, at: real, later: real)
    requires Legal(Initial, cfg, es) && Run(Initial, cfg, es).clock <= at <= later
    ensures var s := Run(Initial, cfg, es);
            && (forall c: nat, kid :: c !in s.cos ==> Enabled(s, Lookup(c, kid, at, later)))
            && (forall c: nat :: c in s.cos && s.holder != Some(c) ==> Enabled(s, Cancel(c, at, later)))
            && (forall c: nat :: c in s.cos && s.holder.None? ==> Enabled(s, Acquire(c, at, later)))
            && (s.holder.Some? ==>
                  && Enabled(s, FetchFail(s.holder.value, at, later))
                  && forall keys :: Enabled(s, FetchOk(s.holder.value, keys, at, later)))
  {
    RunKeepsInv(Initial, cfg, es);
  }

  function ForcedTimes(log: seq<Entry>): seq<real> {
    if log == [] then []
    else ForcedTimes(log[..|log| - 1]) + if log[|log| - 1].Forced? then [log[|log| - 1].at] else []
  }

  lemma {:induction false} ForcedTimesAreInTheLog(log: seq<Entry>, k: nat) returns (i: nat)
    requires k < |ForcedTimes(log)|
    ensures i < |log| && log[i] == Forced(ForcedTimes(log)[k])
    decreases |log|
  {
    var prefix := log[..|log| - 1];
    if k < |ForcedTimes(prefix)| {
      i := ForcedTimesAreInTheLog(prefix, k);
    } else {
      i := |log| - 1;
    }
  }

  ghost predicate SpacedBy(t: seq<real>, cooldown: real) {
    forall k :: 0 <= k < |t| - 1 ==> t[k + 1] - t[k] >= cooldown
  }

  lemma SpacedAppend(t: seq<real>, x: real, cooldown: real)
    requires SpacedBy(t, cooldown) && (t != [] ==> x - t[|t| - 1] >= cooldown)
    ensures SpacedBy(t + [x], cooldown)
  {
  }

  lemma {:induction false} ForcedTimesAreSpaced(log: seq<Entry>, cooldown: real)
    requires ForcedApart(log, cooldown)
    ensures SpacedBy(ForcedTimes(log), cooldown)
    decreases |log|
  {
    if log != [] {
      var prefix, last := log[..|log| - 1], log[|log| - 1];
      ForcedTimesAreSpaced(prefix, cooldown);
      var t := ForcedTimes(prefix);
      if !last.Forced? {
        assert t + [] == t;
      } else {
        if t != [] {
          var i := ForcedTimesAreInTheLog(prefix, |t| - 1);
          assert prefix[i] == log[i];
        }
        SpacedAppend(t, last.at, cooldown);
      }
    }
  }

  lemma {:induction false} SpacedSpan(t: seq<real>, cooldown: real, i: nat, j: nat)
    requires SpacedBy(t, cooldown)
    requires i <= j < |t|
    ensures t[j] - t[i] >= (j - i) as real * cooldown
    decreases j
  {
    if i < j {
      SpacedSpan(t, cooldown, i, j - 1);
      assert t[j - 1 + 1] - t[j - 1] >= cooldown;
      assert (j - i) as real * cooldown == (j - 1 - i) as real * cooldown + cooldown;
    }
  }

  /** The smallest integer that is at least x. */
  function Ceiling(x: real): int {
    -((-x).Floor)
  }

  /** A half-open span of length `span` holds at most ceil(span / cooldown) forced refetch decisions. */
  lemma ForcedInSpan(cfg: Config, es: seq<Event>, i: nat, j: nat, from: real, span: real)
    requires Legal(Initial, cfg, es) && cfg.cooldown > 0.0
    requires var t := ForcedTimes(Run(Initial, cfg, es).log);
             i <= j < |t| && from <= t[i] && t[j] < from + span
    ensures j - i + 1 <= Ceiling(span / cfg.cooldown)
  {
    var log := Run(Initial, cfg, es).log;
    var t := ForcedTimes(log);
    TrafficBounds(cfg, es);
    ForcedTimesAreSpaced(log, cfg.cooldown);
    SpacedSpan(t, cfg.cooldown, i, j);
    QuotientBound((j - i) as real, span, cfg.cooldown);
  }

  lemma ProductsKeepOrder(a: real, b: real, c: real)
    requires a >= b && c > 0.0
    ensures a * c >= b * c
  {
  }

  lemma QuotientBound(n: real, span: real, c: real)
    requires c > 0.0 && n * c < span
    ensures n < span / c
  {
    var q := span / c;
    assert q * c == span;
    if n >= q {
      ProductsKeepOrder(n, q, c);
    }
  }

  // ---- forced fetches are paid for by decisions -------------------------------------------

  function CountForced(log: seq<Entry>): nat {
    |ForcedTimes(log)|
  }

  function CountForcedStarts(log: seq<Entry>): nat {
    if log == [] then 0
    else CountForcedStarts(log[..|log| - 1])
         + if log[|log| - 1].Started? && log[|log| - 1].forced then 1 else 0
  }

  function Entitled(s: State): set<nat> {
    set c | c in s.cos && s.cos[c].forced && s.cos[c].phase.WantLock?
  }

  ghost predicate Paid(s: State) {
    CountForcedStarts(s.log) + |Entitled(s)| <= CountForced(s.log)
  }

  lemma LogAppend(log: seq<Entry>, e: Entry)
    ensures CountForced(log + [e]) == CountForced(log) + if e.Forced? then 1 else 0
    ensures CountForcedStarts(log + [e]) == CountForcedStarts(log) + if e.Started? && e.forced then 1 else 0
  {
    assert (log + [e])[..|log|] == log;
  }

  lemma DecideKeepsPaid(s: State, cfg: Config, c: nat, kid: string, keys: Keys, now: real)
    requires Paid(s)
    ensures Paid(Decide(s, cfg, c, kid, keys, now))
  {
    var d := Decide(s, cfg, c, kid, keys, now);
    if kid in keys || !MayForce(s.lastForced, now, cfg.cooldown) {
      SubsetSize(Entitled(d), Entitled(s));
    } else {
      LogAppend(s.log, Forced(now));
      assert Entitled(d) == Entitled(s) + {c};
    }
  }

  lemma StepKeepsPaid(s: State, cfg: Config, e: Event)
    requires Paid(s) && Enabled(s, e)
    ensures Paid(Apply(s, cfg, e))
  {
    var t := s.(clock := e.later);
    assert Entitled(t) == Entitled(s);
    match e {
      case Lookup(c, kid, at, later) =>
        if Fresh(s.cache, at) {
          DecideKeepsPaid(t, cfg, c, kid, s.cache.value.keys, later);
        } else {
          assert Entitled(Apply(s, cfg, e)) == Entitled(s);
        }
      case Acquire(c, at, later) =>
        if !s.cos[c].forced && Fresh(s.cache, at) {
          DecideKeepsPaid(t, cfg, c, s.cos[c].kid, s.cache.value.keys, later);
        } else {
          LogAppend(s.log, Started(s.cos[c].forced, at));
          assert Entitled(Apply(s, cfg, e)) == Entitled(s) - {c};
        }
      case FetchOk(c, keys, at, later) =>
        LogAppend(s.log, Succeeded(at));
        var u := t.(cache := Kept(keys, at, cfg), holder := None, log := t.log + [Succeeded(at)]);
        assert Entitled(u) == Entitled(s);
        if s.cos[c].forced {
          SubsetSize(Entitled(Apply(s, cfg, e)), Entitled(s));
        } else {
          DecideKeepsPaid(u, cfg, c, s.cos[c].kid, keys, later);
        }
      case FetchFail(c, _, _) =>
        SubsetSize(Entitled(Apply(s, cfg, e)), Entitled(s));
      case Cancel(c, _, _) =>
        SubsetSize(Entitled(Apply(s, cfg, e)), Entitled(s));
    }
  }

  lemma {:induction false} RunKeepsPaid(s: State, cfg: Config, es: seq<Event>)
    requires Paid(s) && Legal(s, cfg, es)
    ensures Paid(Run(s, cfg, es))
    decreases |es|
  {
    if es != [] {
      StepKeepsPaid(s, cfg, es[0]);
      RunKeepsPaid(Apply(s, cfg, es[0]), cfg, es[1..]);
    }
  }

  /** There are never more forced fetches than forced-refetch decisions. */
  lemma ForcedFetchesArePaid(cfg: Config, es: seq<Event>)
    requires Legal(Initial, cfg, es)
    ensures CountForcedStarts(Run(Initial, cfg, es).log) <= CountForced(Run(Initial, cfg, es).log)
  {
    RunKeepsPaid(Initial, cfg, es);
  }
}
