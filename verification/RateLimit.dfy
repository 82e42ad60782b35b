/**
 The fixed-window request limit on the probe endpoints: one counter per (bucket, user), a
 window that opens with the first request counted in it, and an advertised retry delay.
 Time is the process's monotonic clock, in seconds.
 */
module RateLimit {
  import opened Options

  const WINDOW_SEC := 60.0

  datatype Window = Window(started: real, count: int)

  type Counters = map<string, map<string, Window>>

  function Get(c: Counters, bucket: string, user: string): Option<Window> {
    if bucket in c && user in c[bucket] then Some(c[bucket][user]) else None
  }

  function Put(c: Counters, bucket: string, user: string, w: Window): Counters {
    c[bucket := (if bucket in c then c[bucket] else map[])[user := w]]
  }

  /** The window a request at `now` falls in; an unknown user starts an empty one. */
  function CurrentWindow(w: Option<Window>, now: real): Window {
    match w
    case None => Window(now, 0)
    case Some(v) => if now - v.started >= WINDOW_SEC then Window(now, 0) else v
  }

  datatype Hit = Hit(counters: Counters, wait: Option<real>)

  function HitSpec(c: Counters, bucket: string, user: string, limit: int, now: real): Hit {
    var w := CurrentWindow(Get(c, bucket, user), now);
    if w.count >= limit then Hit(c, Some(WINDOW_SEC - (now - w.started)))
    else Hit(Put(c, bucket, user, Window(w.started, w.count + 1)), None)
  }

  /** The least whole number of seconds above the wait, and at least one. */
  function RetryAfter(wait: real): (n: int)
    ensures n >= 1 && wait < n as real
    ensures n > 1 ==> (n - 1) as real <= wait
  {
    var n := wait.Floor + 1;
    if n < 1 then 1 else n
  }

  class Limiter {
    var counters: Counters

    constructor ()
      ensures counters == map[]
    {
      counters := map[];
    }

    method CountHit(bucket: string, user: string, limit: int, now: real) returns (wait: Option<real>)
      modifies this
      ensures Hit(counters, wait) == HitSpec(old(counters), bucket, user, limit, now)
      ensures var known := bucket in old(counters) && user in old(counters)[bucket]
                           && now - old(counters)[bucket][user].started < 60.0;
              var started := if known then old(counters)[bucket][user].started else now;
              var count := if known then old(counters)[bucket][user].count else 0;
              && (count >= limit ==> wait == Some(started + 60.0 - now) && counters == old(counters))
              && (count < limit ==>
                    && wait == None && bucket in counters
                    && counters[bucket] == (if bucket in old(counters) then old(counters)[bucket] else map[])[user := Window(started, count + 1)]
                    && counters.Keys == old(counters).Keys + {bucket}
                    && forall b :: b in old(counters) && b != bucket ==> counters[b] == old(counters)[b])
    {
      var started, count := now, 0;
      if bucket in counters && user in counters[bucket] {
        started, count := counters[bucket][user].started, counters[bucket][user].count;
      }
      if now - started >= WINDOW_SEC {
        started, count := now, 0;
      }
      if count >= limit {
        return Some(WINDOW_SEC - (now - started));
      }
      counters := Put(counters, bucket, user, Window(started, count + 1));
      return None;
    }

    /** The dependency on a probe route: a limit of zero or less switches it off; Some is a 429. */
    method Guard(bucket: string, user: string, limit: int, now: real) returns (retryAfter: Option<int>)
      modifies this
      ensures limit <= 0 ==> retryAfter == None && counters == old(counters)
      ensures limit > 0 ==>
                var h := HitSpec(old(counters), bucket, user, limit, now);
                && counters == h.counters
                && retryAfter == if h.wait.None? then None else Some(RetryAfter(h.wait.value))
    {
      if limit <= 0 {
        return None;
      }
      var wait := CountHit(bucket, user, limit, now);
      if wait.None? {
        return None;
      }
      return Some(RetryAfter(wait.value));
    }
  }

  // ---- traces -----------------------------------------------------------------------------

  datatype Request = Request(bucket: string, user: string, at: real)

  ghost predicate InOrder(reqs: seq<Request>) {
    forall i, j :: 0 <= i < j < |reqs| ==> reqs[i].at <= reqs[j].at
  }

  function Last(reqs: seq<Request>): Request
    requires reqs != []
  {
    reqs[|reqs| - 1]
  }

  function Init(reqs: seq<Request>): seq<Request>
    requires reqs != []
  {
    reqs[..|reqs| - 1]
  }

  /** The counters after a trace of requests, from an empty process. */
  function After(reqs: seq<Request>, limit: int): Counters {
    if reqs == [] then map[]
    else HitSpec(After(Init(reqs), limit), Last(reqs).bucket, Last(reqs).user, limit, Last(reqs).at).counters
  }

  function WaitOf(reqs: seq<Request>, limit: int): Option<real>
    requires reqs != []
  {
    HitSpec(After(Init(reqs), limit), Last(reqs).bucket, Last(reqs).user, limit, Last(reqs).at).wait
  }

  datatype Grant = Grant(started: real, at: real)

  predicate Concerns(r: Request, bucket: string, user: string) {
    r.bucket == bucket && r.user == user
  }

  /** The admitted requests of one user in one bucket, each with the start of its window. */
  function Grants(reqs: seq<Request>, limit: int, bucket: string, user: string): seq<Grant> {
    if reqs == [] then []
    else
      Grants(Init(reqs), limit, bucket, user)
      + if Concerns(Last(reqs), bucket, user) && WaitOf(reqs, limit).None?
        then [Grant(CurrentWindow(Get(After(Init(reqs), limit), bucket, user), Last(reqs).at).started, Last(reqs).at)]
        else []
  }

  /** Grants in time order, each inside its window; windows are 60 seconds apart. */
  ghost predicate Spread(g: seq<Grant>) {
    && (forall i :: 0 <= i < |g| ==> g[i].started <= g[i].at < g[i].started + WINDOW_SEC)
    && (forall i, j :: 0 <= i < j < |g| ==> g[i].at <= g[j].at)
    && (forall i, j :: 0 <= i < j < |g| ==> g[i].started == g[j].started || g[i].started + WINDOW_SEC <= g[j].started)
  }

  ghost predicate Opens(g: seq<Grant>, i: nat)
    requires i < |g|
  {
    i == 0 || g[i - 1].started != g[i].started
  }

  /** A window is opened by its first grant. */
  ghost predicate Opened(g: seq<Grant>) {
    forall i: nat :: i < |g| && Opens(g, i) ==> g[i].at == g[i].started
  }

  /** A window holds at most `limit` grants. */
  ghost predicate Bounded(g: seq<Grant>, limit: nat) {
    forall i, j :: 0 <= i < |g| && i + limit <= j < |g| ==> g[i].started != g[j].started
  }

  ghost predicate Blocks(g: seq<Grant>, limit: nat) {
    Spread(g) && Opened(g) && Bounded(g, limit)
  }

  /** The stored window is the last block of grants. */
  ghost predicate Summarises(w: Option<Window>, g: seq<Grant>, limit: nat) {
    match w
    case None => g == []
    case Some(v) =>
      && 1 <= v.count <= limit && v.count <= |g|
      && (forall i :: |g| - v.count <= i < |g| ==> g[i].started == v.started)
      && (forall i :: 0 <= i < |g| - v.count ==> g[i].started + WINDOW_SEC <= v.started)
  }

  lemma GetPut(c: Counters, bucket: string, user: string, w: Window, b: string, u: string)
    ensures Get(Put(c, bucket, user, w), b, u) == if b == bucket && u == user then Some(w) else Get(c, b, u)
  {
  }

  /** One request: what it does to the stored window and to the log of grants. */
  lemma RequestStep(reqs: seq<Request>, limit: int, bucket: string, user: string)
    requires reqs != []
    ensures var r := Last(reqs);
            var stored := Get(After(Init(reqs), limit), bucket, user);
            var g := Grants(Init(reqs), limit, bucket, user);
            var w := CurrentWindow(stored, r.at);
            if Concerns(r, bucket, user) && w.count < limit
            then
              && Get(After(reqs, limit), bucket, user) == Some(Window(w.started, w.count + 1))
              && Grants(reqs, limit, bucket, user) == g + [Grant(w.started, r.at)]
            else
              && Get(After(reqs, limit), bucket, user) == stored
              && Grants(reqs, limit, bucket, user) == g
  {
    var r := Last(reqs);
    var before := After(Init(reqs), limit);
    var w := CurrentWindow(Get(before, r.bucket, r.user), r.at);
    GetPut(before, r.bucket, r.user, Window(w.started, w.count + 1), bucket, user);
    var g := Grants(Init(reqs), limit, bucket, user);
    assert g + [] == g;
  }

  /** The same step, with the last request named. */
  lemma AppendRequest(before: seq<Request>, r: Request, limit: int, bucket: string, user: string)
    ensures var stored := Get(After(before, limit), bucket, user);
            var w := CurrentWindow(stored, r.at);
            if Concerns(r, bucket, user) && w.count < limit
            then
              && Get(After(before + [r], limit), bucket, user) == Some(Window(w.started, w.count + 1))
              && Grants(before + [r], limit, bucket, user) == Grants(before, limit, bucket, user) + [Grant(w.started, r.at)]
            else
              && Get(After(before + [r], limit), bucket, user) == stored
              && Grants(before + [r], limit, bucket, user) == Grants(before, limit, bucket, user)
  {
    assert Init(before + [r]) == before && Last(before + [r]) == r;
    RequestStep(before + [r], limit, bucket, user);
  }

  /** A log of grants up to a time, with the window the counters hold. */
  ghost predicate LogOk(g: seq<Grant>, stored: Option<Window>, limit: nat, now: real) {
    && Blocks(g, limit) && Summarises(stored, g, limit)
    && forall i :: 0 <= i < |g| ==> g[i].at <= now
  }

  lemma LogGrows(g: seq<Grant>, stored: Option<Window>, limit: nat, now: real)
    requires limit >= 1 && LogOk(g, stored, limit, now) && CurrentWindow(stored, now).count < limit
    ensures var w := CurrentWindow(stored, now);
            LogOk(g + [Grant(w.started, now)], Some(Window(w.started, w.count + 1)), limit, now)
  {
    AppendGrant(g, stored, limit, now);
  }

  lemma TraceStep(reqs: seq<Request>, limit: nat, bucket: string, user: string)
    requires limit >= 1 && reqs != []
    requires LogOk(Grants(Init(reqs), limit, bucket, user), Get(After(Init(reqs), limit), bucket, user), limit, Last(reqs).at)
    ensures LogOk(Grants(reqs, limit, bucket, user), Get(After(reqs, limit), bucket, user), limit, Last(reqs).at)
  {
    var g := Grants(Init(reqs), limit, bucket, user);
    var stored := Get(After(Init(reqs), limit), bucket, user);
    RequestStep(reqs, limit, bucket, user);
    if Concerns(Last(reqs), bucket, user) && CurrentWindow(stored, Last(reqs).at).count < limit {
      LogGrows(g, stored, limit, Last(reqs).at);
    }
  }

  lemma {:induction false} TraceIsLog(reqs: seq<Request>, limit: nat, bucket: string, user: string, now: real)
    requires limit >= 1 && InOrder(reqs) && (reqs != [] ==> Last(reqs).at <= now)
    ensures LogOk(Grants(reqs, limit, bucket, user), Get(After(reqs, limit), bucket, user), limit, now)
    decreases |reqs|
  {
    if reqs != [] {
      TraceIsLog(Init(reqs), limit, bucket, user, Last(reqs).at);
      TraceStep(reqs, limit, bucket, user);
    }
  }

  lemma TraceIsBlocks(reqs: seq<Request>, limit: nat, bucket: string, user: string)
    requires limit >= 1 && InOrder(reqs)
    ensures Blocks(Grants(reqs, limit, bucket, user), limit)
    ensures Summarises(Get(After(reqs, limit), bucket, user), Grants(reqs, limit, bucket, user), limit)
    ensures reqs == [] ==> Grants(reqs, limit, bucket, user) == []
    ensures reqs != [] ==> forall e :: e in Grants(reqs, limit, bucket, user) ==> e.at <= Last(reqs).at
  {
    TraceIsLog(reqs, limit, bucket, user, if reqs == [] then 0.0 else Last(reqs).at);
  }

  lemma FirstGrant(limit: nat, now: real)
    requires limit >= 1
    ensures var h := [Grant(now, now)];
            Blocks(h, limit) && Summarises(Some(Window(now, 1)), h, limit)
  {
  }

  /** The window is that of the latest grant, and is not in the future. */
  lemma WindowOfLastGrant(g: seq<Grant>, v: Window, limit: nat, now: real)
    requires Spread(g) && Summarises(Some(v), g, limit)
    requires forall i :: 0 <= i < |g| ==> g[i].at <= now
    ensures v.started <= now
  {
    assert g[|g| - 1].started == v.started;
  }

  lemma AppendGrant(g: seq<Grant>, stored: Option<Window>, limit: nat, now: real)
    requires limit >= 1 && Blocks(g, limit) && Summarises(stored, g, limit)
    requires forall i :: 0 <= i < |g| ==> g[i].at <= now
    requires CurrentWindow(stored, now).count < limit
    ensures var w := CurrentWindow(stored, now);
            var h := g + [Grant(w.started, now)];
            Blocks(h, limit) && Summarises(Some(Window(w.started, w.count + 1)), h, limit)
  {
    if stored.None? {
      FirstGrant(limit, now);
      assert g + [Grant(now, now)] == [Grant(now, now)];
    } else if now - stored.value.started >= WINDOW_SEC {
      FreshWindow(g, stored.value, limit, now);
    } else {
      WindowOfLastGrant(g, stored.value, limit, now);
      SameWindow(g, stored.value, limit, now);
    }
  }

  lemma SpreadAppend(g: seq<Grant>, e: Grant)
    requires Spread(g) && e.started <= e.at < e.started + WINDOW_SEC
    requires forall i :: 0 <= i < |g| ==> g[i].at <= e.at
    requires forall i :: 0 <= i < |g| ==> g[i].started == e.started || g[i].started + WINDOW_SEC <= e.started
    ensures Spread(g + [e])
  {
  }

  lemma OpenedAppend(g: seq<Grant>, e: Grant)
    requires Opened(g) && (g == [] || g[|g| - 1].started != e.started ==> e.at == e.started)
    ensures Opened(g + [e])
  {
    var h := g + [e];
    forall i: nat | i < |h| && Opens(h, i) ensures h[i].at == h[i].started {
      if i < |g| { assert Opens(g, i); }
    }
  }

  lemma BoundedAppend(g: seq<Grant>, e: Grant, limit: nat)
    requires limit >= 1 && Bounded(g, limit)
    requires forall i :: 0 <= i && i + limit <= |g| ==> g[i].started != e.started
    ensures Bounded(g + [e], limit)
  {
  }

  lemma FreshWindow(g: seq<Grant>, v: Window, limit: nat, now: real)
    requires limit >= 1 && Blocks(g, limit) && Summarises(Some(v), g, limit)
    requires forall i :: 0 <= i < |g| ==> g[i].at <= now
    requires now - v.started >= WINDOW_SEC
    ensures var h := g + [Grant(now, now)];
            Blocks(h, limit) && Summarises(Some(Window(now, 1)), h, limit)
  {
    var e := Grant(now, now);
    forall i | 0 <= i < |g| ensures g[i].started + WINDOW_SEC <= now {
      assert g[i].started == v.started || g[i].started + WINDOW_SEC <= v.started;
    }
    SpreadAppend(g, e);
    OpenedAppend(g, e);
    BoundedAppend(g, e, limit);
  }

  lemma SameWindow(g: seq<Grant>, v: Window, limit: nat, now: real)
    requires limit >= 1 && Blocks(g, limit) && Summarises(Some(v), g, limit)
    requires forall i :: 0 <= i < |g| ==> g[i].at <= now
    requires v.started <= now < v.started + WINDOW_SEC && v.count < limit
    ensures var h := g + [Grant(v.started, now)];
            Blocks(h, limit) && Summarises(Some(Window(v.started, v.count + 1)), h, limit)
  {
    var e := Grant(v.started, now);
    SpreadAppend(g, e);
    OpenedAppend(g, e);
    BoundedAppend(g, e, limit);
  }

  /** The first grant of the window that grant i belongs to. */
  lemma {:induction false} BlockStart(g: seq<Grant>, limit: nat, i: nat) returns (b: nat)
    requires Blocks(g, limit) && i < |g|
    ensures b <= i && g[b].started == g[i].started && g[b].at == g[b].started
    decreases i
  {
    if Opens(g, i) {
      b := i;
    } else {
      b := BlockStart(g, limit, i - 1);
    }
  }

  /** Two admitted requests that are 2 * limit - 1 apart in the log are at least 60 seconds apart in time. */
  lemma GrantsAreSpaced(g: seq<Grant>, limit: nat, i: nat)
    requires limit >= 1 && Blocks(g, limit) && i + 2 * limit - 1 < |g|
    ensures g[i + 2 * limit - 1].at >= g[i].at + WINDOW_SEC
  {
    var b := BlockStart(g, limit, i);
    var last := i + 2 * limit - 1;
    assert g[b].started != g[b + limit].started;
    if b < i {
      assert g[b + limit].started != g[b + 2 * limit].started;
      assert last == b + 2 * limit || g[b + 2 * limit].started <= g[last].started;
    } else {
      assert last == b + limit || g[b + limit].started <= g[last].started;
    }
  }

  function InSpan(g: seq<Grant>, from: real): set<nat> {
    set i: nat | i < |g| && from <= g[i].at < from + WINDOW_SEC
  }

  lemma {:induction false} IntervalSize(s: set<nat>, lo: nat, n: nat)
    requires forall i :: i in s ==> lo <= i < lo + n
    ensures |s| <= n
  {
    if n == 0 {
      assert s == {};
    } else {
      IntervalSize(s - {lo + n - 1}, lo, n - 1);
    }
  }

  lemma {:induction false} LeastOf(s: set<nat>) returns (lo: nat)
    requires s != {}
    ensures lo in s && forall i :: i in s ==> lo <= i
  {
    lo :| lo in s;
    if s != {lo} {
      var other := LeastOf(s - {lo});
      assert forall i :: i in s ==> i == lo || i in s - {lo};
      if other < lo { lo := other; }
    }
  }

  /**
   Any half-open span of 60 seconds admits at most 2 * limit - 1 requests per bucket and
   user, one fewer than the two full windows a span can touch.
   */
  lemma SpanBound(reqs: seq<Request>, limit: nat, bucket: string, user: string, from: real)
    requires limit >= 1 && InOrder(reqs)
    ensures |InSpan(Grants(reqs, limit, bucket, user), from)| <= 2 * limit - 1
  {
    var g := Grants(reqs, limit, bucket, user);
    TraceIsBlocks(reqs, limit, bucket, user);
    SpanOfBlocks(g, limit, from);
  }

  lemma SpanReach(g: seq<Grant>, limit: nat, from: real, lo: nat, i: nat)
    requires limit >= 1 && Blocks(g, limit)
    requires lo <= i < |g| && from <= g[lo].at && g[i].at < from + WINDOW_SEC
    ensures i < lo + (2 * limit - 1)
  {
    var far := lo + 2 * limit - 1;
    if far <= i {
      assert far == i || g[far].at <= g[i].at;
      GrantsAreSpaced(g, limit, lo);
    }
  }

  lemma SpanOfBlocks(g: seq<Grant>, limit: nat, from: real)
    requires limit >= 1 && Blocks(g, limit)
    ensures |InSpan(g, from)| <= 2 * limit - 1
  {
    var s := InSpan(g, from);
    if s != {} {
      var lo := LeastOf(s);
      forall i | i in s ensures lo <= i < lo + (2 * limit - 1) {
        SpanReach(g, limit, from, lo, i);
      }
      IntervalSize(s, lo, 2 * limit - 1);
    }
  }

  /** Nobody else's requests, and no other bucket's, change what a user is granted. */
  function Only(reqs: seq<Request>, bucket: string, user: string): seq<Request> {
    if reqs == [] then []
    else Only(Init(reqs), bucket, user) + if Concerns(Last(reqs), bucket, user) then [Last(reqs)] else []
  }

  lemma {:induction false} OthersDoNotMatter(reqs: seq<Request>, limit: int, bucket: string, user: string)
    ensures Get(After(reqs, limit), bucket, user) == Get(After(Only(reqs, bucket, user), limit), bucket, user)
    ensures Grants(reqs, limit, bucket, user) == Grants(Only(reqs, bucket, user), limit, bucket, user)
    decreases |reqs|
  {
    if reqs != [] {
      var before, r := Init(reqs), Last(reqs);
      assert reqs == before + [r];
      OthersDoNotMatter(before, limit, bucket, user);
      AppendRequest(before, r, limit, bucket, user);
      var mine := Only(before, bucket, user);
      if Concerns(r, bucket, user) {
        AppendRequest(mine, r, limit, bucket, user);
      } else {
        assert Only(reqs, bucket, user) == mine;
      }
    }
  }

  // ---- the advertised delay ---------------------------------------------------------------

  lemma {:induction false} OthersKeepMyWindow(reqs: seq<Request>, mid: seq<Request>, limit: int, bucket: string, user: string)
    requires forall i :: 0 <= i < |mid| ==> !Concerns(mid[i], bucket, user)
    ensures Get(After(reqs + mid, limit), bucket, user) == Get(After(reqs, limit), bucket, user)
    decreases |mid|
  {
    if mid == [] {
      assert reqs + mid == reqs;
    } else {
      var all := reqs + mid;
      assert Init(all) == reqs + Init(mid) && Last(all) == Last(mid);
      OthersKeepMyWindow(reqs, Init(mid), limit, bucket, user);
      RequestStep(all, limit, bucket, user);
    }
  }

  /**
   A rejected client that waits the advertised Retry-After is admitted, whatever others do
   meanwhile, provided it sends nothing else in that bucket first.
   */
  lemma RetryAfterIsEnough(reqs: seq<Request>, mid: seq<Request>, again: Request, limit: int)
    requires limit >= 1 && reqs != [] && WaitOf(reqs, limit).Some?
    requires again.bucket == Last(reqs).bucket && again.user == Last(reqs).user
    requires forall i :: 0 <= i < |mid| ==> !Concerns(mid[i], again.bucket, again.user)
    requires again.at >= Last(reqs).at + RetryAfter(WaitOf(reqs, limit).value) as real
    ensures WaitOf(reqs + mid + [again], limit) == None
  {
    var all := reqs + mid + [again];
    assert Init(all) == reqs + mid && Last(all) == again;
    OthersKeepMyWindow(reqs, mid, limit, again.bucket, again.user);
    RequestStep(reqs, limit, again.bucket, again.user);
    var w := Get(After(reqs, limit), again.bucket, again.user);
    assert w.Some?;
    var wait := WaitOf(reqs, limit).value;
    assert wait == WINDOW_SEC - (Last(reqs).at - w.value.started);
    assert RetryAfter(wait) as real > wait;
  }

  /**
   The wait is not overstated: whatever others do meanwhile, the next request is refused exactly
   while less than the time left has passed; and the advertised delay is the least number of
   seconds above that time.
   */
  lemma RefusedUntilTheWindowEnds(reqs: seq<Request>, mid: seq<Request>, again: Request, limit: int)
    requires limit >= 1 && reqs != [] && WaitOf(reqs, limit).Some?
    requires again.bucket == Last(reqs).bucket && again.user == Last(reqs).user
    requires forall i :: 0 <= i < |mid| ==> !Concerns(mid[i], again.bucket, again.user)
    ensures var wait := WaitOf(reqs, limit).value;
            && (WaitOf(reqs + mid + [again], limit).None? <==> again.at >= Last(reqs).at + wait)
            && (WaitOf(reqs + mid + [again], limit).Some? ==>
                  WaitOf(reqs + mid + [again], limit).value == Last(reqs).at + wait - again.at)
            && (wait > 0.0 ==> (RetryAfter(wait) - 1) as real <= wait < RetryAfter(wait) as real)
  {
    var all := reqs + mid + [again];
    assert Init(all) == reqs + mid && Last(all) == again;
    OthersKeepMyWindow(reqs, mid, limit, again.bucket, again.user);
    RequestStep(reqs, limit, again.bucket, again.user);
  }

  /** The delay is never longer than the window and one second. */
  lemma RetryAfterIsBounded(reqs: seq<Request>, limit: int)
    requires limit >= 1 && InOrder(reqs) && reqs != [] && WaitOf(reqs, limit).Some?
    ensures 1 <= RetryAfter(WaitOf(reqs, limit).value) <= 61
  {
    var r := Last(reqs);
    TraceIsBlocks(Init(reqs), limit, r.bucket, r.user);
    var g := Grants(Init(reqs), limit, r.bucket, r.user);
    var w := Get(After(Init(reqs), limit), r.bucket, r.user);
    assert w.Some?;
    var last := g[|g| - 1];
    assert last in g && last.started == w.value.started;
    assert Last(Init(reqs)).at <= r.at;
  }

  // ---- the bound is reached ---------------------------------------------------------------

  function Times(r: Request, n: nat): seq<Request> {
    if n == 0 then [] else Times(r, n - 1) + [r]
  }

  function SameGrants(e: Grant, n: nat): (g: seq<Grant>)
    ensures |g| == n && forall i :: 0 <= i < n ==> g[i] == e
  {
    if n == 0 then [] else SameGrants(e, n - 1) + [e]
  }

  /** All that a trace leaves of one user in one bucket. */
  datatype View = View(stored: Option<Window>, grants: seq<Grant>)

  function ViewOf(reqs: seq<Request>, limit: int, bucket: string, user: string): View {
    View(Get(After(reqs, limit), bucket, user), Grants(reqs, limit, bucket, user))
  }

  function Grow(v: View, at: real, limit: int): View {
    var w := CurrentWindow(v.stored, at);
    if w.count < limit
    then View(Some(Window(w.started, w.count + 1)), v.grants + [Grant(w.started, at)])
    else v
  }

  function GrowMany(v: View, at: real, limit: int, n: nat): View {
    if n == 0 then v else Grow(GrowMany(v, at, limit, n - 1), at, limit)
  }

  lemma GrowIsAppend(before: seq<Request>, r: Request, limit: int)
    ensures ViewOf(before + [r], limit, r.bucket, r.user) == Grow(ViewOf(before, limit, r.bucket, r.user), r.at, limit)
  {
    AppendRequest(before, r, limit, r.bucket, r.user);
  }

  lemma OneMoreTime(reqs: seq<Request>, limit: int, r: Request, n: nat, v: View)
    requires n > 0 && ViewOf(reqs + Times(r, n - 1), limit, r.bucket, r.user) == v
    ensures ViewOf(reqs + Times(r, n), limit, r.bucket, r.user) == Grow(v, r.at, limit)
  {
    GrowIsAppend(reqs + Times(r, n - 1), r, limit);
    assert reqs + Times(r, n) == reqs + Times(r, n - 1) + [r];
  }

  lemma {:induction false} ViewOfTimes(reqs: seq<Request>, limit: int, r: Request, n: nat)
    ensures ViewOf(reqs + Times(r, n), limit, r.bucket, r.user)
            == GrowMany(ViewOf(reqs, limit, r.bucket, r.user), r.at, limit, n)
  {
    if n == 0 {
      assert reqs + Times(r, n) == reqs;
    } else {
      ViewOfTimes(reqs, limit, r, n - 1);
      OneMoreTime(reqs, limit, r, n, GrowMany(ViewOf(reqs, limit, r.bucket, r.user), r.at, limit, n - 1));
    }
  }

  /** n more requests at one instant, all inside a window that still has room for them. */
  lemma {:induction false} FillWindow(v: View, at: real, limit: int, n: nat, w: Window)
    requires CurrentWindow(v.stored, at) == w
    requires 0 <= w.count && w.count + n <= limit && at - w.started < WINDOW_SEC
    ensures GrowMany(v, at, limit, n)
            == View(if n == 0 then v.stored else Some(Window(w.started, w.count + n)),
                    v.grants + SameGrants(Grant(w.started, at), n))
  {
    if n == 0 {
      assert v.grants + [] == v.grants;
    } else {
      FillWindow(v, at, limit, n - 1, w);
      var e := Grant(w.started, at);
      assert v.grants + SameGrants(e, n - 1) + [e] == v.grants + SameGrants(e, n);
    }
  }

  /** One request at second 0, the rest of its window at 59, a whole new window at 60. */
  function Burst(bucket: string, user: string, limit: nat): seq<Request>
    requires limit >= 1
  {
    [Request(bucket, user, 0.0)]
    + Times(Request(bucket, user, 59.0), limit - 1)
    + Times(Request(bucket, user, 60.0), limit)
  }

  lemma {:induction false} TimesAt(r: Request, n: nat)
    ensures |Times(r, n)| == n && forall i :: 0 <= i < n ==> Times(r, n)[i] == r
  {
    if n > 0 { TimesAt(r, n - 1); }
  }

  lemma BurstGrants(bucket: string, user: string, limit: nat)
    requires limit >= 1
    ensures Grants(Burst(bucket, user, limit), limit, bucket, user)
            == [Grant(0.0, 0.0)] + SameGrants(Grant(0.0, 59.0), limit - 1) + SameGrants(Grant(60.0, 60.0), limit)
  {
    var r0, r1, r2 := Request(bucket, user, 0.0), Request(bucket, user, 59.0), Request(bucket, user, 60.0);
    var first := [r0];
    assert [] + [r0] == first;
    AppendRequest([], r0, limit, bucket, user);
    var v1 := ViewOf(first, limit, bucket, user);
    assert v1 == View(Some(Window(0.0, 1)), [Grant(0.0, 0.0)]);
    ViewOfTimes(first, limit, r1, limit - 1);
    FillWindow(v1, 59.0, limit, limit - 1, Window(0.0, 1));
    var second := first + Times(r1, limit - 1);
    var v2 := ViewOf(second, limit, bucket, user);
    ViewOfTimes(second, limit, r2, limit);
    FillWindow(v2, 60.0, limit, limit, Window(60.0, 0));
  }

  lemma BurstInOrder(bucket: string, user: string, limit: nat)
    requires limit >= 1
    ensures InOrder(Burst(bucket, user, limit))
  {
    TimesAt(Request(bucket, user, 59.0), limit - 1);
    TimesAt(Request(bucket, user, 60.0), limit);
  }

  lemma {:induction false} IntervalCovered(s: set<nat>, lo: nat, n: nat)
    requires forall i: nat :: lo <= i < lo + n ==> i in s
    ensures |s| >= n
  {
    if n > 0 {
      IntervalCovered(s - {lo + n - 1}, lo, n - 1);
    }
  }

  /** For every limit some trace is granted 2 * limit - 1 requests within 60 seconds. */
  lemma SpanBoundIsReached(bucket: string, user: string, limit: nat)
    requires limit >= 1
    ensures InOrder(Burst(bucket, user, limit))
    ensures |InSpan(Grants(Burst(bucket, user, limit), limit, bucket, user), 59.0)| == 2 * limit - 1
  {
    var g := Grants(Burst(bucket, user, limit), limit, bucket, user);
    BurstInOrder(bucket, user, limit);
    SpanBound(Burst(bucket, user, limit), limit, bucket, user, 59.0);
    BurstGrants(bucket, user, limit);
    forall i: nat | 1 <= i < 1 + (2 * limit - 1) ensures i in InSpan(g, 59.0) {
      assert g[i].at == if i < limit then 59.0 else 60.0;
    }
    IntervalCovered(InSpan(g, 59.0), 1, 2 * limit - 1);
  }
}
