/**
 Talking to a remote endpoint: how a nested exception group is classified, and how a failed
 first attempt falls back to the other transport.
 */
module McpClient {
  import opened Options

  // ---- failures ---------------------------------------------------------------------------

  /** The reasons a user may see. */
  datatype Failure = Timeout | Unreachable | ProtocolError | UrlNotAllowed | Unsupported | Unavailable

  /** The exception types the classification tells apart. */
  datatype Kind =
    | GuardRefusal                      // ConnectorUrlNotAllowedError
    | HttpTimeout                       // httpx2.TimeoutException
    | BuiltinTimeout                    // TimeoutError
    | HttpNetwork                       // httpx2.NetworkError
    | OsFailure                         // OSError
    | Verdict(failure: Failure)         // ConnectorUnreachableError
    | Cancelled                         // a BaseException that is not an Exception
    | OtherError(name: string)

  datatype Exc = Leaf(kind: Kind) | Group(subs: seq<Exc>)

  function Leaves(e: Exc): seq<Kind>
    decreases e, 0
  {
    match e
    case Leaf(k) => [k]
    case Group(subs) => LeavesOfAll(subs)
  }

  function LeavesOfAll(es: seq<Exc>): seq<Kind>
    decreases es, 1
  {
    if es == [] then [] else Leaves(es[0]) + LeavesOfAll(es[1..])
  }

  lemma {:induction false} LeavesOfConcat(a: seq<Exc>, b: seq<Exc>)
    ensures LeavesOfAll(a + b) == LeavesOfAll(a) + LeavesOfAll(b)
  {
    if a == [] {
      assert a + b == b;
    } else {
      LeavesOfConcat(a[1..], b);
      assert (a + b)[0] == a[0] && (a + b)[1..] == a[1..] + b;
      var x, y, z := Leaves(a[0]), LeavesOfAll(a[1..]), LeavesOfAll(b);
      assert x + (y + z) == (x + y) + z;
    }
  }

  /** Flattening by recursion over the groups, extending one list. */
  method LeafExceptions(e: Exc) returns (leaves: seq<Kind>)
    ensures leaves == Leaves(e)
    decreases e
  {
    match e {
      case Leaf(k) =>
        leaves := [k];
      case Group(subs) =>
        leaves := [];
        for i := 0 to |subs|
          invariant leaves == LeavesOfAll(subs[..i])
        {
          var more := LeafExceptions(subs[i]);
          LeavesOfConcat(subs[..i], [subs[i]]);
          assert subs[..i + 1] == subs[..i] + [subs[i]];
          assert LeavesOfAll([subs[i]]) == Leaves(subs[i]) + [];
          leaves := leaves + more;
        }
        assert subs[..|subs|] == subs;
    }
  }

  predicate IsNetworkFailure(k: Kind) {
    k.HttpNetwork? || k.HttpTimeout? || k.BuiltinTimeout? || k.OsFailure? || k.GuardRefusal?
  }

  predicate MeansWrongTransport(e: Exc) {
    !exists k :: k in Leaves(e) && IsNetworkFailure(k)
  }

  /** Narrowest reason first. */
  function ClassifyFailure(e: Exc): Failure {
    var leaves := Leaves(e);
    if GuardRefusal in leaves then UrlNotAllowed
    else if HttpTimeout in leaves || BuiltinTimeout in leaves then Timeout
    else if HttpNetwork in leaves || OsFailure in leaves then Unreachable
    else ProtocolError
  }

  function KindsOf(e: Exc): set<Kind> {
    set k | k in Leaves(e)
  }

  /** Only the set of leaf kinds matters, not how or in what order they are grouped. */
  lemma ClassificationDependsOnKinds(a: Exc, b: Exc)
    requires KindsOf(a) == KindsOf(b)
    ensures ClassifyFailure(a) == ClassifyFailure(b)
    ensures MeansWrongTransport(a) <==> MeansWrongTransport(b)
  {
    forall k ensures k in Leaves(a) <==> k in Leaves(b) {
      assert k in KindsOf(a) <==> k in KindsOf(b);
    }
  }

  lemma {:induction false} KindsOfGroup(subs: seq<Exc>, k: Kind)
    ensures k in KindsOf(Group(subs)) <==> exists i :: 0 <= i < |subs| && k in KindsOf(subs[i])
  {
    if subs == [] {
      assert Leaves(Group(subs)) == [];
    } else {
      var rest := subs[1..];
      KindsOfGroup(rest, k);
      assert Leaves(Group(subs)) == Leaves(subs[0]) + Leaves(Group(rest));
      assert k in KindsOf(Group(subs)) <==> k in KindsOf(subs[0]) || k in KindsOf(Group(rest));
      if k in KindsOf(Group(rest)) {
        var i :| 0 <= i < |rest| && k in KindsOf(rest[i]);
        assert k in KindsOf(subs[i + 1]);
      }
      if i :| 0 <= i < |subs| && k in KindsOf(subs[i]) {
        if i > 0 { assert k in KindsOf(rest[i - 1]); }
      }
    }
  }

  /** Reordering, repeating or dropping repeats inside a group changes nothing. */
  lemma ReorderingAGroup(a: seq<Exc>, b: seq<Exc>)
    requires forall x :: x in a <==> x in b
    ensures KindsOf(Group(a)) == KindsOf(Group(b))
  {
    forall k ensures k in KindsOf(Group(a)) <==> k in KindsOf(Group(b)) {
      KindsOfGroup(a, k);
      KindsOfGroup(b, k);
      if i :| 0 <= i < |a| && k in KindsOf(a[i]) { assert a[i] in b; }
      if i :| 0 <= i < |b| && k in KindsOf(b[i]) { assert b[i] in a; }
    }
  }

  /** Pulling part of a group out into a group of its own changes nothing, at any depth. */
  lemma NestingAGroup(before: seq<Exc>, inner: seq<Exc>, after: seq<Exc>)
    ensures Leaves(Group(before + [Group(inner)] + after)) == Leaves(Group(before + inner + after))
  {
    LeavesOfConcat(before + [Group(inner)], after);
    LeavesOfConcat(before, [Group(inner)]);
    LeavesOfConcat(before + inner, after);
    LeavesOfConcat(before, inner);
    assert LeavesOfAll([Group(inner)]) == Leaves(Group(inner)) + [];
  }

  /** A fallback is worth trying exactly when the failure would be reported as a protocol error. */
  lemma WrongTransportIsProtocolError(e: Exc)
    ensures MeansWrongTransport(e) <==> ClassifyFailure(e) == ProtocolError
  {
    assert IsNetworkFailure(GuardRefusal) && IsNetworkFailure(HttpTimeout) && IsNetworkFailure(BuiltinTimeout)
           && IsNetworkFailure(HttpNetwork) && IsNetworkFailure(OsFailure);
  }

  /** `except Exception` takes a group only when none of its leaves is a bare BaseException. */
  predicate IsException(e: Exc) {
    Cancelled !in Leaves(e)
  }

  /** Which leaf kinds a code stands for: a guard refusal, else a timeout, else a network failure, else none of these. */
  ghost predicate CodeFits(f: Failure, kinds: set<Kind>) {
    match f
    case UrlNotAllowed => GuardRefusal in kinds
    case Timeout => GuardRefusal !in kinds && (HttpTimeout in kinds || BuiltinTimeout in kinds)
    case Unreachable =>
      && GuardRefusal !in kinds && HttpTimeout !in kinds && BuiltinTimeout !in kinds
      && (HttpNetwork in kinds || OsFailure in kinds)
    case ProtocolError =>
      && GuardRefusal !in kinds && HttpTimeout !in kinds && BuiltinTimeout !in kinds
      && HttpNetwork !in kinds && OsFailure !in kinds
    case Unsupported => false
    case Unavailable => false
  }

  /** Each code is reported exactly for the leaf kinds it stands for. */
  lemma CodesAreExact(e: Exc, f: Failure)
    ensures ClassifyFailure(e) == f <==> CodeFits(f, KindsOf(e))
  {
    forall k ensures k in Leaves(e) <==> k in KindsOf(e) {
    }
  }

  /** The kinds of a tree are those of its leaves, at any depth. */
  lemma KindsOfATree(e: Exc, k: Kind)
    ensures k in KindsOf(e) <==>
              match e case Leaf(l) => k == l case Group(subs) => exists i :: 0 <= i < |subs| && k in KindsOf(subs[i])
  {
    if e.Group? { KindsOfGroup(e.subs, k); }
  }

  // ---- one attempt ------------------------------------------------------------------------

  datatype Transport = StreamableHttp | Sse | Named(name: string)

  const TRANSPORTS := [StreamableHttp, Sse]

  predicate Supported(t: Transport) {
    t in TRANSPORTS
  }

  function OtherTransport(t: Transport): Transport {
    if t.StreamableHttp? then Sse else StreamableHttp
  }

  function Without(ts: seq<Transport>, t: Transport): seq<Transport> {
    if ts == [] then []
    else (if ts[0] == t then [] else [ts[0]]) + Without(ts[1..], t)
  }

  /** The requested transport first, then the rest of the supported ones. */
  function Candidates(t: Transport): (c: seq<Transport>)
    ensures c == if Supported(t) then [t, OtherTransport(t)] else [t]
  {
    if t !in TRANSPORTS then [t]
    else
      assert TRANSPORTS[1..] == [Sse] && [Sse][1..] == [];
      [t] + Without(TRANSPORTS, t)
  }

  /** What opening a session and running the operation would do if nobody cut it short. */
  datatype Reply<T> = Reply(handshake: bool, duration: real, result: Result<T, Exc>)

  /** An endpoint: whether the URL guard lets it through, and its behaviour on each transport. */
  datatype Endpoint<!T> = Endpoint(allowed: bool, reply: Transport -> Reply<T>) {
    ghost predicate Plausible() {
      forall t :: reply(t).duration >= 0.0 && (reply(t).result.Ok? ==> reply(t).handshake)
    }
  }

  /** One attempt under its own timeout. */
  function Attempt<T>(ep: Endpoint<T>, t: Transport, timeout: real): Reply<T> {
    var r := ep.reply(t);
    if r.duration > timeout then Reply(r.handshake, timeout, Err(Leaf(BuiltinTimeout)))
    else if !ep.allowed then Reply(false, r.duration, Err(Leaf(Verdict(UrlNotAllowed))))
    else if !Supported(t) then Reply(false, r.duration, Err(Leaf(Verdict(Unsupported))))
    else r
  }

  // ---- the fallback run -------------------------------------------------------------------

  datatype Outcome<+T> =
    | Success(value: T, transport: Transport)
    | Failed(failure: Failure)
    | Propagates(exc: Exc)

  /** The failure was the server declining this transport. */
  predicate Declined<T>(r: Reply<T>) {
    && r.result.Err?
    && !r.handshake
    && IsException(r.result.error)
    && r.result.error != Leaf(BuiltinTimeout)
    && !(r.result.error.Leaf? && r.result.error.kind.Verdict?)
    && MeansWrongTransport(r.result.error)
  }

  function Conclude<T>(r: Reply<T>, t: Transport): Outcome<T> {
    match r.result
    case Ok(v) => Success(v, t)
    case Err(e) =>
      if e.Leaf? && e.kind.Verdict? then Failed(e.kind.failure)
      else if !IsException(e) then Propagates(e)
      else Failed(ClassifyFailure(e))
  }

  datatype Trace<+T> = Trace(tried: seq<Transport>, waited: real, outcome: Outcome<T>)

  /** Try as requested; if the server declined the transport, try the other one once. */
  function Fallback<T>(ep: Endpoint<T>, t: Transport, timeout: real): Trace<T> {
    var first := Attempt(ep, t, timeout);
    if Supported(t) && Declined(first) then
      var u := OtherTransport(t);
      var second := Attempt(ep, u, timeout);
      Trace([t, u], first.duration + second.duration, Conclude(second, u))
    else Trace([t], first.duration, Conclude(first, t))
  }

  /** The loop over the candidates, with the exception handlers in source order. */
  method RunWithFallback<T>(ep: Endpoint<T>, t: Transport, timeout: real)
    returns (outcome: Outcome<T>, ghost tried: seq<Transport>, ghost waited: real)
    ensures outcome == Fallback(ep, t, timeout).outcome
    ensures tried == Fallback(ep, t, timeout).tried && waited == Fallback(ep, t, timeout).waited
  {
    var candidates := Candidates(t);
    var lastExc: Option<Exc> := None;
    tried, waited := [], 0.0;
    var idx := 0;
    while idx < |candidates|
      invariant 0 <= idx <= |candidates|
      invariant tried == candidates[..idx]
      invariant idx == 0 ==> waited == 0.0
      invariant idx > 0 ==> idx == 1 && Supported(t) && Declined(Attempt(ep, t, timeout)) && waited == Attempt(ep, t, timeout).duration
      invariant idx > 0 ==> lastExc.Some?
    {
      var candidate := candidates[idx];
      var r := Attempt(ep, candidate, timeout);
      tried, waited := tried + [candidate], waited + r.duration;
      if r.result.Ok? {
        return Success(r.result.value, candidate), tried, waited;
      }
      var exc := r.result.error;
      if exc.Leaf? && exc.kind.Verdict? {
        return Failed(exc.kind.failure), tried, waited;
      }
      if exc == Leaf(BuiltinTimeout) {
        return Failed(Timeout), tried, waited;
      }
      if !IsException(exc) {
        return Propagates(exc), tried, waited;
      }
      lastExc := Some(exc);
      var hasNext := idx + 1 < |candidates|;
      if hasNext && !r.handshake && MeansWrongTransport(exc) {
        idx := idx + 1;
      } else {
        break;
      }
    }
    outcome := Failed(ClassifyFailure(lastExc.value));
  }

  /**
   What the loop amounts to: it tries [requested] or [requested, other]; the second attempt
   is made exactly when the requested transport is supported, the guard let it through and
   the first attempt failed before the handshake on nothing but protocol errors; the result
   speaks of the last attempt; the wait is at most twice the timeout.
   */
  lemma FallbackIsExact<T>(ep: Endpoint<T>, t: Transport, timeout: real)
    requires ep.Plausible() && timeout >= 0.0
    ensures var tr := Fallback(ep, t, timeout);
            var first := Attempt(ep, t, timeout);
            && (tr.tried == [t] || tr.tried == [t, OtherTransport(t)])
            && (|tr.tried| == 2 <==>
                  && Supported(t) && ep.allowed
                  && first.result.Err? && !first.handshake
                  && !(first.result.error.Leaf? && first.result.error.kind.Verdict?)
                  && (forall k :: k in Leaves(first.result.error) ==> !IsNetworkFailure(k) && !k.Cancelled?))
            && 0.0 <= tr.waited <= 2.0 * timeout
            && (|tr.tried| == 1 ==> tr.waited <= timeout)
  {
    var first := Attempt(ep, t, timeout);
    if first.result.Err? {
      var e := first.result.error;
      if e == Leaf(BuiltinTimeout) {
        assert BuiltinTimeout in Leaves(e) && IsNetworkFailure(BuiltinTimeout);
      }
      if forall k :: k in Leaves(e) ==> !IsNetworkFailure(k) && !k.Cancelled? {
        assert IsException(e) && MeansWrongTransport(e);
      }
    }
  }

  /** The transport returned is the last one tried and it worked; a failure is the last attempt's. */
  lemma OutcomeOfLastAttempt<T>(ep: Endpoint<T>, t: Transport, timeout: real)
    ensures var tr := Fallback(ep, t, timeout);
            var u := tr.tried[|tr.tried| - 1];
            var last := Attempt(ep, u, timeout);
            && (tr.outcome.Success? ==>
                  && tr.outcome.transport == u && Supported(u) && ep.allowed
                  && last.result == Ok(tr.outcome.value) && last == ep.reply(u))
            && (tr.outcome.Failed? ==> last.result.Err? && Explains(tr.outcome.failure, last.result.error))
            && (tr.outcome.Propagates? <==> last.result.Err? && Cancelled in Leaves(last.result.error))
            && (tr.outcome.Propagates? ==> tr.outcome.exc == last.result.error)
  {
    if Fallback(ep, t, timeout).outcome.Failed? { FailureOfLastAttempt(ep, t, timeout); }
  }

  /** What a failure says: the bare verdict's own code, or the one for the leaves of the last attempt. */
  ghost predicate Explains(f: Failure, last: Exc) {
    if last.Leaf? && last.kind.Verdict? then f == last.kind.failure else CodeFits(f, KindsOf(last))
  }

  lemma FailureOfLastAttempt<T>(ep: Endpoint<T>, t: Transport, timeout: real)
    requires Fallback(ep, t, timeout).outcome.Failed?
    ensures var tr := Fallback(ep, t, timeout);
            var last := Attempt(ep, tr.tried[|tr.tried| - 1], timeout).result;
            last.Err? && Explains(tr.outcome.failure, last.error)
  {
    var tr := Fallback(ep, t, timeout);
    var last := Attempt(ep, tr.tried[|tr.tried| - 1], timeout).result;
    CodesAreExact(last.error, tr.outcome.failure);
  }

  /**
   The whole run in terms of the endpoint: too slow, refused by the guard and unsupported each end
   it with their own code; an answer on the requested transport is returned; and only a refusal
   before the handshake, on no network failure, is followed by the other transport.
   */
  lemma FallbackByCause<T>(ep: Endpoint<T>, t: Transport, timeout: real)
    ensures var tr, r := Fallback(ep, t, timeout), ep.reply(t);
            var other := if t == StreamableHttp then Sse else StreamableHttp;
            && (r.duration > timeout ==> tr == Trace([t], timeout, Failed(Timeout)))
            && (r.duration <= timeout && !ep.allowed ==> tr == Trace([t], r.duration, Failed(UrlNotAllowed)))
            && (r.duration <= timeout && ep.allowed && t != StreamableHttp && t != Sse ==>
                  tr == Trace([t], r.duration, Failed(Unsupported)))
            && (r.duration <= timeout && ep.allowed && (t == StreamableHttp || t == Sse) && r.result.Ok? ==>
                  tr == Trace([t], r.duration, Success(r.result.value, t)))
            && (|tr.tried| == 2 ==>
                  && tr.tried == [t, other] && r.result.Err? && !r.handshake
                  && tr.waited == r.duration + (if ep.reply(other).duration > timeout then timeout else ep.reply(other).duration)
                  && (ep.reply(other).duration > timeout ==> tr.outcome == Failed(Timeout))
                  && (ep.reply(other).duration <= timeout && ep.reply(other).result.Ok? ==>
                        tr.outcome == Success(ep.reply(other).result.value, other)))
  {
    assert Leaves(Leaf(BuiltinTimeout)) == [BuiltinTimeout];
  }

  /** A dead or refused address is never tried a second time. */
  lemma NoSecondWaitForTheDead<T>(ep: Endpoint<T>, t: Transport, timeout: real, k: Kind)
    requires Attempt(ep, t, timeout).result.Err?
    requires k in Leaves(Attempt(ep, t, timeout).result.error) && IsNetworkFailure(k)
    ensures Fallback(ep, t, timeout).tried == [t]
    ensures IsException(Attempt(ep, t, timeout).result.error) ==>
              Fallback(ep, t, timeout).outcome.Failed?
              && Fallback(ep, t, timeout).outcome.failure != ProtocolError
  {
    var e := Attempt(ep, t, timeout).result.error;
    assert !MeansWrongTransport(e);
    WrongTransportIsProtocolError(e);
    assert e.Leaf? ==> Leaves(e) == [e.kind];
  }

  // ---- liveness ---------------------------------------------------------------------------

  datatype Liveness = Liveness(healthy: bool, transport: Option<Transport>, failure: Option<Failure>)

  /** A failed check is a result, not an exception; only a bare BaseException escapes. */
  method CheckLiveness(ep: Endpoint<bool>, t: Transport, timeout: real) returns (r: Result<Liveness, Exc>)
    ensures r == LivenessOf(Fallback(ep, t, timeout).outcome)
  {
    var outcome, _, _ := RunWithFallback(ep, t, timeout);
    match outcome {
      case Success(_, used) => r := Ok(Liveness(true, Some(used), None));
      case Failed(f) => r := Ok(Liveness(false, None, Some(f)));
      case Propagates(e) => r := Err(e);
    }
  }

  function LivenessOf<T>(o: Outcome<T>): Result<Liveness, Exc> {
    match o
    case Success(_, used) => Ok(Liveness(true, Some(used), None))
    case Failed(f) => Ok(Liveness(false, None, Some(f)))
    case Propagates(e) => Err(e)
  }

  /** The reason in a failed check is that of the last attempt. */
  lemma LivenessReason<T>(ep: Endpoint<T>, t: Transport, timeout: real)
    requires LivenessOf(Fallback(ep, t, timeout).outcome).Ok? && !LivenessOf(Fallback(ep, t, timeout).outcome).value.healthy
    ensures var l := LivenessOf(Fallback(ep, t, timeout).outcome).value;
            var tried := Fallback(ep, t, timeout).tried;
            var last := Attempt(ep, tried[|tried| - 1], timeout).result;
            l.failure.Some? && last.Err? && Explains(l.failure.value, last.error)
  {
    FailureOfLastAttempt(ep, t, timeout);
  }

  /** A liveness result names a transport exactly when healthy and a reason exactly when not. */
  lemma LivenessIsConsistent<T>(ep: Endpoint<T>, t: Transport, timeout: real)
    requires LivenessOf(Fallback(ep, t, timeout).outcome).Ok?
    ensures var l := LivenessOf(Fallback(ep, t, timeout).outcome).value;
            && (l.healthy <==> l.transport.Some?) && (l.healthy <==> l.failure.None?)
            && (l.healthy ==> Attempt(ep, l.transport.value, timeout).result.Ok? && Supported(l.transport.value)
                              && (l.transport.value != t ==> Declined(Attempt(ep, t, timeout))))
  {
    OutcomeOfLastAttempt(ep, t, timeout);
  }
}
