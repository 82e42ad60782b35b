/**
 The introspection cache. A call reads the clock, looks in the cache, and on a miss awaits
 the auth server before it stores and returns the answer. Any number of calls interleave at
 the awaits; their answers may arrive in any order.
 */
module Introspection {
  import opened Options

  datatype Session = Session(sub: string, sid: string, role: string, teamCodes: seq<string>)

  datatype Cached = Cached(value: Option<Session>, expiresAt: real)

  type Cache = map<string, Cached>

  /** Some(v) is a hit; v itself is None for a session that is not alive. */
  function Lookup(cache: Cache, token: string, now: real): Option<Option<Session>> {
    if token in cache && cache[token].expiresAt > now then Some(cache[token].value) else None
  }

  /** The entry's life is counted from the start of the call, not from the answer. */
  function Remember(cache: Cache, token: string, value: Option<Session>, start: real, ttl: real): Cache {
    cache[token := Cached(value, start + ttl)]
  }

  datatype Call =
    | Asked(token: string, start: real)
    | Answered(token: string, start: real, value: Option<Session>)

  datatype World = World(cache: Cache, calls: map<nat, Call>, clock: real)

  datatype Event =
    | Begin(call: nat, token: string, at: real)
    | Answer(call: nat, at: real, value: Option<Session>)  // the server looks the session up
    | Finish(call: nat, at: real)                          // its reply reaches the caller
    | Fail(call: nat, at: real)                            // or never does

  datatype Return = Return(token: string, start: real, value: Option<Session>)

  const Idle := World(map[], map[], 0.0)

  ghost predicate Enabled(w: World, e: Event) {
    && e.at >= w.clock
    && match e
       case Begin(c, _, _) => c !in w.calls
       case Answer(c, _, _) => c in w.calls && w.calls[c].Asked?
       case Finish(c, _) => c in w.calls && w.calls[c].Answered?
       case Fail(c, _) => c in w.calls
  }

  function Apply(w: World, e: Event, ttl: real): World {
    match e
    case Begin(c, token, at) =>
      if Lookup(w.cache, token, at).Some? then w.(clock := at)
      else w.(calls := w.calls[c := Asked(token, at)], clock := at)
    case Answer(c, at, value) =>
      if c in w.calls
      then w.(calls := w.calls[c := Answered(w.calls[c].token, w.calls[c].start, value)], clock := at)
      else w
    case Finish(c, at) =>
      if c in w.calls && w.calls[c].Answered?
      then World(Remember(w.cache, w.calls[c].token, w.calls[c].value, w.calls[c].start, ttl), w.calls - {c}, at)
      else w
    case Fail(c, at) => w.(calls := w.calls - {c}, clock := at)
  }

  /** What the event hands to a caller of introspect. */
  function Output(w: World, e: Event): seq<Return> {
    match e
    case Begin(_, token, at) =>
      (match Lookup(w.cache, token, at)
       case Some(v) => [Return(token, at, v)]
       case None => [])
    case Finish(c, _) =>
      if c in w.calls && w.calls[c].Answered?
      then [Return(w.calls[c].token, w.calls[c].start, w.calls[c].value)] else []
    case _ => []
  }

  function Outputs(w: World, es: seq<Event>, ttl: real): seq<Return>
    decreases |es|
  {
    if es == [] then [] else Output(w, es[0]) + Outputs(Apply(w, es[0], ttl), es[1..], ttl)
  }

  ghost predicate Legal(w: World, es: seq<Event>, ttl: real)
    decreases |es|
  {
    es == [] || (Enabled(w, es[0]) && Legal(Apply(w, es[0], ttl), es[1..], ttl))
  }

  // ---- each step ----------------------------------------------------------------------------

  /**
   A call is answered from an entry until the entry expires, and goes to the server otherwise;
   its reply is stored for a cache time from the call's start, whatever it says and whatever the
   cache held; a failed call leaves nothing.
   */
  lemma StepsOnCalls(w: World, e: Event, ttl: real)
    requires Enabled(w, e)
    ensures var w', out := Apply(w, e, ttl), Output(w, e);
            && w'.clock == e.at
            && (e.Begin? ==>
                  var hit := e.token in w.cache && e.at < w.cache[e.token].expiresAt;
                  && w'.cache == w.cache
                  && w'.calls == (if hit then w.calls else w.calls[e.call := Asked(e.token, e.at)])
                  && out == (if hit then [Return(e.token, e.at, w.cache[e.token].value)] else []))
            && (e.Answer? ==>
                  && w'.cache == w.cache && out == []
                  && w'.calls == w.calls[e.call := Answered(w.calls[e.call].token, w.calls[e.call].start, e.value)])
            && (e.Finish? ==>
                  var c := w.calls[e.call];
                  && w'.cache == w.cache[c.token := Cached(c.value, c.start + ttl)]
                  && w'.calls == w.calls - {e.call} && out == [Return(c.token, c.start, c.value)])
            && (e.Fail? ==> w'.cache == w.cache && w'.calls == w.calls - {e.call} && out == [])
  {
  }

  /** No call waits for another: it may begin, be answered in any way, finish or fail at any time. */
  lemma CallsRunOnTheirOwn(w: World, at: real)
    requires at >= w.clock
    ensures forall c: nat, token :: c !in w.calls ==> Enabled(w, Begin(c, token, at))
    ensures forall c: nat, value :: c in w.calls && w.calls[c].Asked? ==> Enabled(w, Answer(c, at, value))
    ensures forall c: nat :: c in w.calls && w.calls[c].Answered? ==> Enabled(w, Finish(c, at))
    ensures forall c: nat :: c in w.calls ==> Enabled(w, Fail(c, at))
  {
  }

  /** From time r on the server reports the token's session as not active. */
  ghost predicate Revoked(w: World, es: seq<Event>, ttl: real, token: string, r: real)
    decreases |es|
  {
    es == [] ||
    (&& (es[0].Answer? && es[0].call in w.calls && w.calls[es[0].call].token == token && es[0].at >= r
         ==> es[0].value == None)
     && Revoked(Apply(w, es[0], ttl), es[1..], ttl, token, r))
  }

  /** An active answer the client still holds was asked for before the revocation. */
  ghost predicate Inv(w: World, ttl: real, token: string, r: real) {
    && (forall c :: c in w.calls ==> w.calls[c].start <= w.clock)
    && (forall c :: c in w.calls && w.calls[c].Answered? && w.calls[c].token == token && w.calls[c].value.Some?
          ==> w.calls[c].start < r)
    && (token in w.cache && w.cache[token].value.Some? ==> w.cache[token].expiresAt < r + ttl)
  }

  lemma StepKeepsInv(w: World, e: Event, ttl: real, token: string, r: real)
    requires Inv(w, ttl, token, r) && Enabled(w, e)
    requires e.Answer? && w.calls[e.call].token == token && e.at >= r ==> e.value == None
    ensures Inv(Apply(w, e, ttl), ttl, token, r)
  {
  }

  lemma {:induction false} BoundFromState(w: World, es: seq<Event>, ttl: real, token: string, r: real)
    requires ttl >= 0.0 && Inv(w, ttl, token, r)
    requires Legal(w, es, ttl) && Revoked(w, es, ttl, token, r)
    ensures forall o :: o in Outputs(w, es, ttl) && o.token == token && o.start >= r + ttl ==> o.value == None
    decreases |es|
  {
    if es != [] {
      StepKeepsInv(w, es[0], ttl, token, r);
      BoundFromState(Apply(w, es[0], ttl), es[1..], ttl, token, r);
    }
  }

  /**
   Once a session is revoked for good at time r, no call that starts at r + ttl or later is
   told it is alive, however the calls for the token interleave.
   */
  lemma RevocationBound(es: seq<Event>, ttl: real, token: string, r: real)
    requires ttl >= 0.0 && Legal(Idle, es, ttl) && Revoked(Idle, es, ttl, token, r)
    ensures forall o :: o in Outputs(Idle, es, ttl) && o.token == token && o.start >= r + ttl ==> o.value == None
  {
    BoundFromState(Idle, es, ttl, token, r);
  }

  /** One event of a run, with the state it leads to. */
  lemma OneEvent(w: World, e: Event, rest: seq<Event>, next: World, ttl: real, token: string, r: real)
    requires Enabled(w, e) && Apply(w, e, ttl) == next
    requires e.Answer? && w.calls[e.call].token == token && e.at >= r ==> e.value == None
    requires Legal(next, rest, ttl) && Revoked(next, rest, ttl, token, r)
    ensures Legal(w, [e] + rest, ttl) && Revoked(w, [e] + rest, ttl, token, r)
    ensures Outputs(w, [e] + rest, ttl) == Output(w, e) + Outputs(next, rest, ttl)
  {
    assert ([e] + rest)[1..] == rest;
  }

  /** No smaller bound holds: some run returns the session arbitrarily close to r + ttl. */
  lemma RevocationBoundIsTight(ttl: real, bound: real, token: string, s: Session)
    returns (es: seq<Event>, r: real)
    requires 0.0 <= bound < ttl
    ensures Legal(Idle, es, ttl) && Revoked(Idle, es, ttl, token, r)
    ensures Return(token, r + bound, Some(s)) in Outputs(Idle, es, ttl)
  {
    r := (ttl - bound) / 2.0;
    var e0, e1, e2, e3 := Begin(0, token, 0.0), Answer(0, 0.0, Some(s)), Finish(0, 0.0), Begin(1, token, r + bound);
    var w1 := World(map[], map[0 := Asked(token, 0.0)], 0.0);
    var w2 := World(map[], map[0 := Answered(token, 0.0, Some(s))], 0.0);
    var w3 := World(map[token := Cached(Some(s), ttl)], map[], 0.0);
    assert w2.calls - {0} == map[];
    OneEvent(w3, e3, [], Apply(w3, e3, ttl), ttl, token, r);
    OneEvent(w2, e2, [e3] + [], w3, ttl, token, r);
    OneEvent(w1, e1, [e2] + ([e3] + []), w2, ttl, token, r);
    OneEvent(Idle, e0, [e1] + ([e2] + ([e3] + [])), w1, ttl, token, r);
    es := [e0] + ([e1] + ([e2] + ([e3] + [])));
  }

  // ---- when answers go back ----------------------------------------------------------------

  /** What the calls that asked the server store and return, without the cache hits. */
  function Stores(w: World, es: seq<Event>, ttl: real): seq<Return>
    decreases |es|
  {
    if es == [] then []
    else (if es[0].Finish? then Output(w, es[0]) else []) + Stores(Apply(w, es[0], ttl), es[1..], ttl)
  }

  predicate TellsGone(o: Return, token: string) {
    o.token == token && o.value.None?
  }

  predicate TellsActive(o: Return, token: string) {
    o.token == token && o.value.Some?
  }

  /** "Not active", and later "active", for one token. */
  ghost predicate GoesBack(outs: seq<Return>, token: string) {
    exists i, j :: 0 <= i < j < |outs| && TellsGone(outs[i], token) && TellsActive(outs[j], token)
  }

  /** The same with what came before: whether "not active" was told already. */
  predicate BackFrom(outs: seq<Return>, token: string, gone: bool) {
    outs != [] &&
    ((gone && TellsActive(outs[0], token)) || BackFrom(outs[1..], token, gone || TellsGone(outs[0], token)))
  }

  lemma {:induction false} BackFromMeans(outs: seq<Return>, token: string, gone: bool)
    ensures BackFrom(outs, token, gone) <==>
              GoesBack(outs, token) || (gone && exists j :: 0 <= j < |outs| && TellsActive(outs[j], token))
    decreases |outs|
  {
    if outs != [] {
      var head, rest := outs[0], outs[1..];
      BackFromMeans(rest, token, gone || TellsGone(head, token));
      assert forall j :: 0 <= j < |rest| ==> rest[j] == outs[j + 1];
      if j :| 0 <= j < |outs| && TellsActive(outs[j], token) {
        assert j > 0 ==> rest[j - 1] == outs[j];
      }
      if i, j :| 0 <= i < j < |outs| && TellsGone(outs[i], token) && TellsActive(outs[j], token) {
        assert rest[j - 1] == outs[j];
        assert i > 0 ==> rest[i - 1] == outs[i];
      }
    }
  }

  lemma BackFromConcat(a: Return, outs: seq<Return>, token: string, gone: bool)
    ensures BackFrom([a] + outs, token, gone) <==>
              (gone && TellsActive(a, token)) || BackFrom(outs, token, gone || TellsGone(a, token))
  {
    assert ([a] + outs)[1..] == outs;
  }

  /** The cache holds the answer stored last, so a hit goes back only if the stores did. */
  lemma {:induction false} HitsFollowStores(w: World, es: seq<Event>, ttl: real, token: string, told: bool, stored: bool)
    requires told ==> stored
    requires stored <==> token in w.cache && w.cache[token].value.None?
    ensures BackFrom(Outputs(w, es, ttl), token, told) ==> BackFrom(Stores(w, es, ttl), token, stored)
    decreases |es|
  {
    if es != [] {
      var w', out := Apply(w, es[0], ttl), Output(w, es[0]);
      var rest, kept := Outputs(w', es[1..], ttl), Stores(w', es[1..], ttl);
      if out == [] {
        assert out + rest == rest && out + kept == kept && [] + kept == kept;
        HitsFollowStores(w', es[1..], ttl, token, told, stored);
      } else {
        var o := out[0];
        assert out == [o];
        BackFromConcat(o, rest, token, told);
        if es[0].Finish? {
          BackFromConcat(o, kept, token, stored);
          if !(stored && TellsActive(o, token)) {
            HitsFollowStores(w', es[1..], ttl, token, told || TellsGone(o, token), stored || TellsGone(o, token));
          }
        } else {
          assert [] + kept == kept;
          HitsFollowStores(w', es[1..], ttl, token, told || TellsGone(o, token), stored);
        }
      }
    }
  }

  lemma {:induction false} StoresAreReturned(w: World, es: seq<Event>, ttl: real, token: string, told: bool, stored: bool)
    requires stored ==> told
    ensures BackFrom(Stores(w, es, ttl), token, stored) ==> BackFrom(Outputs(w, es, ttl), token, told)
    decreases |es|
  {
    if es != [] {
      var w', out := Apply(w, es[0], ttl), Output(w, es[0]);
      var rest, kept := Outputs(w', es[1..], ttl), Stores(w', es[1..], ttl);
      if out == [] {
        assert out + rest == rest && out + kept == kept && [] + kept == kept;
        StoresAreReturned(w', es[1..], ttl, token, told, stored);
      } else {
        var o := out[0];
        assert out == [o];
        BackFromConcat(o, rest, token, told);
        if es[0].Finish? {
          BackFromConcat(o, kept, token, stored);
          StoresAreReturned(w', es[1..], ttl, token, told || TellsGone(o, token), stored || TellsGone(o, token));
        } else {
          assert [] + kept == kept;
          StoresAreReturned(w', es[1..], ttl, token, told || TellsGone(o, token), stored);
        }
      }
    }
  }

  /**
   Exactly when a caller may be told "active" after one was told "not active": when an active
   reply reaches its call after a not-active reply for the token reached another.
   */
  lemma AnswersGoBackIffRepliesDo(es: seq<Event>, ttl: real, token: string)
    ensures GoesBack(Outputs(Idle, es, ttl), token) <==> GoesBack(Stores(Idle, es, ttl), token)
  {
    BackFromMeans(Outputs(Idle, es, ttl), token, false);
    BackFromMeans(Stores(Idle, es, ttl), token, false);
    HitsFollowStores(Idle, es, ttl, token, false, false);
    StoresAreReturned(Idle, es, ttl, token, false, false);
  }

  ghost predicate Asking(w: World, token: string, c: nat) {
    c in w.calls && w.calls[c].token == token
  }

  /** A request for the token starts only when none is under way. */
  ghost predicate OneAtATime(w: World, es: seq<Event>, ttl: real, token: string)
    decreases |es|
  {
    es == [] ||
    (&& (es[0].Begin? && es[0].token == token && Lookup(w.cache, token, es[0].at).None? ==> forall c :: !Asking(w, token, c))
     && OneAtATime(Apply(w, es[0], ttl), es[1..], ttl, token))
  }

  predicate Answers(w: World, e: Event, token: string) {
    e.Answer? && e.call in w.calls && w.calls[e.call].token == token
  }

  /** Once the server has reported the session as not active it never reports it active again. */
  ghost predicate GoneForGood(w: World, es: seq<Event>, ttl: real, token: string, gone: bool)
    decreases |es|
  {
    es == [] ||
    (&& (gone && Answers(w, es[0], token) ==> es[0].value.None?)
     && GoneForGood(Apply(w, es[0], ttl), es[1..], ttl, token, gone || (Answers(w, es[0], token) && es[0].value.None?)))
  }

  /** At most one call asks for the token, and after "not active" none of them carries "active". */
  ghost predicate InTurn(w: World, token: string, gone: bool) {
    && (forall c, d :: Asking(w, token, c) && Asking(w, token, d) ==> c == d)
    && (gone ==> forall c :: Asking(w, token, c) && w.calls[c].Answered? ==> w.calls[c].value.None?)
    && (!gone ==> forall c :: Asking(w, token, c) && w.calls[c].Answered? ==> w.calls[c].value.Some?)
  }

  lemma InTurnStep(w: World, e: Event, ttl: real, token: string, gone: bool)
    requires InTurn(w, token, gone) && Enabled(w, e)
    requires e.Begin? && e.token == token && Lookup(w.cache, token, e.at).None? ==> forall c :: !Asking(w, token, c)
    requires gone && Answers(w, e, token) ==> e.value.None?
    ensures InTurn(Apply(w, e, ttl), token, gone || (Answers(w, e, token) && e.value.None?))
  {
    var w' := Apply(w, e, ttl);
    assert Answers(w, e, token) ==> Asking(w, token, e.call);
    forall c | Asking(w', token, c) ensures Asking(w, token, c) || (e.Begin? && e.call == c && e.token == token) {
    }
  }

  lemma {:induction false} RepliesInTurn(w: World, es: seq<Event>, ttl: real, token: string, gone: bool, stored: bool)
    requires InTurn(w, token, gone) && (stored ==> gone)
    requires Legal(w, es, ttl) && OneAtATime(w, es, ttl, token) && GoneForGood(w, es, ttl, token, gone)
    ensures !BackFrom(Stores(w, es, ttl), token, stored)
    decreases |es|
  {
    if es != [] {
      var w', out := Apply(w, es[0], ttl), Output(w, es[0]);
      var kept := Stores(w', es[1..], ttl);
      var gone' := gone || (Answers(w, es[0], token) && es[0].value.None?);
      InTurnStep(w, es[0], ttl, token, gone);
      if es[0].Finish? {
        var o := out[0];
        assert out == [o];
        assert o.token == token ==> Asking(w, token, es[0].call);
        BackFromConcat(o, kept, token, stored);
        RepliesInTurn(w', es[1..], ttl, token, gone', stored || TellsGone(o, token));
      } else {
        assert [] + kept == kept;
        RepliesInTurn(w', es[1..], ttl, token, gone', stored);
      }
    }
  }

  /**
   With at most one request for the token under way at a time, and a server that does not
   revive the session, "not active" is never followed by "active".
   */
  lemma OneAtATimeNeverGoesBack(es: seq<Event>, ttl: real, token: string)
    requires Legal(Idle, es, ttl) && OneAtATime(Idle, es, ttl, token) && GoneForGood(Idle, es, ttl, token, false)
    ensures !GoesBack(Outputs(Idle, es, ttl), token)
  {
    RepliesInTurn(Idle, es, ttl, token, false, false);
    BackFromMeans(Stores(Idle, es, ttl), token, false);
    AnswersGoBackIffRepliesDo(es, ttl, token);
  }

  /** The late end of the run below: the "not active" reply first, then the older "active" one. */
  lemma LateReply(w: World, token: string, s: Session) returns (es: seq<Event>)
    requires w == World(map[], map[0 := Answered(token, 0.0, Some(s)), 1 := Asked(token, 1.0)], 1.0)
    ensures Legal(w, es, 45.0) && Revoked(w, es, 45.0, token, 0.5)
    ensures Outputs(w, es, 45.0)
            == [Return(token, 1.0, None), Return(token, 0.0, Some(s)), Return(token, 4.0, Some(s))]
  {
    var ttl := 45.0;
    var e3, e4, e5, e6 := Answer(1, 1.0, None), Finish(1, 2.0), Finish(0, 3.0), Begin(2, token, 4.0);
    var late, newer := Answered(token, 0.0, Some(s)), Answered(token, 1.0, None);
    var w4 := World(map[], map[0 := late, 1 := newer], 1.0);
    var w5 := World(map[token := Cached(None, 46.0)], map[0 := late], 2.0);
    var w6 := World(map[token := Cached(Some(s), 45.0)], map[], 3.0);
    assert w4.calls - {1} == map[0 := late];
    assert w5.calls - {0} == map[];
    OneEvent(w6, e6, [], w6.(clock := 4.0), ttl, token, 0.5);
    var r6 := [e6] + [];
    OneEvent(w5, e5, r6, w6, ttl, token, 0.5);
    var r5 := [e5] + r6;
    OneEvent(w4, e4, r5, w5, ttl, token, 0.5);
    var r4 := [e4] + r5;
    OneEvent(w, e3, r4, w4, ttl, token, 0.5);
    es := [e3] + r4;
  }

  /**
   Answers do go back: a reply that was under way when the session was revoked may arrive after
   the "not active" one, replace it in the cache, and be returned to calls that start later.
   */
  lemma LateAnswersReplaceNewerOnes(token: string, s: Session) returns (es: seq<Event>)
    ensures Legal(Idle, es, 45.0) && Revoked(Idle, es, 45.0, token, 0.5)
    ensures Outputs(Idle, es, 45.0)
            == [Return(token, 1.0, None), Return(token, 0.0, Some(s)), Return(token, 4.0, Some(s))]
    ensures GoesBack(Outputs(Idle, es, 45.0), token)
  {
    var ttl := 45.0;
    var e0, e1, e2 := Begin(0, token, 0.0), Answer(0, 0.0, Some(s)), Begin(1, token, 1.0);
    var w1 := World(map[], map[0 := Asked(token, 0.0)], 0.0);
    var w2 := World(map[], map[0 := Answered(token, 0.0, Some(s))], 0.0);
    var w3 := World(map[], map[0 := Answered(token, 0.0, Some(s)), 1 := Asked(token, 1.0)], 1.0);
    var r3 := LateReply(w3, token, s);
    OneEvent(w2, e2, r3, w3, ttl, token, 0.5);
    var r2 := [e2] + r3;
    OneEvent(w1, e1, r2, w2, ttl, token, 0.5);
    var r1 := [e1] + r2;
    OneEvent(Idle, e0, r1, w1, ttl, token, 0.5);
    es := [e0] + r1;
    assert TellsGone(Outputs(Idle, es, ttl)[0], token) && TellsActive(Outputs(Idle, es, ttl)[1], token);
  }
}
