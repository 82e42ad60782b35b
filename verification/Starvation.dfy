/**
 No starvation: a connector that stays eligible is read by a sweep within a number of ticks
 given by how many connectors are ahead of it, whatever rechecks and superseded probes happen.
 */
module Starvation {
  import opened Options
  import opened KeyOrder
  import opened Sets
  import opened Probes
  import opened LivenessProtocol
  import opened LivenessSafety
  import opened LivenessResults
  import opened LivenessRows

  // ---- counting who comes and goes --------------------------------------------------------

  /**
   A sequence of sets, and of those who stay on from each to the next: kept[i] is part of both
   sets[i] and sets[i + 1]. Whoever is in sets[i] and not kept is gone, whoever is in
   sets[i + 1] and was not kept has entered, even if it was there before.
   */
  datatype Queue = Queue(sets: seq<set<nat>>, kept: seq<set<nat>>) {
    ghost predicate Valid() {
      |sets| == |kept| + 1 && forall i :: 0 <= i < |kept| ==> kept[i] <= sets[i] && kept[i] <= sets[i + 1]
    }
  }

  ghost function Entered(a: Queue, p: nat, q: nat): nat
    requires a.Valid() && p <= q < |a.sets|
  {
    if p == q then 0 else Entered(a, p, q - 1) + |a.sets[q] - a.kept[q - 1]|
  }

  ghost function Gone(a: Queue, p: nat, q: nat): nat
    requires a.Valid() && p <= q < |a.sets|
  {
    if p == q then 0 else Gone(a, p, q - 1) + |a.sets[q - 1] - a.kept[q - 1]|
  }

  lemma {:induction false} Balance(a: Queue, p: nat, q: nat)
    requires a.Valid() && p <= q < |a.sets|
    ensures |a.sets[q]| + Gone(a, p, q) == |a.sets[p]| + Entered(a, p, q)
  {
    if p < q {
      Balance(a, p, q - 1);
      var from, to, kept := a.sets[q - 1], a.sets[q], a.kept[q - 1];
      assert from == (from - kept) + kept && to == (to - kept) + kept;
    }
  }

  lemma {:induction false} GoneAdds(a: Queue, p: nat, q: nat, r: nat)
    requires a.Valid() && p <= q <= r < |a.sets|
    ensures Gone(a, p, r) == Gone(a, p, q) + Gone(a, q, r)
  {
    if q < r { GoneAdds(a, p, q, r - 1); }
  }

  ghost predicate Dropped(a: Queue, p: nat, q: nat, c: nat)
    requires a.Valid() && p <= q < |a.sets|
  {
    exists i :: p <= i < q && c !in a.kept[i]
  }

  /** Who was dropped before q, or is dropped in the step to q. */
  lemma {:induction false} DroppedLast(a: Queue, p: nat, q: nat, c: nat)
    requires a.Valid() && p < q < |a.sets| && c in a.sets[p]
    requires Dropped(a, p, q, c) && !Dropped(a, p, q - 1, c)
    ensures c in a.sets[q - 1] && c !in a.kept[q - 1]
  {
    assert forall i :: p <= i < q - 1 ==> c in a.kept[i];
    if p < q - 1 { assert c in a.kept[q - 2]; }
  }

  /** Whoever was there at p and was not kept at some later step has gone in between. */
  lemma {:induction false} EachLeaves(a: Queue, p: nat, q: nat, who: set<nat>)
    requires a.Valid() && p <= q < |a.sets| && who <= a.sets[p]
    requires forall c :: c in who ==> Dropped(a, p, q, c)
    ensures |who| <= Gone(a, p, q)
  {
    if p == q {
      assert who == {};
    } else {
      var late := set c | c in who && !Dropped(a, p, q - 1, c);
      EachLeaves(a, p, q - 1, who - late);
      forall c | c in late ensures c in a.sets[q - 1] - a.kept[q - 1] {
        DroppedLast(a, p, q, c);
      }
      SubsetSize(late, a.sets[q - 1] - a.kept[q - 1]);
      SubsetSize(late, who);
    }
  }

  // ---- who is ahead -----------------------------------------------------------------------

  /** The eligible connectors that sort before x in the sweep's order. */
  function Ahead(db: Db, x: nat): set<nat> {
    set id | id in db.cards && Eligible(db, id) && Less(DueKey(db, id), DueKey(db, x))
  }

  ghost predicate Selected(w: World, limit: nat, x: nat) {
    exists i :: 0 <= i < |FetchCandidates(w, limit)| && FetchCandidates(w, limit)[i].id == x
  }

  /** A sweep that misses an eligible connector has read a full batch of connectors ahead of it. */
  lemma MissedMeansBehind(w: World, limit: nat, x: nat)
    requires Eligible(w.db, x) && !Selected(w, limit, x)
    ensures var c := FetchCandidates(w, limit);
            |c| == limit && forall i :: 0 <= i < |c| ==> c[i].id in Ahead(w.db, x)
  {
    var c := FetchCandidates(w, limit);
    var r := PlaceInOrder(w.db, x);
    if r < |c| { CandidateInPlace(w, limit, r); }
    forall i: nat | i < |c| ensures c[i].id in Ahead(w.db, x) {
      CandidateInPlace(w, limit, i);
    }
  }

  /** Something is accepted for id between two states. */
  ghost predicate Accepts(w: World, w': World, id: nat) {
    |LogOf(w.log, id).checks| < |LogOf(w'.log, id).checks|
  }

  /** Those who stay ahead of x without being recorded. */
  ghost function StayAhead(w: World, w': World, x: nat): set<nat> {
    set id | id in Ahead(w.db, x) && id in Ahead(w'.db, x) && !Accepts(w, w', id)
  }

  // ---- along a run ------------------------------------------------------------------------

  ghost function At(es: seq<Event>, i: nat): World
    requires i <= |es|
  {
    Run(EmptyWorld, es[..i])
  }

  ghost function AheadAt(es: seq<Event>, x: nat): (r: seq<set<nat>>)
    ensures |r| == |es| + 1 && forall i :: 0 <= i <= |es| ==> r[i] == Ahead(At(es, i).db, x)
  {
    seq(|es| + 1, i requires 0 <= i <= |es| => Ahead(At(es, i).db, x))
  }

  ghost function KeptAt(es: seq<Event>, x: nat): (r: seq<set<nat>>)
    ensures |r| == |es| && forall i :: 0 <= i < |es| ==> r[i] == StayAhead(At(es, i), At(es, i + 1), x)
  {
    seq(|es|, i requires 0 <= i < |es| => StayAhead(At(es, i), At(es, i + 1), x))
  }

  /**
   Who is ahead of x along a run. One that is recorded with a stamp that leaves it ahead of x
   goes and enters again.
   */
  ghost function AheadAlong(es: seq<Event>, x: nat): (a: Queue)
    ensures a.Valid() && |a.sets| == |es| + 1
  {
    Queue(AheadAt(es, x), KeptAt(es, x))
  }

  lemma AlongARun(cap: nat, es: seq<Event>, i: nat)
    requires Legal(EmptyWorld, cap, es) && i <= |es|
    ensures Inv(At(es, i), cap)
    ensures i < |es| ==> Enabled(At(es, i), cap, es[i]) && At(es, i + 1) == Apply(At(es, i), es[i])
  {
    LegalPrefix(EmptyWorld, cap, es, i);
    RunKeepsInv(cap, es[..i]);
  }

  /** x stays eligible from step p to step q. */
  ghost predicate Waiting(es: seq<Event>, x: nat, p: nat, q: nat) {
    forall i :: p <= i <= q && i <= |es| ==> Eligible(At(es, i).db, x)
  }

  ghost function LengthsAlong(es: seq<Event>, id: nat): (r: seq<nat>)
    ensures |r| == |es| + 1
  {
    seq(|es| + 1, i requires 0 <= i <= |es| => |LogOf(At(es, i).log, id).checks|)
  }

  /** A sequence that is higher at q than at p rises somewhere in between. */
  lemma {:induction false} SomeRise(r: seq<nat>, p: nat, q: nat) returns (u: nat)
    requires p <= q < |r| && r[p] < r[q]
    ensures p <= u < q && r[u] < r[u + 1]
  {
    if r[p] < r[q - 1] { u := SomeRise(r, p, q - 1); } else { u := q - 1; }
  }

  /** A connector for which something was accepted did not stay ahead unrecorded. */
  lemma AcceptedLeaves(es: seq<Event>, p: nat, q: nat, id: nat, x: nat)
    requires p <= q <= |es|
    requires LengthsAlong(es, id)[p] < LengthsAlong(es, id)[q]
    ensures Dropped(AheadAlong(es, x), p, q, id)
  {
    var u := SomeRise(LengthsAlong(es, id), p, q);
    assert Accepts(At(es, u), At(es, u + 1), id);
    assert id !in AheadAlong(es, x).kept[u];
  }

  /**
   A sweep done without errors: every task finished, and recorded or gave way to something
   newer, unless its card has left the set of eligible ones.
   */
  ghost predicate SweptClean(w: World, t: nat) {
    && t in w.ticks && Finished(w.ticks[t]) && |w.ticks[t].tasks| == |w.ticks[t].candidates|
    && forall i :: 0 <= i < |w.ticks[t].tasks| && Eligible(w.db, w.ticks[t].candidates[i].id) ==>
         w.ticks[t].tasks[i].verdict in {WasHealthy, WasUnhealthy, WasSuperseded}
  }

  /** A task that recorded or gave way has a newer record behind it than its sweep saw. */
  lemma DoneSlotIsBehind(w: World, cap: nat, t: nat, i: nat)
    requires Inv(w, cap) && t in w.ticks && i < |w.ticks[t].tasks| && i < |w.ticks[t].candidates|
    requires w.ticks[t].tasks[i].Done? && w.ticks[t].tasks[i].verdict in {WasHealthy, WasUnhealthy, WasSuperseded}
    ensures w.ticks[t].candidates[i].observed < |LogOf(w.log, w.ticks[t].candidates[i].id).checks|
  {
    assert TickOk(w.ticks[t], t, w.log, cap) && SlotOk(w.ticks[t], t, i, w.log);
    if HasStored(w, t, i) {
      var p := StoredSomewhere(w, cap, t, i);
    }
  }

  lemma IneligibleLeaves(es: seq<Event>, p: nat, q: nat, id: nat, x: nat)
    requires p < q <= |es| && !Eligible(At(es, q).db, id)
    ensures Dropped(AheadAlong(es, x), p, q, id)
  {
    assert id !in Ahead(At(es, q).db, x);
    assert id !in AheadAlong(es, x).kept[q - 1];
  }

  /** What a sweep saw of a candidate is the length of its history at the read. */
  lemma ObservedAtRead(cap: nat, es: seq<Event>, p: nat, limit: nat, c: Candidate)
    requires p <= |es| && c in FetchCandidates(At(es, p), limit)
    ensures c.observed == LengthsAlong(es, c.id)[p]
  {
    CandidatesAreDue(At(es, p), limit);
  }

  lemma CandidateLeaves(cap: nat, es: seq<Event>, p: nat, q: nat, t: nat, limit: nat, i: nat, x: nat)
    requires Legal(EmptyWorld, cap, es) && p < q <= |es| && es[p].StartTick? && es[p].tick == t && es[p].limit == limit
    requires SweptClean(At(es, q), t) && i < |At(es, q).ticks[t].candidates|
    requires At(es, q).ticks[t].candidates == FetchCandidates(At(es, p), limit)
    requires At(es, q).ticks[t].candidates[i].id != x
    requires Waiting(es, x, p, q)
    ensures Dropped(AheadAlong(es, x), p, q, At(es, q).ticks[t].candidates[i].id)
  {
    var w := At(es, q);
    var c := w.ticks[t].candidates[i];
    if Eligible(w.db, c.id) {
      AlongARun(cap, es, q);
      DoneSlotIsBehind(w, cap, t, i);
      ObservedAtRead(cap, es, p, limit, c);
      AcceptedLeaves(es, p, q, c.id, x);
    } else {
      IneligibleLeaves(es, p, q, c.id, x);
    }
  }

  function IdsOf(c: seq<Candidate>): set<nat> {
    set i | 0 <= i < |c| :: c[i].id
  }

  lemma {:induction false} DistinctIds(c: seq<Candidate>)
    requires forall i, j :: 0 <= i < j < |c| ==> c[i].id != c[j].id
    ensures |IdsOf(c)| == |c|
  {
    if c != [] {
      var front, last := c[..|c| - 1], c[|c| - 1];
      DistinctIds(front);
      assert IdsOf(c) == IdsOf(front) + {last.id};
      assert last.id !in IdsOf(front);
    }
  }

  /** A clean sweep that misses x takes a whole batch away from in front of it. */
  lemma MissedSweepClears(cap: nat, es: seq<Event>, p: nat, q: nat, t: nat, limit: nat, x: nat)
    requires Legal(EmptyWorld, cap, es) && p < q <= |es| && es[p].StartTick? && es[p].tick == t && es[p].limit == limit
    requires SweptClean(At(es, q), t) && !Selected(At(es, p), limit, x)
    requires Waiting(es, x, p, q)
    ensures Gone(AheadAlong(es, x), p, q) >= limit
  {
    var c := FetchCandidates(At(es, p), limit);
    CandidatesStay(cap, es, p, q);
    MissedMeansBehind(At(es, p), limit, x);
    CandidatesAreDue(At(es, p), limit);
    DistinctIds(c);
    forall id | id in IdsOf(c) ensures Dropped(AheadAlong(es, x), p, q, id) {
      var i: nat :| i < |c| && c[i].id == id;
      CandidateLeaves(cap, es, p, q, t, limit, i, x);
    }
    EachLeaves(AheadAlong(es, x), p, q, IdsOf(c));
  }

  /** Sweeps one after the other: the j-th starts at step starts[j], after the one before it is done. */
  ghost predicate OneAfterAnother(es: seq<Event>, starts: seq<nat>, limit: nat) {
    && (forall j :: 0 <= j < |starts| ==> starts[j] < |es| && es[starts[j]].StartTick? && es[starts[j]].limit == limit)
    && (forall j :: 0 <= j < |starts| - 1 ==>
          starts[j] < starts[j + 1] && SweptClean(At(es, starts[j + 1]), es[starts[j]].tick))
  }

  /** Stretches that each lose a batch lose as many batches as there are stretches. */
  lemma {:induction false} BatchesAddUp(a: Queue, starts: seq<nat>, limit: nat, j: nat)
    requires a.Valid() && j < |starts|
    requires forall i :: 0 <= i < |starts| ==> starts[i] < |a.sets|
    requires forall i :: 0 <= i < |starts| - 1 ==> starts[i] < starts[i + 1]
    requires forall i :: 0 <= i < |starts| - 1 ==> Gone(a, starts[i], starts[i + 1]) >= limit
    ensures starts[0] <= starts[j] && Gone(a, starts[0], starts[j]) >= j * limit
  {
    if j > 0 {
      BatchesAddUp(a, starts, limit, j - 1);
      GoneAdds(a, starts[0], starts[j - 1], starts[j]);
      assert j * limit == (j - 1) * limit + limit;
    }
  }

  ghost predicate MissesAll(es: seq<Event>, starts: seq<nat>, limit: nat, x: nat) {
    forall j :: 0 <= j < |starts| && starts[j] <= |es| ==> !Selected(At(es, starts[j]), limit, x)
  }

  lemma EachStretchClears(cap: nat, es: seq<Event>, starts: seq<nat>, limit: nat, x: nat, j: nat)
    requires Legal(EmptyWorld, cap, es) && OneAfterAnother(es, starts, limit) && j < |starts| - 1
    requires Waiting(es, x, starts[0], starts[|starts| - 1]) && MissesAll(es, starts, limit, x)
    requires starts[0] <= starts[j] && starts[j + 1] <= starts[|starts| - 1]
    ensures Gone(AheadAlong(es, x), starts[j], starts[j + 1]) >= limit
  {
    var p, q := starts[j], starts[j + 1];
    var t := es[p].tick;
    assert Waiting(es, x, p, q);
    MissedSweepClears(cap, es, p, q, t, limit, x);
  }

  lemma {:induction false} Ascending(starts: seq<nat>, i: nat, j: nat)
    requires i <= j < |starts| && forall k :: 0 <= k < |starts| - 1 ==> starts[k] < starts[k + 1]
    ensures starts[i] <= starts[j]
    decreases j
  {
    if i < j { Ascending(starts, i, j - 1); }
  }

  ghost function CountAhead(es: seq<Event>, x: nat, p: nat): nat {
    if p <= |es| then |Ahead(At(es, p).db, x)| else 0
  }

  /** How often one comes to be ahead of x between two steps. */
  ghost function EnteredAhead(es: seq<Event>, x: nat, p: nat, q: nat): nat {
    if p <= q <= |es| then Entered(AheadAlong(es, x), p, q) else 0
  }

  predicate AtLeastBatches(total: nat, limit: nat, n: nat) {
    total >= n * limit
  }

  lemma MissedByAllLeavesNoRoom(cap: nat, es: seq<Event>, starts: seq<nat>, limit: nat, x: nat)
    requires Legal(EmptyWorld, cap, es) && OneAfterAnother(es, starts, limit) && starts != []
    requires Waiting(es, x, starts[0], starts[|starts| - 1]) && MissesAll(es, starts, limit, x)
    ensures var n := |starts| - 1;
            && starts[0] <= starts[n]
            && AtLeastBatches(CountAhead(es, x, starts[0]) + EnteredAhead(es, x, starts[0], starts[n]), limit, n + 1)
  {
    var n := |starts| - 1;
    var a := AheadAlong(es, x);
    forall j: nat | j < n ensures Gone(a, starts[j], starts[j + 1]) >= limit {
      Ascending(starts, 0, j);
      Ascending(starts, j + 1, n);
      EachStretchClears(cap, es, starts, limit, x, j);
    }
    BatchesAddUp(a, starts, limit, n);
    Balance(a, starts[0], starts[n]);
    FullBatchAhead(At(es, starts[n]), limit, x);
  }

  lemma FullBatchAhead(w: World, limit: nat, x: nat)
    requires Eligible(w.db, x) && !Selected(w, limit, x)
    ensures |Ahead(w.db, x)| >= limit
  {
    var c := FetchCandidates(w, limit);
    MissedMeansBehind(w, limit, x);
    CandidatesAreDue(w, limit);
    DistinctIds(c);
    SubsetSize(IdsOf(c), Ahead(w.db, x));
  }

  ghost predicate SelectedBySome(es: seq<Event>, starts: seq<nat>, limit: nat, x: nat) {
    exists j :: 0 <= j < |starts| && starts[j] <= |es| && Selected(At(es, starts[j]), limit, x)
  }

  /**
   With batch limit b, k connectors ahead of x when the first sweep reads and at most m more
   entering ahead of it, one of the first (k + m) / b + 1 sweeps reads x. A connector that is
   recorded under a stamp too old to take it away from there counts as entering again;
   `OnlyNewcomersEnter` says when there is none of these.
   */
  lemma NobodyStarves(cap: nat, es: seq<Event>, starts: seq<nat>, limit: nat, x: nat, k: nat, m: nat)
    requires Legal(EmptyWorld, cap, es) && OneAfterAnother(es, starts, limit)
    requires limit >= 1 && |starts| == (k + m) / limit + 1
    requires Waiting(es, x, starts[0], starts[|starts| - 1])
    requires CountAhead(es, x, starts[0]) == k && EnteredAhead(es, x, starts[0], starts[|starts| - 1]) <= m
    ensures SelectedBySome(es, starts, limit, x)
  {
    if !SelectedBySome(es, starts, limit, x) {
      NoneSelects(es, starts, limit, x);
      MissedByAllLeavesNoRoom(cap, es, starts, limit, x);
      BatchesBound(k, EnteredAhead(es, x, starts[0], starts[|starts| - 1]), m, limit);
      assert false;
    }
  }

  lemma NoneSelects(es: seq<Event>, starts: seq<nat>, limit: nat, x: nat)
    requires !SelectedBySome(es, starts, limit, x)
    ensures MissesAll(es, starts, limit, x)
  {
  }

  lemma BatchesBound(k: nat, entered: nat, m: nat, limit: nat)
    requires limit >= 1 && entered <= m
    ensures !AtLeastBatches(k + entered, limit, (k + m) / limit + 1)
  {
    var n := (k + m) / limit;
    assert (n + 1) * limit == n * limit + limit;
  }

  // ---- when recording takes a connector away --------------------------------------------------

  /** What is accepted for others is stamped later than the last check of x. */
  ghost predicate PassesBy(w: World, w': World, x: nat) {
    forall id :: id != x && Accepts(w, w', id) ==>
      LastChecked(w'.db, x).None? || LastChecked(w'.db, x).value < LastAt(LogOf(w'.log, id).checks).value
  }

  lemma JustRead(w: World, id: nat)
    requires DbOk(w.db, w.log) && LogOk(w.log) && id in w.db.cards && LogOf(w.log, id).checks != []
    ensures DueKey(w.db, id) == Key([LastAt(LogOf(w.log, id).checks).value], id)
  {
    ReadIsCurrent(w, id);
  }

  /** A key with a later stamp never sorts before one with an earlier stamp or none. */
  lemma LaterStampIsBehind(now: int, id: nat, t: Option<int>, x: nat)
    requires t.Some? ==> t.value < now
    ensures !Less(Key([now], id), Key(match t case None => [] case Some(v) => [v], x))
  {
  }

  lemma AcceptedGoesBehind(w: World, w': World, id: nat, x: nat)
    requires DbOk(w'.db, w'.log) && LogOk(w'.log) && PassesBy(w, w', x) && Accepts(w, w', id)
    ensures id !in Ahead(w'.db, x)
  {
    if Eligible(w'.db, id) {
      if id == x {
        LessIrreflexive(DueKey(w'.db, x));
      } else {
        JustRead(w', id);
        LaterStampIsBehind(LastAt(LogOf(w'.log, id).checks).value, id, LastChecked(w'.db, x), x);
      }
    }
  }

  /** While others are recorded under stamps later than the last check of x, only newcomers enter. */
  lemma OnlyNewcomersEnter(cap: nat, es: seq<Event>, i: nat, x: nat)
    requires Legal(EmptyWorld, cap, es) && i < |es| && PassesBy(At(es, i), At(es, i + 1), x)
    ensures var a := AheadAlong(es, x);
            a.sets[i + 1] - a.kept[i] == Ahead(At(es, i + 1).db, x) - Ahead(At(es, i).db, x)
  {
    AlongARun(cap, es, i + 1);
    NewcomersOnly(At(es, i), At(es, i + 1), x);
  }

  lemma NewcomersOnly(w: World, w': World, x: nat)
    requires DbOk(w'.db, w'.log) && LogOk(w'.log) && PassesBy(w, w', x)
    ensures Ahead(w'.db, x) - StayAhead(w, w', x) == Ahead(w'.db, x) - Ahead(w.db, x)
  {
    forall id | id in Ahead(w.db, x) && id in Ahead(w'.db, x) ensures id in StayAhead(w, w', x) {
      if Accepts(w, w', id) { AcceptedGoesBehind(w, w', id, x); }
    }
  }
}
