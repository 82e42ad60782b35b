/**
 Reading comment threads: pages of roots with all their replies, the comment count on the
 card, and what a delete leaves visible. Stated on a fixed board: the listing issues several
 queries, and nothing is claimed about writes between them.
 */
module Threads {
  import opened Options
  import opened KeyOrder
  import opened Comments

  datatype Thread = Thread(root: nat, replies: seq<nat>)

  // ---- what is listed ---------------------------------------------------------------------

  function KeyOf(b: Board, id: nat): Key
    requires id in b.comments
  {
    Key([b.comments[id].createdAt], id)
  }

  function IdsOf(keys: seq<Key>): (r: seq<nat>)
    ensures |r| == |keys|
  {
    seq(|keys|, i requires 0 <= i < |keys| => RowId(keys[i]))
  }

  predicate HasLiveReply(b: Board, id: nat) {
    exists r :: r in b.comments && b.comments[r].parent == Some(id) && !b.comments[r].deleted
  }

  /** A deleted root stays as a placeholder while a reply to it is alive. */
  predicate ListedRoot(b: Board, card: nat, id: nat) {
    && id in b.comments && b.comments[id].card == card && b.comments[id].parent.None?
    && (!b.comments[id].deleted || HasLiveReply(b, id))
  }

  function RootKeys(b: Board, card: nat): set<Key> {
    set id | id in b.comments && ListedRoot(b, card, id) :: KeyOf(b, id)
  }

  predicate LiveReplyTo(b: Board, parents: seq<nat>, id: nat) {
    id in b.comments && b.comments[id].parent.Some? && b.comments[id].parent.value in parents && !b.comments[id].deleted
  }

  function ReplyKeys(b: Board, parents: seq<nat>): set<Key> {
    set id | id in b.comments && LiveReplyTo(b, parents, id) :: KeyOf(b, id)
  }

  function RepliesTo(b: Board, root: nat): seq<nat> {
    IdsOf(Sorted(ReplyKeys(b, [root])))
  }

  /** LIMIT and OFFSET */
  function Window<T>(s: seq<T>, limit: nat, offset: nat): seq<T> {
    if offset >= |s| then []
    else if |s| - offset <= limit then s[offset..]
    else s[offset..offset + limit]
  }

  function ThreadsOf(b: Board, roots: seq<nat>): (r: seq<Thread>)
    ensures |r| == |roots|
  {
    seq(|roots|, i requires 0 <= i < |roots| => Thread(roots[i], RepliesTo(b, roots[i])))
  }

  /** The whole listing of a card, oldest root first. */
  function Listing(b: Board, card: nat): seq<Thread> {
    ThreadsOf(b, IdsOf(Sorted(RootKeys(b, card))))
  }

  function Page(b: Board, card: nat, limit: nat, offset: nat): seq<Thread> {
    Window(Listing(b, card), limit, offset)
  }

  // ---- pages ------------------------------------------------------------------------------

  /** The windows of a listing from an offset on, one after the other. */
  function Windows<T>(s: seq<T>, limit: nat, offset: nat): seq<T>
    requires limit >= 1
    decreases |s| - offset
  {
    if offset >= |s| then [] else Window(s, limit, offset) + Windows(s, limit, offset + limit)
  }

  lemma {:induction false} WindowsMakeTheWhole<T>(s: seq<T>, limit: nat, offset: nat)
    requires limit >= 1 && offset <= |s|
    ensures Windows(s, limit, offset) == s[offset..]
    decreases |s| - offset
  {
    if offset < |s| {
      if offset + limit <= |s| {
        WindowsMakeTheWhole(s, limit, offset + limit);
        assert s[offset..] == s[offset..offset + limit] + s[offset + limit..];
      } else {
        assert Windows(s, limit, offset + limit) == [];
      }
    }
  }

  /** All pages of a card: Page at offsets 0, limit, 2 * limit and so on. */
  function Pages(b: Board, card: nat, limit: nat): seq<Thread>
    requires limit >= 1
  {
    Windows(Listing(b, card), limit, 0)
  }

  lemma PagesMakeTheListing(b: Board, card: nat, limit: nat)
    requires limit >= 1
    ensures Pages(b, card, limit) == Listing(b, card)
  {
    WindowsMakeTheWhole(Listing(b, card), limit, 0);
  }

  // ---- grouping replies under their parents -------------------------------------------------

  function UnderParent(b: Board, keys: seq<Key>, p: nat): seq<Key> {
    if keys == [] then []
    else
      var last := keys[|keys| - 1];
      UnderParent(b, keys[..|keys| - 1], p) +
      (if RowId(last) in b.comments && b.comments[RowId(last)].parent == Some(p) then [last] else [])
  }

  lemma {:induction false} UnderParentMembers(b: Board, keys: seq<Key>, p: nat, k: Key)
    ensures k in UnderParent(b, keys, p) <==> k in keys && RowId(k) in b.comments && b.comments[RowId(k)].parent == Some(p)
    decreases |keys|
  {
    if keys != [] {
      UnderParentMembers(b, keys[..|keys| - 1], p, k);
      assert keys == keys[..|keys| - 1] + [keys[|keys| - 1]];
    }
  }

  lemma {:induction false} UnderParentIncreasing(b: Board, keys: seq<Key>, p: nat)
    requires Increasing(keys)
    ensures Increasing(UnderParent(b, keys, p))
    decreases |keys|
  {
    if keys != [] {
      var front, last := keys[..|keys| - 1], keys[|keys| - 1];
      UnderParentIncreasing(b, front, p);
      var kept := UnderParent(b, front, p);
      if kept != [] {
        var k := kept[|kept| - 1];
        UnderParentMembers(b, front, p, k);
        var i :| 0 <= i < |front| && front[i] == k;
        assert Less(keys[i], last);
      }
      IncreasingConcat(kept, [last]);
    }
  }

  /** Reading the replies of many parents at once and splitting them gives each parent its own. */
  lemma GroupingIsExact(b: Board, parents: seq<nat>, p: nat)
    requires p in parents
    ensures UnderParent(b, Sorted(ReplyKeys(b, parents)), p) == Sorted(ReplyKeys(b, [p]))
  {
    var all := ReplyKeys(b, parents);
    SortedFacts(all);
    UnderParentIncreasing(b, Sorted(all), p);
    forall k ensures k in UnderParent(b, Sorted(all), p) <==> k in ReplyKeys(b, [p]) {
      UnderParentMembers(b, Sorted(all), p, k);
    }
    SortedUnique(UnderParent(b, Sorted(all), p), ReplyKeys(b, [p]));
  }

  // ---- each live comment once ---------------------------------------------------------------

  function Count(s: seq<nat>, x: nat): nat {
    if s == [] then 0 else (if s[0] == x then 1 else 0) + Count(s[1..], x)
  }

  lemma {:induction false} CountConcat(a: seq<nat>, b: seq<nat>, x: nat)
    ensures Count(a + b, x) == Count(a, x) + Count(b, x)
  {
    if a == [] {
      assert a + b == b;
    } else {
      assert (a + b)[0] == a[0] && (a + b)[1..] == a[1..] + b;
      CountConcat(a[1..], b, x);
    }
  }

  ghost predicate Distinct(s: seq<nat>) {
    forall i, j :: 0 <= i < j < |s| ==> s[i] != s[j]
  }

  lemma {:induction false} CountDistinct(s: seq<nat>, x: nat)
    requires Distinct(s)
    ensures Count(s, x) == if x in s then 1 else 0
  {
    if s != [] {
      var rest := s[1..];
      assert forall i :: 0 <= i < |rest| ==> rest[i] == s[i + 1];
      CountDistinct(rest, x);
    }
  }

  /** All ids a reader of these threads sees, in order. */
  function Shown(threads: seq<Thread>): seq<nat> {
    if threads == [] then []
    else [threads[0].root] + threads[0].replies + Shown(threads[1..])
  }

  lemma RootIds(b: Board, card: nat, id: nat)
    ensures id in IdsOf(Sorted(RootKeys(b, card))) <==> ListedRoot(b, card, id)
    ensures Distinct(IdsOf(Sorted(RootKeys(b, card))))
  {
    var s := RootKeys(b, card);
    KeysGiveIds(b, s, id);
    if ListedRoot(b, card, id) { assert KeyOf(b, id) in s; }
  }

  lemma ReplyIds(b: Board, root: nat, id: nat)
    ensures id in RepliesTo(b, root) <==>
              id in b.comments && b.comments[id].parent == Some(root) && !b.comments[id].deleted
    ensures Distinct(RepliesTo(b, root))
  {
    var s := ReplyKeys(b, [root]);
    KeysGiveIds(b, s, id);
    if LiveReplyTo(b, [root], id) { assert KeyOf(b, id) in s; }
  }

  lemma KeysGiveIds(b: Board, s: set<Key>, id: nat)
    requires forall k :: k in s ==> k.minor >= 0 && RowId(k) in b.comments && k == KeyOf(b, RowId(k))
    ensures id in IdsOf(Sorted(s)) <==> id in b.comments && KeyOf(b, id) in s
    ensures Distinct(IdsOf(Sorted(s)))
  {
    SortedFacts(s);
    var keys, ids := Sorted(s), IdsOf(Sorted(s));
    if id in b.comments && KeyOf(b, id) in s {
      var i :| 0 <= i < |keys| && keys[i] == KeyOf(b, id);
      assert ids[i] == id;
    }
    if id in ids {
      var i :| 0 <= i < |ids| && ids[i] == id;
      assert keys[i] in keys;
    }
    forall i, j | 0 <= i < j < |ids| ensures ids[i] != ids[j] {
      assert Less(keys[i], keys[j]) && keys[i] in keys && keys[j] in keys;
      LessAsymmetric(keys[i], keys[j]);
    }
  }

  /** The root of the thread a comment is shown in. */
  function Home(b: Board, id: nat): nat
    requires id in b.comments
  {
    match b.comments[id].parent case None => id case Some(p) => p
  }

  predicate Visible(b: Board, card: nat, id: nat) {
    id in b.comments && b.comments[id].card == card &&
    (!b.comments[id].deleted || (b.comments[id].parent.None? && HasLiveReply(b, id)))
  }

  /** In the thread of one root, a comment shows once if that is its home, and not at all otherwise. */
  lemma ShownInThread(b: Board, card: nat, root: nat, id: nat)
    requires TwoLevels(b) && ListedRoot(b, card, root)
    ensures Count([root] + RepliesTo(b, root), id) == if Visible(b, card, id) && Home(b, id) == root then 1 else 0
  {
    CountConcat([root], RepliesTo(b, root), id);
    CountDistinct([root], id);
    ReplyIds(b, root, id);
    CountDistinct(RepliesTo(b, root), id);
    if id in b.comments { assert ReplyFits(b.comments, id); }
  }

  lemma {:induction false} ShownInThreads(b: Board, card: nat, roots: seq<nat>, id: nat)
    requires TwoLevels(b) && Distinct(roots)
    requires forall r :: r in roots ==> ListedRoot(b, card, r)
    ensures Count(Shown(ThreadsOf(b, roots)), id) == if Visible(b, card, id) && Home(b, id) in roots then 1 else 0
    decreases |roots|
  {
    if roots != [] {
      var root, rest := roots[0], roots[1..];
      assert forall i :: 0 <= i < |rest| ==> rest[i] == roots[i + 1];
      ShownInThreads(b, card, rest, id);
      ShownInThread(b, card, root, id);
      var threads := ThreadsOf(b, roots);
      assert threads[1..] == ThreadsOf(b, rest);
      CountConcat([root] + RepliesTo(b, root), Shown(threads[1..]), id);
    }
  }

  /**
   Across the pages of a card, every live comment of the card shows exactly once, a deleted
   root shows once while a reply to it lives, and nothing else shows.
   */
  lemma EveryLiveCommentOnce(b: Board, card: nat, limit: nat, id: nat)
    requires TwoLevels(b) && limit >= 1
    ensures Count(Shown(Pages(b, card, limit)), id) == if Visible(b, card, id) then 1 else 0
  {
    PagesMakeTheListing(b, card, limit);
    var roots := IdsOf(Sorted(RootKeys(b, card)));
    forall r | r in roots ensures ListedRoot(b, card, r) { RootIds(b, card, r); }
    RootIds(b, card, id);
    ShownInThreads(b, card, roots, id);
    if Visible(b, card, id) {
      assert ReplyFits(b.comments, id);
      RootIds(b, card, Home(b, id));
    }
  }

  lemma SoftDeleteKeepsShape(b: Board, gone: nat)
    requires TwoLevels(b)
    ensures TwoLevels(SoftDelete(b, gone))
  {
    var after := SoftDelete(b, gone);
    forall k | k in after.comments ensures ReplyFits(after.comments, k) {
      assert ReplyFits(b.comments, k);
    }
  }

  lemma SoftDeleteSparesOthers(b: Board, card: nat, gone: nat, id: nat)
    requires id != gone && id in b.comments && !b.comments[id].deleted
    ensures Visible(SoftDelete(b, gone), card, id) <==> b.comments[id].card == card
    ensures Visible(b, card, id) <==> b.comments[id].card == card
  {
  }

  /** Deleting one comment hides no other live comment, and brings none back. */
  lemma DeletingHidesNoOther(b: Board, card: nat, limit: nat, gone: nat, id: nat)
    requires TwoLevels(b) && limit >= 1 && id != gone && id in b.comments && !b.comments[id].deleted
    ensures var shown := if b.comments[id].card == card then 1 else 0;
            && Count(Shown(Pages(b, card, limit)), id) == shown
            && Count(Shown(Pages(SoftDelete(b, gone), card, limit)), id) == shown
  {
    SoftDeleteKeepsShape(b, gone);
    SoftDeleteSparesOthers(b, card, gone, id);
    EveryLiveCommentOnce(b, card, limit, id);
    EveryLiveCommentOnce(SoftDelete(b, gone), card, limit, id);
  }

  // ---- the count on the card ----------------------------------------------------------------

  /** comment_count */
  function LiveOn(b: Board, card: nat): set<nat> {
    set id | id in b.comments && b.comments[id].card == card && !b.comments[id].deleted
  }

  function LiveRoots(b: Board, threads: seq<Thread>): nat {
    if threads == [] then 0
    else (if threads[0].root in b.comments && !b.comments[threads[0].root].deleted then 1 else 0) + LiveRoots(b, threads[1..])
  }

  function RepliesListed(threads: seq<Thread>): nat {
    if threads == [] then 0 else |threads[0].replies| + RepliesListed(threads[1..])
  }

  /** The live comments that belong to the threads of the given roots. */
  function LiveUnder(b: Board, roots: seq<nat>): set<nat> {
    set id | id in b.comments && !b.comments[id].deleted && Home(b, id) in roots
  }

  function SetOf(s: seq<nat>): set<nat> {
    set x | x in s
  }

  lemma {:induction false} DistinctSize(s: seq<nat>)
    requires Distinct(s)
    ensures |SetOf(s)| == |s|
  {
    if s == [] {
      assert SetOf(s) == {};
    } else {
      var rest := s[1..];
      assert forall i :: 0 <= i < |rest| ==> rest[i] == s[i + 1];
      DistinctSize(rest);
      assert SetOf(s) == {s[0]} + SetOf(rest);
    }
  }

  lemma TallyOfOne(b: Board, root: nat)
    requires root in b.comments
    ensures Tally(b, ThreadsOf(b, [root])) == (if b.comments[root].deleted then 0 else 1) + |RepliesTo(b, root)|
  {
    var threads := ThreadsOf(b, [root]);
    assert threads[0] == Thread(root, RepliesTo(b, root));
    assert threads[1..] == [];
    assert LiveRoots(b, threads[1..]) == 0 && RepliesListed(threads[1..]) == 0;
  }

  lemma LiveUnderOne(b: Board, card: nat, root: nat)
    requires TwoLevels(b) && ListedRoot(b, card, root)
    ensures |LiveUnder(b, [root])| == Tally(b, ThreadsOf(b, [root]))
  {
    TallyOfOne(b, root);
    var replies := SetOf(RepliesTo(b, root));
    var self: set<nat> := if b.comments[root].deleted then {} else {root};
    ReplyIds(b, root, root);
    DistinctSize(RepliesTo(b, root));
    forall id: nat ensures id in LiveUnder(b, [root]) <==> id in self + replies {
      ReplyIds(b, root, id);
    }
    assert LiveUnder(b, [root]) == self + replies;
    assert self !! replies;
  }

  lemma LiveUnderSplits(b: Board, root: nat, rest: seq<nat>)
    requires root !in rest
    ensures |LiveUnder(b, [root] + rest)| == |LiveUnder(b, [root])| + |LiveUnder(b, rest)|
  {
    assert LiveUnder(b, [root] + rest) == LiveUnder(b, [root]) + LiveUnder(b, rest);
    assert LiveUnder(b, [root]) !! LiveUnder(b, rest);
  }

  /** What the count on the card and the listing agree on: live roots and listed replies. */
  function Tally(b: Board, threads: seq<Thread>): nat {
    LiveRoots(b, threads) + RepliesListed(threads)
  }

  lemma TallySplits(b: Board, root: nat, rest: seq<nat>)
    ensures Tally(b, ThreadsOf(b, [root] + rest)) == Tally(b, ThreadsOf(b, [root])) + Tally(b, ThreadsOf(b, rest))
  {
    var all, one := ThreadsOf(b, [root] + rest), ThreadsOf(b, [root]);
    assert all[0] == one[0] == Thread(root, RepliesTo(b, root));
    assert all[1..] == ThreadsOf(b, rest) && one[1..] == [];
    assert LiveRoots(b, one[1..]) == 0 && RepliesListed(one[1..]) == 0;
  }

  lemma {:induction false} LiveUnderMany(b: Board, card: nat, roots: seq<nat>)
    requires TwoLevels(b) && Distinct(roots)
    requires forall r :: r in roots ==> ListedRoot(b, card, r)
    ensures |LiveUnder(b, roots)| == Tally(b, ThreadsOf(b, roots))
    decreases |roots|
  {
    if roots == [] {
      assert LiveUnder(b, roots) == {};
    } else {
      var root, rest := roots[0], roots[1..];
      assert roots == [root] + rest;
      assert forall i :: 0 <= i < |rest| ==> rest[i] == roots[i + 1];
      LiveUnderMany(b, card, rest);
      LiveUnderOne(b, card, root);
      TallySplits(b, root, rest);
      LiveUnderSplits(b, root, rest);
    }
  }

  /** The card's comment count is the live roots plus the replies that its listing shows. */
  lemma CommentCountAgrees(b: Board, card: nat)
    requires TwoLevels(b)
    ensures |LiveOn(b, card)| == LiveRoots(b, Listing(b, card)) + RepliesListed(Listing(b, card))
  {
    var roots := IdsOf(Sorted(RootKeys(b, card)));
    forall r | r in roots ensures ListedRoot(b, card, r) { RootIds(b, card, r); }
    RootIds(b, card, 0);
    LiveUnderMany(b, card, roots);
    forall id: nat ensures id in LiveOn(b, card) <==> id in LiveUnder(b, roots) {
      if id in b.comments {
        assert ReplyFits(b.comments, id);
        RootIds(b, card, Home(b, id));
      }
    }
    assert LiveOn(b, card) == LiveUnder(b, roots);
  }

  /**
   The shape is needed: were a live reply under another reply, it would be counted on the card
   and shown nowhere.
   */
  lemma NestedReplyIsLost(b: Board, card: nat, limit: nat, id: nat)
    requires limit >= 1 && id in b.comments && b.comments[id].parent.Some?
    requires var p := b.comments[id].parent.value; p in b.comments && b.comments[p].parent.Some?
    ensures Count(Shown(Pages(b, card, limit)), id) == 0
  {
    PagesMakeTheListing(b, card, limit);
    var roots := IdsOf(Sorted(RootKeys(b, card)));
    forall r | r in roots ensures ListedRoot(b, card, r) { RootIds(b, card, r); }
    NowhereShown(b, card, roots, id);
  }

  lemma {:induction false} NowhereShown(b: Board, card: nat, roots: seq<nat>, id: nat)
    requires id in b.comments && b.comments[id].parent.Some?
    requires var p := b.comments[id].parent.value; p in b.comments && b.comments[p].parent.Some?
    requires forall r :: r in roots ==> ListedRoot(b, card, r)
    ensures Count(Shown(ThreadsOf(b, roots)), id) == 0
    decreases |roots|
  {
    if roots != [] {
      var root, rest := roots[0], roots[1..];
      assert root in roots && ListedRoot(b, card, root);
      NowhereShown(b, card, rest, id);
      var threads := ThreadsOf(b, roots);
      assert threads[0] == Thread(root, RepliesTo(b, root)) && threads[1..] == ThreadsOf(b, rest);
      ReplyIds(b, root, id);
      CountDistinct(RepliesTo(b, root), id);
      CountConcat([root], RepliesTo(b, root), id);
      CountDistinct([root], id);
      CountConcat([root] + RepliesTo(b, root), Shown(threads[1..]), id);
    }
  }
}
