/**
 The comment handlers over the tables they change: posting with its notifications, editing,
 soft delete, the thread listing, and marking notifications read.
 */
module CommentStore {
  import opened Options
  import opened KeyOrder
  import opened Comments
  import opened Threads

  // ---- notifications ----------------------------------------------------------------------

  ghost function NewNotices(b: Board, b': Board, user: nat): set<nat> {
    set n | n in b'.notices && n !in b.notices && b'.notices[n].user == user
  }

  /**
   A comment tells the author of its parent and the creator of its card, each once, never its
   own author, and nobody else; a person who is both is told of the reply.
   */
  lemma EachToldOnce(b: Board, d: Draft, comment: nat, n1: nat, n2: nat, user: nat)
    requires n1 != n2 && n1 !in b.notices && n2 !in b.notices
    ensures var b' := NotifyAll(b, d, comment, n1, n2);
            var told := NewNotices(b, b', user);
            && |told| == (if user != d.author && (user == d.owner || d.parentAuthor == Some(user)) then 1 else 0)
            && (forall n :: n in told ==>
                  b'.notices[n] == Notice(user, d.author, d.card, if d.parentAuthor == Some(user) then AboutReply else AboutComment, comment, None))
            && (forall n :: n in b.notices ==> n in b'.notices && b'.notices[n] == b.notices[n])
  {
    var b' := NotifyAll(b, d, comment, n1, n2);
    var told := NewNotices(b, b', user);
    if user != d.author && d.parentAuthor == Some(user) {
      assert told == {n1};
    } else if user != d.author && user == d.owner {
      assert told == {n2};
    } else {
      assert told == {};
    }
  }

  /** Marking read reaches exactly the unread ones asked for; a read stamp, once set, stays. */
  lemma ReadStampsStay(b: Board, user: nat, which: Option<nat>, now: int, n: nat)
    requires n in b.notices
    ensures var b' := MarkRead(b, user, which, now);
            && b'.notices.Keys == b.notices.Keys
            && (b.notices[n].readAt.Some? || b.notices[n].user != user ==> b'.notices[n] == b.notices[n])
            && (Unread(b, user, which, n) ==> b'.notices[n] == b.notices[n].(readAt := Some(now)))
            && UnreadSet(b', user, which) == {}
            && UnreadSet(b', user, None) == UnreadSet(b, user, None) - UnreadSet(b, user, which)
            && forall later :: MarkRead(b', user, which, later) == b'
  {
    var b' := MarkRead(b, user, which, now);
    forall later ensures MarkRead(b', user, which, later) == b' {
      assert MarkRead(b', user, which, later).notices == b'.notices;
    }
  }

  // ---- the tables ---------------------------------------------------------------------------

  class Store {
    var cards: map<nat, nat>
    var comments: map<nat, Comment>
    var notices: map<nat, Notice>

    ghost function State(): Board
      reads this
    {
      Board(cards, comments, notices)
    }

    constructor (cards: map<nat, nat>)
      ensures State() == Board(cards, map[], map[])
      ensures TwoLevels(State())
    {
      this.cards, comments, notices := cards, map[], map[];
    }

    method NotifyUser(noticeId: nat, user: nat, actor: nat, card: nat, kind: Kind, comment: nat)
      modifies this`notices
      ensures State() == Notify(old(State()), noticeId, user, actor, card, kind, comment)
    {
      if user == actor {
        return;
      }
      notices := notices[noticeId := Notice(user, actor, card, kind, comment, None)];
    }

    /** Check, insert, notify, commit: the request when nothing else comes in between. */
    method PostComment(card: nat, author: nat, body: string, parent: Option<nat>, id: nat, now: int, n1: nat, n2: nat)
      returns (r: Result<nat, Refusal>)
      requires TwoLevels(State())
      requires id !in comments && n1 != n2 && n1 !in notices && n2 !in notices
      modifies this
      ensures TwoLevels(State())
      ensures var checked := CheckParent(old(State()), card, author, body, parent);
              && (checked.Err? ==> r == Err(checked.error) && State() == old(State()))
              && (checked.Ok? ==>
                    var inserted := Insert(old(State()), id, checked.value, now);
                    && r == Ok(id) && inserted.Some?
                    && State() == NotifyAll(inserted.value, checked.value, id, n1, n2))
      ensures r == Err(CardNotFound) <==> card !in old(cards)
      ensures r == Err(NestedReply) <==>
                && card in old(cards) && parent.Some? && parent.value in old(comments)
                && old(comments)[parent.value].card == card && !old(comments)[parent.value].deleted
                && old(comments)[parent.value].parent.Some?
      ensures r.Ok? <==>
                && card in old(cards)
                && (parent.Some? ==>
                      && parent.value in old(comments) && old(comments)[parent.value].card == card
                      && !old(comments)[parent.value].deleted && old(comments)[parent.value].parent.None?)
      ensures r.Ok? ==> cards == old(cards) && comments == old(comments)[id := Comment(card, parent, author, body, now, false)]
      ensures r.Err? ==> cards == old(cards) && comments == old(comments) && notices == old(notices)
    {
      if card !in cards {
        return Err(CardNotFound);
      }
      var parentAuthor: Option<nat> := None;
      if parent.Some? {
        var p := parent.value;
        if p !in comments || comments[p].card != card || comments[p].deleted {
          return Err(ParentNotFound);
        }
        if comments[p].parent.Some? {
          return Err(NestedReply);
        }
        parentAuthor := Some(comments[p].author);
      }
      ghost var before := comments;
      comments := comments[id := Comment(card, parent, author, body, now, false)];
      forall k | k in comments ensures ReplyFits(comments, k) {
        if k != id { assert ReplyFits(before, k); }
      }
      if parentAuthor.Some? {
        NotifyUser(n1, parentAuthor.value, author, card, AboutReply, id);
      }
      if parentAuthor != Some(cards[card]) {
        NotifyUser(n2, cards[card], author, card, AboutComment, id);
      }
      r := Ok(id);
    }

    method EditStatement(id: nat, body: string)
      requires TwoLevels(State())
      modifies this`comments
      ensures State() == Edit(old(State()), id, body) && TwoLevels(State())
      ensures comments.Keys == old(comments).Keys && forall k :: k in comments ==>
                comments[k] == if k == id && !old(comments)[k].deleted then old(comments)[k].(body := body) else old(comments)[k]
    {
      ghost var before := comments;
      if id in comments && !comments[id].deleted {
        comments := comments[id := comments[id].(body := body)];
      }
      forall k | k in comments ensures ReplyFits(comments, k) { assert ReplyFits(before, k); }
    }

    method SoftDeleteStatement(id: nat)
      requires TwoLevels(State())
      modifies this`comments
      ensures State() == SoftDelete(old(State()), id) && TwoLevels(State())
      ensures comments.Keys == old(comments).Keys && forall k :: k in comments ==>
                comments[k] == if k == id && !old(comments)[k].deleted then old(comments)[k].(body := "", deleted := true)
                               else old(comments)[k]
    {
      ghost var before := comments;
      if id in comments && !comments[id].deleted {
        comments := comments[id := comments[id].(deleted := true, body := "")];
      }
      forall k | k in comments ensures ReplyFits(comments, k) { assert ReplyFits(before, k); }
    }

    method MarkReadStatement(user: nat, which: Option<nat>, now: int) returns (changed: nat)
      modifies this`notices
      ensures State() == MarkRead(old(State()), user, which, now)
      ensures changed == |UnreadSet(old(State()), user, which)|
      ensures changed == 0 ==> State() == old(State())
    {
      var hit := set n | n in notices && notices[n].user == user && notices[n].readAt.None? && (which.None? || which == Some(n));
      changed := |hit|;
      assert hit == UnreadSet(State(), user, which);
      ghost var was := State();
      notices := map n | n in notices :: if n in hit then notices[n].(readAt := Some(now)) else notices[n];
      assert notices == MarkRead(was, user, which, now).notices;
      if changed == 0 {
        assert hit == {};
        assert notices == was.notices;
      }
    }

    /** One page of roots, then all their replies in one read, split by parent. */
    method ListComments(card: nat, limit: nat, offset: nat) returns (threads: seq<Thread>, total: nat)
      ensures threads == Page(State(), card, limit, offset)
      ensures total == |Listing(State(), card)|
    {
      var now := Board(cards, comments, notices);
      var all := IdsOf(Sorted(RootKeys(now, card)));
      var roots := Window(all, limit, offset);
      RepliesAreReplies(now, roots);
      var byParent := GroupByParent(now, Sorted(ReplyKeys(now, roots)));
      threads := Assemble(now, roots, byParent);
      total := |all|;
      WindowOfThreads(now, all, limit, offset);
    }
  }

  function GroupOf(byParent: map<nat, seq<nat>>, p: nat): seq<nat> {
    if p in byParent then byParent[p] else []
  }

  ghost predicate AllReplies(b: Board, keys: seq<Key>) {
    forall i :: 0 <= i < |keys| ==> RowId(keys[i]) in b.comments && b.comments[RowId(keys[i])].parent.Some?
  }

  lemma RepliesAreReplies(b: Board, parents: seq<nat>)
    ensures AllReplies(b, Sorted(ReplyKeys(b, parents)))
  {
    var s := ReplyKeys(b, parents);
    forall i | 0 <= i < |Sorted(s)|
      ensures RowId(Sorted(s)[i]) in b.comments && b.comments[RowId(Sorted(s)[i])].parent.Some?
    {
      SortedAt(s, i);
    }
  }

  /** by_parent.setdefault(parent, []).append(reply), reply by reply */
  method GroupByParent(b: Board, replies: seq<Key>) returns (byParent: map<nat, seq<nat>>)
    requires AllReplies(b, replies)
    ensures forall p: nat :: GroupOf(byParent, p) == IdsOf(UnderParent(b, replies, p))
  {
    byParent := map[];
    for i := 0 to |replies|
      invariant forall p: nat :: GroupOf(byParent, p) == IdsOf(UnderParent(b, replies[..i], p))
    {
      var id := RowId(replies[i]);
      var parent := b.comments[id].parent.value;
      var before := byParent;
      byParent := byParent[parent := GroupOf(byParent, parent) + [id]];
      forall p: nat ensures GroupOf(byParent, p) == IdsOf(UnderParent(b, replies[..i + 1], p)) {
        UnderParentStep(b, replies, i, p);
        assert GroupOf(before, p) == IdsOf(UnderParent(b, replies[..i], p));
      }
    }
    assert replies[..|replies|] == replies;
  }

  method Assemble(b: Board, roots: seq<nat>, byParent: map<nat, seq<nat>>) returns (threads: seq<Thread>)
    requires forall p: nat :: GroupOf(byParent, p) == IdsOf(UnderParent(b, Sorted(ReplyKeys(b, roots)), p))
    ensures threads == ThreadsOf(b, roots)
  {
    threads := [];
    for i := 0 to |roots|
      invariant |threads| == i
      invariant forall k :: 0 <= k < i ==> threads[k] == Thread(roots[k], RepliesTo(b, roots[k]))
    {
      GroupingIsExact(b, roots, roots[i]);
      threads := threads + [Thread(roots[i], GroupOf(byParent, roots[i]))];
    }
  }

  lemma UnderParentStep(b: Board, keys: seq<Key>, i: nat, p: nat)
    requires i < |keys| && RowId(keys[i]) in b.comments
    ensures IdsOf(UnderParent(b, keys[..i + 1], p)) ==
              IdsOf(UnderParent(b, keys[..i], p)) + (if b.comments[RowId(keys[i])].parent == Some(p) then [RowId(keys[i])] else [])
  {
    assert keys[..i + 1][..i] == keys[..i];
  }

  /** Cutting the roots and building their threads commute. */
  lemma WindowOfThreads(b: Board, roots: seq<nat>, limit: nat, offset: nat)
    ensures ThreadsOf(b, Window(roots, limit, offset)) == Window(ThreadsOf(b, roots), limit, offset)
  {
    var threads, cut := ThreadsOf(b, roots), Window(roots, limit, offset);
    assert |ThreadsOf(b, cut)| == |Window(threads, limit, offset)|;
    forall i | 0 <= i < |cut| ensures ThreadsOf(b, cut)[i] == Window(threads, limit, offset)[i] {
      assert cut[i] == roots[offset + i];
    }
  }
}
