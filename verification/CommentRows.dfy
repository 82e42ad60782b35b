/**
 The comment steps and the thread listing on the rows: what is refused, what is inserted, who is
 told, what an edit and a delete leave, and in which order threads come.
 */
module CommentRows {
  import opened Options
  import opened KeyOrder
  import opened Comments
  import opened Threads

  // ---- posting --------------------------------------------------------------------------------

  /**
   A comment is let through exactly on a card that exists, and as a reply only to a live root of
   that card; a live reply of the card is the one thing refused as nested.
   */
  lemma CheckByRows(b: Board, card: nat, author: nat, body: string, parent: Option<nat>)
    ensures var r := CheckParent(b, card, author, body, parent);
            && (r == Err(CardNotFound) <==> card !in b.cards)
            && (r == Err(NestedReply) <==>
                  && card in b.cards && parent.Some? && parent.value in b.comments
                  && b.comments[parent.value].card == card && !b.comments[parent.value].deleted
                  && b.comments[parent.value].parent.Some?)
            && (r == Err(ParentNotFound) <==>
                  && card in b.cards && parent.Some?
                  && (parent.value !in b.comments || b.comments[parent.value].card != card || b.comments[parent.value].deleted))
            && (r.Ok? <==>
                  && card in b.cards
                  && (parent.Some? ==>
                        && parent.value in b.comments && b.comments[parent.value].card == card
                        && !b.comments[parent.value].deleted && b.comments[parent.value].parent.None?))
            && (r.Ok? ==> r.value == Draft(card, b.cards[card], author, body, parent,
                                           if parent.Some? then Some(b.comments[parent.value].author) else None))
  {
  }

  /** The insert and the notices, whole: the row as drafted, one notice each, all else as before. */
  lemma InsertByRows(f: Forum, e: Event)
    requires e.InsertComment? && Enabled(f, e) && f.board.comments.Keys <= f.used
    ensures var f', d := Apply(f, e), f.drafts[e.req];
            var b, b' := f.board, f'.board;
            var fits := d.card in b.cards && (d.parent.Some? ==> d.parent.value in b.comments);
            && f'.drafts == f.drafts - {e.req} && f'.used == f.used + {e.id} && b'.cards == b.cards
            && (!fits ==> b' == b)
            && (fits ==>
                  && b'.comments == b.comments[e.id := Comment(d.card, d.parent, d.author, d.body, e.now, false)]
                  && (forall n :: n in b'.notices && n !in b.notices ==> n == e.n1 || n == e.n2)
                  && (forall n :: n in b.notices ==> n in b'.notices && b'.notices[n] == b.notices[n])
                  && (e.n1 in b'.notices <==> d.parentAuthor.Some? && d.parentAuthor.value != d.author)
                  && (e.n1 in b'.notices ==>
                        b'.notices[e.n1] == Notice(d.parentAuthor.value, d.author, d.card, AboutReply, e.id, None))
                  && (e.n2 in b'.notices <==> d.owner != d.author && d.parentAuthor != Some(d.owner))
                  && (e.n2 in b'.notices ==> b'.notices[e.n2] == Notice(d.owner, d.author, d.card, AboutComment, e.id, None)))
  {
  }

  /** The other steps, whole. A delete empties the text and marks the row; an edit changes a live row's text. */
  lemma StepsByRows(f: Forum, e: Event)
    requires Enabled(f, e) && !e.InsertComment?
    ensures var f' := Apply(f, e);
            var b, b' := f.board, f'.board;
            && f'.used == f.used
            && (e.OpenCard? ==> f' == f.(board := b.(cards := b.cards[e.card := e.owner])))
            && (e.CheckComment? ==>
                  var r := CheckParent(b, e.card, e.author, e.body, e.parent);
                  f' == if r.Ok? then f.(drafts := f.drafts[e.req := r.value]) else f)
            && (e.AbandonComment? ==> f' == f.(drafts := f.drafts - {e.req}))
            && (e.EditComment? ==>
                  if e.id in b.comments && !b.comments[e.id].deleted then
                    var c := b.comments[e.id];
                    f' == f.(board := b.(comments := b.comments[e.id := Comment(c.card, c.parent, c.author, e.body, c.createdAt, false)]))
                  else f' == f)
            && (e.DeleteComment? ==>
                  if e.id in b.comments && !b.comments[e.id].deleted then
                    var c := b.comments[e.id];
                    f' == f.(board := b.(comments := b.comments[e.id := Comment(c.card, c.parent, c.author, "", c.createdAt, true)]))
                  else f' == f)
            && (e.ReadNotices? || e.DeleteCard? ==> f'.drafts == f.drafts)
            && (e.ReadNotices? ==>
                  && b'.cards == b.cards && b'.comments == b.comments && b'.notices.Keys == b.notices.Keys
                  && forall n :: n in b.notices ==>
                       b'.notices[n] ==
                         if b.notices[n].user == e.user && b.notices[n].readAt.None? && (e.which.None? || e.which.value == n)
                         then b.notices[n].(readAt := Some(e.now)) else b.notices[n])
  {
  }

  /** Requests do not wait for each other: each may be checked, inserted or abandoned at any time, and rows changed meanwhile. */
  lemma RequestsInterleaveFreely(f: Forum)
    ensures forall req: nat, card, author, body, parent :: req !in f.drafts ==> Enabled(f, CheckComment(req, card, author, body, parent))
    ensures forall req: nat, id: nat, now, n1: nat, n2: nat ::
              req in f.drafts && id !in f.used && n1 != n2 && n1 !in f.board.notices && n2 !in f.board.notices
              ==> Enabled(f, InsertComment(req, id, now, n1, n2))
    ensures forall e: Event :: e.AbandonComment? || e.EditComment? || e.DeleteComment? || e.DeleteCard? || e.ReadNotices? ==> Enabled(f, e)
    ensures forall card, owner :: card !in f.board.cards ==> Enabled(f, OpenCard(card, owner))
  {
  }

  /** With the card go its comments, their replies and its notices; in a reachable state, those of that card and no other. */
  lemma DropByRows(b: Board, card: nat)
    requires TwoLevels(b)
    ensures var b' := DropCard(b, card);
            && b'.cards == b.cards - {card}
            && (forall id :: id in b'.comments <==> id in b.comments && b.comments[id].card != card)
            && (forall id :: id in b'.comments ==> b'.comments[id] == b.comments[id])
            && (forall n :: n in b'.notices <==> n in b.notices && b.notices[n].card != card)
            && (forall n :: n in b'.notices ==> b'.notices[n] == b.notices[n])
  {
    forall id | id in b.comments ensures GoesWith(b.comments, id, card) <==> b.comments[id].card == card {
      assert ReplyFits(b.comments, id);
    }
  }

  /** What the check of a request saw: the card, and for a reply a live root of it. */
  ghost predicate SeenAtCheck(b: Board, e: Event, d: Draft) {
    && e.CheckComment?
    && d.card == e.card && d.author == e.author && d.body == e.body && d.parent == e.parent
    && e.card in b.cards && d.owner == b.cards[e.card]
    && (e.parent.Some? ==>
          && e.parent.value in b.comments && b.comments[e.parent.value].card == e.card
          && !b.comments[e.parent.value].deleted && b.comments[e.parent.value].parent.None?
          && d.parentAuthor == Some(b.comments[e.parent.value].author))
  }

  /** Every pending draft goes back to a check that saw its parent live. */
  lemma {:induction false} DraftWasChecked(es: seq<Event>, r: nat) returns (a: nat)
    requires Legal(EmptyForum, es) && r in Run(EmptyForum, es).drafts
    ensures a < |es| && es[a].CheckComment? && es[a].req == r
    ensures SeenAtCheck(Run(EmptyForum, es[..a]).board, es[a], Run(EmptyForum, es).drafts[r])
    decreases |es|
  {
    var front, e := es[..|es| - 1], es[|es| - 1];
    var f := Run(EmptyForum, front);
    if r in f.drafts {
      a := DraftWasChecked(front, r);
      assert front[..a] == es[..a];
      DraftStays(f, e, r);
    } else {
      a := |es| - 1;
      DraftAppears(f, e, r);
    }
  }

  lemma DraftStays(f: Forum, e: Event, r: nat)
    requires Enabled(f, e) && r in f.drafts && r in Apply(f, e).drafts
    ensures Apply(f, e).drafts[r] == f.drafts[r]
  {
  }

  lemma DraftAppears(f: Forum, e: Event, r: nat)
    requires Enabled(f, e) && r !in f.drafts && r in Apply(f, e).drafts
    ensures e.CheckComment? && e.req == r && SeenAtCheck(f.board, e, Apply(f, e).drafts[r])
  {
    if e.CheckComment? { CheckByRows(f.board, e.card, e.author, e.body, e.parent); }
  }

  /**
   Over whole runs: each comment inserted (step n) is the one that was posted, and if it is a
   reply its parent was a live root of the card when the request was checked (step a).
   */
  lemma EachInsertWasChecked(es: seq<Event>, n: nat) returns (a: nat)
    requires Legal(EmptyForum, es) && n < |es| && es[n].InsertComment?
    requires es[n].id in Run(EmptyForum, es[..n + 1]).board.comments
    ensures a < n && es[a].CheckComment? && es[a].req == es[n].req
    ensures Run(EmptyForum, es[..n + 1]).board.comments[es[n].id]
            == Comment(es[a].card, es[a].parent, es[a].author, es[a].body, es[n].now, false)
    ensures es[a].parent.Some? ==>
              var p, comments := es[a].parent.value, Run(EmptyForum, es[..a]).board.comments;
              p in comments && comments[p].card == es[a].card && !comments[p].deleted && comments[p].parent.None?
  {
    LegalBefore(es, n);
    var before := es[..n];
    assert es[..n + 1][..n] == before;
    EveryReplyUnderARoot(before);
    a := DraftWasChecked(before, es[n].req);
    assert before[..a] == es[..a];
    InsertByRows(Run(EmptyForum, before), es[n]);
  }

  lemma {:induction false} LegalBefore(es: seq<Event>, n: nat)
    requires Legal(EmptyForum, es) && n < |es|
    ensures Legal(EmptyForum, es[..n]) && Enabled(Run(EmptyForum, es[..n]), es[n])
    decreases |es|
  {
    if n < |es| - 1 {
      LegalBefore(es[..|es| - 1], n);
      assert es[..|es| - 1][..n] == es[..n];
    }
  }

  // ---- listing --------------------------------------------------------------------------------

  lemma OlderOnRows(b: Board, x: nat, y: nat)
    requires x in b.comments && y in b.comments
    ensures Less(KeyOf(b, x), KeyOf(b, y)) <==>
              b.comments[x].createdAt < b.comments[y].createdAt || (b.comments[x].createdAt == b.comments[y].createdAt && x < y)
  {
    var s, t := [b.comments[x].createdAt], [b.comments[y].createdAt];
    assert s[1..] == [] && t[1..] == [];
    assert LexLess(s, t) <==> b.comments[x].createdAt < b.comments[y].createdAt;
  }

  /** Oldest first, ids deciding between equals. */
  ghost predicate OldestFirst(b: Board, ids: seq<nat>) {
    && (forall id :: id in ids ==> id in b.comments)
    && forall i, j :: 0 <= i < j < |ids| ==>
         || b.comments[ids[i]].createdAt < b.comments[ids[j]].createdAt
         || (b.comments[ids[i]].createdAt == b.comments[ids[j]].createdAt && ids[i] < ids[j])
  }

  lemma SortedIdsOldestFirst(b: Board, s: set<Key>)
    requires forall k :: k in s ==> k.minor >= 0 && RowId(k) in b.comments && k == KeyOf(b, RowId(k))
    ensures OldestFirst(b, IdsOf(Sorted(s)))
  {
    var keys, ids := Sorted(s), IdsOf(Sorted(s));
    SortedFacts(s);
    forall i | 0 <= i < |ids| ensures ids[i] in b.comments && keys[i] == KeyOf(b, ids[i]) {
      assert keys[i] in keys;
    }
    forall i, j | 0 <= i < j < |ids|
      ensures || b.comments[ids[i]].createdAt < b.comments[ids[j]].createdAt
              || (b.comments[ids[i]].createdAt == b.comments[ids[j]].createdAt && ids[i] < ids[j])
    {
      assert Less(keys[i], keys[j]);
      OlderOnRows(b, ids[i], ids[j]);
    }
  }

  lemma ListedOnRows(b: Board, card: nat, id: nat)
    ensures ListedRoot(b, card, id) <==>
              && id in b.comments && b.comments[id].card == card && b.comments[id].parent == None
              && (!b.comments[id].deleted
                  || exists r :: r in b.comments && b.comments[r].parent == Some(id) && !b.comments[r].deleted)
  {
  }

  /** The roots of a listing, oldest first: those of the card that are live or have a live reply. */
  lemma RootsByRows(b: Board, card: nat)
    ensures var threads := Listing(b, card);
            var roots := seq(|threads|, i requires 0 <= i < |threads| => threads[i].root);
            && OldestFirst(b, roots)
            && (forall id :: id in roots <==>
                  && id in b.comments && b.comments[id].card == card && b.comments[id].parent == None
                  && (!b.comments[id].deleted
                      || exists r :: r in b.comments && b.comments[r].parent == Some(id) && !b.comments[r].deleted))
  {
    var threads := Listing(b, card);
    var roots := seq(|threads|, i requires 0 <= i < |threads| => threads[i].root);
    assert roots == IdsOf(Sorted(RootKeys(b, card)));
    SortedIdsOldestFirst(b, RootKeys(b, card));
    forall id
      ensures id in roots <==>
                && id in b.comments && b.comments[id].card == card && b.comments[id].parent == None
                && (!b.comments[id].deleted
                    || exists r :: r in b.comments && b.comments[r].parent == Some(id) && !b.comments[r].deleted)
    {
      RootIds(b, card, id);
      ListedOnRows(b, card, id);
    }
  }

  /** The replies of each thread, oldest first: the live ones to its root. */
  lemma RepliesByRows(b: Board, card: nat, i: nat)
    requires i < |Listing(b, card)|
    ensures var t := Listing(b, card)[i];
            && OldestFirst(b, t.replies)
            && (forall id :: id in t.replies <==> id in b.comments && b.comments[id].parent == Some(t.root) && !b.comments[id].deleted)
  {
    var t := Listing(b, card)[i];
    SortedIdsOldestFirst(b, ReplyKeys(b, [t.root]));
    forall id ensures id in t.replies <==> id in b.comments && b.comments[id].parent == Some(t.root) && !b.comments[id].deleted {
      ReplyIds(b, t.root, id);
    }
  }

  /** A page is the stretch of the listing that starts at the offset and is at most the limit long. */
  lemma PageByRows(b: Board, card: nat, limit: nat, offset: nat)
    ensures var all, p := Listing(b, card), Page(b, card, limit, offset);
            && |p| == (if offset >= |all| then 0 else if |all| - offset < limit then |all| - offset else limit)
            && forall i :: 0 <= i < |p| ==> p[i] == all[offset + i]
  {
  }
}
