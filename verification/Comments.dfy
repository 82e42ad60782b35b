/**
 Comment threads. The table allows any depth and any parent; the two-level, same-card shape is
 kept by a check that runs before the insert, with other requests in between. The listing and
 the counts lean on that shape.
 */
module Comments {
  import opened Options

  datatype Comment = Comment(card: nat, parent: Option<nat>, author: nat, body: string, createdAt: int, deleted: bool)

  datatype Kind = AboutComment | AboutReply

  datatype Notice = Notice(user: nat, actor: nat, card: nat, kind: Kind, comment: nat, readAt: Option<int>)

  /** `cards` maps a card to its creator. */
  datatype Board = Board(cards: map<nat, nat>, comments: map<nat, Comment>, notices: map<nat, Notice>)

  // ---- statements -------------------------------------------------------------------------

  /** A comment request after its check: what it read, and what it will insert. */
  datatype Draft = Draft(card: nat, owner: nat, author: nat, body: string, parent: Option<nat>, parentAuthor: Option<nat>)

  datatype Refusal = CardNotFound | ParentNotFound | NestedReply

  /** The router's check of the parent, against the rows as they are now. */
  function CheckParent(b: Board, card: nat, author: nat, body: string, parent: Option<nat>): Result<Draft, Refusal> {
    if card !in b.cards then Err(CardNotFound)
    else match parent
      case None => Ok(Draft(card, b.cards[card], author, body, None, None))
      case Some(p) =>
        if p !in b.comments || b.comments[p].card != card || b.comments[p].deleted then Err(ParentNotFound)
        else if b.comments[p].parent.Some? then Err(NestedReply)
        else Ok(Draft(card, b.cards[card], author, body, parent, Some(b.comments[p].author)))
  }

  /** The foreign keys and the self-parent CHECK are all the table asks of a new row. */
  function Insert(b: Board, id: nat, d: Draft, now: int): Option<Board> {
    if id in b.comments || d.card !in b.cards || (d.parent.Some? && d.parent.value !in b.comments) then None
    else Some(b.(comments := b.comments[id := Comment(d.card, d.parent, d.author, d.body, now, false)]))
  }

  /** Nobody is told of what they did themselves. */
  function Notify(b: Board, noticeId: nat, user: nat, actor: nat, card: nat, kind: Kind, comment: nat): Board {
    if user == actor then b
    else b.(notices := b.notices[noticeId := Notice(user, actor, card, kind, comment, None)])
  }

  /** The parent's author first, then the card's creator unless that is the same person. */
  function NotifyAll(b: Board, d: Draft, comment: nat, n1: nat, n2: nat): Board {
    var told := if d.parentAuthor.Some? then Notify(b, n1, d.parentAuthor.value, d.author, d.card, AboutReply, comment) else b;
    if d.parentAuthor != Some(d.owner) then Notify(told, n2, d.owner, d.author, d.card, AboutComment, comment) else told
  }

  function Edit(b: Board, id: nat, body: string): Board {
    if id in b.comments && !b.comments[id].deleted
    then b.(comments := b.comments[id := b.comments[id].(body := body)]) else b
  }

  /** The row stays, for the sake of its replies; its text goes. */
  function SoftDelete(b: Board, id: nat): Board {
    if id in b.comments && !b.comments[id].deleted
    then b.(comments := b.comments[id := b.comments[id].(deleted := true, body := "")]) else b
  }

  predicate GoesWith(comments: map<nat, Comment>, id: nat, card: nat) {
    id in comments &&
    (|| comments[id].card == card
     || (comments[id].parent.Some? && comments[id].parent.value in comments && comments[comments[id].parent.value].card == card))
  }

  /** ON DELETE CASCADE, from the card to its comments and from those to their replies. */
  function DropCard(b: Board, card: nat): Board {
    Board(b.cards - {card},
          map id | id in b.comments && !GoesWith(b.comments, id, card) :: b.comments[id],
          map n | n in b.notices && b.notices[n].card != card :: b.notices[n])
  }

  predicate Unread(b: Board, user: nat, which: Option<nat>, n: nat) {
    n in b.notices && b.notices[n].user == user && b.notices[n].readAt.None? && (which.None? || which == Some(n))
  }

  function UnreadSet(b: Board, user: nat, which: Option<nat>): set<nat> {
    set n | n in b.notices && Unread(b, user, which, n)
  }

  function MarkRead(b: Board, user: nat, which: Option<nat>, now: int): Board {
    b.(notices := map n | n in b.notices ::
      if Unread(b, user, which, n) then b.notices[n].(readAt := Some(now)) else b.notices[n])
  }

  // ---- the shape of threads ---------------------------------------------------------------

  ghost predicate ReplyFits(comments: map<nat, Comment>, id: nat)
    requires id in comments
  {
    comments[id].parent.Some? ==>
      var p := comments[id].parent.value;
      p in comments && comments[p].parent.None? && comments[p].card == comments[id].card
  }

  /** Each reply hangs under a root of its own card. */
  ghost predicate TwoLevels(b: Board) {
    && (forall id :: id in b.comments ==> ReplyFits(b.comments, id))
    && (forall id :: id in b.comments ==> b.comments[id].card in b.cards)
  }

  /** The board with the comment requests between their check and their insert. */
  datatype Forum = Forum(board: Board, drafts: map<nat, Draft>, used: set<nat>)

  datatype Event =
    | OpenCard(card: nat, owner: nat)
    | CheckComment(req: nat, card: nat, author: nat, body: string, parent: Option<nat>)
    | InsertComment(req: nat, id: nat, now: int, n1: nat, n2: nat)
    | AbandonComment(req: nat)
    | EditComment(id: nat, body: string)
    | DeleteComment(id: nat)
    | DeleteCard(card: nat)
    | ReadNotices(user: nat, which: Option<nat>, now: int)

  /** Ids are generated, and never twice. */
  ghost predicate Enabled(f: Forum, e: Event) {
    match e
    case CheckComment(req, _, _, _, _) => req !in f.drafts
    case InsertComment(req, id, _, n1, n2) =>
      req in f.drafts && id !in f.used && n1 != n2 && n1 !in f.board.notices && n2 !in f.board.notices
    case OpenCard(card, _) => card !in f.board.cards
    case _ => true
  }

  function Apply(f: Forum, e: Event): Forum {
    match e
    case OpenCard(card, owner) => f.(board := f.board.(cards := f.board.cards[card := owner]))
    case CheckComment(req, card, author, body, parent) =>
      (match CheckParent(f.board, card, author, body, parent)
       case Ok(d) => f.(drafts := f.drafts[req := d])
       case Err(_) => f)
    case InsertComment(req, id, now, n1, n2) =>
      if req !in f.drafts then f
      else
        var d := f.drafts[req];
        (match Insert(f.board, id, d, now)
         case None => f.(drafts := f.drafts - {req}, used := f.used + {id})
         case Some(b) => Forum(NotifyAll(b, d, id, n1, n2), f.drafts - {req}, f.used + {id}))
    case AbandonComment(req) => f.(drafts := f.drafts - {req})
    case EditComment(id, body) => f.(board := Edit(f.board, id, body))
    case DeleteComment(id) => f.(board := SoftDelete(f.board, id))
    case DeleteCard(card) => f.(board := DropCard(f.board, card))
    case ReadNotices(user, which, now) => f.(board := MarkRead(f.board, user, which, now))
  }

  const EmptyForum := Forum(Board(map[], map[], map[]), map[], {})

  function Run(f: Forum, es: seq<Event>): Forum
    decreases |es|
  {
    if es == [] then f else Apply(Run(f, es[..|es| - 1]), es[|es| - 1])
  }

  ghost predicate Legal(f: Forum, es: seq<Event>)
    decreases |es|
  {
    es == [] || (Legal(f, es[..|es| - 1]) && Enabled(Run(f, es[..|es| - 1]), es[|es| - 1]))
  }

  /** A draft's parent, as long as it exists, is still the root it was when it was checked. */
  ghost predicate DraftFits(d: Draft, f: Forum) {
    d.parent.Some? ==>
      var p := d.parent.value;
      p in f.used &&
      (p in f.board.comments ==> f.board.comments[p].parent.None? && f.board.comments[p].card == d.card)
  }

  ghost predicate Inv(f: Forum) {
    && TwoLevels(f.board)
    && f.board.comments.Keys <= f.used
    && (forall r :: r in f.drafts ==> DraftFits(f.drafts[r], f))
  }

  /** Comments keep their card and parent, and no removed one comes back. */
  ghost predicate KeepsPlaces(f: Forum, f': Forum) {
    && f.used <= f'.used
    && (forall id :: id in f'.board.comments && id in f.used ==>
          id in f.board.comments && f'.board.comments[id].parent == f.board.comments[id].parent
          && f'.board.comments[id].card == f.board.comments[id].card)
  }

  lemma DraftsKeepFitting(f: Forum, f': Forum)
    requires Inv(f) && KeepsPlaces(f, f')
    requires forall r :: r in f'.drafts ==> r in f.drafts && f'.drafts[r] == f.drafts[r]
    ensures forall r :: r in f'.drafts ==> DraftFits(f'.drafts[r], f')
  {
    forall r | r in f'.drafts ensures DraftFits(f'.drafts[r], f') {
      assert DraftFits(f.drafts[r], f);
    }
  }

  lemma NoticesAside(b: Board, d: Draft, comment: nat, n1: nat, n2: nat)
    ensures var b' := NotifyAll(b, d, comment, n1, n2);
            b'.comments == b.comments && b'.cards == b.cards
  {
  }

  lemma InsertKeepsInv(f: Forum, e: Event)
    requires Inv(f) && Enabled(f, e) && e.InsertComment?
    ensures Inv(Apply(f, e))
  {
    var f' := Apply(f, e);
    var d := f.drafts[e.req];
    assert DraftFits(d, f);
    var inserted := Insert(f.board, e.id, d, e.now);
    if inserted.Some? {
      NoticesAside(inserted.value, d, e.id, e.n1, e.n2);
      var comments' := f'.board.comments;
      forall id | id in comments' ensures ReplyFits(comments', id) {
        if id != e.id { assert ReplyFits(f.board.comments, id); }
      }
    }
    DraftsKeepFitting(f, f');
  }

  lemma DropKeepsInv(f: Forum, card: nat)
    requires Inv(f)
    ensures Inv(Apply(f, DeleteCard(card)))
  {
    var f' := Apply(f, DeleteCard(card));
    var comments' := f'.board.comments;
    forall id | id in comments' ensures ReplyFits(comments', id) && comments'[id].card in f'.board.cards {
      assert ReplyFits(f.board.comments, id);
      if comments'[id].parent.Some? {
        var p := comments'[id].parent.value;
        assert !GoesWith(f.board.comments, p, card);
      }
    }
    DraftsKeepFitting(f, f');
  }

  /** Edits and soft deletes touch neither card nor parent. */
  lemma TextStepKeepsInv(f: Forum, e: Event)
    requires Inv(f) && (e.EditComment? || e.DeleteComment?)
    ensures Inv(Apply(f, e))
  {
    var f' := Apply(f, e);
    var comments' := f'.board.comments;
    forall id | id in comments' ensures ReplyFits(comments', id) {
      assert ReplyFits(f.board.comments, id);
    }
    DraftsKeepFitting(f, f');
  }

  lemma CheckKeepsInv(f: Forum, e: Event)
    requires Inv(f) && e.CheckComment?
    ensures Inv(Apply(f, e))
  {
    var f' := Apply(f, e);
    forall r | r in f'.drafts ensures DraftFits(f'.drafts[r], f') {
      if r in f.drafts { assert DraftFits(f.drafts[r], f); }
    }
  }

  lemma StepKeepsInv(f: Forum, e: Event)
    requires Inv(f) && Enabled(f, e)
    ensures Inv(Apply(f, e))
  {
    match e
    case InsertComment(_, _, _, _, _) => InsertKeepsInv(f, e);
    case DeleteCard(card) => DropKeepsInv(f, card);
    case EditComment(_, _) => TextStepKeepsInv(f, e);
    case DeleteComment(_) => TextStepKeepsInv(f, e);
    case CheckComment(_, _, _, _, _) => CheckKeepsInv(f, e);
    case OpenCard(_, _) =>
      forall id | id in f.board.comments ensures ReplyFits(Apply(f, e).board.comments, id) {
        assert ReplyFits(f.board.comments, id);
      }
      DraftsKeepFitting(f, Apply(f, e));
    case AbandonComment(_) => DraftsKeepFitting(f, Apply(f, e));
    case ReadNotices(_, _, _) => DraftsKeepFitting(f, Apply(f, e));
  }

  /** However checks, inserts and deletes interleave, every reply hangs under a root of its own card. */
  lemma {:induction false} EveryReplyUnderARoot(es: seq<Event>)
    requires Legal(EmptyForum, es)
    ensures Inv(Run(EmptyForum, es)) && TwoLevels(Run(EmptyForum, es).board)
    decreases |es|
  {
    if es != [] {
      EveryReplyUnderARoot(es[..|es| - 1]);
      StepKeepsInv(Run(EmptyForum, es[..|es| - 1]), es[|es| - 1]);
    }
  }
}
