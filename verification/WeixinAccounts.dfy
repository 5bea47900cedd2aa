/** What became of every message: the books that the proof keeps beside the history of
    WeixinDelivery, and the steps of a pass that keep them.

    A message that was recorded is settled: it was not for the bridge, it was answered by a
    notice, it reached the gateway, its images could not be decoded, or it is a member of
    the pending batch. A message behind the cursor that was not recorded is a lost text. */
module WeixinAccounts {
  import opened Prelude
  import opened WeixinDelivery
  import opened WeixinMessage
  import opened WeixinState

  /** The requests given up because their images could not be decoded, the messages that were
      answered by a notice, the ones that were recorded, and the texts that were passed over. */
  datatype Books = Books(refused: seq<RequestId>, notices: set<Id>, marked: set<Id>, lost: set<Id>)

  // ----- whose messages reach the gateway -----

  /** The user who is signed in wrote the message. */
  predicate Authored(m: Message, auth: Option<Auth>) {
    auth.Some? && m.decoded && m.messageType == 1 && m.fromUserId == Some(auth.value.userId)
  }

  /** All its pictures can be fetched. */
  predicate Whole(m: Message) {
    forall i | 0 <= i < |m.parts| && m.parts[i].Picture? :: m.parts[i].image.Some?
  }

  /** The gateway may learn of a message. */
  predicate Own(f: Feed, auth: Option<Auth>, id: Id) {
    id in f.messages && Authored(f.messages[id], auth) && Whole(f.messages[id])
  }

  // ----- what a batch is made of -----

  /** The images of the members, in order. */
  function BatchImages(f: Feed, ids: seq<Id>): seq<Image> {
    if ids == [] then []
    else
      var last := ids[|ids| - 1];
      BatchImages(f, ids[..|ids| - 1]) + if last in f.messages then Pictures(f.messages[last]) else []
  }

  /** The text of the last member or, when that has none, the standard request. */
  function BatchPrompt(f: Feed, ids: seq<Id>): string
    requires ids != [] && ids[|ids| - 1] in f.messages
  {
    var text := Prompt(f.messages[ids[|ids| - 1]]);
    if text.Some? then text.value else StandardPrompt(BatchImages(f, ids))
  }

  ghost predicate Members(f: Feed, ids: seq<Id>) {
    ids != [] && forall id | id in ids :: id in f.messages
  }

  ghost predicate BatchFits(f: Feed, auth: Option<Auth>, pending: Option<PendingBatch>) {
    pending.Some? ==>
      && Members(f, pending.value.messageIds)
      && (forall id | id in pending.value.messageIds :: Own(f, auth, id))
      && pending.value.images == BatchImages(f, pending.value.messageIds)
      && (pending.value.Collecting? ==>
          forall id | id in pending.value.messageIds :: Prompt(f.messages[id]).None?)
      && (pending.value.Dispatching? ==> pending.value.prompt == BatchPrompt(f, pending.value.messageIds))
  }

  /** A call mentions own messages only, and the call of a batch carries its members' images and
      their text. */
  ghost predicate CallFits(f: Feed, auth: Option<Auth>, c: Call) {
    && (forall id | Mentions(c, id) :: Own(f, auth, id))
    && (c.requestId.Batch? ==>
        && Members(f, c.requestId.ids)
        && c.images == BatchImages(f, c.requestId.ids)
        && c.prompt == BatchPrompt(f, c.requestId.ids))
  }

  /** Only a request with images, of own messages, is given up. */
  ghost predicate RefusalFits(f: Feed, auth: Option<Auth>, r: RequestId) {
    r.Batch? && Members(f, r.ids) && BatchImages(f, r.ids) != [] && forall id | id in r.ids :: Own(f, auth, id)
  }

  // ----- what becomes of a message -----

  predicate Concerns(r: RequestId, id: Id) {
    match r
    case Single(i) => i == id
    case Batch(ids) => id in ids
  }

  ghost predicate Reached(log: seq<Call>, id: Id) {
    exists c :: c in log && Mentions(c, id)
  }

  ghost predicate GaveUp(refused: seq<RequestId>, id: Id) {
    exists r :: r in refused && Concerns(r, id)
  }

  predicate IsMember(pending: Option<PendingBatch>, id: Id) {
    pending.Some? && id in pending.value.messageIds
  }

  /** A message that may be answered by a notice: it has a picture that cannot be fetched, it
      refers to another message, or it holds neither text nor pictures. */
  predicate Noticeable(m: Message) {
    || !Whole(m) || Reference(m).Some?
    || (Pictures(m) == [] && (Prompt(m).None? || Prompt(m).value == ""))
  }

  ghost predicate Settled(f: Feed, w: World, b: Books, id: Id)
    requires id in f.messages
  {
    || !Authored(f.messages[id], w.state.auth)
    || (id in b.notices && Noticeable(f.messages[id]))
    || Reached(w.log, id)
    || GaveUp(b.refused, id)
    || IsMember(w.state.pending, id)
  }

  /** A text that the bridge looks into. */
  ghost predicate Losable(f: Feed, w: World, id: Id) {
    Own(f, w.state.auth, id) && Prompt(f.messages[id]).Some?
  }

  ghost predicate Fits(f: Feed, w: World, b: Books) {
    && BatchFits(f, w.state.auth, w.state.pending)
    && (forall c | c in w.log :: CallFits(f, w.state.auth, c))
    && (forall r | r in b.refused :: RefusalFits(f, w.state.auth, r))
  }

  /** Nobody else's message, and none whose pictures cannot be fetched, reaches the gateway, is
      part of a request that was given up, or waits in the batch. */
  ghost predicate OwnOnly(f: Feed, w: World, b: Books) {
    && (forall c, id | c in w.log && Mentions(c, id) :: Own(f, w.state.auth, id))
    && (forall r, id | r in b.refused && Concerns(r, id) :: Own(f, w.state.auth, id))
    && (forall id | IsMember(w.state.pending, id) :: Own(f, w.state.auth, id))
  }

  lemma FitsOwnOnly(f: Feed, w: World, b: Books)
    requires Fits(f, w, b)
    ensures OwnOnly(f, w, b)
  {
    hide Own, Members;
    forall c, id | c in w.log && Mentions(c, id)
      ensures Own(f, w.state.auth, id)
    {
      assert CallFits(f, w.state.auth, c);
    }
    forall r, id | r in b.refused && Concerns(r, id)
      ensures Own(f, w.state.auth, id)
    {
      assert RefusalFits(f, w.state.auth, r);
    }
  }

  /** Every message behind the cursor was recorded or lost, and never both. */
  ghost predicate Listed(f: Feed, w: World, b: Books) {
    && w.state.cursor <= |f.order|
    && (forall id | id in w.state.processed :: id in b.marked)
    && (forall i | 0 <= i < w.state.cursor :: f.order[i] in b.marked || f.order[i] in b.lost)
    && b.marked <= w.consumed
    && b.marked !! b.lost
    && (forall id | id in b.lost :: Losable(f, w, id))
  }

  ghost predicate AllSettled(f: Feed, w: World, b: Books) {
    forall id | id in b.marked :: id in f.messages && Settled(f, w, b, id)
  }

  ghost predicate Kept(f: Feed, w: World, b: Books) {
    Fits(f, w, b) && Listed(f, w, b) && AllSettled(f, w, b)
  }

  /** The history is good and the books are right. */
  ghost predicate Sound(f: Feed, w: World, b: Books) {
    Good(f, w) && Kept(f, w, b)
  }

  /** In a pass, when position i is next: every message before it was recorded or lost. */
  ghost predicate Passing(f: Feed, w: World, b: Books, i: nat)
    requires FeedOk(f)
  {
    PassAt(f, w, i) && forall j | w.state.cursor <= j < i :: f.order[j] in b.marked || f.order[j] in b.lost
  }

  // ----- settled stays settled -----

  /** Nothing that was done is undone, and a member that leaves the batch was spoken for. */
  ghost predicate Goes(w: World, b: Books, w': World, b': Books) {
    && w'.state.auth == w.state.auth && b.notices <= b'.notices
    && (forall c | c in w.log :: c in w'.log)
    && (forall r | r in b.refused :: r in b'.refused)
    && (forall id | IsMember(w.state.pending, id) ::
        IsMember(w'.state.pending, id) || Reached(w'.log, id) || GaveUp(b'.refused, id))
  }

  lemma SettledGoes(f: Feed, w: World, b: Books, w': World, b': Books)
    requires Goes(w, b, w', b')
    ensures forall id | id in f.messages && Settled(f, w, b, id) :: Settled(f, w', b', id)
  {
    forall id | id in f.messages && Settled(f, w, b, id)
      ensures Settled(f, w', b', id)
    {
      if Reached(w.log, id) {
        var c :| c in w.log && Mentions(c, id);
        assert c in w'.log;
      } else if GaveUp(b.refused, id) {
        var r :| r in b.refused && Concerns(r, id);
        assert r in b'.refused;
      }
    }
  }

  lemma SettledKept(f: Feed, w: World, b: Books, w': World, b': Books)
    requires Kept(f, w, b) && Goes(w, b, w', b') && Fits(f, w', b') && Listed(f, w', b')
    requires forall id | id in b'.marked && id !in b.marked :: id in f.messages && Settled(f, w', b', id)
    ensures Kept(f, w', b')
  {
    SettledGoes(f, w, b, w', b');
    hide Settled, Fits, Listed;
  }

  // ----- the steps -----

  lemma SayKept(f: Feed, w: World, b: Books, c: Call)
    requires Kept(f, w, b) && CallFits(f, w.state.auth, c)
    ensures Kept(f, Said(w, c), b)
  {
    hide CallFits, BatchFits, RefusalFits;
    SettledKept(f, w, b, Said(w, c), b);
  }

  function Given(b: Books, r: RequestId): Books { b.(refused := b.refused + [r]) }

  lemma GiveUpKept(f: Feed, w: World, b: Books, r: RequestId)
    requires Kept(f, w, b) && RefusalFits(f, w.state.auth, r)
    ensures Kept(f, w, Given(b, r))
  {
    hide CallFits, BatchFits, RefusalFits;
    SettledKept(f, w, b, w, Given(b, r));
  }

  function Noticed(b: Books, id: Id): Books { b.(notices := b.notices + {id}) }

  lemma NoticeKept(f: Feed, w: World, b: Books, id: Id)
    requires Kept(f, w, b)
    ensures Kept(f, w, Noticed(b, id))
  {
    hide CallFits, BatchFits, RefusalFits;
    SettledKept(f, w, b, w, Noticed(b, id));
  }

  function Booked(b: Books, id: Id): Books { b.(marked := b.marked + {id}, lost := b.lost - {id}) }

  lemma RecordedIds(state: BridgeState, id: Id, limit: nat)
    ensures var next := WithProcessed(state, id, limit);
      && next == state.(processed := next.processed)
      && forall p | p in next.processed :: p == id || p in state.processed
  {
  }

  lemma MarkKept(f: Feed, w: World, b: Books, id: Id)
    requires Kept(f, w, b) && id in f.messages && Settled(f, w, b, id)
    ensures Kept(f, Recorded(f, w, id), Booked(b, id))
  {
    hide CallFits, BatchFits, RefusalFits, WithProcessed;
    RecordedIds(w.state, id, f.limit);
    SettledGoes(f, w, b, Recorded(f, w, id), Booked(b, id));
    hide Settled;
    SettledKept(f, w, b, Recorded(f, w, id), Booked(b, id));
  }

  lemma JoinKept(f: Feed, w: World, b: Books, pending: Option<PendingBatch>, id: Id)
    requires Kept(f, w, b) && BatchFits(f, w.state.auth, pending) && id in f.messages && IsMember(pending, id)
    requires forall other | IsMember(w.state.pending, other) :: IsMember(pending, other)
    ensures Kept(f, JoinedWorld(f, w, pending, id), Booked(b, id))
  {
    hide CallFits, BatchFits, RefusalFits, WithProcessed;
    RecordedIds(w.state.(pending := pending), id, f.limit);
    SettledKept(f, w, b, JoinedWorld(f, w, pending, id), Booked(b, id));
  }

  /** The batch is closed for sending. */
  lemma CloseKept(f: Feed, w: World, b: Books, pending: Option<PendingBatch>)
    requires Kept(f, w, b) && BatchFits(f, w.state.auth, pending)
    requires forall id | IsMember(w.state.pending, id) :: IsMember(pending, id)
    ensures Kept(f, w.(state := w.state.(pending := pending)), b)
  {
    hide CallFits, BatchFits, RefusalFits;
    SettledKept(f, w, b, w.(state := w.state.(pending := pending)), b);
  }

  /** The request of a batch was sent or given up. */
  ghost predicate Reported(w: World, b: Books, r: RequestId) {
    r in b.refused || exists c :: c in w.log && c.requestId == r
  }

  lemma ClearKept(f: Feed, w: World, b: Books)
    requires Kept(f, w, b) && IsDispatching(w.state.pending)
    requires w.state.pending.value.requestId == Batch(w.state.pending.value.messageIds)
    requires Reported(w, b, w.state.pending.value.requestId)
    ensures Kept(f, w.(state := w.state.(pending := None)), b)
  {
    var p, w' := w.state.pending.value, w.(state := w.state.(pending := None));
    forall id | IsMember(w.state.pending, id)
      ensures Reached(w'.log, id) || GaveUp(b.refused, id)
    {
      if p.requestId in b.refused {
        assert Concerns(p.requestId, id);
      } else {
        var c :| c in w.log && c.requestId == p.requestId;
        assert Mentions(c, id);
      }
    }
    hide CallFits, RefusalFits, Reached, GaveUp;
    SettledKept(f, w, b, w', b);
  }

  function Missed(b: Books, id: Id): Books { b.(lost := b.lost + {id}) }

  lemma MissKept(f: Feed, w: World, b: Books, id: Id)
    requires Kept(f, w, b) && id !in b.marked && Losable(f, w, id)
    ensures Kept(f, w, Missed(b, id))
  {
    hide CallFits, BatchFits, RefusalFits;
    SettledKept(f, w, b, w, Missed(b, id));
  }

  lemma CursorKept(f: Feed, w: World, b: Books, cursor: nat)
    requires Kept(f, w, b) && cursor <= |f.order|
    requires forall i | 0 <= i < cursor :: f.order[i] in b.marked || f.order[i] in b.lost
    ensures Kept(f, CursorSaved(f, w, cursor), b)
  {
    hide CallFits, BatchFits, RefusalFits;
    SettledKept(f, w, b, CursorSaved(f, w, cursor), b);
  }

  lemma NeutralKept(f: Feed, w: World, b: Books, state: BridgeState)
    requires Kept(f, w, b) && state.auth == w.state.auth
    requires state.cursor == w.state.cursor && state.processed == w.state.processed && state.pending == w.state.pending
    ensures Kept(f, w.(state := state), b)
  {
    hide CallFits, BatchFits, RefusalFits;
    SettledKept(f, w, b, w.(state := state), b);
  }

  // ----- batches that grow and close -----

  lemma MembersGrow(f: Feed, ids: seq<Id>, id: Id)
    requires ids == [] || Members(f, ids)
    requires id in f.messages
    ensures Members(f, ids + [id])
    ensures BatchImages(f, ids + [id]) == BatchImages(f, ids) + Pictures(f.messages[id])
  {
    assert (ids + [id])[..|ids|] == ids;
  }

  /** A message that joins adds its pictures, and its text is the request. */
  lemma JoinFits(f: Feed, auth: Option<Auth>, before: Option<PendingBatch>, after: PendingBatch, id: Id)
    requires BatchFits(f, auth, before) && !IsDispatching(before) && Own(f, auth, id)
    requires after.messageIds == (if before.Some? then before.value.messageIds else []) + [id]
    requires after.images == (if before.Some? then before.value.images else []) + Pictures(f.messages[id])
    requires after.Collecting? ==> Prompt(f.messages[id]).None?
    requires after.Dispatching? ==> Prompt(f.messages[id]) == Some(after.prompt)
    ensures BatchFits(f, auth, Some(after))
  {
    MembersGrow(f, if before.Some? then before.value.messageIds else [], id);
    hide BatchImages;
  }

  /** A collecting batch that is closed asks the standard question. */
  lemma CloseFits(f: Feed, auth: Option<Auth>, p: PendingBatch)
    requires p.Collecting? && BatchFits(f, auth, Some(p))
    ensures BatchFits(f, auth, Some(Closed(p)))
    ensures Closed(p).prompt == if |BatchImages(f, p.messageIds)| == 1 then "请分析图片。" else "请分析这些图片。"
  {
    assert p.messageIds[|p.messageIds| - 1] in p.messageIds;
  }
}
