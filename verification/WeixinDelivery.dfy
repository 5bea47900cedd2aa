/** Redelivery and idempotency keys: which gateway calls a run of the bridge can make.

    The server's stream has an order; the saved cursor is a position in it. A pass delivers
    the messages from the cursor on. It can stop anywhere and is then repeated with a list
    that extends the earlier one. */
module WeixinDelivery {
  import opened Prelude
  import opened WeixinMessage
  import opened WeixinState

  /** A prompt that was sent to the gateway. */
  datatype Call = Call(requestId: RequestId, prompt: string, images: seq<Image>, sessionId: string)

  predicate Mentions(c: Call, id: Id) {
    match c.requestId
    case Single(i) => i == id
    case Batch(ids) => id in ids
  }

  /** One key, one prompt, one list of images. */
  predicate SamePayload(c: Call, requestId: RequestId, prompt: string, images: seq<Image>) {
    c.requestId == requestId && c.prompt == prompt && c.images == images
  }

  /** The server's stream: the ids in order, what each stands for, and the bound on the
      number of messages that can be delivered past the cursor. */
  datatype Feed = Feed(order: seq<Id>, messages: map<Id, Message>, limit: nat)

  ghost predicate FeedOk(f: Feed) {
    && f.limit >= 1 && NoDup(f.order)
    && forall i | 0 <= i < |f.order| :: f.order[i] in f.messages && f.messages[f.order[i]].id == f.order[i]
  }

  /** The durable state, the gateway's log, and the history that the proof keeps: every id
      that was recorded or lies behind the cursor, the ids recorded since the cursor was
      saved, and how far into the stream the passes have got. */
  datatype World = World(state: BridgeState, log: seq<Call>, consumed: set<Id>, recent: seq<Id>, high: nat)

  ghost predicate WindowOk(f: Feed, w: World) {
    && w.state.cursor <= w.high <= |f.order| && w.high - w.state.cursor <= f.limit
    && WindowInv(w.state.processed, f.limit)
    && |w.recent| <= |w.state.processed|
    && w.recent == w.state.processed[|w.state.processed| - |w.recent|..]
    && (forall id | id in w.recent :: id in f.order[w.state.cursor..w.high])
    && (forall id | id in w.state.processed :: id in w.consumed)
    && (forall i | 0 <= i < w.state.cursor :: f.order[i] in w.consumed)
    && (forall i | w.state.cursor <= i < |f.order| :: f.order[i] in w.consumed ==> f.order[i] in w.recent)
  }

  ghost predicate HasText(f: Feed, i: nat)
    requires FeedOk(f) && i < |f.order|
  {
    Prompt(f.messages[f.order[i]]).Some?
  }

  /** Only a message with text, or the one a pass stopped at, can be delivered and stay
      unrecorded. */
  ghost predicate DoneOk(f: Feed, w: World)
    requires FeedOk(f) && w.high <= |f.order|
  {
    forall i | w.state.cursor <= i < w.high - 1 :: f.order[i] in w.recent || HasText(f, i)
  }

  ghost predicate PendingOk(w: World) {
    w.state.pending.Some? ==>
      && (forall id | id in w.state.pending.value.messageIds :: id in w.consumed)
      && (w.state.pending.value.Dispatching? ==>
          w.state.pending.value.requestId == Batch(w.state.pending.value.messageIds))
  }

  /** A plain text prompt is what its own message says; a batch prompt has recorded members. */
  ghost predicate CallOk(f: Feed, w: World, c: Call) {
    match c.requestId
    case Single(id) =>
      && id in f.messages && Prompt(f.messages[id]) == Some(c.prompt)
      && Pictures(f.messages[id]) == [] && c.images == []
      && w.high <= |f.order| && id in f.order[..w.high]
      && (id in w.consumed || !IsCollecting(w.state.pending))
    case Batch(ids) => forall id | id in ids :: id in w.consumed
  }

  /** No message is mentioned by two calls of different payload. */
  ghost predicate OnePayload(log: seq<Call>) {
    forall c, d, id | c in log && d in log && Mentions(c, id) && Mentions(d, id) ::
      SamePayload(c, d.requestId, d.prompt, d.images)
  }

  /** A call that mentions a member of the pending batch is the call of that batch. */
  ghost predicate PendingUnsaid(w: World) {
    forall c, id | c in w.log && w.state.pending.Some? && Mentions(c, id) && id in w.state.pending.value.messageIds ::
      w.state.pending.value.Dispatching? &&
      SamePayload(c, w.state.pending.value.requestId, w.state.pending.value.prompt, w.state.pending.value.images)
  }

  ghost predicate LogOk(f: Feed, w: World) {
    (forall c | c in w.log :: CallOk(f, w, c)) && OnePayload(w.log) && PendingUnsaid(w)
  }

  ghost predicate Good(f: Feed, w: World) {
    FeedOk(f) && WindowOk(f, w) && DoneOk(f, w) && PendingOk(w) && LogOk(f, w)
  }

  /** In a pass, when position i is next: everything before it was recorded or has text, and
      an unrecorded text that was sent before comes again. */
  ghost predicate PassAt(f: Feed, w: World, i: nat)
    requires FeedOk(f)
  {
    && w.state.cursor <= i <= |f.order|
    && (forall j | w.state.cursor <= j < i :: f.order[j] in w.recent || HasText(f, j))
    && (forall c | c in w.log :: c.requestId.Single? && c.requestId.id !in w.consumed ==> c.requestId.id in f.order[i..])
  }

  // ----- the beginning -----

  lemma GoodAtStart(f: Feed, enabled: bool, auth: Option<Auth>, session: Option<string>)
    requires FeedOk(f)
    ensures Good(f, World(EMPTY_STATE.(enabled := enabled, auth := auth, defaultSession := session), [], {}, [], 0))
  {
  }

  lemma PassStarts(f: Feed, w: World)
    requires Good(f, w)
    ensures PassAt(f, w, w.state.cursor)
  {
    forall c | c in w.log && c.requestId.Single? && c.requestId.id !in w.consumed
      ensures c.requestId.id in f.order[w.state.cursor..]
    {
      assert CallOk(f, w, c);
      var k :| 0 <= k < w.high && f.order[..w.high][k] == c.requestId.id;
      assert f.order[w.state.cursor..][k - w.state.cursor] == c.requestId.id;
    }
  }

  // ----- recording a message -----

  /** Distinct ids that all occur in a list are not more than the list. */
  lemma {:induction false} NotMoreThan(s: seq<Id>, t: seq<Id>)
    requires NoDup(s) && forall id | id in s :: id in t
    ensures |s| <= |t|
    decreases |s|
  {
    if s != [] {
      var last := s[|s| - 1];
      assert last in s;
      var k :| 0 <= k < |t| && t[k] == last;
      var t' := t[..k] + t[k + 1..];
      forall id | id in s[..|s| - 1]
        ensures id in t'
      {
        var j :| 0 <= j < |s| - 1 && s[j] == id;
        assert id != last && s[j] in s;
        var n :| 0 <= n < |t| && t[n] == id;
        assert if n < k then t'[n] == id else t'[n - 1] == id;
      }
      NotMoreThan(s[..|s| - 1], t');
    }
  }

  function Recorded(f: Feed, w: World, id: Id): World {
    w.(state := WithProcessed(w.state, id, f.limit), consumed := w.consumed + {id}, recent := w.recent + [id])
  }

  lemma SuffixAfterRecording(state: BridgeState, recent: seq<Id>, id: Id, limit: nat)
    requires 1 <= |recent| + 1 <= limit && id !in state.processed && |recent| <= |state.processed|
    requires recent == state.processed[|state.processed| - |recent|..]
    ensures var processed := WithProcessed(state, id, limit).processed;
      && |recent + [id]| <= |processed|
      && processed[|processed| - |recent + [id]|..] == recent + [id]
      && forall p | p in processed :: p == id || p in state.processed
  {
    var all := state.processed + [id];
    assert all == state.processed[..|state.processed| - |recent|] + (recent + [id]);
  }

  lemma RecentAreNew(w: World, id: Id)
    requires NoDup(w.state.processed) && id !in w.state.processed && |w.recent| <= |w.state.processed|
    requires w.recent == w.state.processed[|w.state.processed| - |w.recent|..]
    ensures NoDup(w.recent + [id])
  {
  }

  /** Nothing recorded since the cursor falls out of the window. */
  lemma WindowAfterRecording(f: Feed, w: World, i: nat)
    requires FeedOk(f) && WindowOk(f, w) && w.state.cursor <= i < w.high && f.order[i] !in w.state.processed
    ensures WindowOk(f, Recorded(f, w, f.order[i]))
  {
    var id, since := f.order[i], f.order[w.state.cursor..w.high];
    assert since[i - w.state.cursor] == id;
    RecentAreNew(w, id);
    NotMoreThan(w.recent + [id], since);
    WithProcessedKeeps(w.state, id, f.limit);
    SuffixAfterRecording(w.state, w.recent, id, f.limit);
  }

  // ----- what a message that is not recorded yet tells about the log -----

  lemma UnrecordedIsNew(f: Feed, w: World, i: nat)
    requires FeedOk(f) && WindowOk(f, w) && w.state.cursor <= i < |f.order| && f.order[i] !in w.state.processed
    ensures f.order[i] !in w.consumed
  {
  }

  ghost predicate Unsaid(log: seq<Call>, id: Id) {
    forall c | c in log :: !Mentions(c, id)
  }

  /** A message with pictures, or any message while a batch collects, was never sent. */
  lemma PictureIsUnsaid(f: Feed, w: World, i: nat)
    requires Good(f, w) && w.state.cursor <= i < |f.order| && f.order[i] !in w.state.processed
    requires var m := f.messages[f.order[i]];
      Pictures(m) != [] || Prompt(m).None? || IsCollecting(w.state.pending)
    ensures Unsaid(w.log, f.order[i])
  {
    UnrecordedIsNew(f, w, i);
    forall c | c in w.log
      ensures !Mentions(c, f.order[i])
    {
      assert CallOk(f, w, c);
    }
  }

  ghost predicate SinglesRecorded(w: World) {
    forall c | c in w.log :: c.requestId.Single? ==> c.requestId.id in w.consumed
  }

  /** When a message without text is handled for the first time, no text is in doubt. */
  lemma NoTextInDoubt(f: Feed, w: World, i: nat)
    requires Good(f, w) && PassAt(f, w, i) && i < w.high && f.order[i] !in w.state.processed
    requires !HasText(f, i)
    ensures SinglesRecorded(w)
  {
    assert i == w.high - 1;
    forall c | c in w.log && c.requestId.Single?
      ensures c.requestId.id in w.consumed
    {
      assert CallOk(f, w, c);
    }
  }

  // ----- the steps of a pass -----

  function Entered(w: World, i: nat): World { w.(high := if i + 1 > w.high then i + 1 else w.high) }

  lemma EnterKeeps(f: Feed, w: World, i: nat)
    requires Good(f, w) && PassAt(f, w, i) && i < |f.order| && i + 1 - w.state.cursor <= f.limit
    ensures Good(f, Entered(w, i)) && PassAt(f, Entered(w, i), i)
  {
    var w' := Entered(w, i);
    forall id | id in w.recent
      ensures id in f.order[w.state.cursor..w'.high]
    {
      assert id in f.order[w.state.cursor..w.high];
      var k :| 0 <= k < |f.order[w.state.cursor..w.high]| && f.order[w.state.cursor..w.high][k] == id;
      assert f.order[w.state.cursor..w'.high][k] == id;
    }
    forall c | c in w.log
      ensures CallOk(f, w', c)
    {
      assert CallOk(f, w, c);
      if c.requestId.Single? {
        var k :| 0 <= k < w.high && f.order[..w.high][k] == c.requestId.id;
        assert f.order[..w'.high][k] == c.requestId.id;
      }
    }
  }

  lemma StepOver(f: Feed, w: World, i: nat)
    requires FeedOk(f) && PassAt(f, w, i) && i < |f.order|
    requires f.order[i] in w.recent || HasText(f, i)
    requires forall c | c in w.log :: c.requestId.Single? && c.requestId.id !in w.consumed ==> c.requestId.id != f.order[i]
    ensures PassAt(f, w, i + 1)
  {
    forall c | c in w.log && c.requestId.Single? && c.requestId.id !in w.consumed
      ensures c.requestId.id in f.order[i + 1..]
    {
      var k :| 0 <= k < |f.order[i..]| && f.order[i..][k] == c.requestId.id;
      assert f.order[i + 1..][k - 1] == c.requestId.id;
    }
  }

  lemma SkipKeeps(f: Feed, w: World, i: nat)
    requires Good(f, w) && PassAt(f, w, i) && i < |f.order| && f.order[i] in w.state.processed
    ensures PassAt(f, w, i + 1)
  {
    assert f.order[i] in w.consumed;
    StepOver(f, w, i);
  }

  /** A text that is dropped because another session's batch collects. */
  lemma LostKeeps(f: Feed, w: World, i: nat)
    requires Good(f, w) && PassAt(f, w, i) && i < |f.order|
    requires HasText(f, i) && IsCollecting(w.state.pending)
    ensures PassAt(f, w, i + 1)
  {
    forall c | c in w.log
      ensures c.requestId.Single? ==> c.requestId.id in w.consumed
    {
      assert CallOk(f, w, c);
    }
    StepOver(f, w, i);
  }

  lemma RecordedPass(f: Feed, w: World, i: nat)
    requires FeedOk(f) && PassAt(f, w, i) && i < |f.order|
    ensures PassAt(f, Recorded(f, w, f.order[i]), i + 1)
  {
    var w' := Recorded(f, w, f.order[i]);
    assert w'.recent[|w.recent|] == f.order[i];
    assert PassAt(f, w', i);
    StepOver(f, w', i);
  }

  lemma RecordedDone(f: Feed, w: World, id: Id)
    requires FeedOk(f) && w.high <= |f.order| && DoneOk(f, w)
    ensures DoneOk(f, Recorded(f, w, id))
  {
  }

  /** Line 383 of bridge.ts and the early returns: record the message, leave the batch alone. */
  lemma MarkKeeps(f: Feed, w: World, i: nat)
    requires Good(f, w) && PassAt(f, w, i) && i < w.high && f.order[i] !in w.state.processed
    ensures Good(f, Recorded(f, w, f.order[i])) && PassAt(f, Recorded(f, w, f.order[i]), i + 1)
  {
    var w' := Recorded(f, w, f.order[i]);
    WindowAfterRecording(f, w, i);
    RecordedPass(f, w, i);
    RecordedDone(f, w, f.order[i]);
    hide WindowOk, DoneOk, PassAt, FeedOk;
    forall c | c in w.log
      ensures CallOk(f, w', c)
    {
      assert CallOk(f, w, c);
    }
  }

  /** The batch after message `id` joined it. */
  ghost predicate Joined(before: Option<PendingBatch>, after: Option<PendingBatch>, id: Id) {
    && after.Some? && !IsDispatching(before)
    && after.value.messageIds == (if before.Some? then before.value.messageIds else []) + [id]
    && (after.value.Dispatching? ==> after.value.requestId == Batch(after.value.messageIds))
  }

  function JoinedWorld(f: Feed, w: World, pending: Option<PendingBatch>, id: Id): World {
    Recorded(f, w.(state := w.state.(pending := pending)), id)
  }

  /** A message joins the batch and is recorded in the same write. */
  lemma JoinKeeps(f: Feed, w: World, i: nat, pending: Option<PendingBatch>)
    requires Good(f, w) && PassAt(f, w, i) && i < w.high && f.order[i] !in w.state.processed
    requires Joined(w.state.pending, pending, f.order[i]) && Unsaid(w.log, f.order[i])
    requires IsCollecting(pending) ==> SinglesRecorded(w)
    ensures Good(f, JoinedWorld(f, w, pending, f.order[i])) && PassAt(f, JoinedWorld(f, w, pending, f.order[i]), i + 1)
  {
    var id := f.order[i];
    var w', v := JoinedWorld(f, w, pending, id), w.(state := w.state.(pending := pending));
    assert WindowOk(f, v) && DoneOk(f, v) && PassAt(f, v, i);
    WindowAfterRecording(f, v, i);
    RecordedPass(f, v, i);
    RecordedDone(f, v, id);
    assert PendingOk(w');
    hide WindowOk, DoneOk, PassAt, FeedOk, PendingOk;
    forall c | c in w.log
      ensures CallOk(f, w', c)
    {
      assert CallOk(f, w, c);
    }
    assert PendingUnsaid(w');
  }

  /** Good and PassAt look at the cursor, the processed ids and the batch only. */
  lemma NeutralKeeps(f: Feed, w: World, state: BridgeState)
    requires state.cursor == w.state.cursor && state.processed == w.state.processed && state.pending == w.state.pending
    ensures Good(f, w) ==> Good(f, w.(state := state))
    ensures forall i | FeedOk(f) && PassAt(f, w, i) :: PassAt(f, w.(state := state), i)
  {
    if Good(f, w) {
      var w' := w.(state := state);
      assert WindowOk(f, w') && DoneOk(f, w') && PendingOk(w');
      hide WindowOk, DoneOk, PassAt, FeedOk, PendingOk;
      forall c | c in w.log
        ensures CallOk(f, w', c)
      {
        assert CallOk(f, w, c);
      }
    }
  }

  /** A change of the batch alone that keeps its members, or drops it. */
  lemma PendingKeeps(f: Feed, w: World, pending: Option<PendingBatch>)
    requires Good(f, w)
    requires pending == None || (IsCollecting(w.state.pending) && IsDispatching(pending)
      && pending.value.messageIds == w.state.pending.value.messageIds
      && pending.value.requestId == Batch(pending.value.messageIds))
    ensures var w' := w.(state := w.state.(pending := pending));
      Good(f, w') && forall i | PassAt(f, w, i) :: PassAt(f, w', i)
  {
    var w' := w.(state := w.state.(pending := pending));
    assert WindowOk(f, w') && DoneOk(f, w') && PendingOk(w');
    hide WindowOk, DoneOk, FeedOk, PendingOk;
    forall c | c in w.log
      ensures CallOk(f, w', c)
    {
      assert CallOk(f, w, c);
    }
    assert PendingUnsaid(w');
  }

  function Said(w: World, c: Call): World { w.(log := w.log + [c]) }

  lemma SayKeepsOnePayload(w: World, call: Call)
    requires OnePayload(w.log)
    requires forall c, id | c in w.log && Mentions(c, id) && Mentions(call, id) ::
      SamePayload(c, call.requestId, call.prompt, call.images)
    ensures OnePayload(w.log + [call])
  {
  }

  /** The call of a dispatching batch, first or repeated. */
  lemma SayBatchKeeps(f: Feed, w: World, session: string)
    requires Good(f, w) && IsDispatching(w.state.pending)
    ensures var p := w.state.pending.value;
      var w' := Said(w, Call(p.requestId, p.prompt, p.images, session));
      Good(f, w') && forall i | PassAt(f, w, i) :: PassAt(f, w', i)
  {
    var p := w.state.pending.value;
    var call := Call(p.requestId, p.prompt, p.images, session);
    var w' := Said(w, call);
    assert WindowOk(f, w') && DoneOk(f, w') && PendingOk(w');
    hide WindowOk, DoneOk, FeedOk;
    forall c | c in w'.log
      ensures CallOk(f, w', c)
    {
      if c in w.log { assert CallOk(f, w, c); }
    }
    SayKeepsOnePayload(w, call);
    assert PendingUnsaid(w');
  }

  /** A plain text is sent under its own id. */
  lemma SayTextKeeps(f: Feed, w: World, i: nat, session: string)
    requires Good(f, w) && PassAt(f, w, i) && i < w.high && f.order[i] !in w.state.processed
    requires HasText(f, i) && Pictures(f.messages[f.order[i]]) == [] && !IsCollecting(w.state.pending)
    ensures var w' := Said(w, Call(Single(f.order[i]), Prompt(f.messages[f.order[i]]).value, [], session));
      Good(f, w') && PassAt(f, w', i)
  {
    var id := f.order[i];
    var call := Call(Single(id), Prompt(f.messages[id]).value, [], session);
    var w' := Said(w, call);
    UnrecordedIsNew(f, w, i);
    assert f.order[i..][0] == id && f.order[..w.high][i] == id;
    assert WindowOk(f, w') && DoneOk(f, w') && PendingOk(w');
    forall c | c in w.log && Mentions(c, id)
      ensures SamePayload(c, call.requestId, call.prompt, call.images)
    {
      assert CallOk(f, w, c);
    }
    SayKeepsOnePayload(w, call);
    hide WindowOk, DoneOk;
    forall c | c in w'.log
      ensures CallOk(f, w', c)
    {
      if c in w.log { assert CallOk(f, w, c); }
    }
    assert PendingUnsaid(w');
  }

  /** Line 396 of bridge.ts: the cursor moves past everything that was delivered so far. */
  function CursorSaved(f: Feed, w: World, cursor: nat): World
    requires cursor <= |f.order|
  {
    w.(state := w.state.(cursor := cursor), high := cursor, recent := [],
       consumed := w.consumed + set id | id in f.order[..cursor])
  }

  lemma CursorWindow(f: Feed, w: World, cursor: nat)
    requires FeedOk(f) && WindowOk(f, w) && w.high <= cursor <= |f.order|
    ensures WindowOk(f, CursorSaved(f, w, cursor))
  {
    forall i | cursor <= i < |f.order|
      ensures f.order[i] !in w.consumed && f.order[i] !in f.order[..cursor]
    {
    }
    forall i | 0 <= i < cursor
      ensures f.order[i] in f.order[..cursor]
    {
      assert f.order[..cursor][i] == f.order[i];
    }
  }

  lemma CursorKeeps(f: Feed, w: World, cursor: nat)
    requires Good(f, w) && w.high <= cursor <= |f.order|
    ensures Good(f, CursorSaved(f, w, cursor))
  {
    var w' := CursorSaved(f, w, cursor);
    CursorWindow(f, w, cursor);
    forall c | c in w.log
      ensures CallOk(f, w', c)
    {
      assert CallOk(f, w, c);
      if c.requestId.Single? {
        var k :| 0 <= k < w.high && f.order[..w.high][k] == c.requestId.id;
        assert f.order[..cursor][k] == c.requestId.id;
      }
    }
  }
}
