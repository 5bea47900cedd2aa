/** The durable state of the Weixin bridge (state.ts): pure transitions, and what every
    sequence of store operations keeps. */
module WeixinState {
  import opened Prelude

  type Id = string
  type Image = int

  /** The idempotency key of a gateway request: a message's own id, or the SHA-256 of the
      ids of a batch. The hash is taken to be injective. */
  datatype RequestId = Single(id: Id) | Batch(ids: seq<Id>)

  datatype PendingBatch =
    | Collecting(sessionId: string, userId: string, messageIds: seq<Id>, images: seq<Image>,
                 contextToken: string, deadlineAt: int)
    | Dispatching(sessionId: string, userId: string, messageIds: seq<Id>, images: seq<Image>,
                  contextToken: string, requestId: RequestId, prompt: string)

  datatype Auth = Auth(accountId: string, userId: string)

  /** `cursor` is a position in the server's update stream; "" is position 0. */
  datatype BridgeState = BridgeState(
    enabled: bool,
    cursor: nat,
    processed: seq<Id>,
    pending: Option<PendingBatch>,
    auth: Option<Auth>,
    defaultSession: Option<string>,
    contextToken: Option<string>)

  const EMPTY_STATE: BridgeState := BridgeState(false, 0, [], None, None, None, None)

  datatype Event =
    | CollectImages(sessionId: string, userId: string, messageId: Id, images: seq<Image>,
                    contextToken: string, deadlineAt: int)
    | DispatchImages(sessionId: string, userId: string, messageId: Id, images: seq<Image>,
                     contextToken: string, prompt: string)
    | FlushImages
    | ExpireImages(now: int)
    | CompleteImages(requestId: RequestId)

  /** `slice(-limit)`, which is the whole list when limit is 0. */
  function LastOf(ids: seq<Id>, limit: nat): seq<Id> {
    if limit == 0 || |ids| <= limit then ids else ids[|ids| - limit..]
  }

  /** Lines 149-155. */
  function WithProcessed(state: BridgeState, id: Id, limit: nat): BridgeState {
    if id in state.processed then state
    else state.(processed := LastOf(state.processed + [id], limit))
  }

  predicate IsCollecting(pending: Option<PendingBatch>) { pending.Some? && pending.value.Collecting? }

  predicate IsDispatching(pending: Option<PendingBatch>) { pending.Some? && pending.value.Dispatching? }

  /** The batch an event may join is the collecting one of the same session and user. */
  predicate Compatible(pending: Option<PendingBatch>, e: Event)
    requires e.CollectImages? || e.DispatchImages?
  {
    IsCollecting(pending) && pending.value.sessionId == e.sessionId && pending.value.userId == e.userId
  }

  datatype Members = Members(messageIds: seq<Id>, images: seq<Image>)

  /** Lines 157-179. */
  function AppendBatch(pending: Option<PendingBatch>, e: Event): Option<Members>
    requires e.CollectImages? || e.DispatchImages?
  {
    if pending.None? then
      Some(Members([e.messageId], e.images))
    else if !Compatible(pending, e) then
      None
    else if e.messageId in pending.value.messageIds then
      Some(Members(pending.value.messageIds, pending.value.images))
    else
      Some(Members(pending.value.messageIds + [e.messageId], pending.value.images + e.images))
  }

  function StandardPrompt(images: seq<Image>): string {
    if |images| == 1 then "请分析图片。" else "请分析这些图片。"
  }

  /** A collecting batch, closed for sending. */
  function Closed(p: PendingBatch): PendingBatch
    requires p.Collecting?
  {
    Dispatching(p.sessionId, p.userId, p.messageIds, p.images, p.contextToken, Batch(p.messageIds),
      StandardPrompt(p.images))
  }

  /** Lines 181-197. */
  function BeginCollectedDispatch(state: BridgeState): BridgeState {
    if !IsCollecting(state.pending) then state else state.(pending := Some(Closed(state.pending.value)))
  }

  /** Lines 199-263: `transitionInbound`. */
  function Transition(state: BridgeState, e: Event, limit: nat): BridgeState {
    match e
    case CollectImages(sessionId, userId, messageId, _, contextToken, deadlineAt) =>
      if IsDispatching(state.pending) then state
      else
        var batch := AppendBatch(state.pending, e);
        if batch.None? then state
        else
          WithProcessed(
            state.(pending := Some(Collecting(sessionId, userId, batch.value.messageIds, batch.value.images,
                                              contextToken, deadlineAt))),
            messageId, limit)
    case DispatchImages(sessionId, userId, messageId, _, contextToken, prompt) =>
      if IsDispatching(state.pending) then state
      else
        var batch := AppendBatch(state.pending, e);
        if batch.None? || batch.value.images == [] then state
        else
          WithProcessed(
            state.(pending := Some(Dispatching(sessionId, userId, batch.value.messageIds, batch.value.images,
                                               contextToken, Batch(batch.value.messageIds), prompt))),
            messageId, limit)
    case FlushImages => BeginCollectedDispatch(state)
    case ExpireImages(now) =>
      if !IsCollecting(state.pending) || now < state.pending.value.deadlineAt then state
      else BeginCollectedDispatch(state)
    case CompleteImages(requestId) =>
      if !IsDispatching(state.pending) || state.pending.value.requestId != requestId then state
      else state.(pending := None)
  }

  /** Every operation of the store, in the order of lines 270-304. */
  datatype StoreOp =
    | SaveAuth(auth: Auth)
    | ClearAuth
    | SetDefaultSession(session: string)
    | SetEnabled(enabled: bool)
    | SaveContextToken(token: string)
    | MarkProcessed(id: Id)
    | SaveCursor(cursor: nat)
    | Inbound(event: Event)
    | Logout

  function Apply(state: BridgeState, op: StoreOp, limit: nat): BridgeState {
    match op
    case SaveAuth(auth) =>
      var sameAccount := state.auth.Some? && state.auth.value.accountId == auth.accountId;
      state.(auth := Some(auth), cursor := 0, processed := [], pending := None,
             contextToken := if sameAccount then state.contextToken else None)
    case ClearAuth => state.(auth := None, cursor := 0, processed := [], pending := None, contextToken := None)
    case SetDefaultSession(session) => state.(defaultSession := Some(session))
    case SetEnabled(enabled) => state.(enabled := enabled)
    case SaveContextToken(token) => state.(contextToken := Some(token))
    case MarkProcessed(id) => WithProcessed(state, id, limit)
    case SaveCursor(cursor) => state.(cursor := cursor)
    case Inbound(event) => Transition(state, event, limit)
    case Logout => EMPTY_STATE.(defaultSession := state.defaultSession)
  }

  /** The operations that start an account over. */
  predicate ResetsAuth(op: StoreOp) { op.SaveAuth? || op.ClearAuth? || op.Logout? }

  // ----- what every run of the store keeps -----

  ghost predicate NoDup(ids: seq<Id>) {
    forall i, j | 0 <= i < j < |ids| :: ids[i] != ids[j]
  }

  /** What each member of the pending batch contributed. */
  type Gifts = map<Id, seq<Image>>

  function Gathered(ids: seq<Id>, gifts: Gifts): seq<Image> {
    if ids == [] then []
    else
      var last := ids[|ids| - 1];
      Gathered(ids[..|ids| - 1], gifts) + if last in gifts then gifts[last] else []
  }

  /** The gifts after `e` was accepted. */
  function GiftsWith(pending: Option<PendingBatch>, e: Event, gifts: Gifts): Gifts
    requires e.CollectImages? || e.DispatchImages?
  {
    if pending.Some? && e.messageId in pending.value.messageIds then gifts else gifts[e.messageId := e.images]
  }

  /** The history of gifts: a message that joins the batch brings its images, and a batch
      that starts or ends forgets the ones before it. */
  function NextGifts(state: BridgeState, op: StoreOp, limit: nat, gifts: Gifts): Gifts {
    var next := Apply(state, op, limit);
    if next.pending.None? then map[]
    else if op.Inbound? && (op.event.CollectImages? || op.event.DispatchImages?) && next.pending != state.pending then
      GiftsWith(state.pending, op.event, gifts)
    else gifts
  }

  /** The members are distinct and the images are theirs, in order. */
  ghost predicate MembersInv(ids: seq<Id>, images: seq<Image>, gifts: Gifts) {
    && ids != [] && NoDup(ids)
    && (forall id | id in ids :: id in gifts)
    && images == Gathered(ids, gifts)
  }

  ghost predicate BatchInv(pending: Option<PendingBatch>, gifts: Gifts) {
    pending.Some? ==>
      && MembersInv(pending.value.messageIds, pending.value.images, gifts)
      && (pending.value.Dispatching? ==> pending.value.requestId == Batch(pending.value.messageIds))
  }

  ghost predicate WindowInv(processed: seq<Id>, limit: nat) {
    NoDup(processed) && |processed| <= limit
  }

  function ApplyAll(state: BridgeState, ops: seq<StoreOp>, limit: nat): BridgeState {
    if ops == [] then state else Apply(ApplyAll(state, ops[..|ops| - 1], limit), ops[|ops| - 1], limit)
  }

  function GiftsOf(ops: seq<StoreOp>, limit: nat): Gifts {
    if ops == [] then map[]
    else NextGifts(ApplyAll(EMPTY_STATE, ops[..|ops| - 1], limit), ops[|ops| - 1], limit,
                   GiftsOf(ops[..|ops| - 1], limit))
  }

  lemma WithProcessedKeeps(state: BridgeState, id: Id, limit: nat)
    requires limit >= 1 && WindowInv(state.processed, limit)
    ensures var next := WithProcessed(state, id, limit);
      && WindowInv(next.processed, limit) && id in next.processed
      && next == state.(processed := next.processed)
  {
    var all := state.processed + [id];
    if id !in state.processed {
      assert LastOf(all, limit)[|LastOf(all, limit)| - 1] == id;
    }
  }

  lemma {:induction false} GatheredIgnores(ids: seq<Id>, gifts: Gifts, id: Id, images: seq<Image>)
    requires id !in ids
    ensures Gathered(ids, gifts[id := images]) == Gathered(ids, gifts)
    decreases |ids|
  {
    if ids != [] { GatheredIgnores(ids[..|ids| - 1], gifts, id, images); }
  }

  lemma MemberJoins(ids: seq<Id>, images: seq<Image>, gifts: Gifts, id: Id, more: seq<Image>)
    requires id !in ids && ((ids == [] && images == []) || MembersInv(ids, images, gifts))
    ensures MembersInv(ids + [id], images + more, gifts[id := more])
  {
    GatheredIgnores(ids, gifts, id, more);
    assert (ids + [id])[..|ids|] == ids;
  }

  lemma AppendGathers(pending: Option<PendingBatch>, e: Event, gifts: Gifts)
    requires BatchInv(pending, gifts) && (e.CollectImages? || e.DispatchImages?)
    ensures var batch := AppendBatch(pending, e);
      batch.Some? ==>
        && MembersInv(batch.value.messageIds, batch.value.images, GiftsWith(pending, e, gifts))
        && e.messageId in batch.value.messageIds
  {
    hide MembersInv;
    var batch := AppendBatch(pending, e);
    if batch.Some? {
      if pending.None? {
        MemberJoins([], [], gifts, e.messageId, e.images);
        assert [] + [e.messageId] == [e.messageId] && [] + e.images == e.images;
      } else if e.messageId !in pending.value.messageIds {
        MemberJoins(pending.value.messageIds, pending.value.images, gifts, e.messageId, e.images);
      }
    }
  }

  /** A message that joins is a new last member, and its images come last; one that is a
      member already changes nothing. Either way the members and their images stay in step. */
  lemma AppendKeeps(pending: Option<PendingBatch>, e: Event, gifts: Gifts)
    requires BatchInv(pending, gifts) && (e.CollectImages? || e.DispatchImages?)
    ensures var batch := AppendBatch(pending, e);
      batch.Some? ==>
        && MembersInv(batch.value.messageIds, batch.value.images, GiftsWith(pending, e, gifts))
        && e.messageId in batch.value.messageIds
        && if pending.Some? && e.messageId in pending.value.messageIds
           then batch.value == Members(pending.value.messageIds, pending.value.images)
           else
             && batch.value.messageIds == (if pending.Some? then pending.value.messageIds else []) + [e.messageId]
             && batch.value.images == (if pending.Some? then pending.value.images else []) + e.images
  {
    AppendGathers(pending, e, gifts);
    hide MembersInv, BatchInv;
    assert [] + [e.messageId] == [e.messageId] && [] + e.images == e.images;
  }

  lemma InboundKeeps(state: BridgeState, e: Event, limit: nat, gifts: Gifts)
    requires limit >= 1 && WindowInv(state.processed, limit) && BatchInv(state.pending, gifts)
    ensures var next := Transition(state, e, limit);
      WindowInv(next.processed, limit) && BatchInv(next.pending, NextGifts(state, Inbound(e), limit, gifts))
  {
    hide MembersInv, WindowInv;
    if e.CollectImages? || e.DispatchImages? {
      AppendGathers(state.pending, e, gifts);
      var batch := AppendBatch(state.pending, e);
      var next := Transition(state, e, limit);
      if next != state {
        hide AppendBatch;
        WithProcessedKeeps(state.(pending := next.pending), e.messageId, limit);
      }
    }
  }

  /** From the empty state, whatever is done to the store: the processed ids are distinct and
      within the limit, and the pending batch is well formed. */
  lemma {:induction false} StoreKeeps(ops: seq<StoreOp>, limit: nat)
    requires limit >= 1
    ensures var state := ApplyAll(EMPTY_STATE, ops, limit);
      WindowInv(state.processed, limit) && BatchInv(state.pending, GiftsOf(ops, limit))
    decreases |ops|
  {
    if ops != [] {
      StoreKeeps(ops[..|ops| - 1], limit);
      var before, op := ApplyAll(EMPTY_STATE, ops[..|ops| - 1], limit), ops[|ops| - 1];
      hide MembersInv;
      if op.Inbound? {
        InboundKeeps(before, op.event, limit, GiftsOf(ops[..|ops| - 1], limit));
      } else if op.MarkProcessed? {
        WithProcessedKeeps(before, op.id, limit);
      }
    }
  }

  /** A dispatching batch changes in one of three ways only: not at all, by its own
      completion, or by starting the account over. */
  lemma DispatchingIsFrozen(state: BridgeState, op: StoreOp, limit: nat)
    requires IsDispatching(state.pending)
    ensures Apply(state, op, limit).pending ==
      if ResetsAuth(op) || op == Inbound(CompleteImages(state.pending.value.requestId)) then None
      else state.pending
  {
  }

  /** With limit 0 the list is never cut: the bound needs a limit of at least 1. */
  lemma NoLimitNoBound(state: BridgeState, id: Id)
    ensures id !in state.processed ==> WithProcessed(state, id, 0).processed == state.processed + [id]
  {
  }

  // ----- what an account leaves behind -----

  lemma ApplyLast(ops: seq<StoreOp>, op: StoreOp, limit: nat)
    ensures ApplyAll(EMPTY_STATE, ops + [op], limit) == Apply(ApplyAll(EMPTY_STATE, ops, limit), op, limit)
  {
    assert (ops + [op])[..|ops|] == ops;
  }

  function AccountOf(state: BridgeState): Option<string> {
    if state.auth.Some? then Some(state.auth.value.accountId) else None
  }

  lemma TransitionChangesBatchOnly(state: BridgeState, e: Event, limit: nat)
    ensures var next := Transition(state, e, limit);
      next == state.(pending := next.pending, processed := next.processed)
  {
  }

  /** An operation that leaves a token, without saving one, leaves that token and the account. */
  lemma TokenSurvives(state: BridgeState, op: StoreOp, limit: nat)
    requires Apply(state, op, limit).contextToken.Some? && !op.SaveContextToken?
    ensures Apply(state, op, limit).contextToken == state.contextToken
    ensures AccountOf(Apply(state, op, limit)) == AccountOf(state)
  {
    if op.Inbound? { TransitionChangesBatchOnly(state, op.event, limit); }
  }

  /** A context token that is stored was saved under the account that is signed in now, and
      no other account was signed in, nor nobody, since then. */
  lemma {:induction false} TokenStaysWithAccount(ops: seq<StoreOp>, limit: nat) returns (i: nat)
    requires ApplyAll(EMPTY_STATE, ops, limit).contextToken.Some?
    ensures i < |ops| && ops[i] == SaveContextToken(ApplyAll(EMPTY_STATE, ops, limit).contextToken.value)
    ensures forall j | i < j <= |ops| ::
      AccountOf(ApplyAll(EMPTY_STATE, ops[..j], limit)) == AccountOf(ApplyAll(EMPTY_STATE, ops, limit))
    decreases |ops|
  {
    var before, op := ops[..|ops| - 1], ops[|ops| - 1];
    assert ops == before + [op] && ops[..|ops|] == ops;
    hide ApplyAll, Transition, WithProcessed;
    ApplyLast(before, op, limit);
    if op.SaveContextToken? {
      i := |before|;
      hide Apply, AccountOf;
    } else {
      TokenSurvives(ApplyAll(EMPTY_STATE, before, limit), op, limit);
      hide Apply, AccountOf;
      i := TokenStaysWithAccount(before, limit);
      forall j | i < j <= |ops|
        ensures AccountOf(ApplyAll(EMPTY_STATE, ops[..j], limit)) == AccountOf(ApplyAll(EMPTY_STATE, ops, limit))
      {
        if j < |ops| { assert ops[..j] == before[..j]; }
      }
    }
  }

  lemma TokenStep(state: BridgeState, op: StoreOp, limit: nat)
    requires !op.SaveContextToken?
    requires AccountOf(state).Some? && AccountOf(Apply(state, op, limit)) == AccountOf(state)
    ensures Apply(state, op, limit).contextToken == state.contextToken
  {
    if op.Inbound? { TransitionChangesBatchOnly(state, op.event, limit); }
  }

  /** And it is kept as long as that account stays signed in, also when it signs in again. */
  lemma {:induction false} TokenIsKept(before: seq<StoreOp>, token: string, after: seq<StoreOp>, account: string, limit: nat)
    requires forall op | op in after :: !op.SaveContextToken?
    requires forall j | 0 <= j <= |after| ::
      AccountOf(ApplyAll(EMPTY_STATE, before + [SaveContextToken(token)] + after[..j], limit)) == Some(account)
    ensures ApplyAll(EMPTY_STATE, before + [SaveContextToken(token)] + after, limit).contextToken == Some(token)
    decreases |after|
  {
    var saved := before + [SaveContextToken(token)];
    assert after[..|after|] == after;
    if after == [] {
      assert saved + after == saved;
      ApplyLast(before, SaveContextToken(token), limit);
    } else {
      hide ApplyAll, Apply, AccountOf;
      var rest, op := after[..|after| - 1], after[|after| - 1];
      forall j | 0 <= j <= |rest|
        ensures AccountOf(ApplyAll(EMPTY_STATE, saved + rest[..j], limit)) == Some(account)
      {
        assert rest[..j] == after[..j];
      }
      TokenIsKept(before, token, rest, account, limit);
      assert saved + after == saved + rest + [op] && rest[..|rest|] == rest;
      ApplyLast(saved + rest, op, limit);
      TokenStep(ApplyAll(EMPTY_STATE, saved + rest, limit), op, limit);
    }
  }

  /** Two states agree on what belongs to an account. */
  predicate Agree(s: BridgeState, t: BridgeState) {
    s.cursor == t.cursor && s.processed == t.processed && s.pending == t.pending
  }

  lemma AgreeTransition(s: BridgeState, t: BridgeState, e: Event, limit: nat)
    requires Agree(s, t)
    ensures Agree(Transition(s, e, limit), Transition(t, e, limit))
  {
    hide AppendBatch, LastOf;
  }

  lemma AgreeStep(s: BridgeState, t: BridgeState, op: StoreOp, limit: nat)
    requires Agree(s, t)
    ensures Agree(Apply(s, op, limit), Apply(t, op, limit))
  {
    hide Transition, LastOf;
    if op.Inbound? { AgreeTransition(s, t, op.event, limit); }
  }

  lemma ResetAgrees(state: BridgeState, reset: StoreOp, limit: nat)
    requires ResetsAuth(reset)
    ensures Agree(Apply(state, reset, limit), EMPTY_STATE)
  {
  }

  /** Signing in, out or over forgets everything: the cursor, the processed ids and the batch
      are then those of the later operations alone. */
  lemma {:induction false} ResetForgets(before: seq<StoreOp>, reset: StoreOp, after: seq<StoreOp>, limit: nat)
    requires ResetsAuth(reset)
    ensures Agree(ApplyAll(EMPTY_STATE, before + [reset] + after, limit), ApplyAll(EMPTY_STATE, after, limit))
    decreases |after|
  {
    hide Apply, Agree, ResetsAuth;
    if after == [] {
      assert before + [reset] + after == before + [reset];
      ApplyLast(before, reset, limit);
      ResetAgrees(ApplyAll(EMPTY_STATE, before, limit), reset, limit);
    } else {
      hide ApplyAll;
      var rest, op := after[..|after| - 1], after[|after| - 1];
      assert after == rest + [op] && before + [reset] + after == before + [reset] + rest + [op];
      ResetForgets(before, reset, rest, limit);
      ApplyLast(before + [reset] + rest, op, limit);
      ApplyLast(rest, op, limit);
      AgreeStep(ApplyAll(EMPTY_STATE, before + [reset] + rest, limit), ApplyAll(EMPTY_STATE, rest, limit), op, limit);
    }
  }

  // ----- what the user chose -----

  datatype Setting = DefaultSession | Enabled | Cursor | Account

  /** The operations that decide a setting. */
  predicate Decides(op: StoreOp, setting: Setting) {
    match setting
    case DefaultSession => op.SetDefaultSession?
    case Enabled => op.SetEnabled? || op.Logout?
    case Cursor => op.SaveCursor? || op.SaveAuth? || op.ClearAuth? || op.Logout?
    case Account => op.SaveAuth? || op.ClearAuth? || op.Logout?
  }

  /** A setting is as an operation leaves it. */
  predicate As(state: BridgeState, op: StoreOp, setting: Setting) {
    match setting
    case DefaultSession => op.SetDefaultSession? && state.defaultSession == Some(op.session)
    case Enabled => state.enabled == (op.SetEnabled? && op.enabled)
    case Cursor => state.cursor == if op.SaveCursor? then op.cursor else 0
    case Account => state.auth == if op.SaveAuth? then Some(op.auth) else None
  }

  lemma SettingStep(state: BridgeState, last: StoreOp, op: StoreOp, setting: Setting, limit: nat)
    requires if Decides(op, setting) then last == op else As(state, last, setting)
    ensures As(Apply(state, op, limit), last, setting)
  {
    if op.Inbound? { TransitionChangesBatchOnly(state, op.event, limit); }
  }

  /** After any operations, the default session is the one chosen last, also by a user who
      signed out since; whether the bridge is on was set last or ended by a sign-out; the
      cursor was saved last or started over; the account is the one that signed in last. */
  lemma {:induction false} SettingsAreTheLatest(before: seq<StoreOp>, op: StoreOp, after: seq<StoreOp>,
                                                setting: Setting, limit: nat)
    requires Decides(op, setting) && forall o | o in after :: !Decides(o, setting)
    ensures As(ApplyAll(EMPTY_STATE, before + [op] + after, limit), op, setting)
    decreases |after|
  {
    hide Apply, As, Decides;
    if after == [] {
      assert before + [op] + after == before + [op];
      ApplyLast(before, op, limit);
      SettingStep(ApplyAll(EMPTY_STATE, before, limit), op, op, setting, limit);
    } else {
      hide ApplyAll;
      var rest, last := after[..|after| - 1], after[|after| - 1];
      assert before + [op] + after == before + [op] + rest + [last];
      assert !Decides(last, setting);
      SettingsAreTheLatest(before, op, rest, setting, limit);
      ApplyLast(before + [op] + rest, last, limit);
      SettingStep(ApplyAll(EMPTY_STATE, before + [op] + rest, limit), op, last, setting, limit);
    }
  }
}
