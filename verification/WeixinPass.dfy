/** What a pass of bridge.ts does with a message and with a waiting batch, and why each step
    keeps the history and the books. */
module WeixinPass {
  import opened Prelude
  import opened WeixinAccounts
  import opened WeixinDelivery
  import opened WeixinMessage
  import opened WeixinState

  const IMAGE_BATCH_WAIT_MILLIS: int := 30000

  /** Lines 64-71. */
  function ImageAwarePollTimeout(serverTimeoutMs: int, pending: Option<PendingBatch>, now: int): int {
    if IsCollecting(pending) then
      var left := pending.value.deadlineAt - now;
      var capped := if serverTimeoutMs < left then serverTimeoutMs else left;
      if capped < 1 then 1 else capped
    else serverTimeoutMs
  }

  /** While a batch collects, the poll ends by its deadline, or right away when that is past.
      Otherwise it lasts as long as the server says. */
  lemma PollEndsByDeadline(serverTimeoutMs: int, pending: Option<PendingBatch>, now: int)
    ensures var end := now + ImageAwarePollTimeout(serverTimeoutMs, pending, now);
      && (IsCollecting(pending) ==> now < end && (end <= pending.value.deadlineAt || end == now + 1))
      && (!IsCollecting(pending) || 1 <= serverTimeoutMs <= pending.value.deadlineAt - now ==>
          end == now + serverTimeoutMs)
      && (IsCollecting(pending) && 1 <= pending.value.deadlineAt - now <= serverTimeoutMs ==>
          end == pending.value.deadlineAt)
  {
  }

  // ----- one message -----

  ghost predicate StateOk(pending: Option<PendingBatch>) {
    && (IsCollecting(pending) ==> pending.value.images != [])
    && (IsDispatching(pending) ==> pending.value.requestId == Batch(pending.value.messageIds))
  }

  /** Between two messages of a pass: no batch is dispatching, and a collecting one is the
      account's own. */
  ghost predicate BatchReady(pending: Option<PendingBatch>, auth: Auth) {
    StateOk(pending) && !IsDispatching(pending) && (IsCollecting(pending) ==> pending.value.userId == auth.userId)
  }

  /** A pass has no reason to send the batch before the list, unless it is due. */
  ghost predicate MayWait(state: BridgeState) {
    state.auth.Some? && BatchReady(state.pending, state.auth.value)
  }

  predicate Elsewhere(pending: Option<PendingBatch>, target: string) {
    IsCollecting(pending) && pending.value.sessionId != target
  }

  /** The one case in which a message is passed over without a trace: a text for one session
      while a batch of another session collects. No target: the message refers to a message
      the bridge does not know. */
  predicate Lost(before: BridgeState, m: Message, auth: Auth, target: Option<string>) {
    && Eligible(m, auth) && Prompt(m).Some? && !HasBrokenPicture(m)
    && target.Some? && Elsewhere(before.pending, target.value)
  }

  predicate PicturesAlone(m: Message, auth: Auth) {
    Eligible(m, auth) && Prompt(m).None? && !HasBrokenPicture(m) && Pictures(m) != []
  }

  /** Pictures alone for one session while a batch of another session collects. */
  predicate Blocked(before: BridgeState, m: Message, auth: Auth, target: Option<string>) {
    && m.id !in before.processed && PicturesAlone(m, auth)
    && target.Some? && Elsewhere(before.pending, target.value)
  }

  function CollectEvent(m: Message, auth: Auth, target: string, now: int): Event {
    CollectImages(target, auth.userId, m.id, Pictures(m), m.contextToken, now + IMAGE_BATCH_WAIT_MILLIS)
  }

  function TextEvent(m: Message, auth: Auth, target: string): Event
    requires Prompt(m).Some?
  {
    DispatchImages(target, auth.userId, m.id, Pictures(m), m.contextToken, Prompt(m).value)
  }

  function AfterText(s: BridgeState, m: Message, auth: Auth, target: string, limit: nat): BridgeState
    requires Prompt(m).Some?
  {
    if Elsewhere(s.pending, target) then s
    else Transition(s, TextEvent(m, auth, target), limit).(pending := None)
  }

  /** The state after a message that goes to a known session: pictures alone are collected, a
      text sends the batch, any other message is recorded. */
  function AfterRouted(s: BridgeState, m: Message, auth: Auth, target: string, now: int, limit: nat): BridgeState {
    if HasBrokenPicture(m) then WithProcessed(s, m.id, limit)
    else if Prompt(m).None? && Pictures(m) != [] then Transition(s, CollectEvent(m, auth, target, now), limit)
    else if Prompt(m).Some? && (Pictures(m) != [] || IsCollecting(s.pending)) then AfterText(s, m, auth, target, limit)
    else WithProcessed(s, m.id, limit)
  }

  function WithToken(s: BridgeState, m: Message): BridgeState {
    if m.contextToken != "" then s.(contextToken := Some(m.contextToken)) else s
  }

  /** The state after a message that was handled at time `now`. */
  function AfterMessage(s: BridgeState, m: Message, auth: Auth, target: Option<string>, now: int, limit: nat): BridgeState {
    if m.id in s.processed then s
    else if !Eligible(m, auth) then WithProcessed(s, m.id, limit)
    else if target.None? then WithProcessed(WithToken(s, m), m.id, limit)
    else AfterRouted(WithToken(s, m), m, auth, target.value, now, limit)
  }

  function BatchCall(p: PendingBatch): Call
    requires p.Dispatching?
  {
    Call(p.requestId, p.prompt, p.images, p.sessionId)
  }

  /** The request that sends a waiting batch. */
  function RequestOf(p: PendingBatch): Call {
    if p.Dispatching? then BatchCall(p)
    else
      Call(Batch(p.messageIds), if |p.images| == 1 then "请分析图片。" else "请分析这些图片。", p.images, p.sessionId)
  }

  function JoinedCall(pending: Option<PendingBatch>, m: Message, auth: Auth, target: string): Option<Call>
    requires Prompt(m).Some?
  {
    var batch := AppendBatch(pending, TextEvent(m, auth, target));
    if batch.None? then None
    else Some(Call(Batch(batch.value.messageIds), Prompt(m).value, batch.value.images, target))
  }

  function RoutedCall(pending: Option<PendingBatch>, m: Message, auth: Auth, target: string): Option<Call> {
    if HasBrokenPicture(m) || Prompt(m).None? then None
    else if Pictures(m) != [] || IsCollecting(pending) then JoinedCall(pending, m, auth, target)
    else if Prompt(m).value == "" then None
    else Some(Call(Single(m.id), Prompt(m).value, [], target))
  }

  /** The request that handling a message makes, if any. */
  function CallFor(before: BridgeState, m: Message, auth: Auth, target: Option<string>): Option<Call> {
    if m.id in before.processed || !Eligible(m, auth) || target.None? then None
    else RoutedCall(before.pending, m, auth, target.value)
  }

  /** The messages that are answered by a notice to the user. */
  predicate NoticeFor(before: BridgeState, m: Message, auth: Auth, target: Option<string>) {
    && m.id !in before.processed && Eligible(m, auth)
    && (target.None? || HasBrokenPicture(m)
        || (Pictures(m) == [] && (Prompt(m).None? || (Prompt(m).value == "" && !IsCollecting(before.pending)))))
  }

  // ----- what was done between two moments -----

  /** The session to which each of the bridge's replies belongs, by the id the server gave it. */
  type Routes = map<string, string>

  /** What a pass changes, at one moment. */
  datatype Moment = Moment(state: BridgeState, log: seq<Call>, refused: seq<RequestId>, notices: set<Id>, clock: int,
                           routes: Routes)

  /** Where a message goes: to the default session or, when it refers to a reply, to the session
      of that reply, if the bridge knows it. */
  function TargetOf(m: Message, defaultSession: string, routes: Routes): Option<string> {
    match Reference(m)
    case None => Some(defaultSession)
    case Some(reply) => if reply in routes then Some(routes[reply]) else None
  }

  /** A reply keeps its session. */
  ghost predicate RoutesKept(before: Routes, after: Routes) {
    forall r | r in before :: r in after && after[r] == before[r]
  }

  /** New replies belong to one session. */
  ghost predicate Learned(before: Routes, after: Routes, session: string) {
    RoutesKept(before, after) && forall r | r in after && r !in before :: after[r] == session
  }

  lemma LearnedNothing(routes: Routes, session: string)
    ensures Learned(routes, routes, session)
  {
  }

  lemma LearnedTwice(before: Routes, middle: Routes, after: Routes, session: string)
    requires Learned(before, middle, session) && Learned(middle, after, session)
    ensures Learned(before, after, session)
  {
  }

  /** A request was answered in one of two ways: the gateway was called once with it, or its
      images could not be decoded. */
  ghost predicate Sent(before: Moment, after: Moment, c: Call) {
    && RoutesKept(before.routes, after.routes)
    && (|| (after.log == before.log + [c] && after.refused == before.refused)
        || (after.log == before.log && after.refused == before.refused + [c.requestId] && c.images != []))
  }

  ghost predicate Quiet(before: Moment, after: Moment) {
    after.log == before.log && after.refused == before.refused && RoutesKept(before.routes, after.routes)
  }

  /** The request `c`, or none, was made. */
  ghost predicate Made(before: Moment, after: Moment, c: Option<Call>) {
    if c.None? then Quiet(before, after) else Sent(before, after, c.value)
  }

  /** A message was handled: it was not blocked, the state is the one it leads to, the request
      that belongs to it was made once and no other, and a notice was given if it needs one. */
  ghost predicate Handled(before: Moment, after: Moment, m: Message, auth: Auth, target: Option<string>, limit: nat) {
    && !Blocked(before.state, m, auth, target)
    && after.state == AfterMessage(before.state, m, auth, target, after.clock, limit)
    && Made(before, after, CallFor(before.state, m, auth, target))
    && (NoticeFor(before.state, m, auth, target) ==> m.id in after.notices)
    && before.clock <= after.clock
  }

  /** A message that has to wait leaves everything as it was but for the context token. */
  ghost predicate PutOff(before: Moment, after: Moment, m: Message) {
    && after.state == WithToken(before.state, m) && Quiet(before, after)
    && after.notices == before.notices && after.routes == before.routes && before.clock <= after.clock
  }

  /** The waiting batch stayed, or it left and its request was made. */
  ghost predicate StayedOrSent(before: Moment, after: Moment) {
    && after.state == before.state.(pending := after.state.pending) && before.clock <= after.clock
    && if after.state.pending == before.state.pending then Quiet(before, after)
       else after.state.pending == None && Sent(before, after, RequestOf(before.state.pending.value))
  }

  lemma StayedOrSentTrans(first: Moment, middle: Moment, last: Moment)
    requires StayedOrSent(first, middle) && StayedOrSent(middle, last)
    ensures StayedOrSent(first, last) && (middle.state.pending == None ==> last.state.pending == None)
  {
  }

  /** A collecting batch has waited long enough. */
  predicate DueBy(pending: Option<PendingBatch>, now: int) {
    IsCollecting(pending) ==> pending.value.deadlineAt <= now
  }

  /** The beginning of a pass: the waiting batch stays or is sent. Before an empty list the batch
      that is due is sent; one that may wait, and is not due before an empty list, stays. */
  ghost predicate Opened(before: Moment, first: Moment, empty: bool) {
    && StayedOrSent(before, first)
    && (empty && DueBy(before.state.pending, before.clock) ==> first.state.pending == None)
    && (MayWait(before.state) && !(empty && DueBy(before.state.pending, first.clock)) ==>
        first.state.pending == before.state.pending)
  }

  /** The end of a pass: the batch that is due was sent, another stayed; the cursor may have
      moved. */
  ghost predicate Ended(last: Moment, after: Moment) {
    && StayedOrSent(last, after.(state := after.state.(cursor := last.state.cursor)))
    && after.state.pending == if DueBy(last.state.pending, after.clock) then None else last.state.pending
  }

  // ----- a list of messages -----

  /** The moments between the messages that were handled, and where each of them went; after
      a failure the last target is that of the message that failed. */
  ghost predicate IsTrail(trail: seq<Moment>, targets: seq<Option<string>>, msgs: seq<Message>, auth: Auth,
                          defaultSession: string, limit: nat)
  {
    && 1 <= |trail| <= |msgs| + 1 && |trail| - 1 <= |targets| <= |msgs| && |targets| <= |trail|
    && (forall j | 0 <= j < |trail| :: BatchReady(trail[j].state.pending, auth))
    && (forall j | 0 <= j < |trail| - 1 :: Handled(trail[j], trail[j + 1], msgs[j], auth, targets[j], limit))
    && (forall j | 0 <= j < |targets| :: targets[j] == TargetOf(msgs[j], defaultSession, trail[j].routes))
  }

  /** The only way to stop without a fault: at pictures that have to wait. */
  ghost predicate StopsAtPicture(trail: seq<Moment>, targets: seq<Option<string>>, msgs: seq<Message>, auth: Auth,
                                 after: Moment)
  {
    && 1 <= |trail| == |targets| <= |msgs|
    && var n := |trail| - 1;
      Blocked(trail[n].state, msgs[n], auth, targets[n]) && PutOff(trail[n], after, msgs[n])
  }

  /** The whole list was handled, and no picture of it was blocked. */
  ghost predicate Completed(trail: seq<Moment>, targets: seq<Option<string>>, msgs: seq<Message>, auth: Auth) {
    && |trail| == |msgs| + 1 && |targets| == |msgs|
    && forall j | 0 <= j < |msgs| :: !Blocked(trail[j].state, msgs[j], auth, targets[j])
  }

  /** A pass as it went: what came before the list, and the list. Empty when the pass ended
      before the first message. */
  ghost predicate Traced(before: Moment, trail: seq<Moment>, targets: seq<Option<string>>, msgs: seq<Message>,
                         auth: Auth, defaultSession: string, limit: nat)
  {
    trail != [] ==>
      && Opened(before, trail[0], msgs == []) && IsTrail(trail, targets, msgs, auth, defaultSession, limit)
  }

  ghost predicate EndsAt(trail: seq<Moment>, after: Moment) {
    trail != [] && Ended(trail[|trail| - 1], after)
  }

  lemma EndsHere(trail: seq<Moment>, last: Moment, after: Moment)
    requires trail != [] && trail[|trail| - 1] == last && Ended(last, after)
    ensures EndsAt(trail, after)
  {
  }

  lemma TrailStarts(first: Moment, msgs: seq<Message>, auth: Auth, defaultSession: string, limit: nat)
    requires BatchReady(first.state.pending, auth)
    ensures IsTrail([first], [], msgs, auth, defaultSession, limit)
  {
  }

  lemma TrailGrows(trail: seq<Moment>, targets: seq<Option<string>>, msgs: seq<Message>, auth: Auth,
                   defaultSession: string, limit: nat, next: Moment, target: Option<string>)
    requires IsTrail(trail, targets, msgs, auth, defaultSession, limit) && |targets| == |trail| - 1 < |msgs|
    requires target == TargetOf(msgs[|trail| - 1], defaultSession, trail[|trail| - 1].routes)
    ensures IsTrail(trail, targets + [target], msgs, auth, defaultSession, limit)
    ensures
      (BatchReady(next.state.pending, auth) && Handled(trail[|trail| - 1], next, msgs[|trail| - 1], auth, target, limit))
      ==> IsTrail(trail + [next], targets + [target], msgs, auth, defaultSession, limit)
  {
    hide Handled, BatchReady, TargetOf;
  }

  /** A list that was handled to its end held no blocked picture, and left the batch ready. */
  lemma TrailFacts(trail: seq<Moment>, targets: seq<Option<string>>, msgs: seq<Message>, auth: Auth,
                   defaultSession: string, limit: nat)
    requires IsTrail(trail, targets, msgs, auth, defaultSession, limit) && |trail| == |msgs| + 1
    ensures Completed(trail, targets, msgs, auth) && BatchReady(trail[|msgs|].state.pending, auth)
  {
    hide AfterMessage, Made, BatchReady;
    forall j | 0 <= j < |msgs|
      ensures !Blocked(trail[j].state, msgs[j], auth, targets[j])
    {
      assert Handled(trail[j], trail[j + 1], msgs[j], auth, targets[j], limit);
    }
  }

  /** A message of the list that was recorded at one moment is recorded from then on. */
  ghost predicate Lasting(trail: seq<Moment>, msgs: seq<Message>) {
    forall j, k, l | 0 <= j < |msgs| && 0 <= k <= l < |trail| ::
      msgs[j].id in trail[k].state.processed ==> msgs[j].id in trail[l].state.processed
  }

  /** The list `msgs` is what the stream holds from position `start` on. */
  ghost predicate Delivers(f: Feed, cursor: nat, start: nat, msgs: seq<Message>) {
    && FeedOk(f) && start + |msgs| <= |f.order| && start + |msgs| <= cursor + f.limit
    && forall j | 0 <= j < |msgs| :: f.messages[f.order[start + j]] == msgs[j]
  }

  /** What a response of the server may be: the messages from the cursor on, at least the
      ones that were delivered before, and the position behind them. */
  ghost predicate Response(f: Feed, w: World, msgs: seq<Message>, next: Option<nat>) {
    && Delivers(f, w.state.cursor, w.state.cursor, msgs)
    && (next.Some? ==> next.value == w.state.cursor + |msgs| && w.high <= next.value)
  }

  lemma ResponseAgain(f: Feed, w: World, w': World, msgs: seq<Message>, next: Option<nat>)
    requires Response(f, w, msgs, next) && w'.state.cursor == w.state.cursor && w'.high == w.high
    ensures Response(f, w', msgs, next)
  {
  }

  lemma ResponseSays(f: Feed, w: World, msgs: seq<Message>, next: Option<nat>)
    requires Response(f, w, msgs, next)
    ensures Delivers(f, w.state.cursor, w.state.cursor, msgs) && w.state.cursor + |msgs| <= |f.order|
    ensures next.Some? ==> next.value == w.state.cursor + |msgs| && w.high <= next.value
  {
  }

  /** What the stream holds up to a position that no pass has gone beyond. */
  lemma IsResponse(f: Feed, w: World, msgs: seq<Message>, end: nat, next: Option<nat>)
    requires FeedOk(f) && w.state.cursor <= end <= |f.order| && w.high <= end <= w.state.cursor + f.limit
    requires |msgs| == end - w.state.cursor && next in {None, Some(end)}
    requires forall j | 0 <= j < |msgs| :: f.messages[f.order[w.state.cursor + j]] == msgs[j]
    ensures Response(f, w, msgs, next)
  {
  }

  /** The list was handled to its end, or up to pictures that have to wait. */
  ghost predicate Went(trail: seq<Moment>, targets: seq<Option<string>>, msgs: seq<Message>, auth: Auth, after: Moment) {
    || (Completed(trail, targets, msgs, auth) && EndsAt(trail, after))
    || StopsAtPicture(trail, targets, msgs, auth, after)
  }

  /** An undisturbed iteration, from the moment it began to the moment it ended: the waiting
      batch stays or is sent, for certain at or after its deadline; then the list is handled to
      its end, or up to pictures that have to wait, with the cursor left where it was. */
  ghost predicate Undisturbed(start: Moment, trail: seq<Moment>, targets: seq<Option<string>>, msgs: seq<Message>,
                              next: Option<nat>, limit: nat, after: Moment, ok: bool)
  {
    && trail != [] && start.state.auth.Some? && start.state.defaultSession.Some? && after.state.auth == start.state.auth
    && IsTrail(trail, targets, msgs, start.state.auth.value, start.state.defaultSession.value, limit)
    && StayedOrSent(start, trail[0])
    && (DueBy(start.state.pending, start.clock) ==> trail[0].state.pending == None)
    && (MayWait(start.state) && !DueBy(start.state.pending, after.clock) ==>
        trail[0].state == start.state && Quiet(start, trail[0]))
    && if ok then
         && Completed(trail, targets, msgs, start.state.auth.value) && EndsAt(trail, after)
         && after.state.cursor == (if next.Some? then next.value else start.state.cursor)
       else
         StopsAtPicture(trail, targets, msgs, start.state.auth.value, after) && after.state.cursor == start.state.cursor
  }

  // ----- what a handled message leaves -----

  lemma NewestStays(state: BridgeState, id: Id, limit: nat)
    ensures id in WithProcessed(state, id, limit).processed
  {
    var all := state.processed + [id];
    if id !in state.processed {
      assert LastOf(all, limit)[|LastOf(all, limit)| - 1] == id;
    }
  }

  lemma RecordingChangesOnlyIds(state: BridgeState, id: Id, limit: nat)
    ensures WithProcessed(state, id, limit) == state.(processed := WithProcessed(state, id, limit).processed)
  {
  }

  /** Between two messages, only a batch of another session refuses a member. */
  lemma AppendRefuses(state: BridgeState, e: Event, auth: Auth, limit: nat)
    requires (e.CollectImages? || e.DispatchImages?) && e.userId == auth.userId && BatchReady(state.pending, auth)
    ensures AppendBatch(state.pending, e).None? <==> Elsewhere(state.pending, e.sessionId)
    ensures AppendBatch(state.pending, e).None? ==> Transition(state, e, limit) == state
    ensures StateOk(state.pending) && !IsDispatching(state.pending)
  {
  }

  /** What an accepted message does to the batch: it is the new last member, its pictures come
      last, and a text is the request. */
  ghost predicate Grown(before: Option<PendingBatch>, after: Option<PendingBatch>, e: Event)
    requires e.CollectImages? || e.DispatchImages?
  {
    && Joined(before, after, e.messageId)
    && after.value.images == (if before.Some? then before.value.images else []) + e.images
    && (e.CollectImages? ==> after.value.Collecting?)
    && (e.DispatchImages? ==> after.value.Dispatching? && after.value.prompt == e.prompt)
  }

  /** What an accepted picture message does to the store. */
  lemma CollectJoins(state: BridgeState, e: Event, limit: nat)
    requires e.CollectImages? && e.images != [] && StateOk(state.pending) && !IsDispatching(state.pending)
    requires AppendBatch(state.pending, e).Some?
    ensures var next := Transition(state, e, limit);
      && IsCollecting(next.pending) && next.pending.value.userId == e.userId && next.pending.value.images != []
      && e.messageId in next.processed
      && next.pending.value.sessionId == e.sessionId && next.pending.value.contextToken == e.contextToken
      && next.pending.value.deadlineAt == e.deadlineAt
      && next == WithProcessed(state.(pending := next.pending), e.messageId, limit)
      && (!IsMember(state.pending, e.messageId) ==> Grown(state.pending, next.pending, e))
  {
    var next := Transition(state, e, limit);
    NewestStays(state.(pending := next.pending), e.messageId, limit);
  }

  lemma ReadyAfterCollecting(pending: Option<PendingBatch>, auth: Auth)
    requires IsCollecting(pending) && pending.value.userId == auth.userId && pending.value.images != []
    ensures BatchReady(pending, auth) && StateOk(pending)
  {
  }

  /** What an accepted text does to the store. */
  lemma DispatchJoins(state: BridgeState, e: Event, limit: nat)
    requires e.DispatchImages? && (e.images != [] || IsCollecting(state.pending))
    requires StateOk(state.pending) && !IsDispatching(state.pending) && AppendBatch(state.pending, e).Some?
    ensures var next := Transition(state, e, limit);
      && IsDispatching(next.pending) && StateOk(next.pending)
      && e.messageId in next.processed
      && next.pending.value.sessionId == e.sessionId && next.pending.value.userId == e.userId
      && next.pending.value.contextToken == e.contextToken
      && next == WithProcessed(state.(pending := next.pending), e.messageId, limit)
      && (!IsMember(state.pending, e.messageId) ==> Grown(state.pending, next.pending, e))
  {
    var next := Transition(state, e, limit);
    NewestStays(state.(pending := next.pending), e.messageId, limit);
  }

  /** A message that was handled is recorded unless it is lost; then the state is unchanged but
      for the context token. */
  lemma HandledRecords(s: BridgeState, m: Message, auth: Auth, target: Option<string>, now: int, limit: nat)
    requires BatchReady(s.pending, auth) && !Blocked(s, m, auth, target) && m.id !in s.processed
    ensures var next := AfterMessage(s, m, auth, target, now, limit);
      && (m.id in next.processed <==> !Lost(s, m, auth, target))
      && (Lost(s, m, auth, target) ==> next == WithToken(s, m))
  {
    var t := WithToken(s, m);
    NewestStays(s, m.id, limit);
    NewestStays(t, m.id, limit);
    if Eligible(m, auth) && target.Some? && !HasBrokenPicture(m) {
      if Prompt(m).None? && Pictures(m) != [] {
        var e := CollectEvent(m, auth, target.value, now);
        AppendRefuses(t, e, auth, limit);
        CollectJoins(t, e, limit);
      } else if Prompt(m).Some? && (Pictures(m) != [] || IsCollecting(t.pending)) && !Elsewhere(t.pending, target.value) {
        var e := TextEvent(m, auth, target.value);
        AppendRefuses(t, e, auth, limit);
        DispatchJoins(t, e, limit);
      }
    }
  }

  /** A message that is recorded or is not pictures alone does not change the batch but by
      sending it. */
  lemma NoBatchStarts(s: BridgeState, m: Message, auth: Auth, target: Option<string>, now: int, limit: nat)
    requires m.id in s.processed || !PicturesAlone(m, auth)
    ensures AfterMessage(s, m, auth, target, now, limit).pending in {s.pending, None}
  {
    RecordingChangesOnlyIds(s, m.id, limit);
    RecordingChangesOnlyIds(WithToken(s, m), m.id, limit);
    hide Transition, WithProcessed;
  }

  lemma HandledState(before: Moment, after: Moment, m: Message, auth: Auth, target: Option<string>, limit: nat)
    requires Handled(before, after, m, auth, target, limit)
    ensures after.state == AfterMessage(before.state, m, auth, target, after.clock, limit)
    ensures !Blocked(before.state, m, auth, target)
  {
  }

  lemma IsUndisturbed(start: Moment, trail: seq<Moment>, targets: seq<Option<string>>, msgs: seq<Message>,
                      next: Option<nat>, limit: nat, after: Moment, ok: bool)
    requires trail != [] && start.state.auth.Some? && start.state.defaultSession.Some?
    requires after.state.auth == start.state.auth
    requires IsTrail(trail, targets, msgs, start.state.auth.value, start.state.defaultSession.value, limit)
    requires StayedOrSent(start, trail[0])
    requires DueBy(start.state.pending, start.clock) ==> trail[0].state.pending == None
    requires MayWait(start.state) && !DueBy(start.state.pending, after.clock) ==>
      trail[0].state == start.state && Quiet(start, trail[0])
    requires ok || after.state.cursor != start.state.cursor ==> Completed(trail, targets, msgs, start.state.auth.value)
    requires if ok then EndsAt(trail, after) else StopsAtPicture(trail, targets, msgs, start.state.auth.value, after)
    requires after.state.cursor == start.state.cursor || next == Some(after.state.cursor)
    requires ok && next.Some? ==> after.state.cursor == next.value
    ensures Undisturbed(start, trail, targets, msgs, next, limit, after, ok)
  {
    hide IsTrail, StayedOrSent, MayWait, Quiet, EndsAt, Blocked, PutOff, DueBy;
  }

  /** What a pass may find before message n: messages that are recorded or are not pictures alone. */
  ghost predicate NoPictureBefore(state: BridgeState, msgs: seq<Message>, n: nat, auth: Auth) {
    n <= |msgs| && forall j | 0 <= j < n :: msgs[j].id in state.processed || !PicturesAlone(msgs[j], auth)
  }

  /** Then the pass does not stop before it, and the batch stays the same or is sent. */
  lemma {:induction false} OneBatchWaits(trail: seq<Moment>, targets: seq<Option<string>>, msgs: seq<Message>,
                                         auth: Auth, defaultSession: string, limit: nat, after: Moment, n: nat)
    requires IsTrail(trail, targets, msgs, auth, defaultSession, limit) && Lasting(trail, msgs)
    requires NoPictureBefore(trail[0].state, msgs, n, auth) && Went(trail, targets, msgs, auth, after)
    ensures |trail| > n && trail[n].state.pending in {trail[0].state.pending, None}
    decreases n
  {
    hide Handled, AfterMessage, BatchReady, EndsAt, PutOff, PicturesAlone;
    if n > 0 {
      OneBatchWaits(trail, targets, msgs, auth, defaultSession, limit, after, n - 1);
      var before, m := trail[n - 1], msgs[n - 1];
      assert m.id in before.state.processed || !PicturesAlone(m, auth);
      assert |trail| > n;
      assert Handled(before, trail[n], m, auth, targets[n - 1], limit);
      HandledState(before, trail[n], m, auth, targets[n - 1], limit);
      NoBatchStarts(before.state, m, auth, targets[n - 1], trail[n].clock, limit);
    }
  }

  lemma RecordedIsSkipped(s: BridgeState, m: Message, auth: Auth, target: Option<string>, now: int, limit: nat)
    requires m.id in s.processed
    ensures AfterMessage(s, m, auth, target, now, limit) == s
  {
  }

  /** Pictures alone that were handled are recorded. */
  lemma PictureIsRecorded(trail: seq<Moment>, targets: seq<Option<string>>, msgs: seq<Message>,
                          auth: Auth, defaultSession: string, limit: nat, n: nat)
    requires IsTrail(trail, targets, msgs, auth, defaultSession, limit) && n + 1 < |trail|
    requires PicturesAlone(msgs[n], auth)
    ensures msgs[n].id in trail[n + 1].state.processed
  {
    hide Handled, AfterMessage, BatchReady;
    assert Handled(trail[n], trail[n + 1], msgs[n], auth, targets[n], limit);
    HandledState(trail[n], trail[n + 1], msgs[n], auth, targets[n], limit);
    var s, m, now := trail[n].state, msgs[n], trail[n + 1].clock;
    if m.id in s.processed {
      RecordedIsSkipped(s, m, auth, targets[n], now, limit);
    } else {
      HandledRecords(s, m, auth, targets[n], now, limit);
    }
  }

  /** What was made before stays made. */
  ghost predicate Onward(before: Moment, after: Moment) {
    before.log <= after.log && before.refused <= after.refused
  }

  /** How the end of an undisturbed pass continues its last moment. */
  lemma WentOn(trail: seq<Moment>, targets: seq<Option<string>>, msgs: seq<Message>, auth: Auth, after: Moment)
    requires Went(trail, targets, msgs, auth, after)
    ensures trail != [] && after.state.processed == trail[|trail| - 1].state.processed && Onward(trail[|trail| - 1], after)
    ensures |trail| == |msgs| + 1 ||
      (StopsAtPicture(trail, targets, msgs, auth, after) && after.state.pending == trail[|trail| - 1].state.pending)
  {
    hide Blocked;
  }

  lemma HandledOnward(before: Moment, after: Moment, m: Message, auth: Auth, target: Option<string>, limit: nat)
    requires Handled(before, after, m, auth, target, limit)
    ensures Onward(before, after)
  {
    hide AfterMessage, CallFor, Blocked;
  }

  lemma {:induction false} TrailOnward(trail: seq<Moment>, targets: seq<Option<string>>, msgs: seq<Message>,
                                       auth: Auth, defaultSession: string, limit: nat, k: nat)
    requires IsTrail(trail, targets, msgs, auth, defaultSession, limit) && k < |trail|
    ensures Onward(trail[0], trail[k])
    decreases k
  {
    hide Handled, BatchReady;
    if k > 0 {
      TrailOnward(trail, targets, msgs, auth, defaultSession, limit, k - 1);
      assert Handled(trail[k - 1], trail[k], msgs[k - 1], auth, targets[k - 1], limit);
      HandledOnward(trail[k - 1], trail[k], msgs[k - 1], auth, targets[k - 1], limit);
    }
  }

  /** The request was made: the gateway was called with it, or its images cannot be decoded. */
  predicate WasMade(now: Moment, c: Call) {
    c in now.log || (c.requestId in now.refused && c.images != [])
  }

  lemma WasMadeStays(before: Moment, after: Moment, c: Call)
    requires WasMade(before, c) && Onward(before, after)
    ensures WasMade(after, c)
  {
  }

  lemma SentStaysMade(before: Moment, middle: Moment, after: Moment, c: Call)
    requires Sent(before, middle, c) && Onward(middle, after)
    ensures WasMade(after, c)
  {
    assert c == (before.log + [c])[|before.log|] && c.requestId == (before.refused + [c.requestId])[|before.refused|];
    WasMadeStays(middle, after, c);
  }

  /** The waiting batch that a pass sent before the list was sent for good. */
  lemma SentForGood(start: Moment, trail: seq<Moment>, targets: seq<Option<string>>, msgs: seq<Message>, auth: Auth,
                    defaultSession: string, limit: nat, after: Moment)
    requires IsTrail(trail, targets, msgs, auth, defaultSession, limit) && Went(trail, targets, msgs, auth, after)
    requires StayedOrSent(start, trail[0]) && trail[0].state.pending == None && start.state.pending.Some?
    ensures WasMade(after, RequestOf(start.state.pending.value))
  {
    WentOn(trail, targets, msgs, auth, after);
    TrailOnward(trail, targets, msgs, auth, defaultSession, limit, |trail| - 1);
    SentStaysMade(start, trail[0], trail[|trail| - 1], RequestOf(start.state.pending.value));
    WasMadeStays(trail[|trail| - 1], after, RequestOf(start.state.pending.value));
  }

  lemma StayedProcessed(before: Moment, after: Moment)
    requires StayedOrSent(before, after)
    ensures after.state.processed == before.state.processed
    ensures after.state.pending in {before.state.pending, None}
  {
  }

  /** Pictures with none before them: an undisturbed pass records them, or it stops there and
      leaves the batch that was waiting when it began. */
  lemma TakenInOrPutOff(start: Moment, trail: seq<Moment>, targets: seq<Option<string>>, msgs: seq<Message>,
                        auth: Auth, defaultSession: string, limit: nat, after: Moment, n: nat)
    requires IsTrail(trail, targets, msgs, auth, defaultSession, limit) && Lasting(trail, msgs)
    requires Went(trail, targets, msgs, auth, after) && StayedOrSent(start, trail[0])
    requires n < |msgs| && NoPictureBefore(start.state, msgs, n, auth) && PicturesAlone(msgs[n], auth)
    ensures msgs[n].id in after.state.processed ||
      (|trail| == n + 1 && trail[0].state.pending != None && after.state.pending == start.state.pending)
    ensures NoPictureBefore(after.state, msgs, n, auth)
  {
    StayedProcessed(start, trail[0]);
    OneBatchWaits(trail, targets, msgs, auth, defaultSession, limit, after, n);
    WentOn(trail, targets, msgs, auth, after);
    if |trail| > n + 1 { PictureIsRecorded(trail, targets, msgs, auth, defaultSession, limit, n); }
    hide IsTrail, PicturesAlone, StayedOrSent;
  }

  /** An undisturbed pass leaves no pictures unrecorded before the place it comes to. */
  lemma NonePassedOver(trail: seq<Moment>, targets: seq<Option<string>>, msgs: seq<Message>,
                       auth: Auth, defaultSession: string, limit: nat, after: Moment)
    requires IsTrail(trail, targets, msgs, auth, defaultSession, limit) && Lasting(trail, msgs)
    requires Went(trail, targets, msgs, auth, after)
    ensures NoPictureBefore(after.state, msgs, |trail| - 1, auth)
    ensures |trail| <= |msgs| ==> var m := msgs[|trail| - 1];
      PicturesAlone(m, auth) && m.id !in after.state.processed && IsCollecting(after.state.pending)
  {
    WentOn(trail, targets, msgs, auth, after);
    hide PicturesAlone, EndsAt;
    forall j | 0 <= j < |trail| - 1 && PicturesAlone(msgs[j], auth)
      ensures msgs[j].id in after.state.processed
    {
      PictureIsRecorded(trail, targets, msgs, auth, defaultSession, limit, j);
    }
  }

  /** At position p of the stream stand pictures alone, and every message from the cursor up to
      there is recorded or is not pictures alone. */
  ghost predicate FirstPicture(f: Feed, state: BridgeState, p: nat) {
    && FeedOk(f) && state.auth.Some? && state.cursor <= p < |f.order|
    && PicturesAlone(f.messages[f.order[p]], state.auth.value)
    && forall i | state.cursor <= i < p ::
      f.order[i] in state.processed || !PicturesAlone(f.messages[f.order[i]], state.auth.value)
  }

  /** The same of a list that the stream holds from the cursor on. */
  lemma FirstInList(f: Feed, state: BridgeState, msgs: seq<Message>, n: nat)
    requires Delivers(f, state.cursor, state.cursor, msgs) && n < |msgs| && state.auth.Some?
    ensures f.order[state.cursor + n] == msgs[n].id
    ensures FirstPicture(f, state, state.cursor + n) <==>
      NoPictureBefore(state, msgs, n, state.auth.value) && PicturesAlone(msgs[n], state.auth.value)
  {
    hide PicturesAlone;
    assert f.messages[f.order[state.cursor + n]] == msgs[n];
    forall j | 0 <= j < n
      ensures f.order[state.cursor + j] == msgs[j].id && f.messages[f.order[state.cursor + j]] == msgs[j]
    {
    }
    assert forall i | state.cursor <= i < state.cursor + n :: f.messages[f.order[i]] == msgs[i - state.cursor];
  }

  // ----- the steps keep history and books -----

  lemma SoundSays(f: Feed, w: World, b: Books)
    requires Sound(f, w, b)
    ensures OnePayload(w.log) && Kept(f, w, b) && OwnOnly(f, w, b)
  {
    SoundOwns(f, w, b);
    hide Fits, Listed, AllSettled, OwnOnly;
  }

  /** What is recorded is settled. */
  lemma RecordedIsSettled(f: Feed, w: World, b: Books, id: Id)
    requires Sound(f, w, b) && id in w.state.processed
    ensures id in f.messages && Settled(f, w, b, id)
  {
    hide Settled, Good, Fits;
  }

  lemma SoundOwns(f: Feed, w: World, b: Books)
    requires Sound(f, w, b)
    ensures OwnOnly(f, w, b)
  {
    FitsOwnOnly(f, w, b);
  }

  lemma StartSound(f: Feed, enabled: bool, auth: Option<Auth>, session: Option<string>)
    requires FeedOk(f)
    ensures var state := EMPTY_STATE.(enabled := enabled, auth := auth, defaultSession := session);
      Sound(f, World(state, [], {}, [], 0), Books([], {}, {}, {}))
  {
    GoodAtStart(f, enabled, auth, session);
  }

  /** The steps of a pass leave it where it is. */
  ghost predicate SamePass(f: Feed, w: World, b: Books, w': World, b': Books) {
    FeedOk(f) && forall i | Passing(f, w, b, i) :: Passing(f, w', b', i)
  }

  lemma SoundPlaces(f: Feed, w: World, b: Books)
    requires Sound(f, w, b)
    ensures FeedOk(f) && w.state.cursor <= w.high <= |f.order| && SamePass(f, w, b, w, b)
  {
  }

  lemma SamePassTrans(f: Feed, w: World, b: Books, w': World, b': Books, w'': World, b'': Books)
    requires SamePass(f, w, b, w', b') && SamePass(f, w', b', w'', b'')
    ensures SamePass(f, w, b, w'', b'')
  {
    hide Passing;
  }

  lemma PassSound(f: Feed, w: World, b: Books)
    requires Sound(f, w, b)
    ensures FeedOk(f) && Passing(f, w, b, w.state.cursor)
  {
    PassStarts(f, w);
  }

  lemma FitsAlike(f: Feed, w: World, w': World, b: Books)
    requires Fits(f, w, b) && w'.state.pending == w.state.pending && w'.log == w.log && w'.state.auth == w.state.auth
    ensures Fits(f, w', b)
  {
  }

  lemma EnterSound(f: Feed, w: World, b: Books, i: nat)
    requires Sound(f, w, b) && Passing(f, w, b, i) && i < |f.order| && i + 1 - w.state.cursor <= f.limit
    ensures Sound(f, Entered(w, i), b) && Passing(f, Entered(w, i), b, i)
  {
    EnterKeeps(f, w, i);
    hide Good, PassAt, Fits;
    SettledGoes(f, w, b, Entered(w, i), b);
    assert Fits(f, Entered(w, i), b) by { FitsAlike(f, w, Entered(w, i), b); }
  }

  lemma SkipSound(f: Feed, w: World, b: Books, i: nat)
    requires Sound(f, w, b) && Passing(f, w, b, i) && i < |f.order| && f.order[i] in w.state.processed
    ensures Passing(f, w, b, i + 1)
  {
    SkipKeeps(f, w, i);
    hide PassAt, Good, Fits, AllSettled;
  }

  /** One more message was recorded, and the pass has one more behind it. */
  lemma PassingGrows(f: Feed, w: World, b: Books, i: nat, w': World)
    requires FeedOk(f) && Passing(f, w, b, i) && i < |f.order| && w'.state.cursor == w.state.cursor
    requires PassAt(f, w', i + 1)
    ensures Passing(f, w', Booked(b, f.order[i]), i + 1)
  {
    hide PassAt, FeedOk;
  }

  lemma MarkSound(f: Feed, w: World, b: Books, i: nat)
    requires Sound(f, w, b) && Passing(f, w, b, i) && i < w.high && w.high <= |f.order|
    requires f.order[i] in f.messages && f.order[i] !in w.state.processed && Settled(f, w, b, f.order[i])
    ensures Sound(f, Recorded(f, w, f.order[i]), Booked(b, f.order[i]))
    ensures Passing(f, Recorded(f, w, f.order[i]), Booked(b, f.order[i]), i + 1)
  {
    hide Good, Kept, PassAt, WithProcessed, Settled;
    MarkKeeps(f, w, i);
    MarkKept(f, w, b, f.order[i]);
    RecordingChangesOnlyIds(w.state, f.order[i], f.limit);
    SoundPlaces(f, w, b);
    PassingGrows(f, w, b, i, Recorded(f, w, f.order[i]));
  }

  lemma NoticeSound(f: Feed, w: World, b: Books, id: Id)
    requires Sound(f, w, b)
    ensures Sound(f, w, Noticed(b, id)) && SamePass(f, w, b, w, Noticed(b, id))
  {
    NoticeKept(f, w, b, id);
    hide Kept, PassAt;
  }

  lemma MissSound(f: Feed, w: World, b: Books, i: nat)
    requires Sound(f, w, b) && Passing(f, w, b, i) && i < |f.order| && f.order[i] !in w.state.processed
    requires Losable(f, w, f.order[i]) && IsCollecting(w.state.pending)
    ensures Sound(f, w, Missed(b, f.order[i])) && Passing(f, w, Missed(b, f.order[i]), i + 1)
  {
    LostKeeps(f, w, i);
    UnrecordedIsNew(f, w, i);
    MissKept(f, w, b, f.order[i]);
    hide Good, Kept, PassAt;
  }

  lemma NotYetMember(f: Feed, w: World, id: Id)
    requires Good(f, w) && id !in w.consumed
    ensures !IsMember(w.state.pending, id)
  {
  }

  lemma GrowHistory(f: Feed, w: World, i: nat, e: Event, pending: Option<PendingBatch>)
    requires (e.CollectImages? || e.DispatchImages?) && Good(f, w) && PassAt(f, w, i)
    requires i < w.high && w.high <= |f.order| && f.order[i] == e.messageId && e.messageId !in w.state.processed
    requires Grown(w.state.pending, pending, e) && e.messageId in f.messages
    requires var m := f.messages[e.messageId];
      && e.images == Pictures(m) && (e.images != [] || IsCollecting(w.state.pending))
      && Prompt(m) == if e.CollectImages? then None else Some(e.prompt)
    ensures Good(f, JoinedWorld(f, w, pending, e.messageId))
    ensures PassAt(f, JoinedWorld(f, w, pending, e.messageId), i + 1)
  {
    PictureIsUnsaid(f, w, i);
    if e.CollectImages? { NoTextInDoubt(f, w, i); }
    hide WindowOk, DoneOk, PendingOk, LogOk, PassAt, Prompt, Pictures;
    JoinKeeps(f, w, i, pending);
  }

  lemma SoundFits(f: Feed, w: World, b: Books)
    requires Sound(f, w, b)
    ensures BatchFits(f, w.state.auth, w.state.pending)
  {
  }

  /** A message that joins the batch and is recorded in the same write. */
  lemma GrowSound(f: Feed, w: World, b: Books, i: nat, e: Event, pending: Option<PendingBatch>)
    requires (e.CollectImages? || e.DispatchImages?) && Sound(f, w, b) && Passing(f, w, b, i)
    requires i < w.high && w.high <= |f.order| && f.order[i] == e.messageId && e.messageId !in w.state.processed
    requires Grown(w.state.pending, pending, e) && Own(f, w.state.auth, e.messageId) && !IsDispatching(w.state.pending)
    requires var m := f.messages[e.messageId];
      && e.images == Pictures(m) && (e.images != [] || IsCollecting(w.state.pending))
      && Prompt(m) == if e.CollectImages? then None else Some(e.prompt)
    ensures var after := JoinedWorld(f, w, pending, e.messageId);
      Sound(f, after, Booked(b, e.messageId)) && Passing(f, after, Booked(b, e.messageId), i + 1)
  {
    hide Good, PassAt, WithProcessed, BatchFits, Fits, Listed, AllSettled, Prompt, Pictures;
    GrowHistory(f, w, i, e, pending);
    assert BatchFits(f, w.state.auth, w.state.pending) by { SoundFits(f, w, b); }
    JoinFits(f, w.state.auth, w.state.pending, pending.value, e.messageId);
    JoinKept(f, w, b, pending, e.messageId);
    RecordingChangesOnlyIds(w.state.(pending := pending), e.messageId, f.limit);
    SoundPlaces(f, w, b);
    PassingGrows(f, w, b, i, JoinedWorld(f, w, pending, e.messageId));
  }

  lemma CollectSound(f: Feed, w: World, b: Books, i: nat, e: Event)
    requires e.CollectImages? && Sound(f, w, b) && Passing(f, w, b, i)
    requires i < w.high && w.high <= |f.order| && f.order[i] == e.messageId && e.messageId !in w.state.processed
    requires e.images != [] && StateOk(w.state.pending) && !IsDispatching(w.state.pending)
    requires AppendBatch(w.state.pending, e).Some? && Own(f, w.state.auth, e.messageId)
    requires Prompt(f.messages[e.messageId]).None? && Pictures(f.messages[e.messageId]) == e.images
    ensures var next := Transition(w.state, e, f.limit);
      var after := JoinedWorld(f, w, next.pending, e.messageId);
      after.state == next && Sound(f, after, Booked(b, e.messageId)) && Passing(f, after, Booked(b, e.messageId), i + 1)
  {
    UnrecordedIsNew(f, w, i);
    NotYetMember(f, w, e.messageId);
    CollectJoins(w.state, e, f.limit);
    hide Good, Kept, PassAt, Transition, StateOk, AppendBatch;
    GrowSound(f, w, b, i, e, Transition(w.state, e, f.limit).pending);
  }

  lemma DispatchSound(f: Feed, w: World, b: Books, i: nat, e: Event)
    requires e.DispatchImages? && Sound(f, w, b) && Passing(f, w, b, i)
    requires i < w.high && w.high <= |f.order| && f.order[i] == e.messageId && e.messageId !in w.state.processed
    requires (e.images != [] || IsCollecting(w.state.pending))
    requires StateOk(w.state.pending) && !IsDispatching(w.state.pending)
    requires AppendBatch(w.state.pending, e).Some? && Own(f, w.state.auth, e.messageId)
    requires Prompt(f.messages[e.messageId]) == Some(e.prompt) && Pictures(f.messages[e.messageId]) == e.images
    ensures var next := Transition(w.state, e, f.limit);
      var after := JoinedWorld(f, w, next.pending, e.messageId);
      after.state == next && Sound(f, after, Booked(b, e.messageId)) && Passing(f, after, Booked(b, e.messageId), i + 1)
  {
    UnrecordedIsNew(f, w, i);
    NotYetMember(f, w, e.messageId);
    DispatchJoins(w.state, e, f.limit);
    hide Good, Kept, PassAt, Transition, StateOk, AppendBatch;
    GrowSound(f, w, b, i, e, Transition(w.state, e, f.limit).pending);
  }

  lemma SayTextSound(f: Feed, w: World, b: Books, i: nat, session: string)
    requires Sound(f, w, b) && Passing(f, w, b, i) && i < w.high && w.high <= |f.order|
    requires Own(f, w.state.auth, f.order[i]) && f.order[i] !in w.state.processed
    requires HasText(f, i) && Pictures(f.messages[f.order[i]]) == [] && !IsCollecting(w.state.pending)
    ensures var id := f.order[i];
      var w' := Said(w, Call(Single(id), Prompt(f.messages[id]).value, [], session));
      Sound(f, w', b) && Passing(f, w', b, i) && Settled(f, w', b, id)
  {
    var id := f.order[i];
    var c := Call(Single(id), Prompt(f.messages[id]).value, [], session);
    SayTextKeeps(f, w, i, session);
    SayKept(f, w, b, c);
    assert c in Said(w, c).log && Mentions(c, id);
    hide Good, Kept, PassAt;
  }

  /** A dispatching batch: its request may be made, or given up. */
  lemma SayBatchSound(f: Feed, w: World, b: Books)
    requires Sound(f, w, b) && IsDispatching(w.state.pending) && StateOk(w.state.pending)
    ensures var c := BatchCall(w.state.pending.value);
      && Sound(f, Said(w, c), b) && SamePass(f, w, b, Said(w, c), b) && Reported(Said(w, c), b, c.requestId)
      && (c.images != [] ==>
          && Sound(f, w, Given(b, c.requestId)) && SamePass(f, w, b, w, Given(b, c.requestId))
          && Reported(w, Given(b, c.requestId), c.requestId))
  {
    var p := w.state.pending.value;
    var c := BatchCall(p);
    SayBatchKeeps(f, w, p.sessionId);
    SayKept(f, w, b, c);
    assert c in Said(w, c).log;
    if c.images != [] { GiveUpKept(f, w, b, c.requestId); }
    hide Good, Kept, PassAt;
  }

  /** A batch whose request was made or given up may be dropped. */
  lemma ClearSound(f: Feed, w: World, b: Books)
    requires Sound(f, w, b) && IsDispatching(w.state.pending) && StateOk(w.state.pending)
    requires Reported(w, b, w.state.pending.value.requestId)
    ensures var w' := w.(state := w.state.(pending := None));
      Sound(f, w', b) && SamePass(f, w, b, w', b)
  {
    PendingKeeps(f, w, None);
    ClearKept(f, w, b);
    hide Good, Kept, PassAt;
  }

  lemma CloseSound(f: Feed, w: World, b: Books)
    requires Sound(f, w, b) && IsCollecting(w.state.pending)
    ensures var w' := w.(state := w.state.(pending := Some(Closed(w.state.pending.value))));
      Sound(f, w', b) && SamePass(f, w, b, w', b)
  {
    var pending := Some(Closed(w.state.pending.value));
    PendingKeeps(f, w, pending);
    CloseFits(f, w.state.auth, w.state.pending.value);
    CloseKept(f, w, b, pending);
    hide Good, Kept, PassAt;
  }

  lemma CursorSound(f: Feed, w: World, b: Books, cursor: nat)
    requires Sound(f, w, b) && w.high <= cursor <= |f.order| && Passing(f, w, b, cursor)
    ensures Sound(f, CursorSaved(f, w, cursor), b)
  {
    CursorKeeps(f, w, cursor);
    hide Good, PassAt;
    CursorKept(f, w, b, cursor);
  }

  lemma NeutralSound(f: Feed, w: World, b: Books, state: BridgeState)
    requires Sound(f, w, b) && state.auth == w.state.auth
    requires state.cursor == w.state.cursor && state.processed == w.state.processed && state.pending == w.state.pending
    ensures Sound(f, w.(state := state), b) && SamePass(f, w, b, w.(state := state), b)
  {
    NeutralKeeps(f, w, state);
    NeutralKept(f, w, b, state);
    hide Good, Kept, PassAt;
  }

  /** What was recorded since the cursor, and what is recorded later, is in the list. */
  lemma RecordedLasts(f: Feed, w: World, w': World, i: nat)
    requires Good(f, w) && Good(f, w') && w'.state.cursor == w.state.cursor && w.consumed <= w'.consumed
    requires w.state.cursor <= i < |f.order| && f.order[i] in w.state.processed
    ensures f.order[i] in w'.state.processed
  {
  }

  lemma NothingLasts(msgs: seq<Message>)
    ensures Lasting([], msgs)
  {
  }

  lemma LastingStarts(first: Moment, msgs: seq<Message>)
    ensures Lasting([first], msgs)
  {
  }

  /** A step that leads from the world `w` to the world `w'`. */
  lemma LastingGrows(f: Feed, w: World, b: Books, w': World, b': Books, trail: seq<Moment>, next: Moment,
                     msgs: seq<Message>, start: nat)
    requires Sound(f, w, b) && Sound(f, w', b') && w'.state.cursor == w.state.cursor && w.consumed <= w'.consumed
    requires Delivers(f, w.state.cursor, start, msgs) && w.state.cursor <= start
    requires trail != [] && trail[|trail| - 1].state == w.state && next.state == w'.state && Lasting(trail, msgs)
    ensures Lasting(trail + [next], msgs)
  {
    hide Kept, DoneOk, PendingOk, LogOk;
    forall j | 0 <= j < |msgs| && msgs[j].id in w.state.processed
      ensures msgs[j].id in w'.state.processed
    {
      assert f.messages[f.order[start + j]] == msgs[j];
      RecordedLasts(f, w, w', start + j);
    }
    hide *;
    var all := trail + [next];
    forall j, k, l | 0 <= j < |msgs| && 0 <= k <= l < |all| && msgs[j].id in all[k].state.processed
      ensures msgs[j].id in all[l].state.processed
    {
      if l == |trail| && k < l { assert msgs[j].id in trail[|trail| - 1].state.processed; }
    }
  }

  lemma ExpireOnlyPending(state: BridgeState, now: int, limit: nat)
    ensures var next := Transition(state, ExpireImages(now), limit);
      if IsCollecting(state.pending) && DueBy(state.pending, now)
      then next == state.(pending := Some(Closed(state.pending.value)))
      else next == state
  {
  }

  // ----- pictures that have to wait -----

  lemma FirstPictureSays(f: Feed, state: BridgeState, p: nat)
    requires FirstPicture(f, state, p)
    ensures state.auth.Some? && state.cursor <= p < |f.order| && StillWaits(f, state, state, p)
  {
  }

  lemma StillWaitsTrans(f: Feed, first: BridgeState, middle: BridgeState, last: BridgeState, p: nat)
    requires StillWaits(f, first, middle, p) && StillWaits(f, middle, last, p)
    ensures StillWaits(f, first, last, p)
  {
    hide FirstPicture;
  }

  lemma IsTakenIn(f: Feed, w: World, b: Books, p: nat)
    requires Sound(f, w, b) && p < |f.order|
    ensures f.order[p] in w.state.processed <==> TakenIn(f, w, b, p)
  {
    hide Settled, Sound;
    if f.order[p] in w.state.processed { RecordedIsSettled(f, w, b, f.order[p]); }
  }

  lemma FirstPictureAlike(f: Feed, state: BridgeState, state': BridgeState, p: nat)
    requires FirstPicture(f, state, p) && state'.auth == state.auth
    requires state'.cursor == state.cursor && state'.processed == state.processed
    ensures FirstPicture(f, state', p)
  {
  }

  /** The message at position p is recorded, and the books say what became of it. */
  ghost predicate TakenIn(f: Feed, w: World, b: Books, p: nat) {
    p < |f.order| && f.order[p] in w.state.processed && f.order[p] in f.messages && Settled(f, w, b, f.order[p])
  }

  /** The first pictures, at position p, still wait for the batch that was there before. */
  ghost predicate StillWaits(f: Feed, before: BridgeState, after: BridgeState, p: nat) {
    FirstPicture(f, after, p) && after.pending == before.pending && after.cursor == before.cursor
  }

  lemma UndisturbedSays(start: Moment, trail: seq<Moment>, targets: seq<Option<string>>, msgs: seq<Message>,
                        next: Option<nat>, limit: nat, after: Moment, ok: bool)
    requires Undisturbed(start, trail, targets, msgs, next, limit, after, ok)
    ensures start.state.auth.Some? && start.state.defaultSession.Some? && after.state.auth == start.state.auth
    ensures trail != [] && StayedOrSent(start, trail[0])
    ensures IsTrail(trail, targets, msgs, start.state.auth.value, start.state.defaultSession.value, limit)
    ensures Went(trail, targets, msgs, start.state.auth.value, after)
    ensures DueBy(start.state.pending, start.clock) ==> trail[0].state.pending == None
    ensures |trail| <= |msgs| ==> after.state.cursor == start.state.cursor
    ensures if ok then |trail| == |msgs| + 1 else 1 <= |trail| <= |msgs|
    ensures ok ==> after.state.cursor == if next.Some? then next.value else start.state.cursor
  {
    hide IsTrail, StayedOrSent, EndsAt, Blocked, PutOff;
  }

  /** How far an undisturbed iteration comes. */
  lemma StopOutcome(f: Feed, w: World, start: Moment, trail: seq<Moment>, targets: seq<Option<string>>,
                    msgs: seq<Message>, next: Option<nat>, limit: nat, after: Moment, ok: bool)
    requires Response(f, w, msgs, next) && w.state == start.state && Lasting(trail, msgs)
    requires Undisturbed(start, trail, targets, msgs, next, limit, after, ok)
    ensures after.state.auth.Some? && after.state.auth == start.state.auth
    ensures ok ==> NoPictureBefore(after.state, msgs, |msgs|, after.state.auth.value)
    ensures ok ==> after.state.cursor == if next.Some? then next.value else start.state.cursor
    ensures !ok ==> 1 <= |trail| <= |msgs| && after.state.cursor == start.state.cursor
    ensures !ok ==> var p := after.state.cursor + |trail| - 1;
      FirstPicture(f, after.state, p) && f.order[p] !in after.state.processed && IsCollecting(after.state.pending)
  {
    hide *;
    UndisturbedSays(start, trail, targets, msgs, next, limit, after, ok);
    ResponseSays(f, w, msgs, next);
    NonePassedOver(trail, targets, msgs, start.state.auth.value, start.state.defaultSession.value, limit, after);
    if !ok { FirstInList(f, after.state, msgs, |trail| - 1); }
  }

  /** What an undisturbed iteration makes of the first pictures of its list. */
  lemma PictureOutcome(f: Feed, start: Moment, trail: seq<Moment>, targets: seq<Option<string>>, msgs: seq<Message>,
                       next: Option<nat>, limit: nat, first: World, w: World, b: Books, after: Moment, ok: bool, p: nat)
    requires Response(f, first, msgs, next) && first.state == start.state && p < start.state.cursor + |msgs|
    requires FirstPicture(f, start.state, p) && Lasting(trail, msgs)
    requires Undisturbed(start, trail, targets, msgs, next, limit, after, ok)
    requires Sound(f, w, b) && w.state == after.state
    ensures TakenIn(f, w, b, p) || StillWaits(f, start.state, after.state, p)
    ensures DueBy(start.state.pending, start.clock) ==> TakenIn(f, w, b, p)
    ensures DueBy(start.state.pending, start.clock) && start.state.pending.Some? ==>
      WasMade(after, RequestOf(start.state.pending.value))
  {
    hide FirstPicture, IsTrail, Went, Lasting, StayedOrSent, Delivers, NoPictureBefore, Undisturbed, Response;
    hide Settled, Sound, DueBy, RequestOf, PicturesAlone, WasMade, TakenIn, FeedOk;
    UndisturbedSays(start, trail, targets, msgs, next, limit, after, ok);
    ResponseSays(f, first, msgs, next);
    FirstPictureSays(f, start.state, p);
    var auth, session, n := start.state.auth.value, start.state.defaultSession.value, p - start.state.cursor;
    FirstInList(f, start.state, msgs, n);
    TakenInOrPutOff(start, trail, targets, msgs, auth, session, limit, after, n);
    IsTakenIn(f, w, b, p);
    if DueBy(start.state.pending, start.clock) && start.state.pending.Some? {
      SentForGood(start, trail, targets, msgs, auth, session, limit, after);
    }
    if after.state.cursor == start.state.cursor { FirstInList(f, after.state, msgs, n); }
  }

  // ----- two messages -----

  function APicture(): Message { Message("p", true, 1, Some("user"), "", [Picture(Some(1))]) }

  function AText(): Message { Message("t", true, 1, Some("user"), "", [Text("hello", [], None)]) }

  function TheUser(): Auth { Auth("account", "user") }

  /** A stream that holds a picture and then a plain text. */
  function TwoMessages(): (f: Feed)
    ensures FeedOk(f) && f.limit == 2
  {
    Feed(["p", "t"], map["p" := APicture(), "t" := AText()], 2)
  }

  /** The picture was collected for session "A". */
  function FirstState(deadline: int): BridgeState {
    BridgeState(true, 1, ["p"], Some(Collecting("A", "user", ["p"], [1], "", deadline)), Some(TheUser()), Some("A"), None)
  }

  lemma TheirResponses(w: World)
    ensures w.state.cursor == 0 && w.high <= 1 ==> Response(TwoMessages(), w, [APicture()], Some(1))
    ensures w.state.cursor == 1 && w.high <= 2 ==> Response(TwoMessages(), w, [AText()], Some(2))
  {
  }

  lemma TheirContents()
    ensures Prompt(APicture()) == None && Pictures(APicture()) == [1] && Reference(APicture()) == None
    ensures !HasBrokenPicture(APicture()) && PicturesAlone(APicture(), TheUser())
    ensures Prompt(AText()) == Some("hello") && Pictures(AText()) == [] && Reference(AText()) == None
    ensures !HasBrokenPicture(AText()) && Eligible(AText(), TheUser())
  {
    var p, t := APicture(), AText();
    assert p.parts[1..] == [] && t.parts[1..] == [];
    assert PromptLines(p.parts) == [] && PromptLines(t.parts) == ["hello"];
    assert PicturesOf(p.parts) == [1] && PicturesOf(t.parts) == [];
    assert References(p.parts) == [] && References(t.parts) == [];
  }

  lemma FirstAfter(s: BridgeState, now: int)
    requires s == EMPTY_STATE.(enabled := true, auth := Some(TheUser()), defaultSession := Some("A"))
    ensures AfterMessage(s, APicture(), TheUser(), Some("A"), now, 2) ==
      FirstState(now + IMAGE_BATCH_WAIT_MILLIS).(cursor := 0)
    ensures CallFor(s, APicture(), TheUser(), Some("A")) == None
  {
    TheirContents();
    hide Prompt, Pictures, HasBrokenPicture;
    assert [] + ["p"] == ["p"];
  }

  lemma FirstIsCollected(start: Moment, trail: seq<Moment>, targets: seq<Option<string>>, end: Moment, ok: bool)
    requires start.state == EMPTY_STATE.(enabled := true, auth := Some(TheUser()), defaultSession := Some("A"))
    requires start.log == [] && start.refused == []
    requires Undisturbed(start, trail, targets, [APicture()], Some(1), 2, end, ok)
    ensures |trail| == 2 && start.clock <= trail[1].clock
    ensures end.clock < trail[1].clock + IMAGE_BATCH_WAIT_MILLIS ==>
      end.state == FirstState(trail[1].clock + IMAGE_BATCH_WAIT_MILLIS) && end.log == [] && end.refused == []
  {
    TheirContents();
    hide Prompt, Pictures, Reference, HasBrokenPicture, RoutesKept, MayWait;
    assert Handled(trail[0], trail[1], APicture(), TheUser(), targets[0], 2);
    assert targets[0] == Some("A");
    FirstAfter(trail[0].state, trail[1].clock);
    hide AfterMessage, CallFor;
  }

  lemma SecondIsLost(start: Moment, deadline: int, trail: seq<Moment>, targets: seq<Option<string>>, end: Moment, ok: bool)
    requires start.state == FirstState(deadline).(defaultSession := Some("B")) && start.log == [] && start.refused == []
    requires Undisturbed(start, trail, targets, [AText()], Some(2), 2, end, ok) && end.clock < deadline
    ensures end.state == start.state.(cursor := 2) && end.log == [] && end.refused == []
  {
    TheirContents();
    hide Prompt, Pictures, HasBrokenPicture;
    assert Handled(trail[0], trail[1], AText(), TheUser(), targets[0], 2);
    assert AfterMessage(start.state, AText(), TheUser(), Some("B"), trail[1].clock, 2) == start.state;
    assert CallFor(start.state, AText(), TheUser(), Some("B")) == None;
    hide AfterMessage, CallFor;
  }

  lemma OnlyTextIsLost(f: Feed, w: World, b: Books)
    requires Sound(f, w, b) && f == TwoMessages() && w.state.cursor == 2 && w.state.auth == Some(TheUser())
    requires IsMember(w.state.pending, "p") && !IsMember(w.state.pending, "t") && w.log == [] && b.refused == []
    ensures b.lost == {"t"}
  {
    TheirContents();
    hide Prompt, Pictures, HasBrokenPicture, Reference;
    assert !Settled(f, w, b, "t");
    assert f.order[1] == "t";
  }
}
