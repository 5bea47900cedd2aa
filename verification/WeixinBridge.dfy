/** `processUpdateBatch` of bridge.ts, step by step. Every store write, download, gateway
    call and reply may fail or be the last thing the process does; both end the pass, and a
    write that ended it may have taken effect. */
module WeixinBridge {
  import opened Prelude
  import opened WeixinAccounts
  import opened WeixinDelivery
  import opened WeixinMessage
  import opened WeixinPass
  import opened WeixinState

  class Bridge {
    const limit: nat
    var state: BridgeState
    var clock: int
    /** The sessions of the replies to the signed-in user. */
    var routes: Routes
    /** The server's stream. */
    const feed: Feed
    /** The history of World. */
    ghost var log: seq<Call>
    ghost var consumed: set<Id>
    ghost var recent: seq<Id>
    ghost var high: nat
    /** The books of Books. */
    ghost var refused: seq<RequestId>
    ghost var notices: set<Id>
    ghost var marked: set<Id>
    ghost var lost: set<Id>
    /** How many steps did not do what was asked. */
    ghost var faults: nat

    ghost function W(): World
      reads `state, `log, `consumed, `recent, `high
    {
      World(state, log, consumed, recent, high)
    }

    ghost function B(): Books
      reads `refused, `notices, `marked, `lost
    {
      Books(refused, notices, marked, lost)
    }

    ghost function Now(): Moment
      reads `state, `log, `refused, `notices, `clock, `routes
    {
      Moment(state, log, refused, notices, clock, routes)
    }

    /** The run so far obeyed the delivery discipline, and the log and the books are as they
        should be. */
    ghost predicate Tracked()
      reads this
    {
      feed.limit == limit && Sound(feed, W(), B())
    }

    /** The pass has dealt with every position before i. */
    ghost predicate Past(i: nat)
      reads this
    {
      Tracked() && FeedOk(feed) && Passing(feed, W(), B(), i)
    }

    /** The pass has reached position i of the stream, where message m stands. */
    ghost predicate At(i: nat, m: Message)
      reads this
    {
      && Past(i) && i < high <= |feed.order|
      && feed.order[i] == m.id && m.id in feed.messages && feed.messages[m.id] == m
    }

    /** What is known about the pass stays known. */
    twostate predicate PassGoesOn()
      reads this
    {
      old(Tracked()) ==> Tracked() && SamePass(feed, old(W()), old(B()), W(), B())
    }

    constructor (limit: nat, feed: Feed, enabled: bool, auth: Option<Auth>, session: Option<string>, routes: Routes)
      requires FeedOk(feed) && feed.limit == limit
      ensures this.limit == limit && this.feed == feed && Tracked() && log == [] && refused == [] && faults == 0
      ensures state == EMPTY_STATE.(enabled := enabled, auth := auth, defaultSession := session)
      ensures high == 0 && clock == 0 && marked == {} && lost == {} && this.routes == routes
    {
      this.limit, this.feed, this.routes := limit, feed, routes;
      state := EMPTY_STATE.(enabled := enabled, auth := auth, defaultSession := session);
      clock, faults := 0, 0;
      log, consumed, recent, high := [], {}, [], 0;
      refused, notices, marked, lost := [], {}, {}, {};
      new;
      StartSound(feed, enabled, auth, session);
    }

    // ----- single steps -----

    method ReadClock() returns (now: int)
      modifies this`clock
      ensures now == clock >= old(clock)
    {
      now := *;
      if now < clock { now := clock; }
      clock := now;
    }

    /** A read of the store, a typing notice: no effect that is modelled. */
    method Effect() returns (ok: bool)
      modifies this`faults
      ensures faults >= old(faults) && (faults == old(faults) ==> ok)
    {
      ok := *;
      if !ok { faults := faults + 1; }
    }

    /** `sendText` of routed-messenger.ts: the reply goes out, and is entered with its session
        unless its id is there already; an entry with another session is a failure. */
    method Reply(session: string) returns (ok: bool, sent: bool)
      modifies this`routes, this`faults
      ensures Learned(old(routes), routes, session)
      ensures ok ==> sent && exists reply :: reply in routes && routes[reply] == session
      ensures faults >= old(faults) && (faults == old(faults) ==> ok)
    {
      ok, sent := *, *;
      sent := sent || ok;
      var reply: string, entered: bool := *, *;
      if sent && (ok || entered) && reply !in routes { routes := routes[reply := session]; }
      ok := ok && routes[reply] == session;
      if !ok { faults := faults + 1; }
    }

    /** Any number of replies. */
    method Replies(n: nat, session: string) returns (ok: bool)
      modifies this`routes, this`faults
      ensures Learned(old(routes), routes, session)
      ensures faults >= old(faults) && (faults == old(faults) ==> ok)
    {
      hide Learned;
      LearnedNothing(routes, session);
      ok := true;
      for k := 0 to n
        invariant ok && Learned(old(routes), routes, session) && faults >= old(faults)
      {
        ghost var before, sent := routes, false;
        ok, sent := Reply(session);
        LearnedTwice(old(routes), before, routes, session);
        if !ok { return; }
      }
    }

    /** `sendText` that answers a message. */
    method Notify(id: Id, session: string) returns (ok: bool)
      modifies this`notices, this`routes, this`faults
      ensures notices == old(notices) + {id} || (!ok && notices == old(notices))
      ensures Learned(old(routes), routes, session)
      ensures faults >= old(faults) && (faults == old(faults) ==> ok)
    {
      var sent;
      ok, sent := Reply(session);
      if sent { notices := notices + {id}; }
    }

    /** `update`: read, change, and replace the file by a rename. */
    method Commit(next: BridgeState, ghost after: World, ghost books: Books) returns (ok: bool)
      requires after == W().(state := next, consumed := after.consumed, recent := after.recent)
      requires books == B().(marked := books.marked, lost := books.lost)
      modifies this`state, this`consumed, this`recent, this`marked, this`lost, this`faults
      ensures (W() == after && B() == books) || (!ok && W() == old(W()) && B() == old(B()))
      ensures faults >= old(faults) && (faults == old(faults) ==> ok)
    {
      var written: bool := *;
      ok := *;
      if ok || written {
        state := next;
        consumed, recent, marked, lost := after.consumed, after.recent, books.marked, books.lost;
      }
      if !ok { faults := faults + 1; }
    }

    /** `promptAndWait`. A reply, also one that reports a conflict or a missing session,
        means that the request was sent. */
    method PromptGateway(ghost call: Call) returns (ok: bool)
      modifies this`log, this`faults
      ensures log == old(log) + [call] || (!ok && log == old(log))
      ensures faults >= old(faults) && (faults == old(faults) ==> ok)
    {
      var sent: bool := *;
      ok := *;
      if ok || sent { log := log + [call]; }
      if !ok { faults := faults + 1; }
    }

    /** Lines 124-129: images that cannot be decoded are a result, not a failure. */
    method Download(requestId: RequestId, images: seq<Image>) returns (ok: bool, rejected: bool)
      modifies this`refused, this`faults
      ensures rejected ==> ok && images != []
      ensures refused == if rejected then old(refused) + [requestId] else old(refused)
      ensures faults >= old(faults) && (faults == old(faults) ==> ok)
    {
      ok, rejected := *, *;
      rejected := rejected && ok && images != [];
      if rejected { refused := refused + [requestId]; }
      if !ok { faults := faults + 1; }
    }

    /** Lines 116-199: `dispatchPrompt`. Images that cannot be decoded end it with a notice,
        without a call. While the gateway works on the prompt, and after it, replies go out. */
    method DispatchPrompt(requestId: RequestId, prompt: string, images: seq<Image>, sessionId: string)
      returns (ok: bool)
      modifies this`log, this`refused, this`routes, this`faults
      ensures Sent(old(Now()), Now(), Call(requestId, prompt, images, sessionId)) || (!ok && Quiet(old(Now()), Now()))
      ensures Learned(old(routes), routes, sessionId)
      ensures faults >= old(faults) && (faults == old(faults) ==> ok)
    {
      LearnedNothing(routes, sessionId);
      var rejected, sent;
      ok, rejected := Download(requestId, images);
      if !ok { return; }
      if rejected {
        ok, sent := Reply(sessionId);
        return;
      }
      ok := Effect();
      if !ok { return; }
      ok := PromptGateway(Call(requestId, prompt, images, sessionId));
      if !ok { return; }
      var replies: nat := *;
      ok := Replies(replies, sessionId);
    }

    /** Lines 201-227: send the dispatching batch, then clear it. */
    method DispatchPending() returns (ok: bool)
      requires StateOk(state.pending) && IsDispatching(state.pending)
      modifies this`state, this`log, this`refused, this`routes, this`consumed, this`recent, this`marked, this`lost, this`faults
      ensures state == old(state).(pending := None) || (!ok && state == old(state))
      ensures ok ==> state.pending == None
      ensures state.pending == None ==> Sent(old(Now()), Now(), BatchCall(old(state.pending.value)))
      ensures PassGoesOn() && old(consumed) <= consumed
      ensures faults >= old(faults) && (faults == old(faults) ==> ok)
    {
      hide Sound, Passing, StateOk;
      var p := state.pending.value;
      if Tracked() { SayBatchSound(feed, W(), B()); }
      ok := DispatchPrompt(p.requestId, p.prompt, p.images, p.sessionId);
      if !ok { return; }
      if old(Tracked()) { ClearSound(feed, W(), B()); }
      ok := Commit(Transition(state, CompleteImages(p.requestId), limit), W().(state := state.(pending := None)), B());
    }

    /** `markProcessed`. */
    method MarkProcessed(m: Message, ghost i: nat) returns (ok: bool)
      requires m.id !in state.processed
      modifies this`state, this`consumed, this`recent, this`marked, this`lost, this`faults
      ensures state == WithProcessed(old(state), m.id, limit) || (!ok && state == old(state))
      ensures ok ==> state == WithProcessed(old(state), m.id, limit)
      ensures old(At(i, m) && Settled(feed, W(), B(), m.id)) ==> Tracked() && (ok ==> Past(i + 1))
      ensures old(consumed) <= consumed
      ensures faults >= old(faults) && (faults == old(faults) ==> ok)
    {
      ghost var next := WithProcessed(state, m.id, limit);
      ghost var after := W().(state := next, consumed := consumed + {m.id}, recent := recent + [m.id]);
      if At(i, m) && Settled(feed, W(), B(), m.id) {
        MarkSound(feed, W(), B(), i);
        assert after == Recorded(feed, W(), m.id);
      }
      hide Sound, Passing, Settled;
      ok := Commit(WithProcessed(state, m.id, limit), after, Booked(B(), m.id));
    }

    /** The early returns: a notice to the user, then the mark. */
    method Refuse(m: Message, session: string, ghost i: nat) returns (ok: bool)
      requires m.id !in state.processed
      modifies this`state, this`notices, this`routes, this`consumed, this`recent, this`marked, this`lost, this`faults
      ensures state == WithProcessed(old(state), m.id, limit) || (!ok && state == old(state))
      ensures ok ==> state == WithProcessed(old(state), m.id, limit) && m.id in notices
      ensures Learned(old(routes), routes, session)
      ensures old(At(i, m)) && Noticeable(m) ==> Tracked() && (ok ==> Past(i + 1))
      ensures old(consumed) <= consumed
      ensures faults >= old(faults) && (faults == old(faults) ==> ok)
    {
      hide Sound, Passing;
      if At(i, m) { NoticeSound(feed, W(), B(), m.id); }
      ok := Notify(m.id, session);
      if !ok { return; }
      ok := MarkProcessed(m, i);
    }

    /** Lines 318-336: pictures without text join the collecting batch. */
    method CollectPictures(m: Message, auth: Auth, target: string, ghost i: nat) returns (ok: bool)
      requires m.id !in state.processed && Prompt(m).None? && Pictures(m) != []
      requires BatchReady(state.pending, auth) && Authored(m, state.auth) && Whole(m)
      modifies this`state, this`clock, this`consumed, this`recent, this`marked, this`lost, this`faults
      ensures state == old(state) || state == Transition(old(state), CollectEvent(m, auth, target, clock), limit)
      ensures StateOk(state.pending) && state == old(state).(pending := state.pending, processed := state.processed)
      ensures ok ==>
        && state == Transition(old(state), CollectEvent(m, auth, target, clock), limit)
        && BatchReady(state.pending, auth) && IsCollecting(state.pending)
        && state.pending.value.sessionId == target && state.pending.value.deadlineAt == clock + 30000
      ensures old(Elsewhere(state.pending, target)) ==> !ok && state == old(state)
      ensures old(At(i, m)) ==> Tracked() && (ok ==> Past(i + 1))
      ensures old(consumed) <= consumed
      ensures clock >= old(clock) && faults >= old(faults)
      ensures faults == old(faults) ==> ok || old(Elsewhere(state.pending, target))
    {
      hide Sound, Passing, Transition, AppendBatch, StateOk;
      var now := ReadClock();
      var e := CollectEvent(m, auth, target, now);
      var next := Transition(state, e, limit);
      ghost var after, books := W().(state := next), B();
      AppendRefuses(state, e, auth, limit);
      if AppendBatch(state.pending, e).Some? {
        CollectJoins(state, e, limit);
        ReadyAfterCollecting(next.pending, auth);
        RecordingChangesOnlyIds(state.(pending := next.pending), m.id, limit);
        if At(i, m) {
          CollectSound(feed, W(), B(), i, e);
          after, books := JoinedWorld(feed, W(), next.pending, m.id), Booked(B(), m.id);
        }
      }
      ok := Commit(next, after, books);
      if !ok { return; }
      ok := m.id in state.processed;
    }

    /** A text that no batch takes: the unchanged state is written. */
    method PassOver(m: Message, auth: Auth, ghost i: nat) returns (ok: bool)
      requires m.id !in state.processed && Prompt(m).Some? && IsCollecting(state.pending)
      requires Authored(m, state.auth) && Whole(m)
      modifies this`state, this`consumed, this`recent, this`marked, this`lost, this`faults
      ensures state == old(state) && consumed == old(consumed)
      ensures old(At(i, m)) ==> Tracked() && (ok ==> Past(i + 1))
      ensures ok ==> m.id in lost || !old(At(i, m))
      ensures faults >= old(faults) && (faults == old(faults) ==> ok)
    {
      ghost var books := B();
      if At(i, m) {
        MissSound(feed, W(), B(), i);
        books := Missed(B(), m.id);
      }
      hide Sound, Passing;
      ok := Commit(state, W(), books);
    }

    /** Lines 340-348: a text that the batch takes. */
    method JoinText(m: Message, auth: Auth, target: string, ghost i: nat) returns (ok: bool)
      requires m.id !in state.processed && Prompt(m).Some? && (Pictures(m) != [] || IsCollecting(state.pending))
      requires BatchReady(state.pending, auth) && AppendBatch(state.pending, TextEvent(m, auth, target)).Some?
      requires Authored(m, state.auth) && Whole(m)
      modifies this`state, this`consumed, this`recent, this`marked, this`lost, this`faults
      ensures StateOk(state.pending) && state == old(state).(pending := state.pending, processed := state.processed)
      ensures ok ==>
        && state == Transition(old(state), TextEvent(m, auth, target), limit) && IsDispatching(state.pending)
        && Some(BatchCall(state.pending.value)) == JoinedCall(old(state.pending), m, auth, target)
      ensures old(At(i, m)) ==> Tracked() && (ok ==> Past(i + 1))
      ensures old(consumed) <= consumed
      ensures faults >= old(faults) && (faults == old(faults) ==> ok)
    {
      hide Sound, Passing, StateOk;
      var e := TextEvent(m, auth, target);
      var next := Transition(state, e, limit);
      AppendRefuses(state, e, auth, limit);
      DispatchJoins(state, e, limit);
      RecordingChangesOnlyIds(state.(pending := next.pending), m.id, limit);
      ghost var after, books := W().(state := next), B();
      if At(i, m) {
        DispatchSound(feed, W(), B(), i, e);
        after, books := JoinedWorld(feed, W(), next.pending, m.id), Booked(B(), m.id);
      }
      ok := Commit(next, after, books);
    }

    /** Lines 338-353: a text sends the batch that collects, with its own pictures added. */
    method DispatchTogether(m: Message, auth: Auth, target: string, ghost i: nat) returns (ok: bool)
      requires m.id !in state.processed && Prompt(m).Some? && (Pictures(m) != [] || IsCollecting(state.pending))
      requires BatchReady(state.pending, auth) && Authored(m, state.auth) && Whole(m)
      modifies this`state, this`log, this`refused, this`routes, this`consumed, this`recent, this`marked, this`lost, this`faults
      ensures StateOk(state.pending) && state == old(state).(pending := state.pending, processed := state.processed)
      ensures ok ==>
        && state == AfterText(old(state), m, auth, target, limit) && BatchReady(state.pending, auth)
        && Made(old(Now()), Now(), JoinedCall(old(state.pending), m, auth, target))
      ensures old(At(i, m)) ==> Tracked() && (ok ==> Past(i + 1))
      ensures old(consumed) <= consumed
      ensures faults >= old(faults) && (faults == old(faults) ==> ok)
    {
      hide Sound, Passing, Transition, AppendBatch;
      var e := TextEvent(m, auth, target);
      var next := Transition(state, e, limit);
      AppendRefuses(state, e, auth, limit);
      if AppendBatch(state.pending, e).None? {
        ok := PassOver(m, auth, i);
        return;
      }
      ok := JoinText(m, auth, target, i);
      if !ok { return; }
      ok := DispatchPending();
    }

    /** Lines 355-383: a text of its own is sent under the message's id; a message without
        text gets a notice. */
    method SendAlone(m: Message, target: string, ghost i: nat) returns (ok: bool)
      requires m.id !in state.processed && Pictures(m) == [] && (Prompt(m).Some? ==> !IsCollecting(state.pending))
      requires Authored(m, state.auth) && Whole(m)
      modifies this`state, this`log, this`refused, this`routes, this`notices
      modifies this`consumed, this`recent, this`marked, this`lost, this`faults
      ensures state == WithProcessed(old(state), m.id, limit) || (!ok && state == old(state))
      ensures ok ==> state == WithProcessed(old(state), m.id, limit)
      ensures ok ==>
        if Prompt(m).Some? && Prompt(m).value != ""
        then Made(old(Now()), Now(), Some(Call(Single(m.id), Prompt(m).value, [], target)))
        else Quiet(old(Now()), Now()) && m.id in notices
      ensures old(At(i, m)) ==> Tracked() && (ok ==> Past(i + 1))
      ensures old(consumed) <= consumed
      ensures faults >= old(faults) && (faults == old(faults) ==> ok)
    {
      hide Sound, Passing, Settled;
      if Prompt(m).None? || Prompt(m).value == "" {
        ok := Refuse(m, target, i);
        return;
      }
      if At(i, m) { SayTextSound(feed, W(), B(), i, target); }
      ok := DispatchPrompt(Single(m.id), Prompt(m).value, [], target);
      if !ok { return; }
      ok := MarkProcessed(m, i);
    }

    /** Line 288: `saveContextToken`. */
    method SaveContextToken(token: string, ghost i: nat, ghost m: Message) returns (ok: bool)
      modifies this`state, this`consumed, this`recent, this`marked, this`lost, this`faults
      ensures state == old(state).(contextToken := Some(token)) || (!ok && state == old(state))
      ensures ok ==> state == old(state).(contextToken := Some(token))
      ensures old(At(i, m)) ==> At(i, m)
      ensures consumed == old(consumed)
      ensures faults >= old(faults) && (faults == old(faults) ==> ok)
    {
      var next := state.(contextToken := Some(token));
      if At(i, m) { NeutralSound(feed, W(), B(), next); }
      hide Sound, Passing;
      ok := Commit(next, W().(state := next), B());
    }

    /** Lines 289-291: where the message goes. `None`: it refers to an unknown message. */
    method Route(m: Message, defaultSession: string) returns (ok: bool, target: Option<string>)
      modifies this`faults
      ensures target == TargetOf(m, defaultSession, routes)
      ensures faults >= old(faults) && (faults == old(faults) ==> ok)
    {
      ok, target := true, Some(defaultSession);
      if Reference(m).Some? {
        ok := Effect();
        target := if Reference(m).value in routes then Some(routes[Reference(m).value]) else None;
      }
    }

    /** Lines 303-383, for a message whose target is known. */
    method HandleRouted(m: Message, auth: Auth, target: string, ghost i: nat) returns (ok: bool)
      requires m.id !in state.processed && BatchReady(state.pending, auth) && Authored(m, state.auth)
      requires Eligible(m, auth)
      modifies this`state, this`clock, this`log, this`refused, this`routes, this`notices
      modifies this`consumed, this`recent, this`marked, this`lost, this`faults
      ensures StateOk(state.pending) && state == old(state).(pending := state.pending, processed := state.processed)
      ensures ok ==>
        && state == AfterRouted(old(state), m, auth, target, clock, limit) && BatchReady(state.pending, auth)
        && Made(old(Now()), Now(), RoutedCall(old(state.pending), m, auth, target))
        && (NoticeFor(old(state), m, auth, Some(target)) ==> m.id in notices)
      ensures Blocked(old(state), m, auth, Some(target)) ==>
        !ok && state == old(state) && Quiet(old(Now()), Now()) && notices == old(notices) && routes == old(routes)
      ensures old(At(i, m)) ==> Tracked() && (ok ==> Past(i + 1))
      ensures old(consumed) <= consumed
      ensures clock >= old(clock) && faults >= old(faults)
      ensures faults == old(faults) ==> ok || Blocked(old(state), m, auth, Some(target))
    {
      hide Sound, Passing, WithProcessed, StateOk, AfterText, JoinedCall, Transition;
      RecordingChangesOnlyIds(state, m.id, limit);
      if HasBrokenPicture(m) {
        ok := Refuse(m, target, i);
        return;
      }
      if Pictures(m) != [] && Prompt(m).None? {
        ok := CollectPictures(m, auth, target, i);
        return;
      }
      if Prompt(m).Some? && (Pictures(m) != [] || IsCollecting(state.pending)) {
        ok := DispatchTogether(m, auth, target, i);
        return;
      }
      ok := SendAlone(m, target, i);
    }

    /** Lines 286-383, for a message of the account's own user. */
    method HandleEligible(m: Message, auth: Auth, defaultSession: string, ghost i: nat)
      returns (ok: bool, ghost target: Option<string>)
      requires m.id !in state.processed && BatchReady(state.pending, auth)
      requires state.auth == Some(auth) && Eligible(m, auth)
      modifies this`state, this`clock, this`log, this`refused, this`routes, this`notices
      modifies this`consumed, this`recent, this`marked, this`lost, this`faults
      ensures StateOk(state.pending) && state.cursor == old(state.cursor) && state.auth == old(state.auth)
      ensures target == TargetOf(m, defaultSession, old(routes))
      ensures ok ==> BatchReady(state.pending, auth) && Handled(old(Now()), Now(), m, auth, target, limit)
      ensures Blocked(old(state), m, auth, target) ==>
        !ok && state.pending == old(state.pending) && state.processed == old(state.processed)
      ensures old(At(i, m)) ==> Tracked() && (ok ==> Past(i + 1))
      ensures old(consumed) <= consumed
      ensures clock >= old(clock) && faults >= old(faults)
      ensures faults == old(faults) ==> ok || (Blocked(old(state), m, auth, target) && PutOff(old(Now()), Now(), m))
    {
      hide Sound, Passing, WithProcessed, StateOk, AfterRouted, RoutedCall;
      ok, target := true, TargetOf(m, defaultSession, routes);
      if m.contextToken != "" {
        ok := SaveContextToken(m.contextToken, i, m);
        if !ok { return; }
      }
      assert state == WithToken(old(state), m);
      var route;
      ok, route := Route(m, defaultSession);
      target := route;
      if !ok { return; }
      if route.None? {
        RecordingChangesOnlyIds(state, m.id, limit);
        ok := Refuse(m, defaultSession, i);
        return;
      }
      ok := HandleRouted(m, auth, route.value, i);
    }

    /** Lines 266-384: one message of the list. */
    method HandleMessage(m: Message, auth: Auth, defaultSession: string, ghost i: nat)
      returns (ok: bool, ghost target: Option<string>)
      requires BatchReady(state.pending, auth) && state.auth == Some(auth)
      modifies this`state, this`clock, this`log, this`refused, this`routes, this`notices
      modifies this`consumed, this`recent, this`marked, this`lost, this`faults
      ensures StateOk(state.pending) && state.cursor == old(state.cursor) && state.auth == old(state.auth)
      ensures target == TargetOf(m, defaultSession, old(routes))
      // What somebody else wrote is recorded, and nothing else happens.
      ensures !(m.decoded && m.messageType == 1 && m.fromUserId == Some(auth.userId)) ==>
        && Quiet(old(Now()), Now()) && notices == old(notices) && routes == old(routes)
        && state == old(state).(processed := state.processed) && (ok ==> m.id in state.processed)
      ensures ok ==> BatchReady(state.pending, auth) && Handled(old(Now()), Now(), m, auth, target, limit)
      ensures Blocked(old(state), m, auth, target) ==>
        !ok && state.pending == old(state.pending) && state.processed == old(state.processed)
      ensures old(At(i, m)) ==> Tracked() && (ok ==> Past(i + 1))
      ensures old(consumed) <= consumed
      ensures clock >= old(clock) && faults >= old(faults)
      ensures faults == old(faults) ==> ok || (Blocked(old(state), m, auth, target) && PutOff(old(Now()), Now(), m))
    {
      hide Sound, Passing, WithProcessed, StateOk, AfterRouted, RoutedCall;
      target := TargetOf(m, defaultSession, routes);
      ok := Effect();
      if !ok { return; }
      if m.id in state.processed {
        if At(i, m) { SkipSound(feed, W(), B(), i); }
        return;
      }
      RecordingChangesOnlyIds(state, m.id, limit);
      NewestStays(state, m.id, limit);
      if !Eligible(m, auth) {
        ok := MarkProcessed(m, i);
        return;
      }
      ok, target := HandleEligible(m, auth, defaultSession, i);
    }

    /** `FlushImages` and `ExpireImages`: the batch may be closed for sending. */
    method Transit(e: Event) returns (ok: bool)
      requires StateOk(state.pending) && (e.FlushImages? || e.ExpireImages?)
      modifies this`state, this`consumed, this`recent, this`marked, this`lost, this`faults
      ensures state == Transition(old(state), e, limit) || (!ok && state == old(state))
      ensures ok ==> state == Transition(old(state), e, limit)
      ensures StateOk(state.pending)
      ensures PassGoesOn() && consumed == old(consumed)
      ensures faults >= old(faults) && (faults == old(faults) ==> ok)
    {
      var next := Transition(state, e, limit);
      if next != state && Tracked() { CloseSound(feed, W(), B()); }
      hide Sound, Passing;
      ok := Commit(next, W().(state := next), B());
    }

    /** Lines 254-262: a batch of another user is sent now; so is one that was dispatching. */
    method Settle(auth: Auth) returns (ok: bool)
      requires StateOk(state.pending)
      modifies this`state, this`log, this`refused, this`routes, this`consumed, this`recent, this`marked, this`lost, this`faults
      ensures StateOk(state.pending) && state == old(state).(pending := state.pending)
      ensures ok ==> BatchReady(state.pending, auth) && StayedOrSent(old(Now()), Now())
      ensures old(state.pending) != None && state.pending == None ==>
        Sent(old(Now()), Now(), RequestOf(old(state.pending.value)))
      ensures ok && old(BatchReady(state.pending, auth)) ==> state == old(state)
      ensures PassGoesOn()
      ensures faults >= old(faults) && (faults == old(faults) ==> ok)
    {
      hide Sound, Passing, SamePass;
      if Tracked() { SoundPlaces(feed, W(), B()); }
      ok := true;
      if IsCollecting(state.pending) && state.pending.value.userId != auth.userId {
        ok := Transit(FlushImages);
        if !ok { return; }
      }
      ghost var w, b := W(), B();
      if IsDispatching(state.pending) {
        ok := DispatchPending();
        if old(Tracked()) { SamePassTrans(feed, old(W()), old(B()), w, b, W(), B()); }
      }
    }

    /** The history moves to position i, which is about to be handled. */
    ghost method Enter(i: nat, m: Message)
      requires Past(i) && i < |feed.order| && i + 1 <= state.cursor + feed.limit && feed.messages[feed.order[i]] == m
      modifies this`high
      ensures At(i, m) && high == Max(old(high), i + 1)
    {
      EnterSound(feed, W(), B(), i);
      high := Entered(W(), i).high;
    }

    ghost method Reach(start: nat, n: nat, msgs: seq<Message>)
      requires n < |msgs| && Past(start + n) && Delivers(feed, state.cursor, start, msgs)
      modifies this`high
      ensures At(start + n, msgs[n]) && high == Max(old(high), start + n + 1)
    {
      Enter(start + n, msgs[n]);
    }

    /** Lines 264-386: the messages one after the other. `trail` lists the moments between
        them, `targets` where each one went. */
    method HandleAll(msgs: seq<Message>, auth: Auth, defaultSession: string, ghost start: nat)
      returns (ok: bool, ghost trail: seq<Moment>, ghost targets: seq<Option<string>>)
      requires BatchReady(state.pending, auth) && state.auth == Some(auth) && state.cursor <= start
      modifies this`state, this`clock, this`log, this`refused, this`routes, this`notices
      modifies this`consumed, this`recent, this`high, this`marked, this`lost, this`faults
      ensures StateOk(state.pending) && state.cursor == old(state.cursor) && state.auth == old(state.auth)
      ensures ok ==> BatchReady(state.pending, auth) && |trail| == |msgs| + 1 && trail[|msgs|] == Now()
      ensures trail != [] && IsTrail(trail, targets, msgs, auth, defaultSession, limit) && trail[0] == old(Now())
      ensures old(Past(start) && Delivers(feed, state.cursor, start, msgs)) ==>
        Tracked() && Lasting(trail, msgs) && (ok ==> Past(start + |msgs|))
      ensures old(high) <= high <= Max(old(high), start + |msgs|)
      ensures msgs == [] ==> ok && Now() == old(Now()) && high == old(high)
      ensures clock >= old(clock) && faults >= old(faults)
      ensures faults == old(faults) ==> ok || StopsAtPicture(trail, targets, msgs, auth, Now())
    {
      hide Sound, Passing, Blocked, Handled, StateOk, Lasting, IsTrail;
      ok, trail, targets := true, [Now()], [];
      ghost var tracked := Past(start) && Delivers(feed, state.cursor, start, msgs);
      LastingStarts(Now(), msgs);
      TrailStarts(Now(), msgs, auth, defaultSession, limit);
      for n := 0 to |msgs|
        invariant ok && BatchReady(state.pending, auth) && state.auth == Some(auth)
        invariant state.cursor == old(state.cursor)
        invariant |trail| == n + 1 && trail[n] == Now() && trail[0] == old(Now()) && |targets| == n
        invariant IsTrail(trail, targets, msgs, auth, defaultSession, limit)
        invariant tracked ==> Past(start + n) && Delivers(feed, state.cursor, start, msgs)
        invariant Lasting(trail, msgs) || !tracked
        invariant old(high) <= high <= Max(old(high), start + n)
        invariant n == 0 ==> Now() == old(Now()) && high == old(high)
        invariant clock >= old(clock) && faults >= old(faults)
      {
        ghost var target := None;
        if tracked { Reach(start, n, msgs); }
        ghost var before, books := W(), B();
        ok, target := HandleMessage(msgs[n], auth, defaultSession, start + n);
        TrailGrows(trail, targets, msgs, auth, defaultSession, limit, Now(), target);
        targets := targets + [target];
        if !ok { return; }
        if tracked { LastingGrows(feed, before, books, W(), B(), trail, Now(), msgs, start); }
        trail := trail + [Now()];
      }
    }

    /** Lines 237-262: what a pass does before it looks at the list. */
    method Begin(empty: bool, auth: Auth) returns (ok: bool)
      requires StateOk(state.pending)
      modifies this`state, this`clock, this`log, this`refused, this`routes, this`consumed, this`recent
      modifies this`marked, this`lost, this`faults
      ensures StateOk(state.pending) && state == old(state).(pending := state.pending)
      ensures ok ==> BatchReady(state.pending, auth) && (state.auth == Some(auth) ==> Opened(old(Now()), Now(), empty))
      ensures old(state.pending) != None && state.pending == None ==>
        Sent(old(Now()), Now(), RequestOf(old(state.pending.value)))
      ensures old(Tracked()) ==> Tracked()
      ensures clock >= old(clock) && faults >= old(faults) && (faults == old(faults) ==> ok)
    {
      hide Sound, Passing, SamePass, Transition;
      if empty {
        var now := ReadClock();
        ExpireOnlyPending(state, now, limit);
        ok := Transit(ExpireImages(now));
        if !ok { return; }
      }
      ok := Settle(auth);
    }

    /** Lines 388-394: what it does after the list. */
    method SendDue() returns (ok: bool)
      requires StateOk(state.pending) && !IsDispatching(state.pending)
      modifies this`state, this`clock, this`log, this`refused, this`routes, this`consumed, this`recent
      modifies this`marked, this`lost, this`faults
      ensures StateOk(state.pending) && state == old(state).(pending := state.pending)
      ensures ok ==> Ended(old(Now()), Now())
      ensures old(state.pending) != None && state.pending == None ==>
        Sent(old(Now()), Now(), RequestOf(old(state.pending.value)))
      ensures PassGoesOn()
      ensures clock >= old(clock) && faults >= old(faults) && (faults == old(faults) ==> ok)
    {
      hide Sound, Passing, SamePass, Transition;
      if Tracked() { SoundPlaces(feed, W(), B()); }
      var now := ReadClock();
      ExpireOnlyPending(state, now, limit);
      ok := Transit(ExpireImages(now));
      if !ok { return; }
      ghost var w, b := W(), B();
      if IsDispatching(state.pending) {
        ok := DispatchPending();
        if old(Tracked()) { SamePassTrans(feed, old(W()), old(B()), w, b, W(), B()); }
      }
    }

    /** `saveCursor`. */
    method SaveCursor(cursor: nat) returns (ok: bool)
      modifies this`state, this`consumed, this`recent, this`high, this`marked, this`lost, this`faults
      ensures state == old(state).(cursor := cursor) || (!ok && state == old(state))
      ensures ok ==> state == old(state).(cursor := cursor)
      ensures high == old(high) || high == cursor
      ensures old(Past(cursor)) && old(high) <= cursor <= |feed.order| ==> Tracked()
      ensures faults >= old(faults) && (faults == old(faults) ==> ok)
    {
      ghost var before := W();
      ghost var known := Past(cursor) && high <= cursor <= |feed.order|;
      if known { CursorSound(feed, W(), B(), cursor); }
      hide Sound, Passing;
      ok := Commit(state.(cursor := cursor), W().(state := state.(cursor := cursor)), B());
      if before.state != state && cursor <= |feed.order| {
        high, recent := cursor, [];
        consumed := CursorSaved(feed, before, cursor).consumed;
      }
    }

    /** Lines 388-396: send the batch that is due, then save the cursor. */
    method Finish(next: Option<nat>) returns (ok: bool)
      requires StateOk(state.pending) && !IsDispatching(state.pending)
      modifies this`state, this`clock, this`log, this`refused, this`routes, this`consumed, this`recent, this`high
      modifies this`marked, this`lost, this`faults
      ensures StateOk(state.pending) && state == old(state).(pending := state.pending, cursor := state.cursor)
      ensures state.cursor == old(state.cursor) || next == Some(state.cursor)
      ensures ok && next.Some? ==> state.cursor == next.value
      ensures high == old(high) || (next.Some? && high == next.value)
      ensures ok || state.cursor != old(state.cursor) ==> Ended(old(Now()), Now())
      ensures old(state.pending) != None && state.pending == None ==>
        Sent(old(Now()), Now(), RequestOf(old(state.pending.value)))
      ensures old(Tracked()) && (next.Some? ==> old(high) <= next.value <= |feed.order| && old(Past(next.value)))
        ==> Tracked()
      ensures clock >= old(clock) && faults >= old(faults) && (faults == old(faults) ==> ok)
    {
      hide Sound, Passing, StateOk;
      ok := SendDue();
      if !ok { return; }
      if next.Some? {
        ok := SaveCursor(next.value);
      }
    }

    /** Lines 247-386, for an account and a default session that are set. `trail` is empty when
        the pass ended before the first message. */
    method Walk(msgs: seq<Message>, auth: Auth, defaultSession: string)
      returns (ok: bool, ghost trail: seq<Moment>, ghost targets: seq<Option<string>>)
      requires StateOk(state.pending) && state.auth == Some(auth)
      modifies this`state, this`clock, this`log, this`refused, this`routes, this`notices, this`consumed, this`recent
      modifies this`high, this`marked, this`lost, this`faults
      ensures StateOk(state.pending) && state.auth == old(state.auth) && state.cursor == old(state.cursor)
      ensures Traced(old(Now()), trail, targets, msgs, auth, defaultSession, limit)
      ensures trail != [] ==> trail[0].clock <= clock
      ensures ok ==>
        && trail != [] && Completed(trail, targets, msgs, auth) && trail[|trail| - 1] == Now()
        && !IsDispatching(state.pending)
      ensures high <= Max(old(high), old(state.cursor) + |msgs|)
      ensures old(Tracked() && Delivers(feed, state.cursor, state.cursor, msgs)) ==>
        Tracked() && Lasting(trail, msgs) && (ok ==> Past(state.cursor + |msgs|))
      ensures clock >= old(clock) && faults >= old(faults)
      ensures faults == old(faults) ==> trail != [] && (ok || StopsAtPicture(trail, targets, msgs, auth, Now()))
      ensures msgs == [] ==> state == old(state).(pending := state.pending) && high == old(high) && |trail| <= 1
    {
      hide Sound, Passing, Blocked, Handled, Transition, Delivers, Lasting, StayedOrSent, IsTrail, StateOk, Sent;
      hide StopsAtPicture, Completed;
      trail, targets := [], [];
      NothingLasts(msgs);
      ok := Begin(msgs == [], auth);
      if !ok { return; }
      if Tracked() { PassSound(feed, W(), B()); }
      ok, trail, targets := HandleAll(msgs, auth, defaultSession, state.cursor);
      if !ok { return; }
      TrailFacts(trail, targets, msgs, auth, defaultSession, limit);
    }

    /** Lines 247-396. */
    method Pass(msgs: seq<Message>, next: Option<nat>, auth: Auth, defaultSession: string)
      returns (ok: bool, ghost trail: seq<Moment>, ghost targets: seq<Option<string>>)
      requires StateOk(state.pending) && state.auth == Some(auth)
      modifies this`state, this`clock, this`log, this`refused, this`routes, this`notices, this`consumed, this`recent
      modifies this`high, this`marked, this`lost, this`faults
      ensures StateOk(state.pending) && state.auth == old(state.auth)
      ensures Traced(old(Now()), trail, targets, msgs, auth, defaultSession, limit)
      ensures trail != [] ==> trail[0].clock <= clock
      ensures ok || state.cursor != old(state.cursor) ==> Completed(trail, targets, msgs, auth)
      ensures ok || state.cursor != old(state.cursor) ==> trail != [] && EndsAt(trail, Now())
      ensures state.cursor == old(state.cursor) || next == Some(state.cursor)
      ensures ok && next.Some? ==> state.cursor == next.value
      ensures high <= Max(old(high), old(state.cursor) + |msgs|) || (next.Some? && high == next.value)
      ensures old(Tracked() && Response(feed, W(), msgs, next)) ==> Tracked() && Lasting(trail, msgs)
      ensures clock >= old(clock) && faults >= old(faults)
      ensures faults == old(faults) ==> trail != [] && (ok || StopsAtPicture(trail, targets, msgs, auth, Now()))
      ensures msgs == [] && next == None ==>
        state == old(state).(pending := state.pending) && high == old(high) && |trail| <= 1
    {
      hide Sound, Passing, Response, Delivers, Completed, StopsAtPicture, IsTrail, Lasting, Traced, EndsAt, Ended;
      hide StateOk, Opened, StayedOrSent, Sent, Quiet, FeedOk;
      if Response(feed, W(), msgs, next) { ResponseSays(feed, W(), msgs, next); }
      ok, trail, targets := Walk(msgs, auth, defaultSession);
      if !ok { return; }
      ghost var last := Now();
      ok := Finish(next);
      if ok || state.cursor != old(state.cursor) { EndsHere(trail, last, Now()); }
    }

    /** Lines 229-397. */
    method ProcessUpdateBatch(msgs: seq<Message>, next: Option<nat>)
      returns (ok: bool, ghost trail: seq<Moment>, ghost targets: seq<Option<string>>)
      requires StateOk(state.pending)
      modifies this`state, this`clock, this`log, this`refused, this`routes, this`notices, this`consumed, this`recent
      modifies this`high, this`marked, this`lost, this`faults
      ensures StateOk(state.pending) && state.auth == old(state.auth)
      // Before the first message, the batch stays or is sent; then each message is handled.
      ensures trail != [] ==>
        && old(state).auth.Some? && old(state).defaultSession.Some? && trail[0].clock <= clock
        && Traced(old(Now()), trail, targets, msgs, old(state).auth.value, old(state).defaultSession.value, limit)
      // Success, and the cursor, need all of them, and none that is blocked.
      ensures ok ==> trail != []
      ensures ok || state.cursor != old(state.cursor) ==>
        old(state).auth.Some? && Completed(trail, targets, msgs, old(state).auth.value)
      ensures state.cursor == old(state.cursor) || next == Some(state.cursor)
      ensures ok && next.Some? ==> state.cursor == next.value
      // After the last message, the batch that is due is sent, before the cursor moves.
      ensures ok || state.cursor != old(state.cursor) ==> EndsAt(trail, Now())
      ensures high <= Max(old(high), old(state.cursor) + |msgs|) || (next.Some? && high == next.value)
      // Whatever happens, the log and the books stay right.
      ensures old(Tracked() && Response(feed, W(), msgs, next)) ==>
        Tracked() && Lasting(trail, msgs) && OwnOnly(feed, W(), B())
      ensures clock >= old(clock) && faults >= old(faults)
      // Undisturbed, only a picture that has to wait stops the pass.
      ensures faults == old(faults) && old(state.auth.Some? && state.defaultSession.Some?) ==>
        trail != [] && (ok || StopsAtPicture(trail, targets, msgs, old(state).auth.value, Now()))
      ensures msgs == [] && next == None ==>
        state == old(state).(pending := state.pending) && high == old(high) && |trail| <= 1
    {
      hide Sound, Passing, Delivers, Lasting, Traced, StateOk, StopsAtPicture, Completed, Ended, EndsAt, Response;
      hide OwnOnly;
      trail, targets := [], [];
      NothingLasts(msgs);
      if Tracked() { SoundOwns(feed, W(), B()); }
      ok := Effect();
      if !ok { return; }
      if state.auth.None? || state.defaultSession.None? {
        ok := false;
        return;
      }
      ok, trail, targets := Pass(msgs, next, state.auth.value, state.defaultSession.value);
      if Tracked() { SoundOwns(feed, W(), B()); }
    }

    /** The long poll of `getUpdates`, which returns by its timeout. */
    method AwaitUpdates(timeoutMs: int) returns (ok: bool)
      modifies this`clock, this`faults
      ensures old(clock) <= clock <= old(clock) + Max(0, timeoutMs)
      ensures faults >= old(faults) && (faults == old(faults) ==> ok)
    {
      var now: int := *;
      ok := *;
      if clock <= now <= clock + Max(0, timeoutMs) { clock := now; }
      if !ok { faults := faults + 1; }
    }

    /** Line 564: a pass over nothing sends the batch whose time has come. */
    method SendWaiting() returns (ok: bool)
      requires StateOk(state.pending)
      modifies this`state, this`clock, this`log, this`refused, this`routes, this`notices, this`consumed, this`recent
      modifies this`high, this`marked, this`lost, this`faults
      ensures StateOk(state.pending) && state == old(state).(pending := state.pending) && high == old(high)
      ensures ok ==> StayedOrSent(old(Now()), Now())
      ensures ok && DueBy(old(state.pending), old(clock)) ==> state.pending == None
      ensures ok && old(MayWait(state)) && !DueBy(old(state.pending), clock) ==>
        state == old(state) && Quiet(old(Now()), Now())
      ensures old(Tracked()) ==> Tracked()
      ensures clock >= old(clock) && faults >= old(faults)
      ensures faults == old(faults) && old(state.auth.Some? && state.defaultSession.Some?) ==> ok
    {
      assert Tracked() ==> Response(feed, W(), [], None);
      hide Sound, Passing, Handled, Response;
      ghost var trail, targets;
      ok, trail, targets := ProcessUpdateBatch([], None);
      if !ok { return; }
      assert Opened(old(Now()), trail[0], true);
      StayedOrSentTrans(old(Now()), trail[0], Now());
    }

    /** Lines 572-578: the poll, which ends by the deadline of a batch that collects. */
    method PollUpdates(serverTimeoutMs: int) returns (ok: bool, ghost asked: int)
      modifies this`clock, this`faults
      ensures IsCollecting(state.pending) ==>
        clock <= Max(state.pending.value.deadlineAt, asked + 1)
      ensures old(clock) <= asked <= clock && faults >= old(faults) && (faults == old(faults) ==> ok)
    {
      var now := ReadClock();
      if IsCollecting(state.pending) { PollEndsByDeadline(serverTimeoutMs, state.pending, now); }
      asked := now;
      ok := AwaitUpdates(ImageAwarePollTimeout(serverTimeoutMs, state.pending, now));
    }

    /** Lines 556-587: the pass over nothing, the poll, and the pass over what it brought. A
        store that is read right after a write is read again. */
    method Iteration(msgs: seq<Message>, next: Option<nat>, serverTimeoutMs: int)
      returns (ok: bool, ghost trail: seq<Moment>, ghost targets: seq<Option<string>>,
        ghost asked: int, ghost answered: Moment)
      requires StateOk(state.pending)
      modifies this`state, this`clock, this`log, this`refused, this`routes, this`notices, this`consumed, this`recent
      modifies this`high, this`marked, this`lost, this`faults
      ensures StateOk(state.pending) && state.auth == old(state.auth)
      // The poll ends by the deadline of the batch that collects while it waits.
      ensures trail != [] ==> Opened(answered, trail[0], msgs == []) && old(clock) <= asked <= answered.clock <= clock
      ensures trail != [] && IsCollecting(answered.state.pending) ==>
        answered.clock <= Max(answered.state.pending.value.deadlineAt, asked + 1)
      ensures old(Tracked() && Response(feed, W(), msgs, next)) ==> Tracked() && Lasting(trail, msgs)
      ensures state.cursor == old(state.cursor) || next == Some(state.cursor)
      ensures high <= Max(old(high), old(state.cursor) + |msgs|) || (next.Some? && high == next.value)
      ensures trail != [] ==>
        && old(state).auth.Some? && old(state).defaultSession.Some?
        && IsTrail(trail, targets, msgs, old(state).auth.value, old(state).defaultSession.value, limit)
      ensures ok || state.cursor != old(state.cursor) ==>
        old(state).auth.Some? && Completed(trail, targets, msgs, old(state).auth.value)
      ensures ok || state.cursor != old(state.cursor) ==> EndsAt(trail, Now())
      ensures ok ==> (next.Some? ==> state.cursor == next.value)
      ensures clock >= old(clock) && faults >= old(faults)
      // Undisturbed, only a picture that has to wait stops the iteration.
      ensures faults == old(faults) && old(state.enabled && state.auth.Some? && state.defaultSession.Some?) ==>
        Undisturbed(old(Now()), trail, targets, msgs, next, limit, Now(), ok)
      // Before the list is read the waiting batch stays or is sent; past its deadline it is sent.
      ensures trail != [] ==> StayedOrSent(old(Now()), trail[0])
      ensures trail != [] && DueBy(old(state.pending), old(clock)) ==> trail[0].state.pending == None
      ensures trail != [] && old(MayWait(state)) && !DueBy(old(state.pending), clock) ==>
        trail[0].state == old(state) && Quiet(old(Now()), trail[0])
    {
      hide Sound, Passing, Delivers, Lasting, IsTrail, StateOk, StopsAtPicture, Completed, Ended, OwnOnly, RoutesKept;
      hide RequestOf, Response, Undisturbed, EndsAt;
      trail, targets, asked, answered := [], [], clock, Now();
      NothingLasts(msgs);
      if !state.enabled {
        ok := false;
        return;
      }
      ok := SendWaiting();
      if !ok { return; }
      ok, asked := PollUpdates(serverTimeoutMs);
      answered := Now();
      if !ok { return; }
      if Response(feed, old(W()), msgs, next) { ResponseAgain(feed, old(W()), W(), msgs, next); }
      ok, trail, targets := ProcessUpdateBatch(msgs, next);
      if trail != [] { StayedOrSentTrans(old(Now()), answered, trail[0]); }
      if faults == old(faults) && old(state.enabled && state.auth.Some? && state.defaultSession.Some?) {
        IsUndisturbed(old(Now()), trail, targets, msgs, next, limit, Now(), ok);
      }
    }

    /** What the server has from the cursor up to position `end`; it may leave out the new
        cursor. */
    method GetUpdates(end: nat) returns (msgs: seq<Message>, next: Option<nat>)
      requires Tracked() && high <= end <= |feed.order| && end <= state.cursor + limit
      ensures Response(feed, W(), msgs, next) && |msgs| == end - state.cursor && next in {None, Some(end)}
    {
      SoundPlaces(feed, W(), B());
      hide Sound, Response;
      msgs := [];
      for j := 0 to end - state.cursor
        invariant |msgs| == j
        invariant forall p | 0 <= p < j :: feed.messages[feed.order[state.cursor + p]] == msgs[p]
      {
        msgs := msgs + [feed.messages[feed.order[state.cursor + j]]];
      }
      var saves: bool := *;
      next := if saves then Some(end) else None;
      IsResponse(feed, W(), msgs, end, next);
    }

    /** Between two iterations the user may switch the bridge on or off, or choose another
        default session. */
    method Configure(enabled: bool, session: string) returns (ok: bool)
      modifies this`state, this`consumed, this`recent, this`marked, this`lost, this`faults
      ensures state == old(state).(enabled := enabled, defaultSession := Some(session)) || (!ok && state == old(state))
      ensures ok ==> state == old(state).(enabled := enabled, defaultSession := Some(session))
      ensures old(Tracked()) ==> Tracked()
      ensures state.pending == old(state.pending) && faults >= old(faults) && (faults == old(faults) ==> ok)
    {
      var next := state.(enabled := enabled, defaultSession := Some(session));
      if Tracked() { NeutralSound(feed, W(), B(), next); }
      hide Sound;
      ok := Commit(next, W().(state := next), B());
    }

    /** One iteration whose poll brings what has arrived by position `end`. Nothing happens
        when more is waiting than the list of processed ids can hold. */
    method Poll(end: nat)
      requires Tracked() && StateOk(state.pending) && high <= end <= |feed.order|
      modifies this`state, this`clock, this`log, this`refused, this`routes, this`notices, this`consumed, this`recent
      modifies this`high, this`marked, this`lost, this`faults
      ensures Tracked() && StateOk(state.pending) && high <= end && state.auth == old(state.auth)
    {
      SoundPlaces(feed, W(), B());
      if end > state.cursor + limit { return; }
      var msgs, next := GetUpdates(end);
      var serverTimeoutMs: int := *;
      hide Sound, Response, StateOk, Ended, Completed, StayedOrSent, Lasting, IsTrail, StopsAtPicture;
      ghost var trail, targets, asked, answered;
      var ok;
      ok, trail, targets, asked, answered := Iteration(msgs, next, serverTimeoutMs);
    }

    /** Any number of iterations, each stopped anywhere: poll k brings what has arrived by
        then, up to position `arrived[k]`. */
    method Run(arrived: seq<nat>)
      requires Tracked() && StateOk(state.pending)
      requires forall k | 0 <= k < |arrived| :: high <= arrived[k] <= |feed.order|
      requires forall j, k | 0 <= j < k < |arrived| :: arrived[j] <= arrived[k]
      modifies this`state, this`clock, this`log, this`refused, this`routes, this`notices, this`consumed, this`recent
      modifies this`high, this`marked, this`lost, this`faults
      ensures Tracked() && state.auth == old(state.auth)
      // A message reaches the gateway under one key, with one prompt and its batch's images.
      ensures OnePayload(log) && Fits(feed, W(), B())
      // Only what the signed-in user wrote reaches the gateway.
      ensures OwnOnly(feed, W(), B())
      // A message that was recorded is settled.
      ensures forall id | id in marked :: id in feed.messages && Settled(feed, W(), B(), id)
      // A message behind the cursor was recorded or lost, and never both.
      ensures Listed(feed, W(), B())
    {
      hide Sound, StateOk;
      for k := 0 to |arrived|
        invariant Tracked() && StateOk(state.pending) && state.auth == old(state.auth)
        invariant forall j | k <= j < |arrived| :: high <= arrived[j]
      {
        var enabled: bool, session: string := *, *;
        var configured := Configure(enabled, session);
        Poll(arrived[k]);
      }
      SoundSays(feed, W(), B());
    }

    /** An undisturbed iteration deals with the whole list and leaves no pictures alone of it
        unrecorded, or it stops at the first that are not recorded. */
    method StopsAtFirstPicture(msgs: seq<Message>, next: Option<nat>, timeoutMs: int) returns (ok: bool, ghost p: nat)
      requires StateOk(state.pending) && state.enabled && state.auth.Some? && state.defaultSession.Some?
      requires Tracked() && Response(feed, W(), msgs, next)
      modifies this`state, this`clock, this`log, this`refused, this`routes, this`notices, this`consumed, this`recent
      modifies this`high, this`marked, this`lost, this`faults
      ensures StateOk(state.pending) && Tracked() && state.auth == old(state.auth)
      ensures faults == old(faults) && ok ==>
        && NoPictureBefore(state, msgs, |msgs|, old(state.auth).value)
        && state.cursor == if next.Some? then next.value else old(state.cursor)
      ensures faults == old(faults) && !ok ==>
        && FirstPicture(feed, state, p) && state.cursor == old(state.cursor) && p < state.cursor + |msgs|
        && feed.order[p] !in state.processed && IsCollecting(state.pending)
    {
      hide Sound, Response, Delivers, StateOk, Lasting, IsTrail, StopsAtPicture, Completed, Ended, EndsAt, Opened;
      hide StayedOrSent, Quiet, MayWait, FirstPicture, Undisturbed, NoPictureBefore;
      p := 0;
      ghost var trail, targets, asked, answered;
      ok, trail, targets, asked, answered := Iteration(msgs, next, timeoutMs);
      if faults == old(faults) {
        StopOutcome(feed, old(W()), old(Now()), trail, targets, msgs, next, limit, Now(), ok);
        if !ok { p := state.cursor + |trail| - 1; }
      }
    }

    /** Pictures for one session wait while another session's batch collects. An undisturbed
        iteration takes in the first pictures of the list or leaves them for the next one with
        the same batch, whose deadline is not moved; at or after the deadline it sends that
        batch and takes them in. */
    method PictureIsTakenIn(ghost p: nat, msgs: seq<Message>, next: Option<nat>, timeoutMs: int)
      requires StateOk(state.pending) && state.enabled && state.auth.Some? && state.defaultSession.Some?
      requires Tracked() && Response(feed, W(), msgs, next)
      modifies this`state, this`clock, this`log, this`refused, this`routes, this`notices, this`consumed, this`recent
      modifies this`high, this`marked, this`lost, this`faults
      ensures StateOk(state.pending) && Tracked() && state.auth == old(state.auth) && faults >= old(faults)
      ensures high <= Max(old(high), old(state.cursor) + |msgs|) || (next.Some? && high == next.value)
      ensures faults == old(faults) && FirstPicture(feed, old(state), p) && p < old(state.cursor) + |msgs| ==>
        && (TakenIn(feed, W(), B(), p) || StillWaits(feed, old(state), state, p))
        && (DueBy(old(state.pending), old(clock)) ==> TakenIn(feed, W(), B(), p))
        && (DueBy(old(state.pending), old(clock)) && old(state.pending).Some? ==>
            WasMade(Now(), RequestOf(old(state.pending).value)))
    {
      hide Sound, Response, Delivers, StateOk, Lasting, IsTrail, StopsAtPicture, Completed, Ended, EndsAt, Opened;
      hide StayedOrSent, Quiet, MayWait, FirstPicture, Undisturbed, StillWaits, TakenIn, WasMade, RequestOf, DueBy;
      ghost var trail, targets, asked, answered;
      var ok;
      ok, trail, targets, asked, answered := Iteration(msgs, next, timeoutMs);
      if faults == old(faults) && FirstPicture(feed, old(state), p) && p < old(state.cursor) + |msgs| {
        PictureOutcome(feed, old(Now()), trail, targets, msgs, next, limit, old(W()), W(), B(), Now(), ok, p);
      }
    }

    /** One iteration, not before the time `start`, with the default session `session`. */
    method TakeOrWait(p: nat, end: nat, start: int, session: string) returns (taken: bool)
      requires Tracked() && StateOk(state.pending) && state.auth.Some? && p < |feed.order|
      requires high <= end <= |feed.order| && p < end
      modifies this`state, this`clock, this`log, this`refused, this`routes, this`notices, this`consumed, this`recent
      modifies this`high, this`marked, this`lost, this`faults
      ensures Tracked() && StateOk(state.pending) && high <= end
      ensures faults >= old(faults) && state.auth == old(state.auth)
      ensures taken ==> TakenIn(feed, W(), B(), p)
      ensures faults == old(faults) && FirstPicture(feed, old(state), p) && end <= old(state.cursor) + limit && !taken ==>
        StillWaits(feed, old(state), state, p) && !DueBy(old(state.pending), start)
    {
      hide Sound, StateOk, FirstPicture, Settled, Response, RequestOf, WasMade, TakenIn;
      if clock < start { clock := start; }
      var configured := Configure(true, session);
      SoundPlaces(feed, W(), B());
      taken := false;
      if !configured || end > state.cursor + limit { return; }
      if FirstPicture(feed, old(state), p) { FirstPictureAlike(feed, old(state), state, p); }
      var msgs, next := GetUpdates(end);
      var timeoutMs: int := *;
      PictureIsTakenIn(p, msgs, next, timeoutMs);
      taken := feed.order[p] in state.processed;
      IsTakenIn(feed, W(), B(), p);
    }

    /** Any number of undisturbed iterations, iteration k not before the time `starts[k]`, with
        any default session chosen between them: the first pictures of the stream wait for no
        other batch than the one that was there, and are taken in by the time an iteration
        began at or after the deadline that it had at first. */
    method PictureWaits(p: nat, arrived: seq<nat>, starts: seq<int>)
      requires Tracked() && StateOk(state.pending) && FirstPicture(feed, state, p) && |starts| == |arrived|
      requires forall k | 0 <= k < |arrived| ::
        high <= arrived[k] <= |feed.order| && p < arrived[k] <= state.cursor + limit
      requires forall j, k | 0 <= j < k < |arrived| :: arrived[j] <= arrived[k]
      modifies this`state, this`clock, this`log, this`refused, this`routes, this`notices, this`consumed, this`recent
      modifies this`high, this`marked, this`lost, this`faults
      ensures Tracked()
      ensures faults == old(faults) ==>
        || TakenIn(feed, W(), B(), p)
        || (StillWaits(feed, old(state), state, p)
            && forall k | 0 <= k < |starts| :: !DueBy(old(state.pending), starts[k]))
    {
      hide Sound, StateOk, FirstPicture, Settled, DueBy, TakenIn;
      FirstPictureSays(feed, state, p);
      for k := 0 to |arrived|
        invariant Tracked() && StateOk(state.pending)
        invariant forall j | k <= j < |arrived| :: high <= arrived[j]
        invariant faults >= old(faults) && state.auth == old(state.auth)
        invariant faults == old(faults) ==>
          StillWaits(feed, old(state), state, p) && forall j | 0 <= j < k :: !DueBy(old(state.pending), starts[j])
      {
        var session: string := *;
        ghost var before := state;
        var taken := TakeOrWait(p, arrived[k], starts[k], session);
        if taken { return; }
        if faults == old(faults) { StillWaitsTrans(feed, old(state), before, state, p); }
      }
    }

    /** The picture of TwoMessages is collected for session "A". */
    static method CollectFirst(timeoutMs: int) returns (bridge: Bridge, ghost deadline: int)
      ensures fresh(bridge) && bridge.Tracked() && bridge.feed == TwoMessages() && bridge.limit == 2
      ensures StateOk(bridge.state.pending) && bridge.high <= 1 && deadline >= IMAGE_BATCH_WAIT_MILLIS
      ensures bridge.faults == 0 && bridge.clock < deadline ==>
        && bridge.state == FirstState(deadline)
        && bridge.log == [] && bridge.refused == []
    {
      bridge := new Bridge(2, TwoMessages(), true, Some(TheUser()), Some("A"), map[]);
      ghost var start := bridge.Now();
      ghost var trail, targets, asked, answered;
      var ok;
      TheirResponses(bridge.W());
      hide APicture, TwoMessages, TheUser, Sound, Completed, Ended, StayedOrSent, Lasting, IsTrail, StopsAtPicture, Response, Quiet;
      ok, trail, targets, asked, answered := bridge.Iteration([APicture()], Some(1), timeoutMs);
      deadline := IMAGE_BATCH_WAIT_MILLIS;
      if bridge.faults == 0 {
        FirstIsCollected(start, trail, targets, bridge.Now(), ok);
        deadline := trail[1].clock + IMAGE_BATCH_WAIT_MILLIS;
      }
    }

    /** How a text gets lost. A picture is collected under session "A", the user chooses "B",
        and a plain text arrives before the batch is due: undisturbed, the pass succeeds and
        moves the cursor past the text, which is recorded nowhere and was never sent. */
    static method TextIsLost(timeoutMs: int) returns (bridge: Bridge, ghost deadline: int)
      ensures fresh(bridge) && bridge.Tracked() && deadline >= IMAGE_BATCH_WAIT_MILLIS
      ensures bridge.faults == 0 && bridge.clock < deadline ==>
        && bridge.state.cursor == 2 && "t" !in bridge.state.processed && bridge.lost == {"t"}
        && bridge.log == [] && bridge.refused == []
    {
      bridge, deadline := CollectFirst(timeoutMs);
      hide Sound, Completed, Ended, StayedOrSent, Lasting, IsTrail, StopsAtPicture, Quiet, Response;
      var configured := bridge.Configure(true, "B");
      if bridge.state.cursor != 1 { return; }
      ghost var start := bridge.Now();
      ghost var trail, targets, asked, answered;
      var ok;
      TheirResponses(bridge.W());
      ok, trail, targets, asked, answered := bridge.Iteration([AText()], Some(2), timeoutMs);
      if bridge.faults == 0 && bridge.clock < deadline {
        SecondIsLost(start, deadline, trail, targets, bridge.Now(), ok);
        OnlyTextIsLost(bridge.feed, bridge.W(), bridge.B());
      }
    }
  }
}
