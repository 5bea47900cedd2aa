/** The per-session channel automaton (web-surface-channel-state.ts), the messages the page
    posts for it (web-surface-channel.ts), and what the frame shows after them. */
module WebSurfaceChannel {
  import opened Prelude

  /** A view; `None` is the JSON null that a registration starts with. */
  type View = Option<int>

  datatype Projection = Projection(owner: string, candidateHash: string, revision: int, view: View)

  datatype Runtime = Runtime(registryId: string, runtimeEpoch: int, runtimeId: string)

  datatype ChannelState = ChannelState(runtime: Runtime, revision: int, initialized: bool)

  datatype CloseReason = RuntimeReplaced | SurfaceUnavailable | StreamFailed

  datatype Delivery = Init | Projected

  datatype Transition = Transition(state: ChannelState, closeReason: Option<CloseReason>, delivery: Option<Delivery>)

  /** Lines 18-43: `advanceWebSurfaceSessionChannel`. */
  function Advance(previous: Option<ChannelState>, runtime: Runtime, surface: Option<Projection>): Transition {
    var replaced := previous.Some? && previous.value.runtime != runtime;
    var current := if replaced then None else previous;
    if surface.None? then
      Transition(
        ChannelState(runtime, -1, false),
        if replaced then Some(RuntimeReplaced)
        else if current.Some? && current.value.initialized then Some(SurfaceUnavailable)
        else None,
        None)
    else if current.Some? && surface.value.revision <= current.value.revision then
      Transition(current.value, None, None)
    else
      Transition(
        ChannelState(runtime, surface.value.revision, true),
        if replaced then Some(RuntimeReplaced) else None,
        Some(if current.Some? && current.value.initialized then Projected else Init))
  }

  // ----- messages to the frame -----

  datatype Message =
    | SessionClosed(reason: CloseReason)
    | InitMessage(runtime: Runtime, surface: Projection)
    | ProjectionMessage(runtime: Runtime, surface: Projection)

  /** What an event says about one session's surface. */
  datatype Envelope = Envelope(runtime: Runtime, surface: Option<Projection>)

  function ClosePost(t: Transition): seq<Message> {
    if t.closeReason.Some? then [SessionClosed(t.closeReason.value)] else []
  }

  function DeliveryPost(t: Transition, e: Envelope): seq<Message> {
    if e.surface.None? || t.delivery.None? then []
    else if t.delivery.value.Init? then [InitMessage(e.runtime, e.surface.value)]
    else [ProjectionMessage(e.runtime, e.surface.value)]
  }

  /** Lines 226-247: the messages of one event, a close before a delivery. */
  function Posts(previous: Option<ChannelState>, e: Envelope): seq<Message> {
    var t := Advance(previous, e.runtime, e.surface);
    ClosePost(t) + DeliveryPost(t, e)
  }

  function StateAfter(events: seq<Envelope>): Option<ChannelState> {
    if events == [] then None
    else
      var last := events[|events| - 1];
      Some(Advance(StateAfter(events[..|events| - 1]), last.runtime, last.surface).state)
  }

  function MessagesOf(events: seq<Envelope>): seq<Message> {
    if events == [] then []
    else MessagesOf(events[..|events| - 1]) + Posts(StateAfter(events[..|events| - 1]), events[|events| - 1])
  }

  // ----- the frame -----

  /** What the frame may assume about its session: closed, or open on one registration. */
  datatype Frame = Shut | Open(runtime: Runtime, revision: int, view: View)

  /** `None`: the message breaks the protocol. */
  function Receive(frame: Frame, m: Message): Option<Frame> {
    match m
    case SessionClosed(_) => Some(Shut)
    case InitMessage(runtime, surface) =>
      if frame.Shut? then Some(Open(runtime, surface.revision, surface.view)) else None
    case ProjectionMessage(runtime, surface) =>
      if frame.Open? && frame.runtime == runtime && frame.revision < surface.revision
      then Some(Open(runtime, surface.revision, surface.view))
      else None
  }

  function ReceiveAll(frame: Frame, messages: seq<Message>): Option<Frame> {
    if messages == [] then Some(frame)
    else
      var before := ReceiveAll(frame, messages[..|messages| - 1]);
      if before.None? then None else Receive(before.value, messages[|messages| - 1])
  }

  lemma {:induction false} ReceiveConcat(frame: Frame, m: seq<Message>, n: seq<Message>)
    ensures ReceiveAll(frame, m + n) ==
      if ReceiveAll(frame, m).None? then None else ReceiveAll(ReceiveAll(frame, m).value, n)
    decreases |n|
  {
    if n == [] {
      assert m + n == m;
    } else {
      assert (m + n)[..|m + n| - 1] == m + n[..|n| - 1];
      ReceiveConcat(frame, m, n[..|n| - 1]);
    }
  }

  /** The frame is open exactly when the channel is initialized, on the same runtime and at
      the same revision. */
  ghost predicate InStep(state: Option<ChannelState>, frame: Frame) {
    && (state.Some? && state.value.initialized ==>
        frame.Open? && frame.runtime == state.value.runtime && frame.revision == state.value.revision)
    && (state.None? || !state.value.initialized ==> frame.Shut?)
  }

  /** A close shuts the frame; a delivery is received in what that leaves. */
  function AfterPosts(frame: Frame, t: Transition, e: Envelope): Option<Frame> {
    var closed := if t.closeReason.Some? then Shut else frame;
    if e.surface.None? || t.delivery.None? then Some(closed)
    else if t.delivery.value.Init? then Receive(closed, InitMessage(e.runtime, e.surface.value))
    else Receive(closed, ProjectionMessage(e.runtime, e.surface.value))
  }

  lemma ReceiveOne(frame: Frame, m: Message)
    ensures ReceiveAll(frame, [m]) == Receive(frame, m)
  {
    assert [m][..0] == [];
  }

  lemma ReceivePosts(frame: Frame, t: Transition, e: Envelope)
    ensures ReceiveAll(frame, ClosePost(t) + DeliveryPost(t, e)) == AfterPosts(frame, t, e)
  {
    ReceiveConcat(frame, ClosePost(t), DeliveryPost(t, e));
    if t.closeReason.Some? { ReceiveOne(frame, SessionClosed(t.closeReason.value)); }
    var closed := if t.closeReason.Some? then Shut else frame;
    if e.surface.Some? && t.delivery.Some? {
      ReceiveOne(closed, DeliveryPost(t, e)[0]);
    }
  }

  lemma PostsInStep(previous: Option<ChannelState>, e: Envelope, frame: Frame)
    requires InStep(previous, frame)
    ensures var after := ReceiveAll(frame, Posts(previous, e));
      after.Some? && InStep(Some(Advance(previous, e.runtime, e.surface).state), after.value)
  {
    ReceivePosts(frame, Advance(previous, e.runtime, e.surface), e);
    hide ReceiveAll, ClosePost, DeliveryPost;
  }

  /** What one more event has to tell a frame, by what the frame shows, and the runtime of the
      event before. */
  function News(frame: Frame, last: Option<Runtime>, e: Envelope): seq<Message> {
    if last.Some? && last.value != e.runtime then
      [SessionClosed(RuntimeReplaced)] + if e.surface.Some? then [InitMessage(e.runtime, e.surface.value)] else []
    else
      match (frame, e.surface)
      case (Open(_, revision, _), Some(s)) => if revision < s.revision then [ProjectionMessage(e.runtime, s)] else []
      case (Open(_, _, _), None) => [SessionClosed(SurfaceUnavailable)]
      case (Shut, Some(s)) => if last.None? || s.revision >= 0 then [InitMessage(e.runtime, s)] else []
      case (Shut, None) => []
  }

  function LastRuntime(events: seq<Envelope>): Option<Runtime> {
    if events == [] then None else Some(events[|events| - 1].runtime)
  }

  /** The channel's state knows the runtime of the last event, and that a session that is shut
      has nothing to compare revisions with. */
  ghost predicate Remembers(state: Option<ChannelState>, last: Option<Runtime>) {
    && (state.None? <==> last.None?)
    && (state.Some? ==> state.value.runtime == last.value)
    && (state.Some? && !state.value.initialized ==> state.value.revision == -1)
  }

  lemma PostsAreNews(previous: Option<ChannelState>, e: Envelope, frame: Frame, last: Option<Runtime>)
    requires InStep(previous, frame) && Remembers(previous, last)
    ensures Posts(previous, e) == News(frame, last, e)
    ensures Remembers(Some(Advance(previous, e.runtime, e.surface).state), Some(e.runtime))
  {
  }

  /** Whatever the events are, the messages of a session are a legal trace: `init` only
      when it is shut, `projection` only when it is open on that runtime, with revisions
      that grow, and a change of runtime shuts it first. Each event posts what is news to the
      frame, and nothing else. */
  lemma {:induction false} TraceIsLegal(events: seq<Envelope>)
    ensures var frame := ReceiveAll(Shut, MessagesOf(events));
      frame.Some? && InStep(StateAfter(events), frame.value) && Remembers(StateAfter(events), LastRuntime(events))
    ensures events != [] ==>
      var before := events[..|events| - 1];
      var frame := ReceiveAll(Shut, MessagesOf(before));
      && frame.Some?
      && MessagesOf(events) == MessagesOf(before) + News(frame.value, LastRuntime(before), events[|events| - 1])
    decreases |events|
  {
    if events != [] {
      var before, last := events[..|events| - 1], events[|events| - 1];
      TraceIsLegal(before);
      var frame := ReceiveAll(Shut, MessagesOf(before)).value;
      PostsInStep(StateAfter(before), last, frame);
      ReceiveConcat(Shut, MessagesOf(before), Posts(StateAfter(before), last));
      PostsAreNews(StateAfter(before), last, frame, LastRuntime(before));
    }
  }

  // ----- agreement with the host -----

  /** Two events in a row, as a host publishes them: on one runtime, a surface that stays
      either is the same or has a larger revision. */
  ghost predicate Follows(e: Envelope, f: Envelope) {
    e.runtime == f.runtime && e.surface.Some? && f.surface.Some? ==>
      e.surface == f.surface || e.surface.value.revision < f.surface.value.revision
  }

  ghost predicate FromHost(events: seq<Envelope>) {
    && (forall i | 0 <= i < |events| :: events[i].surface.Some? ==> events[i].surface.value.revision >= 0)
    && (forall i | 0 < i < |events| :: Follows(events[i - 1], events[i]))
  }

  /** What the frame should show after an event. */
  function Expected(e: Envelope): Frame {
    match e.surface
    case None => Shut
    case Some(s) => Open(e.runtime, s.revision, s.view)
  }

  function Reflected(e: Envelope): ChannelState {
    ChannelState(e.runtime, if e.surface.Some? then e.surface.value.revision else -1, e.surface.Some?)
  }

  lemma PostsAgree(previous: Envelope, e: Envelope)
    requires Follows(previous, e) && (e.surface.Some? ==> e.surface.value.revision >= 0)
    requires previous.surface.Some? ==> previous.surface.value.revision >= 0
    ensures ReceiveAll(Expected(previous), Posts(Some(Reflected(previous)), e)) == Some(Expected(e))
    ensures Advance(Some(Reflected(previous)), e.runtime, e.surface).state == Reflected(e)
  {
    ReceivePosts(Expected(previous), Advance(Some(Reflected(previous)), e.runtime, e.surface), e);
    hide ReceiveAll, ClosePost, DeliveryPost;
  }

  lemma FirstAgrees(e: Envelope)
    requires e.surface.Some? ==> e.surface.value.revision >= 0
    ensures ReceiveAll(Shut, Posts(None, e)) == Some(Expected(e))
    ensures Advance(None, e.runtime, e.surface).state == Reflected(e)
  {
    ReceivePosts(Shut, Advance(None, e.runtime, e.surface), e);
    hide ReceiveAll, ClosePost, DeliveryPost;
  }

  /** After it consumed the events of hosts, on one runtime or several, the frame shows the
      surface of the last one, and is shut when there is none. */
  lemma {:induction false} FrameAgrees(events: seq<Envelope>)
    requires events != [] && FromHost(events)
    ensures var last := events[|events| - 1];
      && ReceiveAll(Shut, MessagesOf(events)) == Some(Expected(last))
      && StateAfter(events) == Some(Reflected(last))
    decreases |events|
  {
    hide Advance, Posts, Follows, Expected, Reflected, ReceiveAll;
    var before, last := events[..|events| - 1], events[|events| - 1];
    assert StateAfter(events) == Some(Advance(StateAfter(before), last.runtime, last.surface).state);
    assert MessagesOf(events) == MessagesOf(before) + Posts(StateAfter(before), last);
    if before == [] {
      FirstAgrees(last);
      assert MessagesOf(events) == Posts(None, last);
    } else {
      forall i | 0 < i < |before| ensures Follows(before[i - 1], before[i]) {
        assert Follows(events[i - 1], events[i]);
      }
      FrameAgrees(before);
      assert Follows(events[|events| - 2], last);
      hide MessagesOf, StateAfter;
      PostsAgree(before[|before| - 1], last);
      ReceiveConcat(Shut, MessagesOf(before), Posts(StateAfter(before), last));
    }
  }

  /** A stream that fails shuts the session, whatever came before it. */
  lemma FailureShuts(events: seq<Envelope>)
    ensures ReceiveAll(Shut, MessagesOf(events) + [SessionClosed(StreamFailed)]) == Some(Shut)
  {
    TraceIsLegal(events);
    var all := MessagesOf(events) + [SessionClosed(StreamFailed)];
    assert all[..|all| - 1] == MessagesOf(events);
  }
}
