/** The page's side of the channel (web-surface-channel.ts 47-51, 140-183 and 203-267): it
    turns the events of each session into messages for the frame, and forwards the frame's
    actions to the host. */
module WebSurfacePort {
  import C = WebSurfaceClient
  import H = WebSurfaceHost
  import opened Prelude
  import opened WebSurfaceChannel

  /** The surface a session is bound to. */
  datatype Binding = Binding(owner: string, candidateHash: string)

  /** A request sent to the host, lines 157-166. */
  datatype Forward = Forward(requestId: C.RequestId, session: string, runtimeId: string, binding: Binding)

  /** An event that carries the extension UI projection. */
  datatype Event = Event(identity: Runtime, webSurfaces: seq<Projection>)

  function Lookup<K, V>(m: map<K, V>, k: K): Option<V> {
    if k in m then Some(m[k]) else None
  }

  /** What an event says to a bound session. */
  function EnvelopeOf(b: Binding, e: Event): Envelope {
    Envelope(e.identity, H.Find(e.webSurfaces, b.owner, b.candidateHash))
  }

  function EnvelopesOf(b: Binding, events: seq<Event>): (r: seq<Envelope>)
    ensures |r| == |events| && forall i | 0 <= i < |events| :: r[i] == EnvelopeOf(b, events[i])
  {
    seq(|events|, i requires 0 <= i < |events| => EnvelopeOf(b, events[i]))
  }

  lemma OneMore(events: seq<Envelope>, e: Envelope)
    ensures StateAfter(events + [e]) == Some(Advance(StateAfter(events), e.runtime, e.surface).state)
    ensures MessagesOf(events + [e]) == MessagesOf(events) + Posts(StateAfter(events), e)
  {
    assert (events + [e])[..|events + [e]| - 1] == events;
  }

  /** A session's channel is where its events bring it; a failed one is closed for good. */
  ghost predicate InSession(b: Binding, state: Option<ChannelState>, events: seq<Event>, failed: bool,
                            posted: seq<Message>) {
    var seen := EnvelopesOf(b, events);
    if failed then state == None && posted == MessagesOf(seen) + [SessionClosed(StreamFailed)]
    else state == StateAfter(seen) && posted == MessagesOf(seen)
  }

  lemma EventStep(b: Binding, state: Option<ChannelState>, events: seq<Event>, e: Event, posted: seq<Message>)
    requires InSession(b, state, events, false, posted)
    ensures var next := EnvelopeOf(b, e);
      InSession(b, Some(Advance(state, next.runtime, next.surface).state), events + [e], false,
        posted + Posts(state, next))
  {
    assert EnvelopesOf(b, events + [e]) == EnvelopesOf(b, events) + [EnvelopeOf(b, e)];
    OneMore(EnvelopesOf(b, events), EnvelopeOf(b, e));
  }

  function LastIdentity(events: seq<Event>): Option<Runtime> {
    if events == [] then None else Some(events[|events| - 1].identity)
  }

  /** What an event makes the page post is what is news to the frame. */
  lemma NewsStep(b: Binding, state: Option<ChannelState>, events: seq<Event>, e: Event, posted: seq<Message>)
    requires InSession(b, state, events, false, posted)
    ensures var frame := ReceiveAll(Shut, posted);
      frame.Some? && Posts(state, EnvelopeOf(b, e)) == News(frame.value, LastIdentity(events), EnvelopeOf(b, e))
  {
    var seen := EnvelopesOf(b, events);
    TraceIsLegal(seen);
    hide ReceiveAll, MessagesOf, StateAfter, H.Find, Posts, News;
    PostsAreNews(state, EnvelopeOf(b, e), ReceiveAll(Shut, posted).value, LastIdentity(events));
  }

  ghost predicate Distinct(forwards: seq<Forward>) {
    forall i, j | 0 <= i < j < |forwards| :: forwards[i].requestId != forwards[j].requestId
  }

  ghost function Ids(forwards: seq<Forward>): set<C.RequestId> {
    set f | f in forwards :: f.requestId
  }

  lemma NewId(forwards: seq<Forward>, f: Forward)
    requires Distinct(forwards) && f.requestId !in Ids(forwards)
    ensures Distinct(forwards + [f]) && Ids(forwards + [f]) == Ids(forwards) + {f.requestId}
  {
    assert forall g | g in forwards :: g.requestId in Ids(forwards);
    assert f in forwards + [f];
    assert forall g | g in forwards :: g in forwards + [f];
  }

  /** The requests that were answered, as often as they were. */
  ghost function Answered(results: seq<(C.RequestId, C.Outcome)>): multiset<C.RequestId> {
    if results == [] then multiset{}
    else Answered(results[..|results| - 1]) + multiset{results[|results| - 1].0}
  }

  lemma OneMoreAnswer(results: seq<(C.RequestId, C.Outcome)>, id: C.RequestId, outcome: C.Outcome)
    ensures Answered(results + [(id, outcome)]) == Answered(results) + multiset{id}
  {
    assert (results + [(id, outcome)])[..|results|] == results;
  }

  class Port {
    const bindings: map<string, Binding>
    var requests: set<C.RequestId>
    var stateBySession: map<string, ChannelState>
    /** Per session: the events read from its stream, whether that stream failed, and the
        messages posted to the frame about it. */
    ghost var events: map<string, seq<Event>>
    ghost var failed: set<string>
    ghost var posted: map<string, seq<Message>>
    ghost var forwards: seq<Forward>
    /** Requests forwarded and not answered yet. */
    ghost var waiting: set<C.RequestId>
    /** The dispatches received from the frame. */
    ghost var asked: multiset<C.RequestId>
    /** The action results posted to the frame, in order. */
    ghost var results: seq<(C.RequestId, C.Outcome)>

    ghost predicate Session(s: string)
      reads `stateBySession, `events, `failed, `posted
    {
      && s in bindings && s in events && s in posted
      && InSession(bindings[s], Lookup(stateBySession, s), events[s], s in failed, posted[s])
    }

    ghost predicate Sessions()
      reads `stateBySession, `events, `failed, `posted
    {
      && (forall s | s in bindings :: Session(s))
      && stateBySession.Keys <= bindings.Keys
    }

    /** `requests` holds the forwarded requests, each forwarded once. */
    ghost predicate Requests()
      reads `requests, `forwards, `waiting
    {
      && waiting <= requests
      && requests == Ids(forwards)
      && Distinct(forwards)
    }

    /** Every dispatch of the frame was answered once, or is still with the host. */
    ghost predicate Balanced()
      reads `asked, `results, `waiting
    {
      asked == Answered(results) + multiset(waiting)
    }

    ghost predicate Valid()
      reads this
    {
      Sessions() && Requests() && Balanced()
    }

    constructor (bindings: map<string, Binding>)
      ensures Valid() && this.bindings == bindings
      ensures requests == {} && waiting == {} && forwards == [] && results == [] && failed == {} && asked == multiset{}
      ensures forall s | s in bindings :: events[s] == [] && posted[s] == []
    {
      this.bindings := bindings;
      requests, stateBySession, failed, forwards, waiting, results := {}, map[], {}, [], {}, [];
      asked := multiset{};
      events := map s | s in bindings :: [];
      posted := map s | s in bindings :: [];
    }

    /** Lines 212-254: one event of a session's stream. */
    method OnEvent(s: string, e: Event)
      requires Valid() && s in bindings && s !in failed
      modifies `stateBySession, `events, `posted
      ensures Valid()
      ensures events == old(events)[s := old(events)[s] + [e]]
      ensures var frame := ReceiveAll(Shut, old(posted[s]));
        frame.Some? &&
        posted[s] == old(posted[s]) + News(frame.value, LastIdentity(old(events[s])), EnvelopeOf(bindings[s], e))
      ensures forall t | t in bindings && t != s ::
        posted[t] == old(posted)[t] && Lookup(stateBySession, t) == old(Lookup(stateBySession, t))
    {
      hide Requests, Balanced, Advance, H.Find, InSession, News, ReceiveAll, LastIdentity;
      var b := bindings[s];
      var surface := H.Find(e.webSurfaces, b.owner, b.candidateHash);
      ghost var state := Lookup(stateBySession, s);
      assert Session(s);
      EventStep(b, state, events[s], e, posted[s]);
      NewsStep(b, state, events[s], e, posted[s]);
      var t := Advance(Lookup(stateBySession, s), e.identity, surface);
      var out: seq<Message> := [];
      stateBySession := stateBySession[s := t.state];
      if t.closeReason.Some? { out := out + [SessionClosed(t.closeReason.value)]; }
      if surface.Some? && t.delivery.Some? {
        out := out + [if t.delivery.value.Init? then InitMessage(e.identity, surface.value)
                      else ProjectionMessage(e.identity, surface.value)];
      }
      assert out == Posts(state, EnvelopeOf(b, e));
      events := events[s := events[s] + [e]];
      posted := posted[s := posted[s] + out];
      hide Posts;
      forall u | u in bindings ensures Session(u) {
        assert old(Session(u));
      }
    }

    /** Lines 257-263: the stream of a session failed. */
    method OnFailure(s: string)
      requires Valid() && s in bindings && s !in failed
      modifies `stateBySession, `failed, `posted
      ensures Valid() && failed == old(failed) + {s}
      ensures posted[s] == old(posted[s]) + [SessionClosed(StreamFailed)] && s !in stateBySession
      ensures forall t | t in bindings && t != s ::
        posted[t] == old(posted)[t] && Lookup(stateBySession, t) == old(Lookup(stateBySession, t))
    {
      assert Session(s);
      stateBySession := stateBySession - {s};
      failed := failed + {s};
      posted := posted[s := posted[s] + [SessionClosed(StreamFailed)]];
      forall u | u in bindings ensures Session(u) {
        assert old(Session(u));
      }
    }

    /** The frame's session is open exactly when the page accepts actions for it, and then on
        the runtime that they go to. */
    lemma OpenMeansActive(s: string)
      requires Valid() && s in bindings
      ensures var frame := ReceiveAll(Shut, posted[s]);
        && frame.Some?
        && (frame.value.Open? <==> s in stateBySession && stateBySession[s].initialized)
        && (frame.value.Open? ==> frame.value.runtime == stateBySession[s].runtime)
    {
      assert Session(s);
      var seen := EnvelopesOf(bindings[s], events[s]);
      TraceIsLegal(seen);
      FailureShuts(seen);
      hide ReceiveAll, MessagesOf;
    }

    ghost predicate Active(s: string)
      reads `stateBySession
    {
      s in bindings && s in stateBySession && stateBySession[s].initialized
    }

    /** Lines 144-152. */
    method Reject(id: C.RequestId)
      requires Valid()
      modifies `results, `asked
      ensures Valid() && asked == old(asked) + multiset{id}
      ensures results == old(results) +
        [(id, C.Rejected(if id in requests then "duplicate-request" else "session-not-active"))]
    {
      hide Answered;
      var outcome := C.Rejected(if id in requests then "duplicate-request" else "session-not-active");
      OneMoreAnswer(results, id, outcome);
      asked := asked + multiset{id};
      results := results + [(id, outcome)];
    }

    /** Lines 140-166: an action of the frame is forwarded, or rejected at once. */
    method OnDispatch(id: C.RequestId, s: string) returns (forwarded: bool)
      requires Valid()
      modifies `requests, `forwards, `waiting, `results, `asked
      ensures Valid() && asked == old(asked) + multiset{id}
      ensures forwarded <==> id !in old(requests) && Active(s)
      ensures forwarded ==>
        && requests == old(requests) + {id} && waiting == old(waiting) + {id} && unchanged(`results)
        && forwards == old(forwards) + [Forward(id, s, stateBySession[s].runtime.runtimeId, bindings[s])]
      ensures !forwarded ==>
        && unchanged(`requests) && unchanged(`waiting) && unchanged(`forwards)
        && results == old(results) +
          [(id, C.Rejected(if id in requests then "duplicate-request" else "session-not-active"))]
    {
      hide Sessions, Distinct, Ids, Answered;
      if id in requests || !(s in stateBySession && stateBySession[s].initialized) || s !in bindings {
        Reject(id);
        return false;
      }
      asked := asked + multiset{id};
      requests := requests + {id};
      NewId(forwards, Forward(id, s, stateBySession[s].runtime.runtimeId, bindings[s]));
      forwards := forwards + [Forward(id, s, stateBySession[s].runtime.runtimeId, bindings[s])];
      waiting := waiting + {id};
      forwarded := true;
    }

    /** Lines 169-180: the host answered, or the call failed. */
    method OnOutcome(id: C.RequestId, outcome: C.Outcome)
      requires Valid() && id in waiting
      modifies `waiting, `results
      ensures Valid() && waiting == old(waiting) - {id} && results == old(results) + [(id, outcome)]
    {
      hide Sessions, Answered;
      OneMoreAnswer(results, id, outcome);
      waiting := waiting - {id};
      results := results + [(id, outcome)];
    }

    /** From the host's list to the frame: a bound session that read the events a host
        published, from any of them to the last, shows what that last list holds. */
    lemma SessionShowsLast(s: string, runtime: Runtime, lists: seq<seq<Projection>>, from: nat)
      requires Valid() && s in bindings && s !in failed
      requires H.History(lists) && from < |lists|
      requires events[s] == seq(|lists| - from, i requires 0 <= i < |lists| - from => Event(runtime, lists[from + i]))
      ensures ReceiveAll(Shut, posted[s])
        == Some(Expected(H.Seen(runtime, lists[|lists| - 1], bindings[s].owner, bindings[s].candidateHash)))
    {
      hide ReceiveAll, MessagesOf, H.Find;
      assert Session(s);
      var b := bindings[s];
      assert EnvelopesOf(b, events[s]) == H.AllSeen(runtime, lists[from..], b.owner, b.candidateHash);
      H.FrameShowsLast(runtime, lists, from, b.owner, b.candidateHash);
    }
  }
}
