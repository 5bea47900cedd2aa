/** The frame's side of the channel (web-surface-browser.ts 54-137): three tables of pending
    promises, settled by the host's answers or all together when the channel closes. */
module WebSurfaceClient {

  /** Line 58: `surface-<now>-<sequence>`, read back as its two numbers. */
  datatype RequestId = RequestId(now: int, sequence: nat)

  datatype Outcome = Completed(message: string) | Rejected(reason: string) | Failed(message: string)

  datatype Kind = Action | Confirm | HostAction

  /** What a promise is settled with. */
  datatype Answer = Outcome(outcome: Outcome) | Flag(flag: bool)

  datatype Message =
    | Projected
    | Sessions
    | SessionClosed
    | BrowserCompanion
    | ActionResult(requestId: RequestId, outcome: Outcome)
    | ConfirmResult(requestId: RequestId, confirmed: bool)
    | HostActionResult(requestId: RequestId, accepted: bool)
    | Closed

  /** Lines 60-69: what the closing of the channel settles a promise with. */
  function ClosedAnswer(kind: Kind): Answer {
    if kind == Action then Outcome(Rejected("closed")) else Flag(false)
  }

  datatype Call = Call(id: RequestId, kind: Kind)

  /** The only call with an id. */
  ghost predicate Made(calls: seq<Call>, call: nat, id: RequestId, kind: Kind) {
    && call < |calls| && calls[call] == Call(id, kind)
    && forall k | 0 <= k < |calls| && calls[k].id == id :: k == call
  }

  /** Every unanswered call of a kind is settled, but for some ids. */
  ghost predicate SettledBut(given: seq<seq<Answer>>, was: seq<seq<Answer>>, calls: seq<Call>, kind: Kind,
                             rest: set<RequestId>) {
    && |given| == |was| == |calls|
    && forall k | 0 <= k < |calls| ::
      given[k] ==
        if calls[k].kind == kind && was[k] == [] && calls[k].id !in rest then [ClosedAnswer(kind)] else was[k]
  }

  lemma SettleOne(given: seq<seq<Answer>>, was: seq<seq<Answer>>, calls: seq<Call>, kind: Kind,
                  rest: set<RequestId>, call: nat, id: RequestId)
    requires SettledBut(given, was, calls, kind, rest) && id in rest
    requires Made(calls, call, id, kind) && was[call] == []
    ensures call < |given|
    ensures SettledBut(given[call := given[call] + [ClosedAnswer(kind)]], was, calls, kind, rest - {id})
  {}

  /** A client. A promise is known by the position of its call; `given` records the answers
      passed to each promise's resolver, so a promise settles once when it holds one. */
  class Client {
    var pendingActions: map<RequestId, nat>
    var pendingConfirms: map<RequestId, nat>
    var pendingHostActions: map<RequestId, nat>
    var requestSequence: nat
    var closed: bool
    /** The requests posted to the page; a closed port drops them. */
    var outbox: seq<Call>
    ghost var calls: seq<Call>
    ghost var given: seq<seq<Answer>>
    /** How many calls had been made when the channel closed. */
    ghost var before: nat

    function Pending(kind: Kind): map<RequestId, nat>
      reads `pendingActions, `pendingConfirms, `pendingHostActions
    {
      match kind
      case Action => pendingActions
      case Confirm => pendingConfirms
      case HostAction => pendingHostActions
    }

    ghost predicate Numbered()
      reads `requestSequence, `calls, `given
    {
      && |given| == |calls| == requestSequence
      && (forall k | 0 <= k < |calls| :: calls[k].id.sequence == k + 1)
    }

    /** A table holds calls of its own kind. */
    ghost predicate Tabled(kind: Kind)
      reads `pendingActions, `pendingConfirms, `pendingHostActions, `calls
    {
      forall id | id in Pending(kind) :: Pending(kind)[id] < |calls| && calls[Pending(kind)[id]] == Call(id, kind)
    }

    /** A call is pending, or it was answered once. */
    ghost predicate Accounted()
      reads `pendingActions, `pendingConfirms, `pendingHostActions, `requestSequence, `calls, `given
      requires Numbered()
    {
      && (forall k | 0 <= k < |calls| :: |given[k]| <= 1)
      && (forall k | 0 <= k < |calls| :: calls[k].id in Pending(calls[k].kind) <==> given[k] == [])
    }

    ghost predicate Valid()
      reads this
    {
      && Numbered()
      && (forall kind :: Tabled(kind))
      && Accounted()
      && (closed ==> before <= |calls| && forall k | 0 <= k < before :: |given[k]| == 1)
    }

    constructor ()
      ensures Valid() && !closed && calls == [] && outbox == []
    {
      pendingActions, pendingConfirms, pendingHostActions := map[], map[], map[];
      requestSequence, closed, outbox, calls, given, before := 0, false, [], [], [], 0;
    }

    /** No two calls share a request id, whatever the clock says. */
    lemma IdsAreDistinct(j: nat, k: nat)
      requires Valid() && j < k < |calls|
      ensures calls[j].id != calls[k].id
    {
      assert calls[j].id.sequence == j + 1;
    }

    lemma NotYetUsed(id: RequestId)
      requires Valid() && id.sequence > requestSequence
      ensures forall kind :: id !in Pending(kind)
    {
      forall kind ensures id !in Pending(kind) { assert Tabled(kind); }
    }

    /** Puts an id in one of the tables. */
    method Remember(kind: Kind, id: RequestId, call: nat)
      modifies `pendingActions, `pendingConfirms, `pendingHostActions
      ensures forall other ::
        Pending(other) == if other == kind then old(Pending(other))[id := call] else old(Pending(other))
    {
      match kind {
        case Action => pendingActions := pendingActions[id := call];
        case Confirm => pendingConfirms := pendingConfirms[id := call];
        case HostAction => pendingHostActions := pendingHostActions[id := call];
      }
    }

    /** Lines 101-102: a new id, and its resolver in the table. */
    method Await(kind: Kind, now: int) returns (id: RequestId)
      requires Valid()
      modifies `pendingActions, `pendingConfirms, `pendingHostActions, `requestSequence, `calls, `given
      ensures Valid()
      ensures calls == old(calls) + [Call(id, kind)] && given == old(given) + [[]]
    {
      var call := requestSequence;
      NotYetUsed(RequestId(now, call + 1));
      requestSequence := requestSequence + 1;
      id := RequestId(now, requestSequence);
      Remember(kind, id, call);
      calls := calls + [Call(id, kind)];
      given := given + [[]];
      forall other ensures Tabled(other) { assert old(Tabled(other)); }
    }

    /** Lines 99-136: a call posts its request under a new id. After the channel closed the
        promise stays pending for ever. */
    method Ask(kind: Kind, now: int) returns (id: RequestId)
      requires Valid()
      modifies `pendingActions, `pendingConfirms, `pendingHostActions, `requestSequence, `outbox, `calls, `given
      ensures Valid()
      ensures outbox == if closed then old(outbox) else old(outbox) + [Call(id, kind)]
      ensures calls == old(calls) + [Call(id, kind)] && given == old(given) + [[]]
      ensures forall k | 0 <= k < |old(calls)| :: id != old(calls)[k].id
    {
      id := Await(kind, now);
      assert calls[|calls| - 1].id == id;
      hide Tabled, Accounted;
      if !closed { outbox := outbox + [Call(id, kind)]; }
    }

    /** Takes ids out of one of the tables. */
    method Forget(kind: Kind, ids: set<RequestId>)
      modifies `pendingActions, `pendingConfirms, `pendingHostActions
      ensures forall other :: Pending(other) == old(Pending(other)) - if other == kind then ids else {}
    {
      match kind {
        case Action => pendingActions := pendingActions - ids;
        case Confirm => pendingConfirms := pendingConfirms - ids;
        case HostAction => pendingHostActions := pendingHostActions - ids;
      }
    }

    lemma AllMade(kind: Kind)
      requires Valid()
      ensures |given| == |calls| && SettledBut(given, given, calls, kind, Pending(kind).Keys)
      ensures forall id | id in Pending(kind) ::
        Made(calls, Pending(kind)[id], id, kind) && given[Pending(kind)[id]] == []
    {
      assert Tabled(kind);
    }

    /** Lines 81-82, 84-85 and 89-90: settle a pending promise and forget it; an id that is
        not pending in that table is ignored. */
    method Settle(kind: Kind, id: RequestId, answer: Answer)
      requires Valid()
      modifies `pendingActions, `pendingConfirms, `pendingHostActions, `given
      ensures Valid()
      ensures |given| == |old(given)| && forall k | 0 <= k < |given| ::
        given[k] == if calls[k] == Call(id, kind) && old(given)[k] == [] then [answer] else old(given)[k]
    {
      AllMade(kind);
      hide ClosedAnswer, SettledBut;
      if id !in Pending(kind) { return; }
      var call := Pending(kind)[id];
      given := given[call := given[call] + [answer]];
      Forget(kind, {id});
      assert forall k | 0 <= k < |calls| && k != call :: calls[k].id != id;
      forall other ensures Tabled(other) { assert old(Tabled(other)); }
    }

    /** Lines 61-63, 64 and 67. */
    method SettleTable(kind: Kind)
      requires Valid()
      modifies `given
      ensures SettledBut(given, old(given), calls, kind, {})
    {
      AllMade(kind);
      hide *;
      var table := Pending(kind);
      var rest := table.Keys;
      while rest != {}
        invariant rest <= table.Keys
        invariant SettledBut(given, old(given), calls, kind, rest)
        decreases |rest|
      {
        var id :| id in rest;
        var call := table[id];
        SettleOne(given, old(given), calls, kind, rest, call, id);
        given := given[call := given[call] + [ClosedAnswer(kind)]];
        rest := rest - {id};
      }
    }

    /** Settles a whole table, then empties it. */
    method CloseTable(kind: Kind)
      requires Valid()
      modifies `pendingActions, `pendingConfirms, `pendingHostActions, `given
      ensures Valid()
      ensures |given| == |old(given)| && forall k | 0 <= k < |given| ::
        given[k] == if calls[k].kind == kind && old(given)[k] == [] then [ClosedAnswer(kind)] else old(given)[k]
    {
      hide ClosedAnswer;
      SettleTable(kind);
      Forget(kind, Pending(kind).Keys);
      forall other ensures Tabled(other) { assert old(Tabled(other)); }
    }

    /** Lines 60-69 and 91-94. */
    method ClosePending()
      requires Valid() && !closed
      modifies `pendingActions, `pendingConfirms, `pendingHostActions, `given, `closed, `before
      ensures Valid() && closed && before == |calls| && |given| == |old(given)|
      ensures forall k | 0 <= k < |given| ::
        given[k] ==
          if old(given)[k] != [] then old(given)[k]
          else match calls[k].kind
            case Action => [Outcome(Rejected("closed"))]
            case Confirm => [Flag(false)]
            case HostAction => [Flag(false)]
    {
      hide Tabled;
      CloseTable(Action);
      CloseTable(Confirm);
      CloseTable(HostAction);
      closed, before := true, |calls|;
    }

    /** Lines 70-96. A closed port delivers no message. */
    method OnMessage(m: Message)
      requires Valid()
      modifies `pendingActions, `pendingConfirms, `pendingHostActions, `given, `closed, `before
      ensures Valid() && |given| == |old(given)|
      ensures old(closed) || m in {Projected, Sessions, SessionClosed, BrowserCompanion} ==> unchanged(this)
      ensures !old(closed) && !m.Closed? ==> !closed
      // A result settles the pending call of its id and kind, and no other.
      ensures !old(closed) && m.ActionResult? ==> forall k | 0 <= k < |given| ::
        given[k] ==
          if calls[k] == Call(m.requestId, Action) && old(given)[k] == [] then [Outcome(m.outcome)] else old(given)[k]
      ensures !old(closed) && m.ConfirmResult? ==> forall k | 0 <= k < |given| ::
        given[k] ==
          if calls[k] == Call(m.requestId, Confirm) && old(given)[k] == [] then [Flag(m.confirmed)] else old(given)[k]
      ensures !old(closed) && m.HostActionResult? ==> forall k | 0 <= k < |given| ::
        given[k] ==
          if calls[k] == Call(m.requestId, HostAction) && old(given)[k] == [] then [Flag(m.accepted)] else old(given)[k]
      // Closing settles every pending call: an action is rejected, and nothing was confirmed or done.
      ensures !old(closed) && m.Closed? ==> closed && before == |calls| && forall k | 0 <= k < |given| ::
        given[k] ==
          if old(given)[k] != [] then old(given)[k]
          else match calls[k].kind
            case Action => [Outcome(Rejected("closed"))]
            case Confirm => [Flag(false)]
            case HostAction => [Flag(false)]
    {
      hide Accounted, Tabled;
      if closed { return; }
      match m {
        case ActionResult(id, outcome) => Settle(Action, id, Outcome(outcome));
        case ConfirmResult(id, confirmed) => Settle(Confirm, id, Flag(confirmed));
        case HostActionResult(id, accepted) => Settle(HostAction, id, Flag(accepted));
        case Closed => ClosePending();
        case Projected =>
        case Sessions =>
        case SessionClosed =>
        case BrowserCompanion =>
      }
    }
  }
}
