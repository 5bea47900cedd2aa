/** The reference-counted runtime of the process (runtime.ts 27-77) and the sessions that
    consume it (weixin.ts 397-421 and 488-524), each with a retention slot at its own host. */
module RetentionOwner {
  import opened Prelude
  import opened RetentionSlot

  /** A session that started. Its consumer remembers what it was last told and passes it on
      to its slot, once the slot is there. */
  class Session {
    const id: string
    const slot: Slot
    var attached: bool
    var retained: bool

    constructor (id: string, slot: Slot)
      requires slot.Valid() && slot.current == None && !slot.closed
      ensures this.id == id && this.slot == slot && Valid() && !retained && !attached
    {
      this.id, this.slot := id, slot;
      attached, retained := false, false;
    }

    ghost predicate Valid()
      reads this, slot, slot.host
    {
      slot.Valid() && (slot.current.Some? <==> retained && attached && !slot.closed && slot.port)
    }

    /** The host of the session reports a retention for this slot. */
    ghost predicate Retains()
      reads slot, slot.host
    {
      slot.key in slot.host.retention
    }

    /** weixin.ts 404-407. */
    method SetRetained(next: bool)
      requires Valid()
      modifies `retained, slot, slot.host
      ensures Valid() && retained == next && slot.closed == old(slot.closed)
    {
      retained := next;
      if attached { slot.Replace(if next then Some("global-bridge-enabled") else None); }
    }

    /** weixin.ts 415-421: the slot is made, and told what the consumer knows. */
    method Attach()
      requires Valid() && !attached
      modifies `attached, slot, slot.host
      ensures Valid() && attached && slot.closed == old(slot.closed)
    {
      attached := true;
      slot.Replace(if retained then Some("global-bridge-enabled") else None);
    }

    /** weixin.ts 491 and 516: the scope of the session closes. */
    method CloseScope()
      requires Valid()
      modifies slot, slot.host
      ensures Valid() && slot.closed && !Retains()
      ensures slot.mine == old(slot.mine) && forall t | t in slot.mine :: slot.host.calls[t] == 1
    {
      slot.Close();
    }
  }

  // ----- the consumers, a map in insertion order -----

  /** The position of a session id, or the length when it is not there. */
  function Find(consumers: seq<Session>, id: string): (r: nat)
    ensures r <= |consumers|
    ensures r < |consumers| ==> consumers[r].id == id
    ensures forall i | 0 <= i < r :: consumers[i].id != id
  {
    if consumers == [] || consumers[0].id == id then 0 else 1 + Find(consumers[1..], id)
  }

  /** `consumers.set`: an id that is there keeps its place. */
  function Put(consumers: seq<Session>, c: Session): seq<Session> {
    var i := Find(consumers, c.id);
    if i < |consumers| then consumers[i := c] else consumers + [c]
  }

  /** `consumers.delete`. */
  function Without(consumers: seq<Session>, id: string): seq<Session> {
    var i := Find(consumers, id);
    if i < |consumers| then consumers[..i] + consumers[i + 1..] else consumers
  }

  ghost predicate Distinct(consumers: seq<Session>) {
    forall i, j | 0 <= i < j < |consumers| :: consumers[i].id != consumers[j].id
  }

  /** The consumer whose id a new one takes over. */
  function Displaced(consumers: seq<Session>, c: Session): set<Session> {
    var i := Find(consumers, c.id);
    if i < |consumers| then {consumers[i]} else {}
  }

  /** A new id goes last; one that is listed keeps its place, and all others theirs. */
  ghost predicate Entered(before: seq<Session>, c: Session, after: seq<Session>) {
    if forall s | s in before :: s.id != c.id then after == before + [c]
    else exists i :: 0 <= i < |before| && before[i].id == c.id && after == before[i := c]
  }

  /** The one with the id goes, and the others close up in their order. */
  ghost predicate Left(before: seq<Session>, id: string, after: seq<Session>) {
    if forall s | s in before :: s.id != id then after == before
    else exists i :: 0 <= i < |before| && before[i].id == id && after == before[..i] + before[i + 1..]
  }

  lemma PutKeeps(consumers: seq<Session>, c: Session)
    requires Distinct(consumers) && c !in consumers
    ensures var next := Put(consumers, c);
      && Distinct(next)
      && (forall s :: s in next <==> s == c || (s in consumers && s !in Displaced(consumers, c)))
      && (consumers != [] && consumers[0] !in Displaced(consumers, c) ==> next[0] == consumers[0])
      && (consumers != [] && consumers[0] in Displaced(consumers, c) ==> next[0] == c)
  {
    var i := Find(consumers, c.id);
    var next := Put(consumers, c);
    forall s ensures s in next <==> s == c || (s in consumers && s !in Displaced(consumers, c)) {
      if s == c {
        assert next[i] == c;
      } else if s in consumers {
        var j :| 0 <= j < |consumers| && consumers[j] == s;
        if j != i { assert next[j] == s; }
      }
    }
  }

  lemma PutEnters(consumers: seq<Session>, c: Session)
    requires Distinct(consumers)
    ensures Entered(consumers, c, Put(consumers, c))
    ensures Displaced(consumers, c) == set s | s in consumers && s.id == c.id
  {
    var i := Find(consumers, c.id);
    hide Find;
    if i < |consumers| {
      assert consumers[i] in consumers;
      assert forall j | 0 <= j < |consumers| && j != i :: consumers[j].id != c.id;
    }
  }

  lemma FirstPlace(consumers: seq<Session>, c: Session)
    requires consumers != [] && consumers[0].id == c.id
    ensures Put(consumers, c) != [] && Put(consumers, c)[0] == c
  {
  }

  lemma RestMembers<T>(s: seq<T>, i: nat, x: T)
    requires i < |s| && forall j | 0 <= j < |s| && j != i :: s[j] != s[i]
    ensures x in s[..i] + s[i + 1..] <==> x in s && x != s[i]
  {
    var rest := s[..i] + s[i + 1..];
    if x in s && x != s[i] {
      var j :| 0 <= j < |s| && s[j] == x;
      assert rest[if j < i then j else j - 1] == x;
    }
  }

  lemma RestDistinct(consumers: seq<Session>, i: nat)
    requires Distinct(consumers) && i < |consumers|
    ensures Distinct(consumers[..i] + consumers[i + 1..])
  {
    var rest := consumers[..i] + consumers[i + 1..];
    forall j, k | 0 <= j < k < |rest| ensures rest[j].id != rest[k].id {
      var p, q := if j < i then j else j + 1, if k < i then k else k + 1;
      assert rest[j] == consumers[p] && rest[k] == consumers[q] && p < q;
    }
  }

  lemma WithoutKeeps(consumers: seq<Session>, id: string)
    requires Distinct(consumers)
    ensures var next := Without(consumers, id);
      && Distinct(next)
      && (forall s :: s in next <==> s in consumers && s.id != id)
      && (next != [] && consumers[0].id != id ==> next[0] == consumers[0])
      && |next| == |consumers| - if Find(consumers, id) < |consumers| then 1 else 0
  {
    var i := Find(consumers, id);
    hide Find;
    if i < |consumers| {
      var c := consumers[i];
      assert forall j | 0 <= j < |consumers| && j != i :: consumers[j].id != id;
      assert forall s | s in consumers :: s.id == id <==> s == c;
      RestDistinct(consumers, i);
      forall s ensures s in Without(consumers, id) <==> s in consumers && s != c {
        RestMembers(consumers, i, s);
      }
    }
  }

  lemma WithoutLeaves(consumers: seq<Session>, id: string)
    requires Distinct(consumers)
    ensures Left(consumers, id, Without(consumers, id))
    ensures |consumers| > 1 && consumers[0].id == id ==>
      Without(consumers, id) != [] && Without(consumers, id)[0] == consumers[1]
  {
    var i := Find(consumers, id);
    hide Find;
    if i < |consumers| {
      assert consumers[i] in consumers;
      assert forall j | 0 <= j < |consumers| && j != i :: consumers[j].id != id;
    }
  }

  // ----- the owner -----

  /** The slots and hosts of sessions. */
  ghost function Objects(sessions: set<Session>): (r: set<object>)
    ensures forall s | s in sessions :: s.slot in r && s.slot.host in r
    ensures forall o | o in r :: exists s :: s in sessions && (o == s.slot || o == s.slot.host)
  {
    (set s | s in sessions :: s.slot) + (set s | s in sessions :: s.slot.host)
  }

  class Owner {
    /** Runtimes are numbered in the order in which they are created. */
    var runtime: Option<nat>
    var consumers: seq<Session>
    var retained: bool
    var created: nat
    /** How often each runtime was disposed. */
    ghost var disposals: seq<nat>
    /** The sessions that ever acquired the runtime. */
    ghost var known: set<Session>
    /** The sessions that another one with the same id displaced before they released: the
        owner tells them nothing any more. */
    ghost var orphans: set<Session>
    /** After each callback: the sessions, but for the orphans, whose hosts retain. */
    ghost var seen: seq<set<Session>>

    ghost predicate Footprints()
      reads `known
    {
      forall s, t | s in known && t in known && s != t :: s.slot != t.slot && s.slot.host != t.slot.host
    }

    ghost function Footprint(): set<object>
      reads `known
    {
      known + Objects(known)
    }

    ghost predicate Sessions()
      reads `known, Footprint()
    {
      Footprints() && forall s | s in known :: s.Valid()
    }

    ghost predicate Listed()
      reads `known, `orphans, `consumers
    {
      && orphans <= known && Distinct(consumers)
      && (forall s | s in consumers :: s in known && s !in orphans)
    }

    /** Nobody but the oldest consumer is told to retain. */
    ghost predicate OnlyFirst()
      reads `known, `orphans, `consumers, known`retained
    {
      forall s | s in known && s !in orphans && s.retained :: consumers != [] && s == consumers[0]
    }

    /** Every runtime but the current one was disposed once, and that one was not. */
    ghost predicate Current()
      reads `runtime, `created, `disposals
    {
      && |disposals| == created
      && (runtime.Some? ==> runtime.value < created)
      && (forall r | 0 <= r < created :: disposals[r] == if runtime == Some(r) then 0 else 1)
    }

    /** A runtime is live exactly while there are consumers. */
    ghost predicate Runtimes()
      reads `runtime, `created, `disposals, `consumers
    {
      Current() && (runtime.Some? <==> consumers != [])
    }

    /** At no callback did two hosts retain. */
    ghost predicate Peaks()
      reads `seen
    {
      forall i, s, t | 0 <= i < |seen| && s in seen[i] && t in seen[i] :: s == t
    }

    ghost predicate Valid()
      reads this, Footprint()
    {
      && Sessions() && Listed() && OnlyFirst() && Runtimes() && Peaks()
      && (consumers != [] ==> consumers[0].retained == retained)
    }

    /** The sessions, but for the orphans, whose hosts retain. */
    ghost function Retainers(): set<Session>
      reads `known, `orphans, Footprint()
    {
      set s | s in known && s !in orphans && s.Retains()
    }

    /** What follows for the hosts: exactly the oldest consumer's retains, when retention is
        on and its slot is open. */
    lemma ExactlyTheOldest(s: Session)
      requires Valid() && s in known && s !in orphans
      ensures s.Retains() <==>
        && retained && consumers != [] && s == consumers[0]
        && s.attached && !s.slot.closed && s.slot.port
    {
      assert s.Valid();
    }

    /** What decides whether a session that starts displaces one whose host retains. */
    ghost predicate Doubles(id: string)
      reads `retained, `consumers, consumers, set s | s in consumers :: s.slot
    {
      && retained && consumers != [] && consumers[0].id == id
      && consumers[0].attached && !consumers[0].slot.closed && consumers[0].slot.port
    }

    /** A consumer retains and has this id exactly if the oldest one does. */
    lemma DoublesExactly(c: Session)
      requires Valid()
      ensures (exists s :: s in Displaced(consumers, c) && s.Retains()) <==> Doubles(c.id)
    {
      var i := Find(consumers, c.id);
      if i < |consumers| {
        assert consumers[i] in consumers;
        ExactlyTheOldest(consumers[i]);
        if Doubles(c.id) { assert consumers[0] in consumers && i == 0 && consumers[0] in Displaced(consumers, c); }
        if consumers[i].Retains() { assert consumers[i] == consumers[0]; }
      }
    }

    /** With distinct session ids nobody is displaced, and then at most one host retains. */
    lemma AtMostOneRetains(s: Session, t: Session)
      requires Valid() && orphans == {} && s in known && t in known && s.Retains() && t.Retains()
      ensures s == t
    {
      ExactlyTheOldest(s);
      ExactlyTheOldest(t);
    }

    lemma OneRetains()
      requires Sessions() && OnlyFirst()
      ensures forall s, t | s in Retainers() && t in Retainers() :: s == t
    {
      forall s | s in Retainers() ensures consumers != [] && s == consumers[0] {
        assert s.Valid();
      }
    }

    constructor ()
      ensures Valid() && consumers == [] && !retained && known == {} && orphans == {} && seen == []
    {
      runtime, consumers, retained, created := None, [], false, 0;
      disposals, known, orphans, seen := [], {}, {}, [];
    }

    /** One callback, to a consumer that is or was listed. */
    method Tell(c: Session, next: bool)
      requires Sessions() && OnlyFirst() && Peaks()
      requires c in known && c !in orphans && (next ==> consumers != [] && c == consumers[0])
      modifies c`retained, c.slot, c.slot.host, `seen
      ensures Sessions() && OnlyFirst() && Peaks() && c.retained == next && c.slot.closed == old(c.slot.closed)
      ensures seen == old(seen) + [Retainers()]
    {
      hide Session.Valid;
      c.SetRetained(next);
      assert Sessions() by {
        forall s | s in known ensures s.Valid() {
          if s != c { assert old(s.Valid()); }
        }
      }
      OneRetains();
      assert this !in Footprint();
      seen := seen + [Retainers()];
    }

    /** Lines 27-32: `projectRetention`. */
    method Project()
      requires Sessions() && Listed() && OnlyFirst() && Peaks()
      modifies `seen, (set c | c in consumers)`retained, Objects(set c | c in consumers)
      ensures Sessions() && OnlyFirst() && Peaks()
      ensures consumers != [] ==> consumers[0].retained == retained
      ensures forall s | s in known :: s.slot.closed == old(s.slot.closed)
      ensures unchanged(`runtime, `consumers, `retained, `created, `disposals, `known, `orphans)
    {
      var anchor := if retained && consumers != [] then Some(consumers[0].id) else None;
      var i := 0;
      while i < |consumers|
        invariant 0 <= i <= |consumers|
        invariant Sessions() && OnlyFirst() && Peaks()
        invariant i > 0 ==> consumers[0].retained == retained
        invariant forall s | s in known :: s.slot.closed == old(s.slot.closed)
      {
        assert consumers[i] in consumers;
        Tell(consumers[i], anchor == Some(consumers[i].id));
        i := i + 1;
      }
    }

    /** Line 47. */
    method Ensure() returns (r: nat)
      requires Current()
      modifies `runtime, `created, `disposals
      ensures Current() && runtime == Some(r)
      ensures old(runtime).Some? ==> r == old(runtime).value && created == old(created)
      ensures old(runtime).None? ==> r == old(created) && created == r + 1
    {
      if runtime.Some? { return runtime.value; }
      r := created;
      created := created + 1;
      disposals := disposals + [0];
      runtime := Some(r);
    }

    /** Lines 73-74. */
    method Dispose() returns (disposed: Option<nat>)
      requires Current() && Sessions() && OnlyFirst()
      modifies `runtime, `retained, `disposals
      ensures Current() && disposed == old(runtime) && runtime == None && !retained
      ensures Sessions() && OnlyFirst()
    {
      hide Session.Valid, Footprints;
      disposed := runtime;
      if runtime.Some? { disposals := disposals[runtime.value := disposals[runtime.value] + 1]; }
      runtime, retained := None, false;
    }

    /** Lines 48-51: the consumer is listed, and takes the place of one with its id. */
    method Enlist(c: Session)
      requires Sessions() && Listed() && OnlyFirst() && c !in known && c.Valid() && !c.retained
      requires forall s | s in known :: s.slot != c.slot && s.slot.host != c.slot.host
      modifies `known, `orphans, `consumers
      ensures Sessions() && Listed() && OnlyFirst() && consumers != []
      ensures known == old(known) + {c} && orphans == old(orphans) + Displaced(old(consumers), c)
      ensures consumers == Put(old(consumers), c)
      ensures forall s | s in consumers :: s == c || (s in old(consumers) && s !in Displaced(old(consumers), c))
    {
      hide Session.Valid, Distinct, Put;
      PutKeeps(consumers, c);
      assert c in Put(consumers, c);
      orphans := orphans + Displaced(consumers, c);
      consumers := Put(consumers, c);
      known := known + {c};
    }

    /** Lines 45-54, with what they leave of the owner. */
    method Admit(c: Session) returns (r: nat)
      requires Valid() && c !in known && c.Valid() && !c.retained && !c.attached
      requires forall s | s in known :: s.slot != c.slot && s.slot.host != c.slot.host
      modifies this, ((set s | s in consumers) - Displaced(consumers, c))`retained, c`retained
      modifies Objects((set s | s in consumers) - Displaced(consumers, c)), c.slot, c.slot.host
      ensures Valid()
      ensures known == old(known) + {c} && orphans == old(orphans) + Displaced(old(consumers), c)
      ensures consumers == Put(old(consumers), c) && retained == old(retained)
      ensures runtime == Some(r)
      ensures old(runtime).Some? ==> r == old(runtime).value && created == old(created)
      ensures old(runtime).None? ==> r == old(created) && created == r + 1
      ensures forall s | s in known :: s.slot.closed == old(s.slot.closed)
    {
      hide Session.Valid, Footprints, Listed, OnlyFirst, Peaks, Put, Displaced, Current, Objects, Sessions;
      Enlist(c);
      r := Ensure();
      assert Sessions() by { assert this !in Footprint(); }
      Project();
    }

    /** Lines 45-54. The consumer is a new object of a session that starts, with its own slot
        and host. A consumer that it displaces is an orphan: it is told nothing, so its host
        keeps what it has: it still retains exactly if the oldest consumer's host did and the
        new session has its id. */
    method Acquire(c: Session) returns (r: nat)
      requires Valid() && c !in known && c.Valid() && !c.retained && !c.attached
      requires forall s | s in known :: s.slot != c.slot && s.slot.host != c.slot.host
      modifies this, ((set s | s in consumers) - Displaced(consumers, c))`retained, c`retained
      modifies Objects((set s | s in consumers) - Displaced(consumers, c)), c.slot, c.slot.host
      ensures Valid()
      ensures known == old(known) + {c} && orphans == old(orphans) + Displaced(old(consumers), c)
      ensures consumers == Put(old(consumers), c) && retained == old(retained)
      ensures Entered(old(consumers), c, consumers)
      ensures runtime == Some(r)
      ensures old(runtime).Some? ==> r == old(runtime).value && created == old(created)
      ensures old(runtime).None? ==> r == old(created) && created == r + 1
      ensures forall s | s in known :: s.slot.closed == old(s.slot.closed)
      ensures (exists s :: s in Displaced(old(consumers), c) && s.Retains()) <==> old(Doubles(c.id))
    {
      DoublesExactly(c);
      PutEnters(consumers, c);
      hide Valid, Session.Retains, Doubles, Put, Displaced, Entered;
      r := Admit(c);
      forall s | s in Displaced(old(consumers), c) ensures s.Retains() == old(s.Retains()) {}
    }

    /** Lines 55-60. */
    method SetRetained(next: bool)
      requires Valid()
      modifies `retained, `seen, (set s | s in consumers)`retained, Objects(set s | s in consumers)
      ensures Valid() && retained == next
      ensures forall s | s in known :: s.slot.closed == old(s.slot.closed)
    {
      retained := next;
      Project();
    }

    /** Lines 64-67 and 69 or 73: the consumer is told, then leaves the list. */
    method Delist(id: string)
      requires Valid()
      modifies `consumers, `seen
      modifies (set s | s in consumers && s.id == id)`retained, Objects(set s | s in consumers && s.id == id)
      ensures Sessions() && Listed() && OnlyFirst() && Peaks()
      ensures consumers == Without(old(consumers), id)
      ensures forall s | s in old(consumers) && s.id == id :: !s.retained
      ensures forall s | s in consumers :: s in old(consumers) && s.id != id
      ensures |consumers| == |old(consumers)| - if Find(old(consumers), id) < |old(consumers)| then 1 else 0
    {
      hide Session.Valid, Without, Footprints, Peaks;
      var i := Find(consumers, id);
      if i < |consumers| {
        assert consumers[i] in consumers;
        Tell(consumers[i], false);
        assert forall s | s in consumers && s.id == id :: s == consumers[i];
      }
      WithoutKeeps(consumers, id);
      forall s | s in known && s !in orphans && s.retained
        ensures Without(consumers, id) != [] && s == Without(consumers, id)[0]
      {
        assert s == consumers[0] && s in consumers && s.id != id;
      }
      consumers := Without(consumers, id);
    }

    /** Lines 61-75, with what they leave of the owner. */
    method Dismiss(id: string) returns (disposed: Option<nat>)
      requires Valid()
      modifies this, (set s | s in consumers)`retained, Objects(set s | s in consumers)
      ensures Valid() && known == old(known) && orphans == old(orphans) && created == old(created)
      ensures consumers == Without(old(consumers), id)
      ensures forall s | s in old(consumers) && s.id == id :: !s.retained
      ensures retained == (old(retained) && consumers != [])
      ensures runtime == if consumers != [] then old(runtime) else None
      ensures disposed == if consumers != [] then None else old(runtime)
    {
      hide Session.Valid, Footprints, Listed, OnlyFirst, Peaks, Without, Current, Sessions, Find, Objects;
      Delist(id);
      if |consumers| > 0 {
        Project();
        disposed := None;
      } else {
        disposed := Dispose();
      }
    }

    lemma Takeover(id: string)
      requires Valid()
      ensures Left(consumers, id, Without(consumers, id))
      ensures |consumers| > 1 && consumers[0].id == id ==>
        Without(consumers, id) != [] && Without(consumers, id)[0] == consumers[1]
    {
      WithoutLeaves(consumers, id);
    }

    /** Lines 61-75. An id that is not listed leaves the consumers as they are; when the oldest
        leaves, the next oldest takes over. */
    method Release(id: string) returns (disposed: Option<nat>)
      requires Valid()
      modifies this, (set s | s in consumers)`retained, Objects(set s | s in consumers)
      ensures Valid() && known == old(known) && orphans == old(orphans) && created == old(created)
      ensures Left(old(consumers), id, consumers)
      ensures |old(consumers)| > 1 && old(consumers)[0].id == id ==> consumers != [] && consumers[0] == old(consumers)[1]
      ensures consumers != [] ==> consumers[0].retained == retained
      ensures forall s | s in old(consumers) && s.id == id :: !s.retained
      ensures retained == (old(retained) && consumers != [])
      ensures runtime == if consumers != [] then old(runtime) else None
      ensures disposed == if consumers != [] then None else old(runtime)
    {
      Takeover(id);
      hide Without, Left, Objects, Sessions, Listed, OnlyFirst, Peaks, Runtimes, Footprint;
      disposed := Dismiss(id);
    }

    /** A slot is made for a session. */
    method Attach(s: Session)
      requires Valid() && s in known && !s.attached
      modifies s`attached, s.slot, s.slot.host
      ensures Valid() && s.attached && s.slot.closed == old(s.slot.closed)
    {
      hide Session.Valid, Listed, OnlyFirst, Runtimes, Peaks;
      s.Attach();
      forall t | t in known ensures t.Valid() {
        if t != s { assert old(t.Valid()); }
      }
    }

    lemma StartFacts(c: Session)
      requires Valid()
      ensures Doubles(c.id) ==> retained && Put(consumers, c) != [] && Put(consumers, c)[0] == c
      ensures forall s | s in Displaced(consumers, c) :: s in known
    {
      if Doubles(c.id) { FirstPlace(consumers, c); }
    }

    ghost predicate TwoRetain()
      reads `known, Footprint()
    {
      exists s, t :: s in known && t in known && s != t && s.Retains() && t.Retains()
    }

    /** When one consumer at most was displaced, by the session that is now the oldest, two hosts
        retain exactly if the displaced one's does. */
    lemma TwoExactly(c: Session, before: seq<Session>)
      requires Valid() && orphans == Displaced(before, c) && c in known && c !in orphans
      requires c.attached && c.slot.port && !c.slot.closed
      requires (exists s :: s in orphans && s.Retains()) ==> retained && consumers != [] && consumers[0] == c
      ensures TwoRetain() <==> exists s :: s in orphans && s.Retains()
    {
      ExactlyTheOldest(c);
      forall s | s in known && s !in orphans ensures s.Retains() ==> consumers != [] && s == consumers[0] {
        ExactlyTheOldest(s);
      }
    }

    /** The slot of a session that displaced the oldest consumer, or nobody, opens. */
    method AttachNewest(c: Session, ghost before: seq<Session>)
      requires Valid() && orphans == Displaced(before, c) && c in known && c !in orphans
      requires !c.attached && c.slot.port && !c.slot.closed
      requires (exists s :: s in orphans && s.Retains()) ==> retained && consumers != [] && consumers[0] == c
      modifies c`attached, c.slot, c.slot.host
      ensures Valid()
      ensures TwoRetain() <==> old(exists s :: s in orphans && s.Retains())
    {
      assert forall s | s in orphans :: s in known && s != c && s.slot.host != c.slot.host && s.slot != c.slot;
      hide *;
      Attach(c);
      forall s | s in orphans ensures s.Retains() == old(s.Retains()) {}
      TwoExactly(c, before);
    }

    /** A session starts while no other was displaced, and its slot opens: two hosts retain
        exactly if the oldest consumer's host retained and the session has its id. */
    method Start(c: Session)
      requires Valid() && orphans == {} && c !in known && c.Valid() && !c.retained && !c.attached
      requires c.slot.port && !c.slot.closed
      requires forall s | s in known :: s.slot != c.slot && s.slot.host != c.slot.host
      modifies this, ((set s | s in consumers) - Displaced(consumers, c))`retained, c`retained, c`attached
      modifies Objects((set s | s in consumers) - Displaced(consumers, c)), c.slot, c.slot.host
      ensures Valid()
      ensures TwoRetain() <==> old(Doubles(c.id))
    {
      hide *;
      ghost var before := consumers;
      StartFacts(c);
      var r := Acquire(c);
      AttachNewest(c, before);
    }

    /** The scope of a session's slot closes. */
    method CloseScope(s: Session)
      requires Valid() && s in known
      modifies s.slot, s.slot.host
      ensures Valid() && s.slot.closed && !s.Retains()
      ensures s.slot.mine == old(s.slot.mine) && forall t | t in s.slot.mine :: s.slot.host.calls[t] == 1
    {
      hide Session.Valid, Listed, OnlyFirst, Runtimes, Peaks;
      s.CloseScope();
      forall t | t in known ensures t.Valid() {
        if t != s { assert old(t.Valid()); }
      }
    }
  }

  /** A session with its own host that offers retention. */
  method NewSession(id: string) returns (s: Session)
    ensures fresh(s) && fresh(s.slot) && fresh(s.slot.host)
    ensures s.Valid() && s.id == id && !s.attached && !s.retained && !s.slot.closed && s.slot.port
  {
    var host := new Host();
    var slot := new Slot(host, "[\"@yansircc/pi-weixin\",\"global-bridge\"]", true);
    s := new Session(id, slot);
  }

  /** One session, and retention switched on. */
  method OneHostRetains(a: Session) returns (owner: Owner)
    requires a.Valid() && !a.attached && !a.retained && !a.slot.closed && a.slot.port
    modifies a, a.slot, a.slot.host
    ensures fresh(owner) && owner.Valid() && owner.retained
    ensures owner.consumers == [a] && owner.known == {a} && owner.orphans == {} && a.Retains()
  {
    hide Session.Valid, Owner.Valid, Session.Retains;
    owner := new Owner();
    var _ := owner.Acquire(a);
    owner.Attach(a);
    owner.SetRetained(true);
    assert owner.consumers == [a];
    owner.ExactlyTheOldest(a);
  }

  /** Why session ids have to be distinct: a session that starts under an id that is still
      listed leaves two hosts that retain. */
  method TwoHostsRetain(id: string) returns (owner: Owner, a: Session, b: Session)
    ensures owner.Valid() && a != b && a in owner.orphans && b in owner.consumers
    ensures a.Retains() && b.Retains()
  {
    hide Session.Valid, Owner.Valid, Session.Retains;
    a := NewSession(id);
    b := NewSession(id);
    owner := OneHostRetains(a);
    var _ := owner.Acquire(b);
    assert owner.consumers == [b] && a in owner.orphans;
    owner.Attach(b);
    owner.ExactlyTheOldest(b);
  }
}
