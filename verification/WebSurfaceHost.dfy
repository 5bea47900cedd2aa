/** The host side of web surfaces (extension-capabilities.ts 135-252): one controller per
    registration, and the projection list that the extension UI runtime publishes
    (extension-ui-runtime.ts 122-140). */
module WebSurfaceHost {
  import opened Prelude
  import opened WebSurfaceChannel

  // ----- the published list -----

  /** The list without an owner's surfaces. */
  function Without(list: seq<Projection>, owner: string): seq<Projection> {
    if list == [] then []
    else if list[0].owner == owner then Without(list[1..], owner)
    else [list[0]] + Without(list[1..], owner)
  }

  /** What the page looks up in a projection: the first entry of that surface and candidate.
      A surface's id is an injective encoding of its owner, so the owner stands for it. */
  function Find(list: seq<Projection>, owner: string, hash: string): Option<Projection> {
    if list == [] then None
    else if list[0].owner == owner && list[0].candidateHash == hash then Some(list[0])
    else Find(list[1..], owner, hash)
  }

  /** extension-ui-runtime.ts 133-139. */
  function Replaced(list: seq<Projection>, owner: string, surface: Option<Projection>): seq<Projection> {
    Without(list, owner) + if surface.None? then [] else [surface.value]
  }

  lemma {:induction false} FoundFits(list: seq<Projection>, owner: string, hash: string)
    ensures var p := Find(list, owner, hash); p.Some? ==> p.value.owner == owner && p.value.candidateHash == hash
    decreases |list|
  {
    if list != [] { FoundFits(list[1..], owner, hash); }
  }

  lemma {:induction false} FindWithout(list: seq<Projection>, gone: string, owner: string, hash: string)
    ensures Find(Without(list, gone), owner, hash) == if owner == gone then None else Find(list, owner, hash)
  {
    if list != [] {
      FindWithout(list[1..], gone, owner, hash);
      if list[0].owner != gone {
        assert Without(list, gone)[1..] == Without(list[1..], gone);
      }
    }
  }

  lemma {:induction false} FindAppended(list: seq<Projection>, p: Projection, owner: string, hash: string)
    ensures Find(list + [p], owner, hash) ==
      if Find(list, owner, hash).Some? then Find(list, owner, hash)
      else if p.owner == owner && p.candidateHash == hash then Some(p)
      else None
  {
    if list == [] {
      assert list + [p] == [p];
      assert [p][1..] == [];
    } else {
      FindAppended(list[1..], p, owner, hash);
      assert (list + [p])[1..] == list[1..] + [p];
    }
  }

  /** Replacing an owner's surface is seen by a page that looks for it, and by no other. */
  lemma FindReplaced(list: seq<Projection>, gone: string, surface: Option<Projection>, owner: string, hash: string)
    requires surface.Some? ==> surface.value.owner == gone
    ensures Find(Replaced(list, gone, surface), owner, hash) ==
      if owner != gone then Find(list, owner, hash)
      else if surface.Some? && surface.value.candidateHash == hash then surface
      else None
  {
    FindWithout(list, gone, owner, hash);
    if surface.None? {
      assert Replaced(list, gone, surface) == Without(list, gone);
    } else {
      FindAppended(Without(list, gone), surface.value, owner, hash);
    }
  }

  /** The list shows exactly the live surfaces: to every page, its own or none. */
  ghost predicate Mirrors(list: seq<Projection>, live: map<string, Projection>) {
    forall owner, hash ::
      Find(list, owner, hash) ==
        if owner in live && live[owner].candidateHash == hash then Some(live[owner]) else None
  }

  /** The list shows no surface to any page. */
  ghost predicate ShowsNothing(list: seq<Projection>) {
    forall owner, hash :: Find(list, owner, hash).None?
  }

  lemma MirrorsNothing(list: seq<Projection>)
    ensures Mirrors(list, map[]) <==> ShowsNothing(list)
  {
    var live: map<string, Projection> := map[];
    if ShowsNothing(list) {
      forall owner, hash
        ensures Find(list, owner, hash) ==
          if owner in live && live[owner].candidateHash == hash then Some(live[owner]) else None
      {
        assert Find(list, owner, hash).None?;
      }
    }
    if Mirrors(list, live) {
      forall owner, hash
        ensures Find(list, owner, hash).None?
      {
        assert owner !in live;
      }
    }
  }

  lemma MirrorsShown(list: seq<Projection>, live: map<string, Projection>, p: Projection)
    requires Mirrors(list, live)
    ensures Mirrors(Replaced(list, p.owner, Some(p)), live[p.owner := p])
  {
    forall owner, hash
      ensures Find(Replaced(list, p.owner, Some(p)), owner, hash) ==
        if owner == p.owner then if p.candidateHash == hash then Some(p) else None
        else Find(list, owner, hash)
    {
      FindReplaced(list, p.owner, Some(p), owner, hash);
    }
  }

  lemma MirrorsRemoved(list: seq<Projection>, live: map<string, Projection>, gone: string)
    requires Mirrors(list, live)
    ensures Mirrors(Replaced(list, gone, None), live - {gone})
  {
    forall owner, hash
      ensures Find(Replaced(list, gone, None), owner, hash) ==
        if owner == gone then None else Find(list, owner, hash)
    {
      FindReplaced(list, gone, None, owner, hash);
    }
  }

  // ----- snapshots in a row -----

  /** What one snapshot says to a page that looks for one surface. */
  function Seen(runtime: Runtime, list: seq<Projection>, owner: string, hash: string): Envelope {
    Envelope(runtime, Find(list, owner, hash))
  }

  function AllSeen(runtime: Runtime, lists: seq<seq<Projection>>, owner: string, hash: string): (r: seq<Envelope>)
    ensures |r| == |lists|
    ensures forall i | 0 <= i < |lists| :: r[i] == Seen(runtime, lists[i], owner, hash)
  {
    seq(|lists|, i requires 0 <= i < |lists| => Seen(runtime, lists[i], owner, hash))
  }

  ghost predicate Positive(list: seq<Projection>) {
    forall owner, hash ::
      var p := Find(list, owner, hash); p.Some? ==> p.value.revision >= 1
  }

  ghost predicate Succeeds(before: seq<Projection>, after: seq<Projection>) {
    forall owner, hash ::
      var p, q := Find(before, owner, hash), Find(after, owner, hash);
      p.Some? && q.Some? ==> p == q || p.value.revision < q.value.revision
  }

  ghost predicate History(lists: seq<seq<Projection>>) {
    && lists != []
    && (forall i | 0 <= i < |lists| :: Positive(lists[i]))
    && (forall i | 0 < i < |lists| :: Succeeds(lists[i - 1], lists[i]))
  }

  lemma HistoryGrows(lists: seq<seq<Projection>>, next: seq<Projection>)
    requires History(lists) && Positive(next) && Succeeds(lists[|lists| - 1], next)
    ensures History(lists + [next])
  {
    hide Positive, Succeeds;
    var all := lists + [next];
    forall i | 0 < i < |all| ensures Succeeds(all[i - 1], all[i]) {
      if i < |lists| { assert Succeeds(lists[i - 1], lists[i]); }
    }
  }

  /** A surface that is taken away, or shown at a later revision, continues the history. */
  lemma HistoryReplaced(lists: seq<seq<Projection>>, live: map<string, Projection>, owner: string,
                        surface: Option<Projection>)
    requires History(lists) && Mirrors(lists[|lists| - 1], live)
    requires surface.Some? ==> surface.value.owner == owner && surface.value.revision >= 1
    requires surface.Some? && owner in live ==> live[owner].revision < surface.value.revision
    ensures History(lists + [Replaced(lists[|lists| - 1], owner, surface)])
  {
    var last := lists[|lists| - 1];
    var next := Replaced(last, owner, surface);
    forall o, h ensures Find(next, o, h) ==
      if o != owner then Find(last, o, h)
      else if surface.Some? && surface.value.candidateHash == h then surface
      else None
    {
      FindReplaced(last, owner, surface, o, h);
    }
    assert Positive(last);
    HistoryGrows(lists, next);
  }

  /** A page that starts to listen at any event ends up showing the surface of the last
      published list, or shut when that list has none. */
  lemma FrameShowsLast(runtime: Runtime, lists: seq<seq<Projection>>, from: nat, owner: string, hash: string)
    requires History(lists) && from < |lists|
    ensures ReceiveAll(Shut, MessagesOf(AllSeen(runtime, lists[from..], owner, hash)))
      == Some(Expected(Seen(runtime, lists[|lists| - 1], owner, hash)))
  {
    var events := AllSeen(runtime, lists[from..], owner, hash);
    forall i | 0 <= i < |events| ensures events[i] == Seen(runtime, lists[from + i], owner, hash) {}
    forall i | 0 < i < |events| ensures Follows(events[i - 1], events[i]) {
      assert Succeeds(lists[from + i - 1], lists[from + i]);
    }
    forall i | 0 <= i < |events|
      ensures events[i].surface.Some? ==> events[i].surface.value.revision >= 0
    {
      assert Positive(lists[from + i]);
    }
    FrameAgrees(events);
  }

  // ----- registrations -----

  /** `SurfaceController`; its identity is its token. */
  class Controller {
    const owner: string
    const candidateHash: string
    var revision: nat
    /** The abort controller of the action in flight; abort controllers are numbered. */
    var active: Option<nat>
    var released: bool
    /** The view last handed to `replace`. */
    ghost var view: View
    /** The actions begun and not finished. */
    ghost var flying: set<nat>

    constructor (owner: string, candidateHash: string)
      ensures this.owner == owner && this.candidateHash == candidateHash
      ensures revision == 0 && active == None && !released && view == None && flying == {}
    {
      this.owner, this.candidateHash := owner, candidateHash;
      revision, active, released, view, flying := 0, None, false, None, {};
    }

    /** At most one action is in flight, it is the active one, and it has been told to stop
        once the registration is released. */
    ghost predicate Flight(aborts: nat, aborted: set<nat>)
      reads `active, `flying, `released
    {
      && (forall a: nat :: a in flying <==> active == Some(a))
      && (active.Some? ==> active.value < aborts)
      && (active.Some? && released ==> active.value in aborted)
    }

    lemma ReleasedIsAborted(aborts: nat, aborted: set<nat>)
      requires Flight(aborts, aborted) && released && active.Some?
      ensures active.value in aborted
    {}

    lemma NothingInFlight(aborts: nat, aborted: set<nat>)
      requires active == None && flying == {}
      ensures Flight(aborts, aborted)
    {}

    ghost function Shown(): Projection
      reads `revision, `view
    {
      Projection(owner, candidateHash, revision, view)
    }
  }

  datatype Registered = Handle(controller: Controller) | NotAdmitted | AlreadyRegistered

  /** The argument of `replace`: left out, a JSON value, or something that is not JSON. */
  datatype Offered = Undefined | Json(view: View) | Malformed

  datatype Begun = Started(controller: Controller, abort: nat) | Closed | Busy

  class Host {
    const runtime: Runtime
    const candidates: map<string, string>
    var disposed: bool
    var surfaces: map<string, Controller>
    /** `lifecycle === "Open"` and `projection.webSurfaces` of the UI runtime. */
    var open: bool
    var list: seq<Projection>
    /** The lists of the events published so far; the first event is the activation. */
    ghost var published: seq<seq<Projection>>
    ghost var made: set<Controller>
    /** Abort controllers made so far, and the ones that fired. */
    var aborts: nat
    var aborted: set<nat>

    /** A controller is released exactly when it is not the owner's current one. */
    ghost predicate Tracked()
      reads `surfaces, `made, made`released
    {
      && (forall owner | owner in surfaces ::
          && surfaces[owner] in made
          && surfaces[owner].owner == owner
          && owner in candidates
          && surfaces[owner].candidateHash == candidates[owner])
      && (forall c | c in made :: !c.released <==> c.owner in surfaces && surfaces[c.owner] == c)
    }

    ghost predicate Flights()
      reads `made, `aborts, `aborted, made`active, made`flying, made`released
    {
      && (forall c | c in made :: c.Flight(aborts, aborted))
      && (forall a | a in aborted :: a < aborts)
    }

    /** The current registrations' surfaces. */
    ghost function Live(): (r: map<string, Projection>)
      reads `surfaces, `made, made`revision, made`view, made`released
      requires Tracked()
      ensures r.Keys == surfaces.Keys
    {
      map owner | owner in surfaces :: surfaces[owner].Shown()
    }

    ghost predicate Offers(owner: string, hash: string)
      reads this, made
    {
      owner in surfaces && surfaces[owner] in made && surfaces[owner].candidateHash == hash
    }

    ghost predicate Recorded()
      reads `list, `published
    {
      History(published) && published[|published| - 1] == list
    }

    ghost predicate Valid()
      reads this, made
    {
      && Tracked()
      && Flights()
      && Recorded()
      && (forall c | c in made && !c.released :: c.revision >= 1)
      && (open ==> Mirrors(list, Live()))
    }

    constructor (runtime: Runtime, candidates: map<string, string>)
      ensures Valid() && open && !disposed && surfaces == map[] && made == {} && aborted == {}
      ensures this.runtime == runtime && this.candidates == candidates
    {
      this.runtime, this.candidates := runtime, candidates;
      disposed, surfaces, open, list := false, map[], true, [];
      published, made, aborts, aborted := [[]], {}, 0, {};
      new;
      assert forall o, h :: Find([], o, h) == None;
    }

    /** `commit` with `replaceWebSurface`, lines 122-140 of extension-ui-runtime.ts. */
    method Commit(owner: string, surface: Option<Projection>)
      modifies `list, `published
      ensures !open ==> list == old(list) && published == old(published)
      ensures open ==> list == Replaced(old(list), owner, surface) && published == old(published) + [list]
    {
      if !open { return; }
      list := Without(list, owner) + if surface.None? then [] else [surface.value];
      published := published + [list];
    }

    /** Any other change of the UI projection publishes the same surfaces again. */
    method CommitOther()
      requires Valid()
      modifies `published
      ensures Valid()
      ensures published == if open then old(published) + [list] else old(published)
    {
      if !open { return; }
      published := published + [list];
      HistoryGrows(old(published), list);
      assert Live() == old(Live());
    }

    lemma LiveShown(c: Controller, live: map<string, Projection>)
      requires Tracked() && c in made && !c.released
      requires live - {c.owner} == Live() - {c.owner}
      ensures live[c.owner := c.Shown()] == Live()
    {
      var next := live[c.owner := c.Shown()];
      forall o ensures (o in next <==> o in surfaces) && (o in next ==> next[o] == Live()[o]) {
        if o != c.owner {
          assert o in live <==> o in live - {c.owner};
          assert o in Live() <==> o in Live() - {c.owner};
          if o in live { assert (live - {c.owner})[o] == (Live() - {c.owner})[o]; }
        }
      }
    }

    /** Line 158. */
    method Advance(c: Controller, view: View, ghost live: map<string, Projection>)
      requires Tracked() && Flights() && c in made && !c.released
      requires live - {c.owner} == Live() - {c.owner}
      modifies c`revision, c`view
      ensures Tracked() && Flights() && c.revision == old(c.revision) + 1 && c.view == view
      ensures live[c.owner := c.Shown()] == Live()
    {
      hide Controller.Flight;
      c.revision := c.revision + 1;
      c.view := view;
      assert Tracked() && Flights();
      LiveShown(c, live);
    }

    /** Lines 158-167: the next revision of a current registration is shown. */
    method Show(c: Controller, view: View, ghost live: map<string, Projection>)
      requires Tracked() && Flights() && Recorded()
      requires c in made && !c.released
      requires forall d | d in made && !d.released && d != c :: d.revision >= 1
      requires open ==> Mirrors(list, live)
      requires live - {c.owner} == Live() - {c.owner}
      requires c.owner in live ==> live[c.owner].revision <= c.revision
      modifies `list, `published, c`revision, c`view
      ensures Valid()
      ensures c.revision == old(c.revision) + 1 && c.view == view
      ensures !open ==> list == old(list) && published == old(published)
      ensures open ==> published == old(published) + [list]
    {
      hide History, Mirrors, Replaced, Tracked, Flights;
      Advance(c, view, live);
      ghost var p := c.Shown();
      Commit(c.owner, Some(Projection(c.owner, c.candidateHash, c.revision, view)));
      if open {
        HistoryReplaced(old(published), live, c.owner, Some(p));
        MirrorsShown(old(list), live, p);
      }
    }

    /** Lines 145-154: a new controller, not shown yet. */
    method Install(owner: string) returns (c: Controller)
      requires Valid() && owner in candidates && owner !in surfaces
      modifies `surfaces, `made
      ensures Tracked() && Flights() && fresh(c)
      ensures made == old(made) + {c} && surfaces == old(surfaces)[owner := c]
      ensures c.owner == owner && c.candidateHash == candidates[owner]
      ensures c.revision == 0 && c.active == None && !c.released
      ensures Live() - {owner} == old(Live()) - {owner}
    {
      hide History, Mirrors, Controller.Flight;
      c := new Controller(owner, candidates[owner]);
      surfaces := surfaces[owner := c];
      made := made + {c};
      c.NothingInFlight(aborts, aborted);
    }

    /** Lines 139-181. */
    method Register(owner: string) returns (r: Registered)
      requires Valid()
      modifies `surfaces, `made, `list, `published
      ensures Valid()
      ensures r.NotAdmitted? <==> owner !in candidates
      ensures r.AlreadyRegistered? <==> owner in candidates && owner in old(surfaces)
      ensures !r.Handle? ==> unchanged(this)
      ensures r.Handle? ==>
        && fresh(r.controller) && made == old(made) + {r.controller}
        && surfaces == old(surfaces)[owner := r.controller]
        && r.controller.owner == owner && r.controller.candidateHash == candidates[owner]
        && r.controller.revision == 1 && r.controller.view == None && r.controller.active == None
      ensures r.Handle? ==> if open then published == old(published) + [list] else unchanged(`published, `list)
    {
      hide History, Mirrors, Flights, Tracked;
      if owner !in candidates { return NotAdmitted; }
      if owner in surfaces { return AlreadyRegistered; }
      ghost var live := Live();
      var c := Install(owner);
      Show(c, None, live);
      r := Handle(c);
    }

    /** Lines 155-168. A handle of a replaced or released registration does nothing; a view
        that is not JSON throws before anything changes. */
    method Replace(c: Controller, view: Offered) returns (thrown: bool)
      requires Valid() && c in made
      modifies `list, `published, c`revision, c`view
      ensures Valid()
      ensures thrown <==> !c.released && view.Malformed?
      ensures thrown || c.released ==> unchanged(this) && unchanged(c)
      ensures !thrown && !c.released ==>
        && c.revision == old(c.revision) + 1
        && c.view == (if view.Json? then view.view else None)
        && (if open then published == old(published) + [list] else unchanged(`published, `list))
    {
      if c.released || !(c.owner in surfaces && surfaces[c.owner] == c) { return false; }
      if view.Malformed? { return true; }
      Show(c, if view.Json? then view.view else None, Live());
      thrown := false;
    }

    /** Lines 174-175, and 247-248 of `dispose`: the action in flight is told to stop. */
    method Abandon(c: Controller)
      requires Flights() && c in made
      modifies `aborted, c`released
      ensures Flights() && c.released
      ensures aborted == old(aborted) + (if c.active == None then {} else {c.active.value})
    {
      c.released := true;
      if c.active.Some? { aborted := aborted + {c.active.value}; }
    }

    /** Lines 176-179: an abandoned registration that was the current one is taken away. */
    method Withdraw(c: Controller, ghost live: map<string, Projection>)
      requires Flights() && Recorded() && c in made && c.released
      requires c.owner in surfaces && surfaces[c.owner] == c
      requires open ==> Mirrors(list, live)
      modifies `surfaces, `list, `published
      ensures Recorded() && surfaces == old(surfaces) - {c.owner}
      ensures open ==> Mirrors(list, live - {c.owner}) && published == old(published) + [list]
      ensures !open ==> unchanged(`published, `list)
    {
      hide History, Mirrors, Replaced, Flights;
      surfaces := surfaces - {c.owner};
      Commit(c.owner, None);
      if open {
        HistoryReplaced(old(published), live, c.owner, None);
        MirrorsRemoved(old(list), live, c.owner);
      }
    }

    /** Lines 172-180. */
    method Release(c: Controller)
      requires Valid() && c in made
      modifies `surfaces, `list, `published, `aborted, c`released
      ensures Valid() && c.released
      ensures old(c.released) ==> unchanged(this)
      ensures !old(c.released) ==>
        && surfaces == old(surfaces) - {c.owner}
        && (open ==> published == old(published) + [list])
        && aborted == old(aborted) + (if c.active == None then {} else {c.active.value})
      ensures !open ==> unchanged(`published, `list)
    {
      hide History, Mirrors, Flights, Find, Without;
      if c.released { return; }
      ghost var live := Live();
      Abandon(c);
      if c.owner in surfaces && surfaces[c.owner] == c {
        Withdraw(c, live);
      }
      assert live - {c.owner} == Live();
    }

    /** Lines 201-215: an action begins, or is rejected. */
    method Begin(owner: string, hash: string) returns (r: Begun)
      requires Valid()
      modifies `aborts, made`active, made`flying
      ensures Valid()
      ensures r.Closed? <==> !Offers(owner, hash)
      ensures r.Busy? <==> Offers(owner, hash) && old(surfaces[owner].active).Some?
      ensures r.Started? ==>
        && r.controller == surfaces[owner] && r.abort == old(aborts) && r.abort !in aborted
        && r.controller.active == Some(r.abort) && r.controller.flying == {r.abort}
      ensures forall c | c in made && (!r.Started? || c != r.controller) :: unchanged(c)
      ensures !r.Started? ==> unchanged(this)
    {
      if owner !in surfaces || surfaces[owner].released || surfaces[owner].candidateHash != hash { return Closed; }
      var c := surfaces[owner];
      if c.active.Some? { return Busy; }
      var abort := aborts;
      aborts := aborts + 1;
      c.active := Some(abort);
      c.flying := c.flying + {abort};
      r := Started(c, abort);
    }

    /** Lines 232-236, an action's finaliser, run for any action of the registration at any
        time: it never takes away a newer action's place. */
    method Finish(c: Controller, abort: nat)
      requires Valid() && c in made
      modifies c`active, c`flying
      ensures Valid()
      ensures c.active == if old(c.active) == Some(abort) then None else old(c.active)
      ensures c.flying == old(c.flying) - {abort}
    {
      if c.active == Some(abort) { c.active := None; }
      c.flying := c.flying - {abort};
    }

    /** Lines 358-370 of extension-ui-runtime.ts: the UI runtime starts to close. It publishes the
        same surfaces once more when it has an interaction or presentations to clear, and nothing
        from then on. */
    method StartClosing(clears: bool)
      requires Valid()
      modifies `open, `published
      ensures Valid() && !open
      ensures published == if old(open) && clears then old(published) + [list] else old(published)
    {
      if !open { return; }
      open := false;
      if clears {
        published := published + [list];
        HistoryGrows(old(published), list);
      }
    }

    /** The abort controllers of the actions in flight. */
    ghost function InFlight(): set<nat>
      reads `made, made`active
    {
      set c | c in made && c.active.Some? :: c.active.value
    }

    /** Lines 246-249. */
    method AbandonAll()
      requires Tracked() && Flights()
      modifies `aborted, made`released
      ensures Flights() && forall c | c in made :: c.released
      ensures aborted == old(aborted) + InFlight()
    {
      hide Controller.Flight;
      ghost var flight := InFlight();
      assert forall c | c in made && c.active.Some? :: c.active.value in flight;
      var rest := surfaces.Keys;
      while rest != {}
        invariant rest <= surfaces.Keys
        invariant Flights()
        invariant forall c | c in made && !c.released :: c.owner in rest && surfaces[c.owner] == c
        invariant old(aborted) <= aborted <= old(aborted) + flight
        decreases |rest|
      {
        var owner :| owner in rest;
        rest := rest - {owner};
        Abandon(surfaces[owner]);
      }
      forall c | c in made && c.active.Some? ensures c.active.value in aborted {
        assert c.Flight(aborts, aborted);
        c.ReleasedIsAborted(aborts, aborted);
      }
    }

    /** Lines 239-251. The registrations end, but no page is told: the list stays. The UI runtime
        calls it after it started to close (extension-ui-runtime.ts 358 and 379); while it is
        open, the host stays in order exactly if the list shows nothing. */
    method Dispose()
      requires Valid()
      modifies `disposed, `surfaces, `aborted, made`released
      ensures disposed && Tracked() && Flights() && Recorded()
      ensures old(disposed) ==> Valid() && unchanged(this) && forall c | c in made :: unchanged(c)
      ensures !old(disposed) ==> surfaces == map[] && aborted == old(aborted) + InFlight()
      ensures !old(disposed) ==> forall c | c in made :: c.released
      ensures !old(disposed) ==> (Valid() <==> (open ==> ShowsNothing(list)))
    {
      hide Flights, History, InFlight;
      if disposed { return; }
      disposed := true;
      AbandonAll();
      surfaces := map[];
      assert Live() == map[];
      MirrorsNothing(list);
    }

    /** What a page shows that follows the events from number `from` on. */
    ghost function Page(from: nat, owner: string, hash: string): Option<Frame>
      reads `published
      requires from < |published|
    {
      ReceiveAll(Shut, MessagesOf(AllSeen(runtime, published[from..], owner, hash)))
    }

    /** What the table of registrations says a page should show. */
    ghost function Table(owner: string, hash: string): Frame
      reads this, made
    {
      if Offers(owner, hash) then Open(runtime, surfaces[owner].revision, surfaces[owner].view) else Shut
    }

    lemma ListAgrees(owner: string, hash: string)
      requires Valid() && open
      ensures Expected(Seen(runtime, list, owner, hash)) == Table(owner, hash)
    {
      hide History;
      assert Find(list, owner, hash) ==
        if owner in Live() && Live()[owner].candidateHash == hash then Some(Live()[owner]) else None;
    }

    /** View agreement, from `replace` in an extension to the page: while the host is open, a
        page that follows its events shows the current view of the live registration of that
        surface and candidate, and is shut when there is none, whatever was registered,
        replaced or released before. */
    lemma ViewAgreement(from: nat, owner: string, hash: string)
      requires Valid() && open && from < |published|
      ensures Page(from, owner, hash) ==
        if Offers(owner, hash) then Some(Open(runtime, surfaces[owner].revision, surfaces[owner].view))
        else Some(Shut)
    {
      hide History, ReceiveAll, MessagesOf;
      FrameShowsLast(runtime, published, from, owner, hash);
      ListAgrees(owner, hash);
    }

    /** Whether the host is open, closing or disposed, a page shows what was last published, and
        so it shows what the table of registrations says exactly if the list does. */
    lemma AgreementAfterClosing(from: nat, owner: string, hash: string)
      requires Tracked() && Recorded() && from < |published|
      ensures var page := Page(from, owner, hash);
        && page == Some(Expected(Seen(runtime, list, owner, hash)))
        && (page == Some(Table(owner, hash)) <==>
            Find(list, owner, hash) == if Offers(owner, hash) then Some(surfaces[owner].Shown()) else None)
    {
      hide History, ReceiveAll, MessagesOf;
      FrameShowsLast(runtime, published, from, owner, hash);
      FoundFits(list, owner, hash);
    }

    /** Closing and then `dispose`: every page keeps showing what the table said before. The
        table is empty then, and a page is shut exactly if nothing was registered for it. */
    method ShutDown(clears: bool)
      requires Valid() && open
      modifies `open, `published, `disposed, `surfaces, `aborted, made`released
      ensures disposed && Valid() && !open && (surfaces == map[] || old(disposed))
      ensures published == if clears then old(published) + [list] else old(published)
      ensures forall from: nat, owner, hash | from < |published| ::
        && Page(from, owner, hash) == Some(old(Table(owner, hash)))
        && (Page(from, owner, hash) == Some(Shut) <==> !old(Offers(owner, hash)))
    {
      hide Valid, Tracked, Flights, Recorded, Page, Expected, Seen, ShowsNothing, InFlight;
      forall owner, hash ensures Expected(Seen(runtime, list, owner, hash)) == Table(owner, hash) {
        ListAgrees(owner, hash);
      }
      StartClosing(clears);
      Dispose();
      forall from: nat, owner, hash | from < |published|
        ensures Page(from, owner, hash) == Some(Expected(Seen(runtime, list, owner, hash)))
      {
        AgreementAfterClosing(from, owner, hash);
      }
    }
  }

  /** One registration, seen by a page. */
  method ShowOne(runtime: Runtime, owner: string, hash: string) returns (host: Host)
    ensures fresh(host) && host.Valid() && host.open && !host.disposed && host.published != []
    ensures fresh(host.made)
    ensures host.Page(0, owner, hash) == Some(Open(runtime, 1, None)) == Some(host.Table(owner, hash))
  {
    host := new Host(runtime, map[owner := hash]);
    var r := host.Register(owner);
    hide Host.Valid, History, ReceiveAll, MessagesOf, Find, Mirrors, Host.Tracked, Host.Flights, Host.Recorded;
    assert host.Offers(owner, hash);
    host.ViewAgreement(0, owner, hash);
  }

  /** A registration that is never released: after the UI runtime closed and disposed of the
      host, no registration is left and the page still shows it. */
  method DisposeLeavesSurface(runtime: Runtime, owner: string, hash: string, clears: bool) returns (host: Host)
    ensures host.disposed && host.surfaces == map[] && host.published != []
    ensures host.Page(0, owner, hash) == Some(Open(runtime, 1, None))
  {
    hide *;
    host := ShowOne(runtime, owner, hash);
    host.ShutDown(clears);
  }
}
