/** Runtime retention at one host: the host's table (extension-capabilities.ts 113-133) and
    the slot that an extension keeps there (packages/extension-kit/src/index.ts 96-123). */
module RetentionSlot {
  import opened Prelude

  /** The retention table. Handles are numbered in the order in which they are acquired, and
      the number is the handle's token. */
  class Host {
    var retention: map<string, nat>
    /** What each handle holds: its flag and its key. */
    var released: seq<bool>
    var keys: seq<string>
    /** How often each handle's `release` was called. */
    ghost var calls: seq<nat>

    /** A handle is the latest of its key. */
    ghost predicate Latest(token: nat)
      reads `keys
    {
      token < |keys| && forall later | token < later < |keys| :: keys[later] != keys[token]
    }

    /** A key is retained exactly while its latest handle is not released. */
    ghost predicate Valid()
      reads this
    {
      && |released| == |keys| == |calls|
      && (forall t | 0 <= t < |calls| :: released[t] <==> calls[t] > 0)
      && (forall key | key in retention ::
          Latest(retention[key]) && keys[retention[key]] == key && !released[retention[key]])
      && (forall t: nat | Latest(t) && !released[t] :: keys[t] in retention && retention[keys[t]] == t)
    }

    constructor ()
      ensures Valid() && retention == map[] && keys == []
    {
      retention, released, keys, calls := map[], [], [], [];
    }

    /** Lines 117-122. */
    method Acquire(key: string) returns (token: nat)
      requires Valid()
      modifies this
      ensures Valid() && token == |old(keys)| && keys == old(keys) + [key]
      ensures calls == old(calls) + [0] && retention == old(retention)[key := token]
      ensures !released[token]
    {
      token := |released|;
      retention := retention[key := token];
      released := released + [false];
      keys := keys + [key];
      calls := calls + [0];
      forall t: nat | t < token && Latest(t) ensures old(Latest(t)) {
        assert forall later | t < later < token :: keys[later] == old(keys)[later];
      }
      assert forall t: nat | t < token && old(Latest(t)) && keys[t] != key :: Latest(t);
    }

    /** Lines 124-128: releasing twice, or a handle that a later one replaced, changes no
        retention. */
    method Release(token: nat)
      requires Valid() && token < |keys|
      modifies this
      ensures Valid() && keys == old(keys)
      ensures calls == old(calls)[token := old(calls)[token] + 1]
      ensures retention ==
        if keys[token] in old(retention) && old(retention)[keys[token]] == token
        then old(retention) - {keys[token]} else old(retention)
      ensures old(released)[token] ==> retention == old(retention)
      ensures released == old(released)[token := true]
    {
      calls := calls[token := calls[token] + 1];
      if released[token] { return; }
      released := released[token := true];
      assert forall t: nat :: Latest(t) <==> old(Latest(t));
      var key := keys[token];
      if key in retention && retention[key] == token { retention := retention - {key}; }
    }
  }

  datatype Held = Held(reason: string, token: nat)

  /** A slot. Its key at the host is its own: no other holder acquires it. */
  class Slot {
    const host: Host
    const key: string
    /** Whether the host offers the retention port. */
    const port: bool
    var current: Option<Held>
    var closed: bool
    /** The handles that this slot acquired. */
    ghost var mine: set<nat>

    /** The host retains the key exactly while the slot holds a handle; every handle that it
        acquired was released once, but for the one it holds, which was not released. */
    ghost predicate Linked()
      reads this, host
    {
      && host.Valid()
      && (!port ==> current == None)
      && (key in host.retention <==> current.Some?)
      && (current.Some? ==> current.value.token in mine && host.retention[key] == current.value.token)
      && (forall t | t in mine :: t < |host.keys| && host.keys[t] == key)
      && (forall t | t in mine ::
          host.calls[t] == if current.Some? && current.value.token == t then 0 else 1)
    }

    ghost predicate Valid()
      reads this, host
    {
      Linked() && (closed ==> current == None)
    }

    constructor (host: Host, key: string, port: bool)
      requires host.Valid() && key !in host.retention
      ensures Valid() && this.host == host && this.key == key && this.port == port
      ensures current == None && !closed && mine == {}
    {
      this.host, this.key, this.port := host, key, port;
      current, closed, mine := None, false, {};
    }

    function Reason(): Option<string>
      reads this
    {
      if current.Some? then Some(current.value.reason) else None
    }

    /** Lines 109-110 and 117: `current?.release()`, and the slot forgets the handle. */
    method Drop()
      requires Linked()
      modifies `current, host
      ensures Linked() && current == None
      ensures host.keys == old(host.keys)
      ensures host.retention == old(host.retention) - {key}
    {
      if current.None? { return; }
      host.Release(current.value.token);
      current := None;
    }

    /** Lines 114-122. The same reason keeps the handle. */
    method Replace(claim: Option<string>)
      requires Valid()
      modifies this, host
      ensures Valid() && closed == old(closed)
      ensures closed ==> unchanged(this) && unchanged(host)
      ensures !closed && claim == old(Reason()) ==> unchanged(this) && unchanged(host)
      ensures !closed ==> Reason() == if port then claim else None
      ensures old(mine) <= mine
      ensures !closed && port && claim.Some? && claim != old(Reason()) ==>
        current.Some? && current.value.token !in old(mine)
      ensures host.retention.Keys - {key} == old(host.retention).Keys - {key}
    {
      if closed { return; }
      if claim == Reason() { return; }
      Drop();
      if claim.Some? && port {
        var token := host.Acquire(key);
        current := Some(Held(claim.value, token));
        mine := mine + {token};
      }
    }

    /** Lines 106-112, the finaliser of the slot's scope. */
    method Close()
      requires Valid()
      modifies this, host
      ensures Valid() && closed && mine == old(mine)
      ensures key !in host.retention
      ensures forall t | t in mine :: host.calls[t] == 1
    {
      closed := true;
      Drop();
    }
  }
}
