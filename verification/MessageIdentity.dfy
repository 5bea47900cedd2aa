/** The identities of message.ts: of one message, and of a batch of messages. SHA-256 is a
    parameter; what the results need of it is that it is injective and prints hex digits. */
module MessageIdentity {
  import opened CanonicalJson
  import opened Prelude
  import S = WeixinState

  type Hash = string -> string

  ghost predicate IsHash(hash: Hash) {
    && (forall s, t :: hash(s) == hash(t) ==> s == t)
    && (forall s :: forall c | c in hash(s) :: c in "0123456789abcdef")
  }

  /** What the identity looks at: `message_id` when it is a non-empty string or a safe
      integer (then as its decimal text), `client_id` when it is a non-empty string, and
      the whole message. */
  datatype Wire = Wire(messageId: Option<string>, clientId: Option<string>, body: Json)

  function Identity(m: Wire, le: Order, hash: Hash): string {
    if m.messageId.Some? then "message-" + m.messageId.value
    else if m.clientId.Some? then "client-" + m.clientId.value
    else hash(Canonical(m.body, le))
  }

  /** The same message: by id, else by client id, else by content up to the order of keys. */
  ghost predicate SameMessage(m: Wire, n: Wire) {
    if m.messageId.Some? || n.messageId.Some? then m.messageId == n.messageId
    else if m.clientId.Some? || n.clientId.Some? then m.clientId == n.clientId
    else Same(m.body, n.body)
  }

  lemma HexStart(hash: Hash, s: string, t: string)
    requires IsHash(hash)
    ensures hash(s) != "message-" + t && hash(s) != "client-" + t
  {
    assert ("message-" + t)[0] == 'm' && 'm' in "message-" + t;
    assert ("client-" + t)[1] == 'l' && 'l' in "client-" + t;
  }

  /** Two messages have one identity exactly when they are the same message. */
  lemma IdentityIsExact(m: Wire, n: Wire, le: Order, hash: Hash)
    requires TotalOrder(le) && IsHash(hash) && Valid(m.body) && Valid(n.body)
    ensures Identity(m, le, hash) == Identity(n, le, hash) <==> SameMessage(m, n)
  {
    CanonicalIsUnambiguous(m.body, n.body, le);
    var i, j := Identity(m, le, hash), Identity(n, le, hash);
    if m.messageId.Some? {
      if n.messageId.Some? {
        if i == j { SameTail("message-", m.messageId.value, n.messageId.value); }
      } else if n.clientId.Some? {
        assert i[0] == 'm' && j[0] == 'c';
      } else {
        HexStart(hash, Canonical(n.body, le), m.messageId.value);
      }
    } else if n.messageId.Some? {
      if m.clientId.Some? {
        assert i[0] == 'c' && j[0] == 'm';
      } else {
        HexStart(hash, Canonical(m.body, le), n.messageId.value);
      }
    } else if m.clientId.Some? {
      if n.clientId.Some? {
        if i == j { SameTail("client-", m.clientId.value, n.clientId.value); }
      } else {
        HexStart(hash, Canonical(n.body, le), m.clientId.value);
      }
    } else if n.clientId.Some? {
      HexStart(hash, Canonical(m.body, le), n.clientId.value);
    }
  }

  const NUL: string := ['\0']

  function BatchIdentity(ids: seq<string>, hash: Hash): string {
    "batch-" + hash(Join(ids, NUL))
  }

  predicate NulFree(ids: seq<string>) {
    forall i | 0 <= i < |ids| :: '\0' !in ids[i]
  }

  lemma {:induction false} FirstPart(s: string, t: string, u: string, v: string)
    requires '\0' !in s && '\0' !in t
    requires (u == "" || u[0] == '\0') && (v == "" || v[0] == '\0') && s + u == t + v
    ensures s == t && u == v
    decreases |s|
  {
    if s == "" || t == "" {
      assert s + u == if s == "" then u else s + u;
      assert t + v == if t == "" then v else t + v;
    } else {
      assert (s + u)[0] == s[0] && (t + v)[0] == t[0];
      assert (s + u)[1..] == s[1..] + u && (t + v)[1..] == t[1..] + v;
      FirstPart(s[1..], t[1..], u, v);
    }
  }

  lemma {:induction false} JoinUnique(xs: seq<string>, ys: seq<string>)
    requires NulFree(xs) && NulFree(ys) && xs != [] && ys != [] && Join(xs, NUL) == Join(ys, NUL)
    ensures xs == ys
    decreases |xs|
  {
    var u := if |xs| == 1 then "" else NUL + Join(xs[1..], NUL);
    var v := if |ys| == 1 then "" else NUL + Join(ys[1..], NUL);
    assert Join(xs, NUL) == xs[0] + u && Join(ys, NUL) == ys[0] + v;
    FirstPart(xs[0], ys[0], u, v);
    if |xs| > 1 && |ys| > 1 {
      SameTail(NUL, Join(xs[1..], NUL), Join(ys[1..], NUL));
      JoinUnique(xs[1..], ys[1..]);
      assert xs == [xs[0]] + xs[1..] && ys == [ys[0]] + ys[1..];
    } else {
      assert |xs| == 1 && |ys| == 1;
    }
  }

  // ----- ids that hold NULs -----

  /** An id cut at its NULs. */
  function Cut(id: string): (r: seq<string>)
    ensures r != [] && NulFree(r)
  {
    if id == "" then [""]
    else
      var rest := Cut(id[1..]);
      if id[0] == '\0' then [""] + rest else [[id[0]] + rest[0]] + rest[1..]
  }

  /** The pieces of all ids of a batch, in order. */
  function CutAll(ids: seq<string>): (r: seq<string>)
    ensures r != [] && NulFree(r)
  {
    if ids == [] then [""] else if |ids| == 1 then Cut(ids[0]) else Cut(ids[0]) + CutAll(ids[1..])
  }

  lemma {:induction false} JoinCut(id: string)
    ensures Join(Cut(id), NUL) == id
    decreases |id|
  {
    if id != "" {
      JoinCut(id[1..]);
      var rest := Cut(id[1..]);
      if id[0] == '\0' {
        assert ([""] + rest)[1..] == rest;
        assert id == NUL + id[1..];
      } else {
        var first := [id[0]] + rest[0];
        assert ([first] + rest[1..])[1..] == rest[1..];
        assert Join([first] + rest[1..], NUL) == [id[0]] + Join(rest, NUL);
      }
    }
  }

  lemma {:induction false} JoinConcat(xs: seq<string>, ys: seq<string>)
    requires xs != [] && ys != []
    ensures Join(xs + ys, NUL) == Join(xs, NUL) + NUL + Join(ys, NUL)
    decreases |xs|
  {
    assert (xs + ys)[1..] == xs[1..] + ys;
    if |xs| > 1 { JoinConcat(xs[1..], ys); }
  }

  lemma {:induction false} JoinCutAll(ids: seq<string>)
    ensures Join(CutAll(ids), NUL) == Join(ids, NUL)
    decreases |ids|
  {
    if ids != [] {
      JoinCut(ids[0]);
      if |ids| > 1 {
        JoinCutAll(ids[1..]);
        JoinConcat(Cut(ids[0]), CutAll(ids[1..]));
      }
    }
  }

  lemma {:induction false} CutWhole(id: string)
    requires '\0' !in id
    ensures Cut(id) == [id]
    decreases |id|
  {
    if id != "" {
      assert id[0] in id;
      CutWhole(id[1..]);
      assert [id[0]] + id[1..] == id;
    }
  }

  lemma {:induction false} CutAllWhole(ids: seq<string>)
    requires ids != [] && NulFree(ids)
    ensures CutAll(ids) == ids
    decreases |ids|
  {
    CutWhole(ids[0]);
    if |ids| > 1 {
      CutAllWhole(ids[1..]);
      assert [ids[0]] + ids[1..] == ids;
    }
  }

  /** Two batches have one identity exactly when their ids, cut at NULs, are the same pieces in
      the same order; when no id holds a NUL, exactly when they list the same ids. */
  lemma BatchIdentityIsExact(xs: seq<string>, ys: seq<string>, hash: Hash)
    requires IsHash(hash)
    ensures BatchIdentity(xs, hash) == BatchIdentity(ys, hash) <==> CutAll(xs) == CutAll(ys)
    ensures xs != [] && ys != [] && NulFree(xs) && NulFree(ys) ==>
      (BatchIdentity(xs, hash) == BatchIdentity(ys, hash) <==> xs == ys)
  {
    JoinCutAll(xs);
    JoinCutAll(ys);
    if BatchIdentity(xs, hash) == BatchIdentity(ys, hash) {
      SameTail("batch-", hash(Join(xs, NUL)), hash(Join(ys, NUL)));
      JoinUnique(CutAll(xs), CutAll(ys));
    }
    if xs != [] && NulFree(xs) { CutAllWhole(xs); }
    if ys != [] && NulFree(ys) { CutAllWhole(ys); }
  }

  /** A NUL inside an id is one cut too many: the id and its two halves have one identity,
      wherever they stand in a batch. */
  lemma NulMergesIds(before: seq<string>, a: string, b: string, after: seq<string>, hash: Hash)
    ensures BatchIdentity(before + [a, b] + after, hash) == BatchIdentity(before + [a + NUL + b] + after, hash)
  {
    var xs, ys := [a, b] + after, [a + NUL + b] + after;
    assert xs[1..] == [b] + after && ys[1..] == after && xs[1..][1..] == after;
    assert Join(xs, NUL) == Join(ys, NUL);
    assert before + [a, b] + after == before + xs && before + [a + NUL + b] + after == before + ys;
    if before != [] {
      JoinConcat(before, xs);
      JoinConcat(before, ys);
    } else {
      assert before + xs == xs && before + ys == ys;
    }
  }

  // ----- the two kinds of identity as request ids -----

  /** The text of a request id, as the store and the bridge make it. */
  function Key(r: S.RequestId, hash: Hash): string {
    match r
    case Single(id) => id
    case Batch(ids) => BatchIdentity(ids, hash)
  }

  /** A message's own id is its identity, which never looks like a batch's. */
  lemma IdentityIsNoBatch(m: Wire, le: Order, hash: Hash, ids: seq<string>)
    requires IsHash(hash)
    ensures !("batch-" <= Identity(m, le, hash)) && Identity(m, le, hash) != BatchIdentity(ids, hash)
  {
    var text := Identity(m, le, hash);
    if m.messageId.Some? || m.clientId.Some? {
      assert text[0] != 'b';
    } else if |text| > 2 {
      assert text[2] in hash(Canonical(m.body, le));
    }
    assert "batch-" <= BatchIdentity(ids, hash);
  }

  ghost predicate Proper(r: S.RequestId) {
    match r
    case Single(id) => !("batch-" <= id)
    case Batch(ids) => ids != [] && NulFree(ids)
  }

  /** Request ids made of message identities without NULs have one text exactly when they are
      the same request id. */
  lemma KeysAreExact(r: S.RequestId, s: S.RequestId, hash: Hash)
    requires IsHash(hash) && Proper(r) && Proper(s)
    ensures Key(r, hash) == Key(s, hash) <==> r == s
  {
    if r.Batch? && s.Batch? {
      BatchIdentityIsExact(r.ids, s.ids, hash);
    } else if r.Batch? {
      assert "batch-" <= Key(r, hash);
    } else if s.Batch? {
      assert "batch-" <= Key(s, hash);
    }
  }
}
