/** `canonicalJson` of message.ts, the text that identifies a message without an id.

    Keys are sorted by `localeCompare`; here that is any total order. A number is its
    `JSON.stringify` numeral; strings are sequences of Unicode scalar values. */
module CanonicalJson {
  import opened Prelude

  datatype Json =
    | Null
    | Bool(value: bool)
    | Number(numeral: string)
    | Str(text: string)
    | Array(items: seq<Json>)
    | Object(fields: seq<Field<Json>>)

  datatype Field<V> = Field(key: string, value: V)

  type Order = (string, string) -> bool

  ghost predicate TotalOrder(le: Order) {
    && (forall x, y :: le(x, y) || le(y, x))
    && (forall x, y :: le(x, y) && le(y, x) ==> x == y)
    && (forall x, y, z :: le(x, y) && le(y, z) ==> le(x, z))
  }

  // ----- JSON.stringify of a string -----

  function Hex(d: int): char
    requires 0 <= d < 16
  {
    "0123456789abcdef"[d]
  }

  function Escape(c: char): string {
    if c == '\"' then "\\\""
    else if c == '\\' then "\\\\"
    else if c == '\n' then "\\n"
    else if c == '\r' then "\\r"
    else if c == '\t' then "\\t"
    else if c as int == 8 then "\\b"
    else if c as int == 12 then "\\f"
    else if c as int < 32 then ['\\', 'u', '0', '0', Hex(c as int / 16), Hex(c as int % 16)]
    else [c]
  }

  function Escapes(s: string): string {
    if s == "" then "" else Escape(s[0]) + Escapes(s[1..])
  }

  function Quote(s: string): string { "\"" + Escapes(s) + "\"" }

  // ----- reading a string literal -----

  function Digit(c: char): Option<nat> {
    if '0' <= c <= '9' then Some(c as int - '0' as int)
    else if 'a' <= c <= 'f' then Some(c as int - 'a' as int + 10)
    else if 'A' <= c <= 'F' then Some(c as int - 'A' as int + 10)
    else None
  }

  /** The four digits after `\u`. Escaped surrogates are left out: no printed text has them. */
  function ReadCode(t: string): Option<char> {
    if |t| < 4 then None
    else
      var (a, b, c, d) := (Digit(t[0]), Digit(t[1]), Digit(t[2]), Digit(t[3]));
      if a.None? || b.None? || c.None? || d.None? then None
      else
        var code := 4096 * a.value + 256 * b.value + 16 * c.value + d.value;
        if 0xD800 <= code < 0xE000 || code >= 0x10000 then None else Some(code as char)
  }

  function ReadEscape(c: char): Option<char> {
    if c == '\"' || c == '\\' || c == '/' then Some(c)
    else if c == 'n' then Some('\n')
    else if c == 'r' then Some('\r')
    else if c == 't' then Some('\t')
    else if c == 'b' then Some(8 as char)
    else if c == 'f' then Some(12 as char)
    else None
  }

  /** One character of a string literal, section 7 of RFC 8259, and what follows it. */
  function ReadChar(t: string): (r: Option<(char, string)>)
    ensures r.Some? ==> |r.value.1| < |t|
  {
    if t == "" || t[0] == '\"' || t[0] as int < 32 then None
    else if t[0] != '\\' then Some((t[0], t[1..]))
    else if |t| >= 6 && t[1] == 'u' then
      var c := ReadCode(t[2..]);
      if c.None? then None else Some((c.value, t[6..]))
    else if |t| >= 2 && ReadEscape(t[1]).Some? then Some((ReadEscape(t[1]).value, t[2..]))
    else None
  }

  /** The rest of a string literal after its opening quotation mark, and what follows it. */
  function ReadText(t: string): (r: Option<(string, string)>)
    ensures r.Some? ==> |r.value.1| < |t|
    decreases |t|
  {
    if t == "" then None
    else if t[0] == '\"' then Some(("", t[1..]))
    else
      var c := ReadChar(t);
      if c.None? then None
      else
        var rest := ReadText(c.value.1);
        if rest.None? then None else Some(([c.value.0] + rest.value.0, rest.value.1))
  }

  lemma HexDigit(d: int)
    requires 0 <= d < 16
    ensures Digit(Hex(d)) == Some(d)
  {
  }

  lemma ReadsEscape(c: char, u: string)
    ensures ReadChar(Escape(c) + u) == Some((c, u)) && (Escape(c) + u)[0] != '\"'
  {
    var t := Escape(c) + u;
    if |Escape(c)| == 6 {
      assert t[0] == '\\' && t[1] == 'u' && t[2] == '0' && t[3] == '0' && t[4] == Escape(c)[4] && t[5] == Escape(c)[5];
      HexDigit(c as int / 16);
      HexDigit(c as int % 16);
      assert ReadCode(t[2..]) == Some(c);
      assert t[6..] == u;
    } else if |Escape(c)| == 2 {
      assert t[0] == '\\' && t[1] == Escape(c)[1] && t[2..] == u;
    } else {
      assert t[0] == c && t[1..] == u;
    }
  }

  lemma {:induction false} ReadsEscapes(s: string, u: string)
    ensures ReadText(Escapes(s) + "\"" + u) == Some((s, u))
    decreases |s|
  {
    hide Escape, ReadChar;
    var t := Escapes(s) + "\"" + u;
    if s == "" {
      assert t[0] == '\"' && t[1..] == u;
    } else {
      var rest := Escapes(s[1..]) + "\"" + u;
      assert t == Escape(s[0]) + rest;
      ReadsEscape(s[0], rest);
      ReadsEscapes(s[1..], u);
      assert [s[0]] + s[1..] == s;
    }
  }

  /** A string literal is told apart from what follows it. */
  lemma QuoteUnique(s: string, t: string, u: string, v: string)
    requires Quote(s) + u == Quote(t) + v
    ensures s == t && u == v
  {
    hide Escapes, ReadText;
    assert (Quote(s) + u)[1..] == Escapes(s) + "\"" + u;
    assert (Quote(t) + v)[1..] == Escapes(t) + "\"" + v;
    ReadsEscapes(s, u);
    ReadsEscapes(t, v);
  }

  // ----- printing -----

  function Insert<V>(entry: Field<V>, sorted: seq<Field<V>>, le: Order): seq<Field<V>> {
    if sorted == [] then [entry]
    else if le(entry.key, sorted[0].key) then [entry] + sorted
    else [sorted[0]] + Insert(entry, sorted[1..], le)
  }

  /** `Object.entries(value).sort(...)`: the entries in key order. */
  function SortByKey<V>(entries: seq<Field<V>>, le: Order): seq<Field<V>> {
    if entries == [] then [] else Insert(entries[0], SortByKey(entries[1..], le), le)
  }

  function Members(entries: seq<Field<string>>): seq<string> {
    if entries == [] then []
    else [Quote(entries[0].key) + ":" + entries[0].value] + Members(entries[1..])
  }

  /** Lines 25-34. An object's values are printed first and sorted with their keys, which
      changes nothing: the order looks at the keys only. */
  function Canonical(v: Json, le: Order): string
    decreases v, 1
  {
    match v
    case Null => "null"
    case Bool(b) => if b then "true" else "false"
    case Number(n) => n
    case Str(s) => Quote(s)
    case Array(items) => "[" + Join(CanonicalItems(items, le), ",") + "]"
    case Object(fields) => "{" + Join(Members(SortByKey(CanonicalFields(fields, le), le)), ",") + "}"
  }

  function CanonicalItems(items: seq<Json>, le: Order): seq<string>
    decreases items, 0
  {
    if items == [] then [] else [Canonical(items[0], le)] + CanonicalItems(items[1..], le)
  }

  function CanonicalFields(fields: seq<Field<Json>>, le: Order): seq<Field<string>>
    decreases fields, 0
  {
    if fields == [] then []
    else [Field(fields[0].key, Canonical(fields[0].value, le))] + CanonicalFields(fields[1..], le)
  }

  // ----- printing splits into sorting and plain printing -----

  function Emit(v: Json): string
    decreases v, 1
  {
    match v
    case Null => "null"
    case Bool(b) => if b then "true" else "false"
    case Number(n) => n
    case Str(s) => Quote(s)
    case Array(items) => "[" + Join(EmitItems(items), ",") + "]"
    case Object(fields) => "{" + Join(Members(EmitFields(fields)), ",") + "}"
  }

  function EmitItems(items: seq<Json>): (r: seq<string>)
    decreases items, 0
  {
    if items == [] then [] else [Emit(items[0])] + EmitItems(items[1..])
  }

  function EmitFields(fields: seq<Field<Json>>): seq<Field<string>>
    decreases fields, 0
  {
    if fields == [] then []
    else [Field(fields[0].key, Emit(fields[0].value))] + EmitFields(fields[1..])
  }

  /** The value with the fields of every object in key order. */
  function Normal(v: Json, le: Order): Json
    decreases v, 1
  {
    match v
    case Array(items) => Array(NormalItems(items, le))
    case Object(fields) => Object(SortByKey(NormalFields(fields, le), le))
    case _ => v
  }

  function NormalItems(items: seq<Json>, le: Order): seq<Json>
    decreases items, 0
  {
    if items == [] then [] else [Normal(items[0], le)] + NormalItems(items[1..], le)
  }

  function NormalFields(fields: seq<Field<Json>>, le: Order): seq<Field<Json>>
    decreases fields, 0
  {
    if fields == [] then []
    else [Field(fields[0].key, Normal(fields[0].value, le))] + NormalFields(fields[1..], le)
  }

  lemma {:induction false} InsertEmits(f: Field<Json>, sorted: seq<Field<Json>>, le: Order)
    ensures EmitFields(Insert(f, sorted, le)) == Insert(Field(f.key, Emit(f.value)), EmitFields(sorted), le)
    decreases |sorted|
  {
    if sorted == [] {
      assert EmitFields([f]) == [Field(f.key, Emit(f.value))];
    } else if le(f.key, sorted[0].key) {
      assert ([f] + sorted)[1..] == sorted;
    } else {
      InsertEmits(f, sorted[1..], le);
      var rest := Insert(f, sorted[1..], le);
      assert ([sorted[0]] + rest)[1..] == rest;
      var printed := EmitFields(sorted);
      assert printed[1..] == EmitFields(sorted[1..]);
    }
  }

  lemma {:induction false} SortEmits(fields: seq<Field<Json>>, le: Order)
    ensures EmitFields(SortByKey(fields, le)) == SortByKey(EmitFields(fields), le)
    decreases |fields|
  {
    if fields != [] {
      SortEmits(fields[1..], le);
      InsertEmits(fields[0], SortByKey(fields[1..], le), le);
      assert EmitFields(fields)[1..] == EmitFields(fields[1..]);
    }
  }

  lemma {:induction false} CanonicalIsEmitNormal(v: Json, le: Order)
    ensures Canonical(v, le) == Emit(Normal(v, le))
    decreases v, 1
  {
    match v
    case Array(items) => CanonicalItemsEmit(items, le);
    case Object(fields) =>
      CanonicalFieldsEmit(fields, le);
      SortEmits(NormalFields(fields, le), le);
    case _ =>
  }

  lemma {:induction false} CanonicalItemsEmit(items: seq<Json>, le: Order)
    ensures CanonicalItems(items, le) == EmitItems(NormalItems(items, le))
    decreases items, 0
  {
    if items != [] {
      CanonicalIsEmitNormal(items[0], le);
      CanonicalItemsEmit(items[1..], le);
      assert NormalItems(items, le)[1..] == NormalItems(items[1..], le);
    }
  }

  lemma {:induction false} CanonicalFieldsEmit(fields: seq<Field<Json>>, le: Order)
    ensures CanonicalFields(fields, le) == EmitFields(NormalFields(fields, le))
    decreases fields, 0
  {
    if fields != [] {
      CanonicalIsEmitNormal(fields[0].value, le);
      CanonicalFieldsEmit(fields[1..], le);
      assert NormalFields(fields, le)[1..] == NormalFields(fields[1..], le);
    }
  }

  // ----- plain printing is unambiguous -----

  predicate NumeralChar(c: char) { c in "0123456789+-.eE" }

  predicate IsNumeral(s: string) { s != "" && forall c | c in s :: NumeralChar(c) }

  predicate DistinctKeys<V>(fields: seq<Field<V>>) {
    forall i, j | 0 <= i < j < |fields| :: fields[i].key != fields[j].key
  }

  /** Numbers are numerals and no object has a key twice. */
  predicate Valid(v: Json)
    decreases v, 1
  {
    match v
    case Number(n) => IsNumeral(n) && n[0] in "0123456789-"
    case Array(items) => ValidItems(items)
    case Object(fields) => ValidFields(fields) && DistinctKeys(fields)
    case _ => true
  }

  predicate ValidItems(items: seq<Json>)
    decreases items, 0
  {
    items == [] || (Valid(items[0]) && ValidItems(items[1..]))
  }

  predicate ValidFields(fields: seq<Field<Json>>)
    decreases fields, 0
  {
    fields == [] || (Valid(fields[0].value) && ValidFields(fields[1..]))
  }

  /** What can follow a value inside a printed document. */
  predicate Stops(u: string) { u == "" || u[0] == ',' || u[0] == ']' || u[0] == '}' }

  function After(items: seq<Json>, u: string): string {
    if |items| <= 1 then "]" + u else "," + (Join(EmitItems(items[1..]), ",") + "]" + u)
  }

  function AfterField(fields: seq<Field<Json>>, u: string): string {
    if |fields| <= 1 then "}" + u else "," + (Join(Members(EmitFields(fields[1..])), ",") + "}" + u)
  }

  lemma ItemConcats(value: string, tail: string, u: string)
    ensures value + "]" + u == value + ("]" + u)
    ensures value + "," + tail + "]" + u == value + ("," + (tail + "]" + u))
  {
  }

  lemma ItemsHead(items: seq<Json>, u: string)
    requires items != []
    ensures Join(EmitItems(items), ",") + "]" + u == Emit(items[0]) + After(items, u)
  {
    var parts, rest := EmitItems(items), EmitItems(items[1..]);
    assert parts == [Emit(items[0])] + rest && parts[1..] == rest;
    assert |items| > 1 ==> rest != [];
    assert |items| == 1 ==> rest == [];
    hide Emit, EmitItems;
    ItemConcats(Emit(items[0]), Join(rest, ","), u);
  }

  lemma {:induction false} FieldsLength(fields: seq<Field<Json>>)
    ensures |EmitFields(fields)| == |Members(EmitFields(fields))| == |fields|
    decreases |fields|
  {
    if fields != [] {
      FieldsLength(fields[1..]);
      assert EmitFields(fields)[1..] == EmitFields(fields[1..]);
    }
  }

  lemma FirstMember(fields: seq<Field<Json>>)
    requires fields != []
    ensures Members(EmitFields(fields)) ==
            [Quote(fields[0].key) + ":" + Emit(fields[0].value)] + Members(EmitFields(fields[1..]))
  {
    assert EmitFields(fields)[1..] == EmitFields(fields[1..]);
  }

  lemma Concats(key: string, value: string, tail: string, u: string)
    ensures key + ":" + value + "}" + u == key + (":" + (value + ("}" + u)))
    ensures key + ":" + value + "," + tail + "}" + u == key + (":" + (value + ("," + (tail + "}" + u))))
  {
  }

  lemma FieldsHead(fields: seq<Field<Json>>, u: string)
    requires fields != []
    ensures Join(Members(EmitFields(fields)), ",") + "}" + u ==
            Quote(fields[0].key) + (":" + (Emit(fields[0].value) + AfterField(fields, u)))
  {
    FieldsLength(fields);
    FirstMember(fields);
    var parts, rest := Members(EmitFields(fields)), Members(EmitFields(fields[1..]));
    assert parts[1..] == rest;
    hide Emit, EmitFields, Quote;
    var key, value, tail := Quote(fields[0].key), Emit(fields[0].value), Join(rest, ",");
    Concats(key, value, tail, u);
  }

  function NumeralLength(w: string): (n: nat)
    ensures n <= |w|
  {
    if w == "" || !NumeralChar(w[0]) then 0 else 1 + NumeralLength(w[1..])
  }

  lemma {:induction false} NumeralEnds(s: string, u: string)
    requires (forall c | c in s :: NumeralChar(c)) && Stops(u)
    ensures NumeralLength(s + u) == |s|
    decreases |s|
  {
    if s == "" {
      assert s + u == u;
    } else {
      assert (s + u)[1..] == s[1..] + u;
      NumeralEnds(s[1..], u);
    }
  }

  /** The first character tells the kind of value, and is never one that can follow a value. */
  lemma EmitHead(v: Json, u: string)
    requires Valid(v)
    ensures Emit(v) != "" && !Stops(Emit(v) + u)
    ensures var c := (Emit(v) + u)[0];
      && (v.Null? <==> c == 'n') && (v == Bool(true) <==> c == 't') && (v == Bool(false) <==> c == 'f')
      && (v.Number? <==> c in "0123456789-") && (v.Str? <==> c == '\"')
      && (v.Array? <==> c == '[') && (v.Object? <==> c == '{')
  {
  }

  lemma SameTail(w: string, u: string, v: string)
    requires w + u == w + v
    ensures u == v
  {
    assert u == (w + u)[|w|..] && v == (w + v)[|w|..];
  }

  lemma AfterStops(xs: seq<Json>, u: string)
    ensures Stops(After(xs, u))
  {
  }

  lemma AfterFieldStops(xs: seq<Field<Json>>, u: string)
    ensures Stops(AfterField(xs, u))
  {
  }

  lemma QuoteHead(s: string)
    ensures forall u :: (Quote(s) + u)[0] == '\"'
  {
  }

  // ----- reading a document -----

  function ReadWord(t: string, word: string, v: Json): (r: Option<(Json, string)>)
    requires word != ""
    ensures r.Some? ==> |r.value.1| < |t|
  {
    if word <= t then Some((v, t[|word|..])) else None
  }

  /** A JSON value without white space (RFC 8259), and what follows it. A number is read as far
      as its characters go. */
  function ReadValue(t: string): (r: Option<(Json, string)>)
    ensures r.Some? ==> |r.value.1| < |t|
    decreases |t|, 0
  {
    if t == "" then None
    else if t[0] == 'n' then ReadWord(t, "null", Null)
    else if t[0] == 't' then ReadWord(t, "true", Bool(true))
    else if t[0] == 'f' then ReadWord(t, "false", Bool(false))
    else if t[0] == '\"' then
      var s := ReadText(t[1..]);
      if s.None? then None else Some((Str(s.value.0), s.value.1))
    else if t[0] == '[' then
      if |t| > 1 && t[1] == ']' then Some((Array([]), t[2..]))
      else
        var items := ReadItems(t[1..]);
        if items.None? then None else Some((Array(items.value.0), items.value.1))
    else if t[0] == '{' then
      if |t| > 1 && t[1] == '}' then Some((Object([]), t[2..]))
      else
        var fields := ReadFields(t[1..]);
        if fields.None? then None else Some((Object(fields.value.0), fields.value.1))
    else if NumeralChar(t[0]) then
      var n := NumeralLength(t);
      Some((Number(t[..n]), t[n..]))
    else None
  }

  function ReadItems(t: string): (r: Option<(seq<Json>, string)>)
    ensures r.Some? ==> |r.value.1| < |t|
    decreases |t|, 1
  {
    var v := ReadValue(t);
    if v.None? || v.value.1 == "" then None
    else if v.value.1[0] == ']' then Some(([v.value.0], v.value.1[1..]))
    else if v.value.1[0] != ',' then None
    else
      var rest := ReadItems(v.value.1[1..]);
      if rest.None? then None else Some(([v.value.0] + rest.value.0, rest.value.1))
  }

  function ReadField(t: string): (r: Option<(Field<Json>, string)>)
    ensures r.Some? ==> |r.value.1| < |t|
    decreases |t|, 1
  {
    if t == "" || t[0] != '\"' then None
    else
      var key := ReadText(t[1..]);
      if key.None? || key.value.1 == "" || key.value.1[0] != ':' then None
      else
        var v := ReadValue(key.value.1[1..]);
        if v.None? then None else Some((Field(key.value.0, v.value.0), v.value.1))
  }

  function ReadFields(t: string): (r: Option<(seq<Field<Json>>, string)>)
    ensures r.Some? ==> |r.value.1| < |t|
    decreases |t|, 2
  {
    var f := ReadField(t);
    if f.None? || f.value.1 == "" then None
    else if f.value.1[0] == '}' then Some(([f.value.0], f.value.1[1..]))
    else if f.value.1[0] != ',' then None
    else
      var rest := ReadFields(f.value.1[1..]);
      if rest.None? then None else Some(([f.value.0] + rest.value.0, rest.value.1))
  }

  lemma ReadsNumber(t: string)
    requires t != "" && t[0] in "0123456789-"
    ensures ReadValue(t) == Some((Number(t[..NumeralLength(t)]), t[NumeralLength(t)..]))
  {
    hide NumeralLength, ReadText, ReadItems, ReadFields;
  }

  lemma ReadsNumeral(n: string, u: string)
    requires IsNumeral(n) && n[0] in "0123456789-" && Stops(u)
    ensures ReadValue(n + u) == Some((Number(n), u))
  {
    hide NumeralLength, ReadValue;
    NumeralEnds(n, u);
    assert (n + u)[0] == n[0] && (n + u)[..|n|] == n && (n + u)[|n|..] == u;
    ReadsNumber(n + u);
  }

  lemma ReadsString(s: string, u: string)
    ensures ReadValue(Quote(s) + u) == Some((Str(s), u))
  {
    assert (Quote(s) + u)[1..] == Escapes(s) + "\"" + u;
    ReadsEscapes(s, u);
    hide Escapes, ReadText;
  }

  /** What is printed is read back as it was, and what follows is left. */
  lemma {:induction false} EmitReads(v: Json, u: string)
    requires Valid(v) && Stops(u)
    ensures ReadValue(Emit(v) + u) == Some((v, u))
    decreases v, 1
  {
    match v
    case Null => assert ("null" + u)[4..] == u;
    case Bool(b) => assert ("true" + u)[4..] == u && ("false" + u)[5..] == u;
    case Number(n) => ReadsNumeral(n, u);
    case Str(s) => ReadsString(s, u);
    case Array(items) => ArrayReads(items, u);
    case Object(fields) => ObjectReads(fields, u);
  }

  lemma {:induction false} ArrayReads(items: seq<Json>, u: string)
    requires ValidItems(items)
    ensures ReadValue(Emit(Array(items)) + u) == Some((Array(items), u))
    decreases items, 1
  {
    var t := Emit(Array(items)) + u;
    if items == [] {
      assert t[1] == ']' && t[2..] == u;
    } else {
      var inner := Join(EmitItems(items), ",") + "]" + u;
      assert t[0] == '[' && t[1..] == inner;
      ItemsHead(items, u);
      EmitHead(items[0], After(items, u));
      ItemsRead(items, u);
      hide Emit, EmitItems, ReadItems, After;
      assert t[1] == inner[0];
    }
  }

  lemma {:induction false} ItemsRead(items: seq<Json>, u: string)
    requires ValidItems(items) && items != []
    ensures ReadItems(Join(EmitItems(items), ",") + "]" + u) == Some((items, u))
    decreases items, 0
  {
    hide Emit, EmitItems, Join, ReadValue, Stops;
    ItemsHead(items, u);
    AfterStops(items, u);
    EmitReads(items[0], After(items, u));
    if |items| == 1 {
      assert After(items, u)[1..] == u && [items[0]] == items;
    } else {
      ItemsRead(items[1..], u);
      assert After(items, u)[1..] == Join(EmitItems(items[1..]), ",") + "]" + u;
      assert [items[0]] + items[1..] == items;
    }
  }

  lemma ReadsObject(t: string)
    requires |t| > 1 && t[0] == '{'
    ensures t[1] == '}' ==> ReadValue(t) == Some((Object([]), t[2..]))
    ensures t[1] != '}' && ReadFields(t[1..]).Some? ==>
      ReadValue(t) == Some((Object(ReadFields(t[1..]).value.0), ReadFields(t[1..]).value.1))
  {
    hide ReadText, ReadItems, ReadFields, NumeralLength, NumeralChar;
  }

  lemma {:induction false} ObjectReads(fields: seq<Field<Json>>, u: string)
    requires ValidFields(fields)
    ensures ReadValue(Emit(Object(fields)) + u) == Some((Object(fields), u))
    decreases fields, 2
  {
    hide ReadValue, ReadFields, Members, Quote;
    var t := Emit(Object(fields)) + u;
    var inner := Join(Members(EmitFields(fields)), ",") + "}" + u;
    assert t[0] == '{' && t[1..] == inner;
    ReadsObject(t);
    if fields == [] {
      NoMembers();
      assert inner[0] == '}' && t[2..] == u;
    } else {
      FieldsHead(fields, u);
      QuoteHead(fields[0].key);
      FieldsRead(fields, u);
      hide Emit, EmitFields, Join, AfterField;
      assert t[1] == inner[0];
    }
  }

  lemma NoMembers()
    ensures Members([]) == []
  {
  }

  lemma QuoteReads(key: string, u: string)
    ensures (Quote(key) + u)[0] == '\"' && ReadText((Quote(key) + u)[1..]) == Some((key, u))
  {
    assert (Quote(key) + u)[1..] == Escapes(key) + "\"" + u;
    ReadsEscapes(key, u);
  }

  lemma {:induction false} FieldReads(f: Field<Json>, u: string)
    requires Valid(f.value) && Stops(u)
    ensures ReadField(Quote(f.key) + (":" + (Emit(f.value) + u))) == Some((f, u))
    decreases f, 1
  {
    hide Emit, Quote, Escapes, ReadText, ReadValue, Stops;
    var rest := ":" + (Emit(f.value) + u);
    QuoteReads(f.key, rest);
    EmitReads(f.value, u);
    assert rest[0] == ':' && rest[1..] == Emit(f.value) + u;
  }

  lemma {:induction false} FieldsRead(fields: seq<Field<Json>>, u: string)
    requires ValidFields(fields) && fields != []
    ensures ReadFields(Join(Members(EmitFields(fields)), ",") + "}" + u) == Some((fields, u))
    decreases fields, 0
  {
    hide Emit, EmitFields, Members, Quote, Join, ReadField, Stops;
    FieldsHead(fields, u);
    AfterFieldStops(fields, u);
    FieldReads(fields[0], AfterField(fields, u));
    if |fields| == 1 {
      assert AfterField(fields, u)[1..] == u && [fields[0]] == fields;
    } else {
      FieldsRead(fields[1..], u);
      assert AfterField(fields, u)[1..] == Join(Members(EmitFields(fields[1..])), ",") + "}" + u;
      assert [fields[0]] + fields[1..] == fields;
    }
  }

  /** Printing is self-delimiting. */
  lemma EmitUnique(x: Json, y: Json, u: string, v: string)
    requires Valid(x) && Valid(y) && Stops(u) && Stops(v) && Emit(x) + u == Emit(y) + v
    ensures x == y && u == v
  {
    EmitReads(x, u);
    EmitReads(y, v);
    hide Emit, ReadValue;
  }

  // ----- sorting forgets exactly the order of the keys -----

  ghost predicate StrictlySorted<V>(fields: seq<Field<V>>, le: Order) {
    forall i, j | 0 <= i < j < |fields| :: le(fields[i].key, fields[j].key) && fields[i].key != fields[j].key
  }

  /** Both lists have the same entries. */
  ghost predicate SameEntries<V>(s: seq<Field<V>>, t: seq<Field<V>>) {
    (forall i | 0 <= i < |s| :: s[i] in t) && (forall i | 0 <= i < |t| :: t[i] in s)
  }

  lemma {:induction false} InsertSorts<V>(f: Field<V>, sorted: seq<Field<V>>, le: Order)
    requires TotalOrder(le) && StrictlySorted(sorted, le)
    requires forall i | 0 <= i < |sorted| :: sorted[i].key != f.key
    ensures StrictlySorted(Insert(f, sorted, le), le)
    ensures SameEntries(Insert(f, sorted, le), [f] + sorted)
    decreases |sorted|
  {
    if sorted != [] && !le(f.key, sorted[0].key) {
      var rest := Insert(f, sorted[1..], le);
      InsertSorts(f, sorted[1..], le);
      forall j | 0 <= j < |rest|
        ensures le(sorted[0].key, rest[j].key) && sorted[0].key != rest[j].key && rest[j] in [f] + sorted
      {
        assert rest[j] in [f] + sorted[1..];
      }
      forall j | 0 <= j < |sorted|
        ensures sorted[j] in [sorted[0]] + rest
      {
        if j > 0 { assert ([f] + sorted[1..])[j] == sorted[j]; }
      }
      assert ([f] + sorted[1..])[0] == f;
    }
  }

  lemma {:induction false} SortSorts<V>(fields: seq<Field<V>>, le: Order)
    requires TotalOrder(le) && DistinctKeys(fields)
    ensures StrictlySorted(SortByKey(fields, le), le)
    ensures SameEntries(SortByKey(fields, le), fields)
    decreases |fields|
  {
    if fields != [] {
      SortSorts(fields[1..], le);
      var sorted := SortByKey(fields[1..], le);
      forall i | 0 <= i < |sorted|
        ensures sorted[i].key != fields[0].key && sorted[i] in fields
      {
        assert sorted[i] in fields[1..];
      }
      InsertSorts(fields[0], sorted, le);
      var all := SortByKey(fields, le);
      forall i | 0 <= i < |fields|
        ensures fields[i] in all
      {
        if i > 0 {
          assert fields[1..][i - 1] in sorted;
          var k :| 0 <= k < |sorted| && sorted[k] == fields[i];
          assert ([fields[0]] + sorted)[k + 1] in all;
        } else {
          assert ([fields[0]] + sorted)[0] in all;
        }
      }
    }
  }

  lemma SortedHeads<V>(s: seq<Field<V>>, t: seq<Field<V>>, le: Order)
    requires TotalOrder(le) && StrictlySorted(s, le) && StrictlySorted(t, le)
    requires s != [] && t != [] && s[0] in t && t[0] in s
    ensures s[0] == t[0]
  {
    var i :| 0 <= i < |t| && t[i] == s[0];
    var j :| 0 <= j < |s| && s[j] == t[0];
  }

  lemma TailEntries<V>(s: seq<Field<V>>, t: seq<Field<V>>, le: Order)
    requires s != [] && t != [] && s[0] == t[0] && StrictlySorted(s, le) && SameEntries(s, t)
    ensures forall i | 0 <= i < |s[1..]| :: s[1..][i] in t[1..]
  {
    forall i | 0 <= i < |s[1..]|
      ensures s[1..][i] in t[1..]
    {
      assert s[i + 1] in t;
      var k :| 0 <= k < |t| && t[k] == s[i + 1];
      assert k != 0;
      assert t[1..][k - 1] == s[i + 1];
    }
  }

  /** A strictly sorted list is determined by its entries. */
  lemma {:induction false} SortedUnique<V>(s: seq<Field<V>>, t: seq<Field<V>>, le: Order)
    requires TotalOrder(le) && StrictlySorted(s, le) && StrictlySorted(t, le) && SameEntries(s, t)
    ensures s == t
    decreases |s|
  {
    if t != [] { assert t[0] in s; }
    if s != [] {
      assert s[0] in t;
      SortedHeads(s, t, le);
      TailEntries(s, t, le);
      TailEntries(t, s, le);
      hide TotalOrder;
      SortedUnique(s[1..], t[1..], le);
    }
  }

  // ----- equality up to the order of keys -----

  ghost predicate HasKey(fields: seq<Field<Json>>, key: string) {
    exists i | 0 <= i < |fields| :: fields[i].key == key
  }

  /** The same JSON value: objects are compared as maps from keys to values. */
  ghost predicate Same(v: Json, w: Json)
    decreases v, 1
  {
    match v
    case Array(items) =>
      w.Array? && |items| == |w.items| && forall i | 0 <= i < |items| :: Same(items[i], w.items[i])
    case Object(fields) =>
      && w.Object?
      && (forall i | 0 <= i < |fields| :: HasField(fields, i, w.fields))
      && (forall j | 0 <= j < |w.fields| :: HasKey(fields, w.fields[j].key))
    case _ => v == w
  }

  ghost predicate HasField(fields: seq<Field<Json>>, i: nat, others: seq<Field<Json>>)
    requires i < |fields|
    decreases fields, 0
  {
    exists j | 0 <= j < |others| :: others[j].key == fields[i].key && Same(fields[i].value, others[j].value)
  }

  lemma {:induction false} NormalItemsAt(items: seq<Json>, le: Order)
    ensures |NormalItems(items, le)| == |items|
    ensures forall i | 0 <= i < |items| :: NormalItems(items, le)[i] == Normal(items[i], le)
    decreases |items|
  {
    if items != [] { NormalItemsAt(items[1..], le); }
  }

  lemma {:induction false} NormalFieldsAt(fields: seq<Field<Json>>, le: Order)
    ensures |NormalFields(fields, le)| == |fields|
    ensures forall i | 0 <= i < |fields| ::
      NormalFields(fields, le)[i] == Field(fields[i].key, Normal(fields[i].value, le))
    decreases |fields|
  {
    if fields != [] { NormalFieldsAt(fields[1..], le); }
  }

  lemma {:induction false} ValidItemsAt(items: seq<Json>)
    ensures ValidItems(items) <==> forall i | 0 <= i < |items| :: Valid(items[i])
    decreases |items|
  {
    if items != [] {
      ValidItemsAt(items[1..]);
      assert items == [items[0]] + items[1..];
    }
  }

  lemma {:induction false} ValidFieldsAt(fields: seq<Field<Json>>)
    ensures ValidFields(fields) <==> forall i | 0 <= i < |fields| :: Valid(fields[i].value)
    decreases |fields|
  {
    if fields != [] {
      ValidFieldsAt(fields[1..]);
      assert fields == [fields[0]] + fields[1..];
    }
  }

  lemma {:induction false} NormalKeys(fields: seq<Field<Json>>, le: Order)
    requires DistinctKeys(fields)
    ensures DistinctKeys(NormalFields(fields, le))
  {
    NormalFieldsAt(fields, le);
  }

  lemma SameEntriesCompose<V>(s: seq<Field<V>>, t: seq<Field<V>>, u: seq<Field<V>>)
    requires SameEntries(s, t) && SameEntries(t, u)
    ensures SameEntries(s, u)
  {
  }

  lemma FieldMatches(xs: seq<Field<Json>>, ys: seq<Field<Json>>, nx: seq<Field<Json>>, ny: seq<Field<Json>>)
    requires |nx| == |xs| && |ny| == |ys| && DistinctKeys(ys)
    requires forall i, j | 0 <= i < |xs| && 0 <= j < |ys| ::
      nx[i] == ny[j] <==> xs[i].key == ys[j].key && Same(xs[i].value, ys[j].value)
    ensures Same(Object(xs), Object(ys)) <==> SameEntries(nx, ny)
  {
    if Same(Object(xs), Object(ys)) {
      forall i | 0 <= i < |nx|
        ensures nx[i] in ny
      {
        assert HasField(xs, i, ys);
        var j :| 0 <= j < |ys| && ys[j].key == xs[i].key && Same(xs[i].value, ys[j].value);
        assert nx[i] == ny[j];
      }
      forall j | 0 <= j < |ny|
        ensures ny[j] in nx
      {
        assert HasKey(xs, ys[j].key);
        var i :| 0 <= i < |xs| && xs[i].key == ys[j].key;
        assert HasField(xs, i, ys);
        var j' :| 0 <= j' < |ys| && ys[j'].key == xs[i].key && Same(xs[i].value, ys[j'].value);
        assert j' == j && nx[i] == ny[j];
      }
    }
    if SameEntries(nx, ny) {
      forall i | 0 <= i < |xs|
        ensures HasField(xs, i, ys)
      {
        assert nx[i] in ny;
        var j :| 0 <= j < |ny| && ny[j] == nx[i];
        assert ys[j].key == xs[i].key;
      }
      forall j | 0 <= j < |ys|
        ensures HasKey(xs, ys[j].key)
      {
        assert ny[j] in nx;
        var i :| 0 <= i < |nx| && nx[i] == ny[j];
        assert xs[i].key == ys[j].key;
      }
    }
  }

  /** Two values are the same up to the order of keys exactly when they sort to the same one. */
  lemma {:induction false} SameIsNormal(v: Json, w: Json, le: Order)
    requires TotalOrder(le) && Valid(v) && Valid(w)
    ensures Same(v, w) <==> Normal(v, le) == Normal(w, le)
    decreases v, 2
  {
    match v
    case Array(items) =>
      if w.Array? { SameItems(items, w.items, le); }
    case Object(fields) =>
      if w.Object? { SameObjects(fields, w.fields, le); }
    case _ =>
  }

  lemma {:induction false} SameItems(xs: seq<Json>, ys: seq<Json>, le: Order)
    requires TotalOrder(le) && ValidItems(xs) && ValidItems(ys)
    ensures Same(Array(xs), Array(ys)) <==> NormalItems(xs, le) == NormalItems(ys, le)
    decreases xs
  {
    NormalItemsAt(xs, le);
    NormalItemsAt(ys, le);
    ValidItemsAt(xs);
    ValidItemsAt(ys);
    if |xs| == |ys| {
      forall i | 0 <= i < |xs|
        ensures Same(xs[i], ys[i]) <==> NormalItems(xs, le)[i] == NormalItems(ys, le)[i]
      {
        SameIsNormal(xs[i], ys[i], le);
      }
    }
  }

  lemma {:induction false} SameObjects(xs: seq<Field<Json>>, ys: seq<Field<Json>>, le: Order)
    requires TotalOrder(le) && Valid(Object(xs)) && Valid(Object(ys))
    ensures Same(Object(xs), Object(ys)) <==>
            SortByKey(NormalFields(xs, le), le) == SortByKey(NormalFields(ys, le), le)
    decreases xs, 1
  {
    var nx, ny := NormalFields(xs, le), NormalFields(ys, le);
    NormalKeys(xs, le);
    NormalKeys(ys, le);
    SortSorts(nx, le);
    SortSorts(ny, le);
    SameFields(xs, ys, le);
    var sx, sy := SortByKey(nx, le), SortByKey(ny, le);
    if SameEntries(nx, ny) {
      SameEntriesCompose(sx, nx, ny);
      SameEntriesCompose(sx, ny, sy);
      SortedUnique(sx, sy, le);
    }
    if sx == sy {
      SameEntriesCompose(nx, sx, ny);
    }
  }

  lemma {:induction false} SameFields(xs: seq<Field<Json>>, ys: seq<Field<Json>>, le: Order)
    requires TotalOrder(le) && Valid(Object(xs)) && Valid(Object(ys))
    ensures Same(Object(xs), Object(ys)) <==> SameEntries(NormalFields(xs, le), NormalFields(ys, le))
    decreases xs, 0
  {
    var nx, ny := NormalFields(xs, le), NormalFields(ys, le);
    NormalFieldsAt(xs, le);
    NormalFieldsAt(ys, le);
    ValidFieldsAt(xs);
    ValidFieldsAt(ys);
    forall i, j | 0 <= i < |xs| && 0 <= j < |ys|
      ensures nx[i] == ny[j] <==> xs[i].key == ys[j].key && Same(xs[i].value, ys[j].value)
    {
      SameIsNormal(xs[i].value, ys[j].value, le);
    }
    FieldMatches(xs, ys, nx, ny);
  }

  lemma {:induction false} NormalValid(v: Json, le: Order)
    requires TotalOrder(le) && Valid(v)
    ensures Valid(Normal(v, le))
    decreases v
  {
    match v
    case Array(items) =>
      NormalItemsAt(items, le);
      ValidItemsAt(items);
      ValidItemsAt(NormalItems(items, le));
      forall i | 0 <= i < |items|
        ensures Valid(NormalItems(items, le)[i])
      {
        NormalValid(items[i], le);
      }
    case Object(fields) =>
      var nf := NormalFields(fields, le);
      var sf := SortByKey(nf, le);
      NormalFieldsAt(fields, le);
      NormalKeys(fields, le);
      SortSorts(nf, le);
      ValidFieldsAt(fields);
      ValidFieldsAt(sf);
      forall i | 0 <= i < |sf|
        ensures Valid(sf[i].value)
      {
        assert sf[i] in nf;
        var j :| 0 <= j < |nf| && nf[j] == sf[i];
        NormalValid(fields[j].value, le);
      }
    case _ =>
  }

  /** `canonicalJson` tells two values apart exactly when they differ by more than the order
      of keys. */
  lemma CanonicalIsUnambiguous(v: Json, w: Json, le: Order)
    requires TotalOrder(le) && Valid(v) && Valid(w)
    ensures Canonical(v, le) == Canonical(w, le) <==> Same(v, w)
  {
    var nv, nw := Normal(v, le), Normal(w, le);
    CanonicalIsEmitNormal(v, le);
    CanonicalIsEmitNormal(w, le);
    SameIsNormal(v, w, le);
    if Canonical(v, le) == Canonical(w, le) {
      NormalValid(v, le);
      NormalValid(w, le);
      assert Emit(nv) + "" == Emit(nw) + "";
      EmitUnique(nv, nw, "", "");
    }
  }

  /** A JSON reader gets from the text the value with the fields of every object in key order. */
  lemma CanonicalReads(v: Json, le: Order)
    requires TotalOrder(le) && Valid(v)
    ensures ReadValue(Canonical(v, le)) == Some((Normal(v, le), ""))
  {
    CanonicalIsEmitNormal(v, le);
    NormalValid(v, le);
    hide Emit, Normal, Canonical, ReadValue, Valid, TotalOrder;
    EmitReads(Normal(v, le), "");
    assert Emit(Normal(v, le)) + "" == Emit(Normal(v, le));
  }
}
