/** The binary codec of values, ids and records, and the framing of objects (src/value.rs, src/doc.rs,
    src/store.rs). A decoder returns what it read and the bytes it left. */
module Codec {
  import opened Wrappers
  import opened Values
  import opened Records

  type Bytes = seq<u8>
  type Read<T> = Option<(T, Bytes)>

  /** Text as bytes, and the order in which a sorted map yields its keys. */
  datatype Text = Text(bytes: string -> Bytes, parse: Bytes -> Option<string>, order: set<string> -> seq<string>) {
    ghost predicate Valid() {
      && (forall s :: parse(bytes(s)) == Some(s))
      && (forall b: Bytes :: parse(b).Some? ==> bytes(parse(b).value) == b)
      && (forall keys: set<string> :: Lists(order(keys), keys))
    }
  }

  ghost predicate Lists(xs: seq<string>, keys: set<string>) {
    (forall k :: k in xs <==> k in keys) && |xs| == |keys|
  }

  // ------------------------------------------------------------ numbers

  function Power(n: nat): (r: nat)
    ensures r > 0
  {
    if n == 0 then 1 else 256 * Power(n - 1)
  }

  /** Little-endian, truncated to `n` bytes as the source's casts truncate. */
  function Le(x: nat, n: nat): (b: Bytes)
    ensures |b| == n
  {
    if n == 0 then [] else [x % 256] + Le(x / 256, n - 1)
  }

  function FromLe(b: Bytes): nat {
    if b == [] then 0 else b[0] + 256 * FromLe(b[1..])
  }

  lemma {:induction false} LeRoundTrip(x: nat, n: nat)
    ensures FromLe(Le(x, n)) == x % Power(n)
    decreases n
  {
    if n > 0 {
      LeRoundTrip(x / 256, n - 1);
      assert Le(x, n)[1..] == Le(x / 256, n - 1);
      SplitRemainder(x, Power(n - 1));
    }
  }

  /** The least significant byte comes first. */
  lemma {:induction false} LeBytes(x: nat, n: nat, i: nat)
    requires i < n
    ensures Le(x, n)[i] == x / Power(i) % 256
    decreases n
  {
    if i > 0 {
      LeBytes(x / 256, n - 1, i - 1);
      assert Le(x, n)[i] == Le(x / 256, n - 1)[i - 1];
      QuotientTwice(x, Power(i - 1));
    }
  }

  lemma QuotientTwice(x: nat, m: nat)
    requires m > 0
    ensures x / 256 / m == x / (256 * m)
  {
    var q, r := x / 256, x % 256;
    var s, t := q / m, q % m;
    assert x == 256 * q + r && q == m * s + t;
    assert x == (256 * m) * s + (256 * t + r) by {
      assert 256 * (m * s) == (256 * m) * s;
    }
    QuotientIs(x, 256 * m, s, 256 * t + r);
  }

  lemma QuotientIs(x: nat, m: nat, s: nat, r: nat)
    requires m > 0 && x == m * s + r && r < m
    ensures x / m == s
  {
    var q := x / m;
    assert m * q <= x < m * q + m;
    if s + 1 <= q {
      Ordered(m, s + 1, q);
    }
    if q + 1 <= s {
      Ordered(m, q + 1, s);
    }
  }

  lemma Ordered(m: nat, a: nat, b: nat)
    requires a <= b
    ensures m * a <= m * b
  {
  }

  lemma SplitRemainder(x: nat, m: nat)
    requires m > 0
    ensures x % (256 * m) == x % 256 + 256 * ((x / 256) % m)
  {
    var q, r := x / 256, x % 256;
    var s, t := q / m, q % m;
    assert x == 256 * q + r && q == m * s + t;
    assert x == (256 * m) * s + (256 * t + r) by {
      assert 256 * (m * s) == (256 * m) * s;
    }
    RemainderIs(x, 256 * m, s, 256 * t + r);
  }

  lemma RemainderIs(x: nat, m: nat, s: nat, r: nat)
    requires m > 0 && x == m * s + r && r < m
    ensures x % m == r
  {
    var d := x / m - s;
    assert m * (x / m) + x % m == m * s + r;
    assert m * d == r - x % m;
    Multiple(m, d);
  }

  lemma Multiple(m: nat, d: int)
    requires m > 0
    ensures d >= 1 ==> m * d >= m
    ensures d <= -1 ==> m * d <= 0 - m
  {
  }

  function Take(b: Bytes, n: nat): Read<Bytes> {
    if n <= |b| then Some((b[..n], b[n..])) else None
  }

  function Number(b: Bytes, n: nat): Read<nat> {
    var (x, rest) :- Take(b, n);
    Some((FromLe(x), rest))
  }

  /** Two's complement. */
  function Signed(x: nat): int {
    if x < 0x8000_0000_0000_0000 then x else x - 0x1_0000_0000_0000_0000
  }

  function Unsigned(i: i64): u64 {
    if i >= 0 then i else i + 0x1_0000_0000_0000_0000
  }

  // ------------------------------------------------------------ strings and repetition

  function PutStr(t: Text, s: string): Bytes { Le(|t.bytes(s)|, 4) + t.bytes(s) }

  function GetStr(t: Text, b: Bytes): Read<string> {
    var (n, b1) :- Number(b, 4);
    var (raw, b2) :- Take(b1, n);
    var s :- t.parse(raw);
    Some((s, b2))
  }

  function StrPutter(t: Text): string -> Bytes { s => PutStr(t, s) }

  function StrGetter(t: Text): Bytes -> Read<string> { b => GetStr(t, b) }

  function PutAll<T>(xs: seq<T>, put: T -> Bytes): Bytes {
    if xs == [] then [] else put(xs[0]) + PutAll(xs[1..], put)
  }

  function GetAll<T>(b: Bytes, n: nat, get: Bytes -> Read<T>): Read<seq<T>>
    decreases n
  {
    if n == 0 then Some(([], b))
    else
      var (x, b1) :- get(b);
      var (xs, b2) :- GetAll(b1, n - 1, get);
      Some(([x] + xs, b2))
  }

  // ------------------------------------------------------------ values

  function PutWeight(t: Text, weights: map<string, F32>, k: string): Bytes {
    PutStr(t, k) + Le(if k in weights then weights[k] else 0, 4)
  }

  function GetWeight(t: Text, b: Bytes): Read<(string, nat)> {
    var (k, b1) :- GetStr(t, b);
    var (w, b2) :- Number(b1, 4);
    Some(((k, w), b2))
  }

  function WeightPutter(t: Text, weights: map<string, F32>): string -> Bytes { k => PutWeight(t, weights, k) }

  function WeightGetter(t: Text): Bytes -> Read<(string, nat)> { b => GetWeight(t, b) }

  function PutValue(t: Text, v: Value): Bytes {
    match v
    case Null => [0]
    case Bool(b) => [1, if b then 1 else 0]
    case Uint(u) => [2] + Le(u, 8)
    case Int(i) => [3] + Le(Unsigned(i), 8)
    case F64(f) => [4] + Le(f, 8)
    case String(s) => [5] + PutStr(t, s)
    case Datetime(n) => [6] + Le(Unsigned(n), 8)
    case Uuid(u) => [7] + u
    case StringArray(a) => [8] + Le(|a|, 4) + PutAll(a, StrPutter(t))
    case UintArray(a) => [9] + Le(|a|, 4) + PutAll<u64>(a, x => Le(x, 8))
    case IntArray(a) => [10] + Le(|a|, 4) + PutAll<i64>(a, x => Le(Unsigned(x), 8))
    case Sparse(m) => [11] + Le(|m|, 4) + PutAll(t.order(m.Keys), WeightPutter(t, m))
  }

  function Bounded(x: nat): u64 { x % 0x1_0000_0000_0000_0000 }

  function ToSigned(x: nat): i64 { Signed(Bounded(x)) }

  function GetUint(b: Bytes): Read<u64> {
    var (x, rest) :- Number(b, 8);
    Some((Bounded(x), rest))
  }

  function GetInt(b: Bytes): Read<i64> {
    var (x, rest) :- Number(b, 8);
    Some((ToSigned(x), rest))
  }

  /** Later entries of a repeated key win. */
  function MapOf<V>(entries: seq<(string, V)>): map<string, V>
    decreases |entries|
  {
    if entries == [] then map[]
    else MapOf(entries[..|entries| - 1])[entries[|entries| - 1].0 := entries[|entries| - 1].1]
  }

  function Weights(entries: seq<(string, nat)>): map<string, F32> {
    var m := MapOf(entries);
    map k | k in m :: m[k] % 0x1_0000_0000
  }

  function GetValue(t: Text, b: Bytes): Read<Value> {
    var (tag, b1) :- Take(b, 1);
    if tag[0] == 0 then Some((Null, b1))
    else if tag[0] == 1 then var (x, b2) :- Take(b1, 1); Some((Bool(x[0] != 0), b2))
    else if tag[0] == 2 then var (x, b2) :- GetUint(b1); Some((Uint(x), b2))
    else if tag[0] == 3 then var (x, b2) :- GetInt(b1); Some((Int(x), b2))
    else if tag[0] == 4 then var (x, b2) :- GetUint(b1); Some((F64(x), b2))
    else if tag[0] == 5 then var (s, b2) :- GetStr(t, b1); Some((String(s), b2))
    else if tag[0] == 6 then var (x, b2) :- GetInt(b1); Some((Datetime(x), b2))
    else if tag[0] == 7 then var (u, b2) :- Take(b1, 16); Some((Uuid(u), b2))
    else GetArray(t, tag[0], b1)
  }

  function GetArray(t: Text, tag: u8, b: Bytes): Read<Value> {
    if tag == 8 then
      var (n, b1) :- Number(b, 4); var (a, b2) :- GetAll(b1, n, StrGetter(t)); Some((StringArray(a), b2))
    else if tag == 9 then
      var (n, b1) :- Number(b, 4); var (a, b2) :- GetAll(b1, n, GetUint); Some((UintArray(a), b2))
    else if tag == 10 then
      var (n, b1) :- Number(b, 4); var (a, b2) :- GetAll(b1, n, GetInt); Some((IntArray(a), b2))
    else if tag == 11 then
      var (n, b1) :- Number(b, 4); var (a, b2) :- GetAll(b1, n, WeightGetter(t)); Some((Sparse(Weights(a)), b2))
    else None
  }

  // ------------------------------------------------------------ ids, attributes, records

  function PutId(t: Text, id: Id): Bytes {
    match id
    case UintId(u) => [0] + Le(u, 8)
    case UuidId(u) => [1] + u
    case StringId(s) => [2] + PutStr(t, s)
  }

  function GetId(t: Text, b: Bytes): Read<Id> {
    var (tag, b1) :- Take(b, 1);
    if tag[0] == 0 then var (x, b2) :- GetUint(b1); Some((UintId(x), b2))
    else if tag[0] == 1 then var (u, b2) :- Take(b1, 16); Some((UuidId(u), b2))
    else if tag[0] == 2 then var (s, b2) :- GetStr(t, b1); Some((StringId(s), b2))
    else None
  }

  function PutAttr(t: Text, attrs: Attrs, k: string): Bytes {
    Le(|t.bytes(k)|, 2) + t.bytes(k) + PutValue(t, if k in attrs then attrs[k] else Null)
  }

  function GetAttr(t: Text, b: Bytes): Read<(string, Value)> {
    var (n, b1) :- Number(b, 2);
    var (raw, b2) :- Take(b1, n);
    var k :- t.parse(raw);
    var (v, b3) :- GetValue(t, b2);
    Some(((k, v), b3))
  }

  function AttrPutter(t: Text, attrs: Attrs): string -> Bytes { k => PutAttr(t, attrs, k) }

  function AttrGetter(t: Text): Bytes -> Read<(string, Value)> { b => GetAttr(t, b) }

  function PutAttrs(t: Text, attrs: Attrs): Bytes {
    Le(|attrs|, 2) + PutAll(t.order(attrs.Keys), AttrPutter(t, attrs))
  }

  function GetAttrs(t: Text, b: Bytes): Read<Attrs> {
    var (n, b1) :- Number(b, 2);
    var (entries, b2) :- GetAll(b1, n, AttrGetter(t));
    Some((MapOf(entries), b2))
  }

  function GetFloat(b: Bytes): Read<F32> {
    var (x, rest) :- Number(b, 4);
    Some((x % 0x1_0000_0000, rest))
  }

  function PutRecord(t: Text, r: Record): Bytes {
    match r
    case Upsert(d) => [0] + PutId(t, d.id) + Le(|d.vector|, 4) + PutAll<F32>(d.vector, f => Le(f, 4)) +
        PutAttrs(t, d.attrs)
    case Delete(id) => [1] + PutId(t, id)
    case Patch(id, attrs) => [2] + PutId(t, id) + PutAttrs(t, attrs)
  }

  function GetRecord(t: Text, b: Bytes): Read<Record> {
    var (tag, b1) :- Take(b, 1);
    if tag[0] == 0 then
      var (id, b2) :- GetId(t, b1);
      var (n, b3) :- Number(b2, 4);
      var (vector, b4) :- GetAll(b3, n, GetFloat);
      var (attrs, b5) :- GetAttrs(t, b4);
      Some((Upsert(Doc(id, vector, attrs)), b5))
    else if tag[0] == 1 then var (id, b2) :- GetId(t, b1); Some((Delete(id), b2))
    else if tag[0] == 2 then
      var (id, b2) :- GetId(t, b1);
      var (attrs, b3) :- GetAttrs(t, b2);
      Some((Patch(id, attrs), b3))
    else None
  }

  // ------------------------------------------------------------ what fits its length fields

  predicate FitsText(t: Text, s: string) { |t.bytes(s)| < 0x1_0000_0000 }

  predicate FitsValue(t: Text, v: Value) {
    match v
    case String(s) => FitsText(t, s)
    case StringArray(a) => |a| < 0x1_0000_0000 && forall s | s in a :: FitsText(t, s)
    case UintArray(a) => |a| < 0x1_0000_0000
    case IntArray(a) => |a| < 0x1_0000_0000
    case Sparse(m) => |m| < 0x1_0000_0000 && forall k | k in m :: FitsText(t, k)
    case _ => true
  }

  predicate FitsId(t: Text, id: Id) { id.StringId? ==> FitsText(t, id.s) }

  predicate FitsAttrs(t: Text, attrs: Attrs) {
    |attrs| < 0x1_0000 && forall k | k in attrs :: |t.bytes(k)| < 0x1_0000 && FitsValue(t, attrs[k])
  }

  predicate FitsRecord(t: Text, r: Record) {
    match r
    case Upsert(d) => FitsId(t, d.id) && |d.vector| < 0x1_0000_0000 && FitsAttrs(t, d.attrs)
    case Delete(id) => FitsId(t, id)
    case Patch(id, attrs) => FitsId(t, id) && FitsAttrs(t, attrs)
  }

  // ------------------------------------------------------------ decoding inverts encoding

  /** `get` reads `x` off `bytes`, whatever follows, and leaves exactly what follows. */
  ghost predicate Reads<T(!new)>(get: Bytes -> Read<T>, bytes: Bytes, x: T) {
    forall rest: Bytes :: get(bytes + rest) == Some((x, rest))
  }

  lemma TakeReads(bytes: Bytes, rest: Bytes)
    ensures Take(bytes + rest, |bytes|) == Some((bytes, rest))
  {
    assert (bytes + rest)[..|bytes|] == bytes && (bytes + rest)[|bytes|..] == rest;
  }

  lemma PowersAre()
    ensures Power(2) == 0x1_0000 && Power(4) == 0x1_0000_0000 && Power(8) == 0x1_0000_0000_0000_0000
  {
    assert Power(0) == 1 && Power(1) == 256 && Power(2) == 65536 && Power(3) == 16777216 && Power(4) == 4294967296;
    assert Power(5) == 1099511627776 && Power(6) == 281474976710656 && Power(7) == 72057594037927936;
  }

  lemma NumberReads(x: nat, n: nat, rest: Bytes)
    requires x < Power(n)
    ensures Number(Le(x, n) + rest, n) == Some((x, rest))
  {
    TakeReads(Le(x, n), rest);
    LeRoundTrip(x, n);
    Below(x, Power(n));
  }

  lemma Below(x: nat, m: nat)
    requires x < m
    ensures x % m == x
  {
  }

  lemma StrReads(t: Text, s: string, rest: Bytes)
    requires t.Valid() && FitsText(t, s)
    ensures GetStr(t, PutStr(t, s) + rest) == Some((s, rest))
  {
    PowersAre();
    assert PutStr(t, s) + rest == Le(|t.bytes(s)|, 4) + (t.bytes(s) + rest);
    NumberReads(|t.bytes(s)|, 4, t.bytes(s) + rest);
    TakeReads(t.bytes(s), rest);
  }

  lemma {:induction false} AllRead<T(!new)>(xs: seq<T>, put: T -> Bytes, get: Bytes -> Read<T>, rest: Bytes)
    requires forall x | x in xs :: Reads(get, put(x), x)
    ensures GetAll(PutAll(xs, put) + rest, |xs|, get) == Some((xs, rest))
    decreases |xs|
  {
    if xs == [] {
      assert PutAll(xs, put) + rest == rest;
    } else {
      assert xs[0] in xs && forall x | x in xs[1..] :: x in xs;
      var more := PutAll(xs[1..], put) + rest;
      assert PutAll(xs, put) + rest == put(xs[0]) + more;
      assert get(put(xs[0]) + more) == Some((xs[0], more));
      AllRead(xs[1..], put, get, rest);
      assert [xs[0]] + xs[1..] == xs;
    }
  }

  lemma UintReads(x: u64, rest: Bytes)
    ensures GetUint(Le(x, 8) + rest) == Some((x, rest))
  {
    PowersAre();
    hide Power, Le, Number;
    NumberReads(x, 8, rest);
    Below(x, 0x1_0000_0000_0000_0000);
  }

  lemma IntReads(i: i64, rest: Bytes)
    ensures GetInt(Le(Unsigned(i), 8) + rest) == Some((i, rest))
  {
    PowersAre();
    hide Power, Le, Number;
    NumberReads(Unsigned(i), 8, rest);
    Below(Unsigned(i), 0x1_0000_0000_0000_0000);
  }

  lemma FloatReads(f: F32, rest: Bytes)
    ensures GetFloat(Le(f, 4) + rest) == Some((f, rest))
  {
    PowersAre();
    hide Power, Le, Number;
    NumberReads(f, 4, rest);
    Below(f, 0x1_0000_0000);
  }

  lemma WeightReads(t: Text, weights: map<string, F32>, k: string, rest: Bytes)
    requires t.Valid() && FitsText(t, k) && k in weights
    ensures GetWeight(t, PutWeight(t, weights, k) + rest) == Some(((k, weights[k]), rest))
  {
    PowersAre();
    assert PutWeight(t, weights, k) + rest == PutStr(t, k) + (Le(weights[k], 4) + rest);
    StrReads(t, k, Le(weights[k], 4) + rest);
    NumberReads(weights[k], 4, rest);
  }

  /** The entries of a map in a given order. */
  function Entries<V>(m: map<string, V>, keys: seq<string>): (r: seq<(string, V)>)
    requires forall k | k in keys :: k in m
    ensures |r| == |keys| && forall i | 0 <= i < |r| :: r[i] == (keys[i], m[keys[i]])
  {
    seq(|keys|, i requires 0 <= i < |keys| => (keys[i], m[keys[i]]))
  }

  lemma {:induction false} MapRestored<V(!new)>(m: map<string, V>, keys: seq<string>)
    requires forall k | k in keys :: k in m
    ensures MapOf(Entries(m, keys)) == map k | k in m && k in keys :: m[k]
    decreases |keys|
  {
    if keys != [] {
      var front := keys[..|keys| - 1];
      MapRestored(m, front);
      assert Entries(m, keys)[..|keys| - 1] == Entries(m, front);
      assert keys == front + [keys[|keys| - 1]];
    }
  }

  lemma {:induction false} EntriesRead<V(!new)>(m: map<string, V>, keys: seq<string>, put: string -> Bytes,
      get: Bytes -> Read<(string, V)>, rest: Bytes)
    requires forall k | k in keys :: k in m && Reads(get, put(k), (k, m[k]))
    ensures GetAll(PutAll(keys, put) + rest, |keys|, get) == Some((Entries(m, keys), rest))
    decreases |keys|
  {
    if keys == [] {
      assert PutAll(keys, put) + rest == rest;
    } else {
      assert keys[0] in keys && forall k | k in keys[1..] :: k in keys;
      assert PutAll(keys, put) + rest == put(keys[0]) + (PutAll(keys[1..], put) + rest);
      EntriesRead(m, keys[1..], put, get, rest);
      assert [(keys[0], m[keys[0]])] + Entries(m, keys[1..]) == Entries(m, keys);
    }
  }

  /** The tag, the count and the body of an array. */
  lemma ArrayHeader(tag: u8, n: nat, body: Bytes, rest: Bytes)
    requires n < 0x1_0000_0000
    ensures [tag] + Le(n, 4) + body + rest == [tag] + (Le(n, 4) + (body + rest))
    ensures Take([tag] + (Le(n, 4) + (body + rest)), 1) == Some(([tag], Le(n, 4) + (body + rest)))
    ensures Number(Le(n, 4) + (body + rest), 4) == Some((n, body + rest))
  {
    hide Le, Number, Power;
    PowersAre();
    TakeReads([tag], Le(n, 4) + (body + rest));
    NumberReads(n, 4, body + rest);
  }

  lemma StringsRead(t: Text, a: seq<string>, rest: Bytes)
    requires t.Valid() && FitsValue(t, StringArray(a))
    ensures GetValue(t, PutValue(t, StringArray(a)) + rest) == Some((StringArray(a), rest))
  {
    hide Le, Number, PutStr, GetStr, PutAll, GetAll, Take;
    var put, get := StrPutter(t), StrGetter(t);
    ArrayHeader(8, |a|, PutAll(a, put), rest);
    forall s, more: Bytes | s in a ensures get(put(s) + more) == Some((s, more)) {
      StrReads(t, s, more);
    }
    AllRead(a, put, get, rest);
  }

  lemma UintsRead(t: Text, a: seq<u64>, rest: Bytes)
    requires |a| < 0x1_0000_0000
    ensures GetValue(t, PutValue(t, UintArray(a)) + rest) == Some((UintArray(a), rest))
  {
    hide Le, Number, GetUint, PutAll, GetAll, Take;
    var put := (x: u64) => Le(x, 8);
    ArrayHeader(9, |a|, PutAll<u64>(a, put), rest);
    forall x: u64, more: Bytes ensures GetUint(put(x) + more) == Some((x, more)) {
      UintReads(x, more);
    }
    AllRead<u64>(a, put, GetUint, rest);
  }

  lemma IntsRead(t: Text, a: seq<i64>, rest: Bytes)
    requires |a| < 0x1_0000_0000
    ensures GetValue(t, PutValue(t, IntArray(a)) + rest) == Some((IntArray(a), rest))
  {
    hide Le, Number, GetInt, PutAll, GetAll, Take, Unsigned;
    var put := (x: i64) => Le(Unsigned(x), 8);
    ArrayHeader(10, |a|, PutAll<i64>(a, put), rest);
    forall x: i64, more: Bytes ensures GetInt(put(x) + more) == Some((x, more)) {
      IntReads(x, more);
    }
    AllRead<i64>(a, put, GetInt, rest);
  }

  lemma WeightsRestored(m: map<string, F32>, keys: seq<string>)
    requires forall k :: k in keys <==> k in m
    ensures Weights(MapEntries(m, keys)) == m
  {
    MapRestored<nat>(m, keys);
    assert MapEntries(m, keys) == Entries<nat>(m, keys);
    forall k | k in m ensures m[k] % 0x1_0000_0000 == m[k] {
      Below(m[k], 0x1_0000_0000);
    }
  }

  function MapEntries(m: map<string, F32>, keys: seq<string>): seq<(string, nat)>
    requires forall k | k in keys :: k in m
  {
    seq(|keys|, i requires 0 <= i < |keys| => (keys[i], m[keys[i]]))
  }

  lemma SparseReads(t: Text, m: map<string, F32>, rest: Bytes)
    requires t.Valid() && FitsValue(t, Sparse(m))
    ensures GetValue(t, PutValue(t, Sparse(m)) + rest) == Some((Sparse(m), rest))
  {
    hide Le, Number, PutWeight, GetWeight, PutAll, GetAll, Take;
    var keys := t.order(m.Keys);
    var put, get := WeightPutter(t, m), WeightGetter(t);
    assert Lists(keys, m.Keys);
    ArrayHeader(11, |m|, PutAll(keys, put), rest);
    forall k, more: Bytes | k in keys ensures get(put(k) + more) == Some(((k, m[k]), more)) {
      WeightReads(t, m, k, more);
    }
    EntriesRead<nat>(m, keys, put, get, rest);
    assert MapEntries(m, keys) == Entries<nat>(m, keys);
    WeightsRestored(m, keys);
  }

  lemma ScalarReads(t: Text, v: Value, rest: Bytes)
    requires t.Valid() && FitsValue(t, v) && !v.StringArray? && !v.UintArray? && !v.IntArray? && !v.Sparse?
    ensures GetValue(t, PutValue(t, v) + rest) == Some((v, rest))
  {
    hide Le, Number, GetUint, GetInt, GetStr, PutStr, Unsigned;
    var tag, body := PutValue(t, v)[..1], PutValue(t, v)[1..];
    assert PutValue(t, v) + rest == tag + (body + rest);
    TakeReads(tag, body + rest);
    match v
    case Null => assert body + rest == rest;
    case Bool(_) => TakeReads(body, rest);
    case Uint(u) => UintReads(u, rest);
    case Int(i) => IntReads(i, rest);
    case F64(f) => UintReads(f, rest);
    case String(s) => StrReads(t, s, rest);
    case Datetime(n) => IntReads(n, rest);
    case Uuid(u) => TakeReads(u, rest);
  }

  /** Every value whose counts and lengths fit is read back, and nothing more is consumed. */
  lemma ValueReads(t: Text, v: Value, rest: Bytes)
    requires t.Valid() && FitsValue(t, v)
    ensures GetValue(t, PutValue(t, v) + rest) == Some((v, rest))
  {
    match v
    case StringArray(a) => StringsRead(t, a, rest);
    case UintArray(a) => UintsRead(t, a, rest);
    case IntArray(a) => IntsRead(t, a, rest);
    case Sparse(m) => SparseReads(t, m, rest);
    case _ => ScalarReads(t, v, rest);
  }

  lemma IdReads(t: Text, id: Id, rest: Bytes)
    requires t.Valid() && FitsId(t, id)
    ensures GetId(t, PutId(t, id) + rest) == Some((id, rest))
  {
    hide Le, Number, GetUint, GetStr, PutStr;
    var tag, body := PutId(t, id)[..1], PutId(t, id)[1..];
    assert PutId(t, id) + rest == tag + (body + rest);
    TakeReads(tag, body + rest);
    match id
    case UintId(u) => UintReads(u, rest);
    case UuidId(u) => TakeReads(u, rest);
    case StringId(s) => StrReads(t, s, rest);
  }

  lemma AttrReads(t: Text, attrs: Attrs, k: string, rest: Bytes)
    requires t.Valid() && FitsAttrs(t, attrs) && k in attrs
    ensures GetAttr(t, PutAttr(t, attrs, k) + rest) == Some(((k, attrs[k]), rest))
  {
    hide Le, Number, GetValue, PutValue, Take, FitsValue;
    PowersAre();
    hide Power;
    var raw, value := t.bytes(k), PutValue(t, attrs[k]);
    assert PutAttr(t, attrs, k) + rest == Le(|raw|, 2) + (raw + (value + rest));
    NumberReads(|raw|, 2, raw + (value + rest));
    TakeReads(raw, value + rest);
    ValueReads(t, attrs[k], rest);
  }

  lemma AttrsRead(t: Text, attrs: Attrs, rest: Bytes)
    requires t.Valid() && FitsAttrs(t, attrs)
    ensures GetAttrs(t, PutAttrs(t, attrs) + rest) == Some((attrs, rest))
  {
    hide Le, Number, GetAttr, PutAttr, PutAll, GetAll;
    PowersAre();
    hide Power;
    var keys := t.order(attrs.Keys);
    var put, get := AttrPutter(t, attrs), AttrGetter(t);
    assert Lists(keys, attrs.Keys);
    assert PutAttrs(t, attrs) + rest == Le(|attrs|, 2) + (PutAll(keys, put) + rest);
    NumberReads(|attrs|, 2, PutAll(keys, put) + rest);
    forall k, more: Bytes | k in keys ensures get(put(k) + more) == Some(((k, attrs[k]), more)) {
      AttrReads(t, attrs, k, more);
    }
    EntriesRead(attrs, keys, put, get, rest);
    MapRestored(attrs, keys);
    assert (map k | k in attrs && k in keys :: attrs[k]) == attrs;
  }

  lemma UpsertReads(t: Text, d: Doc, rest: Bytes)
    requires t.Valid() && FitsRecord(t, Upsert(d))
    ensures GetRecord(t, PutRecord(t, Upsert(d)) + rest) == Some((Upsert(d), rest))
  {
    hide Le, Number, GetId, PutId, GetAttrs, PutAttrs, PutAll, GetAll, GetFloat, FitsId, FitsAttrs;
    PowersAre();
    hide Power;
    var put := (f: F32) => Le(f, 4);
    var id, n, vector, attrs := PutId(t, d.id), Le(|d.vector|, 4), PutAll<F32>(d.vector, put), PutAttrs(t, d.attrs);
    assert PutRecord(t, Upsert(d)) == [0] + id + n + vector + attrs;
    assert PutRecord(t, Upsert(d)) + rest == [0] + (id + (n + (vector + (attrs + rest))));
    TakeReads([0], id + (n + (vector + (attrs + rest))));
    IdReads(t, d.id, n + (vector + (attrs + rest)));
    NumberReads(|d.vector|, 4, vector + (attrs + rest));
    forall f: F32, more: Bytes ensures GetFloat(put(f) + more) == Some((f, more)) {
      FloatReads(f, more);
    }
    AllRead<F32>(d.vector, put, GetFloat, attrs + rest);
    AttrsRead(t, d.attrs, rest);
  }

  /** Decoding a record inverts encoding it and consumes exactly its bytes, whatever follows. */
  lemma RecordReads(t: Text, r: Record, rest: Bytes)
    requires t.Valid() && FitsRecord(t, r)
    ensures GetRecord(t, PutRecord(t, r) + rest) == Some((r, rest))
  {
    hide GetId, PutId, GetAttrs, PutAttrs, FitsId, FitsAttrs;
    match r
    case Upsert(d) => UpsertReads(t, d, rest);
    case Delete(id) =>
      assert PutRecord(t, r) + rest == [1] + (PutId(t, id) + rest);
      TakeReads([1], PutId(t, id) + rest);
      IdReads(t, id, rest);
    case Patch(id, attrs) =>
      assert PutRecord(t, r) + rest == [2] + (PutId(t, id) + (PutAttrs(t, attrs) + rest));
      TakeReads([2], PutId(t, id) + (PutAttrs(t, attrs) + rest));
      IdReads(t, id, PutAttrs(t, attrs) + rest);
      AttrsRead(t, attrs, rest);
  }

  // ------------------------------------------------------------ a prefix is never a record

  /** A decoder that got its fill gets the same from a longer input, and leaves the extra bytes. */
  ghost predicate Extends<T(!new)>(get: Bytes -> Read<T>, b: Bytes, more: Bytes) {
    get(b).Some? ==> get(b + more) == Some((get(b).value.0, get(b).value.1 + more))
  }

  lemma TakeExtends(b: Bytes, n: nat, more: Bytes)
    ensures Take(b, n).Some? ==> Take(b + more, n) == Some((Take(b, n).value.0, Take(b, n).value.1 + more))
  {
    if n <= |b| {
      assert (b + more)[..n] == b[..n] && (b + more)[n..] == b[n..] + more;
    }
  }

  lemma NumberExtends(b: Bytes, n: nat, more: Bytes)
    ensures Number(b, n).Some? ==> Number(b + more, n) == Some((Number(b, n).value.0, Number(b, n).value.1 + more))
  {
    TakeExtends(b, n, more);
  }

  lemma StrExtends(t: Text, b: Bytes, more: Bytes)
    ensures GetStr(t, b).Some? ==> GetStr(t, b + more) == Some((GetStr(t, b).value.0, GetStr(t, b).value.1 + more))
  {
    NumberExtends(b, 4, more);
    if Number(b, 4).Some? {
      TakeExtends(Number(b, 4).value.1, Number(b, 4).value.0, more);
    }
  }

  lemma {:induction false} AllExtend<T(!new)>(b: Bytes, n: nat, get: Bytes -> Read<T>, more: Bytes)
    requires forall b: Bytes :: Extends(get, b, more)
    ensures GetAll(b, n, get).Some? ==>
      GetAll(b + more, n, get) == Some((GetAll(b, n, get).value.0, GetAll(b, n, get).value.1 + more))
    decreases n
  {
    if n > 0 && get(b).Some? {
      assert Extends(get, b, more);
      AllExtend(get(b).value.1, n - 1, get, more);
    }
  }

  lemma WeightExtends(t: Text, b: Bytes, more: Bytes)
    ensures GetWeight(t, b).Some? ==>
      GetWeight(t, b + more) == Some((GetWeight(t, b).value.0, GetWeight(t, b).value.1 + more))
  {
    StrExtends(t, b, more);
    if GetStr(t, b).Some? {
      NumberExtends(GetStr(t, b).value.1, 4, more);
    }
  }

  lemma ElementsExtend(t: Text, more: Bytes)
    ensures forall b: Bytes :: Extends(StrGetter(t), b, more) && Extends(GetUint, b, more) && Extends(GetInt, b, more)
    ensures forall b: Bytes :: Extends(WeightGetter(t), b, more) && Extends(GetFloat, b, more)
  {
    forall b: Bytes ensures Extends(StrGetter(t), b, more) && Extends(GetUint, b, more) && Extends(GetInt, b, more) {
      StrExtends(t, b, more);
      NumberExtends(b, 8, more);
    }
    forall b: Bytes ensures Extends(WeightGetter(t), b, more) && Extends(GetFloat, b, more) {
      WeightExtends(t, b, more);
      NumberExtends(b, 4, more);
    }
  }

  lemma ArrayExtends(t: Text, tag: u8, b: Bytes, more: Bytes)
    ensures GetArray(t, tag, b).Some? ==>
      GetArray(t, tag, b + more) == Some((GetArray(t, tag, b).value.0, GetArray(t, tag, b).value.1 + more))
  {
    hide GetAll, Number, GetStr, GetUint, GetInt, GetWeight, GetFloat, Extends;
    NumberExtends(b, 4, more);
    ElementsExtend(t, more);
    if Number(b, 4).Some? {
      var (n, b1) := Number(b, 4).value;
      AllExtend(b1, n, StrGetter(t), more);
      AllExtend(b1, n, GetUint, more);
      AllExtend(b1, n, GetInt, more);
      AllExtend(b1, n, WeightGetter(t), more);
    }
  }

  lemma ValueExtends(t: Text, b: Bytes, more: Bytes)
    ensures GetValue(t, b).Some? ==>
      GetValue(t, b + more) == Some((GetValue(t, b).value.0, GetValue(t, b).value.1 + more))
  {
    hide GetArray, Number, GetStr, FromLe;
    TakeExtends(b, 1, more);
    if Take(b, 1).Some? {
      var (tag, b1) := Take(b, 1).value;
      TakeExtends(b1, 1, more);
      TakeExtends(b1, 16, more);
      NumberExtends(b1, 8, more);
      StrExtends(t, b1, more);
      ArrayExtends(t, tag[0], b1, more);
    }
  }

  lemma IdExtends(t: Text, b: Bytes, more: Bytes)
    ensures GetId(t, b).Some? ==> GetId(t, b + more) == Some((GetId(t, b).value.0, GetId(t, b).value.1 + more))
  {
    hide Number, GetStr, FromLe;
    TakeExtends(b, 1, more);
    if Take(b, 1).Some? {
      var b1 := Take(b, 1).value.1;
      TakeExtends(b1, 16, more);
      NumberExtends(b1, 8, more);
      StrExtends(t, b1, more);
    }
  }

  lemma AttrExtends(t: Text, b: Bytes, more: Bytes)
    ensures GetAttr(t, b).Some? ==> GetAttr(t, b + more) == Some((GetAttr(t, b).value.0, GetAttr(t, b).value.1 + more))
  {
    hide Number, GetValue, Take;
    NumberExtends(b, 2, more);
    if Number(b, 2).Some? {
      var (n, b1) := Number(b, 2).value;
      TakeExtends(b1, n, more);
      if Take(b1, n).Some? {
        ValueExtends(t, Take(b1, n).value.1, more);
      }
    }
  }

  lemma AttrsExtend(t: Text, b: Bytes, more: Bytes)
    ensures GetAttrs(t, b).Some? ==>
      GetAttrs(t, b + more) == Some((GetAttrs(t, b).value.0, GetAttrs(t, b).value.1 + more))
  {
    hide Number, GetAttr, GetAll, MapOf;
    NumberExtends(b, 2, more);
    forall b: Bytes ensures Extends(AttrGetter(t), b, more) {
      AttrExtends(t, b, more);
    }
    if Number(b, 2).Some? {
      AllExtend(Number(b, 2).value.1, Number(b, 2).value.0, AttrGetter(t), more);
    }
  }

  lemma UpsertExtends(t: Text, b: Bytes, more: Bytes)
    requires Take(b, 1).Some? && Take(b, 1).value.0[0] == 0
    ensures GetRecord(t, b).Some? ==>
      GetRecord(t, b + more) == Some((GetRecord(t, b).value.0, GetRecord(t, b).value.1 + more))
  {
    hide GetId, GetAttrs, GetAll, Number, GetFloat, Extends;
    TakeExtends(b, 1, more);
    var b1 := Take(b, 1).value.1;
    IdExtends(t, b1, more);
    if GetId(t, b1).Some? {
      var b2 := GetId(t, b1).value.1;
      NumberExtends(b2, 4, more);
      if Number(b2, 4).Some? {
        var (n, b3) := Number(b2, 4).value;
        ElementsExtend(t, more);
        AllExtend(b3, n, GetFloat, more);
        if GetAll(b3, n, GetFloat).Some? {
          AttrsExtend(t, GetAll(b3, n, GetFloat).value.1, more);
        }
      }
    }
  }

  lemma RecordExtends(t: Text, b: Bytes, more: Bytes)
    ensures GetRecord(t, b).Some? ==>
      GetRecord(t, b + more) == Some((GetRecord(t, b).value.0, GetRecord(t, b).value.1 + more))
  {
    hide GetId, GetAttrs, GetAll, Number;
    TakeExtends(b, 1, more);
    if Take(b, 1).Some? {
      if Take(b, 1).value.0[0] == 0 {
        UpsertExtends(t, b, more);
      } else {
        var b1 := Take(b, 1).value.1;
        IdExtends(t, b1, more);
        if GetId(t, b1).Some? {
          AttrsExtend(t, GetId(t, b1).value.1, more);
        }
      }
    }
  }

  /** Every strict prefix of an encoded record is rejected. */
  lemma PrefixIsRejected(t: Text, r: Record, n: nat)
    requires t.Valid() && FitsRecord(t, r) && n < |PutRecord(t, r)|
    ensures GetRecord(t, PutRecord(t, r)[..n]) == None
  {
    hide PutRecord, GetRecord, FitsRecord;
    var whole := PutRecord(t, r);
    assert whole == whole[..n] + whole[n..] && whole + [] == whole;
    RecordReads(t, r, []);
    RecordExtends(t, whole[..n], whole[n..]);
  }

  // ------------------------------------------------------------ what is decoded fits

  lemma {:induction false} FromLeBelow(b: Bytes)
    ensures FromLe(b) < Power(|b|)
    decreases |b|
  {
    if b != [] {
      FromLeBelow(b[1..]);
    }
  }

  lemma NumberFits(b: Bytes, n: nat)
    ensures Number(b, n).Some? ==> Number(b, n).value.0 < Power(n)
  {
    if n <= |b| {
      FromLeBelow(b[..n]);
    }
  }

  lemma StrFits(t: Text, b: Bytes)
    requires t.Valid()
    ensures GetStr(t, b).Some? ==> FitsText(t, GetStr(t, b).value.0)
  {
    hide Power, FromLe;
    PowersAre();
    NumberFits(b, 4);
  }

  /** `get` yields nothing but what `fits`. */
  ghost predicate Yields<T(!new)>(get: Bytes -> Read<T>, fits: T -> bool) {
    forall b: Bytes :: get(b).Some? ==> fits(get(b).value.0)
  }

  lemma {:induction false} AllFit<T(!new)>(b: Bytes, n: nat, get: Bytes -> Read<T>, fits: T -> bool)
    requires Yields(get, fits)
    ensures GetAll(b, n, get).Some? ==>
      |GetAll(b, n, get).value.0| == n && forall x | x in GetAll(b, n, get).value.0 :: fits(x)
    decreases n
  {
    if n > 0 && get(b).Some? {
      AllFit(get(b).value.1, n - 1, get, fits);
    }
  }

  lemma {:induction false} MapIsSmaller<V(!new)>(entries: seq<(string, V)>)
    ensures |MapOf(entries)| <= |entries|
    ensures forall k | k in MapOf(entries) :: (k, MapOf(entries)[k]) in entries
    decreases |entries|
  {
    if entries != [] {
      var front, last := entries[..|entries| - 1], entries[|entries| - 1];
      MapIsSmaller(front);
      assert entries == front + [last];
      assert MapOf(entries).Keys == MapOf(front).Keys + {last.0};
      assert |MapOf(entries)| == |MapOf(entries).Keys| && |MapOf(front)| == |MapOf(front).Keys|;
    }
  }

  lemma WeightsFit(t: Text, entries: seq<(string, nat)>)
    requires |entries| < 0x1_0000_0000 && forall e | e in entries :: FitsText(t, e.0)
    ensures FitsValue(t, Sparse(Weights(entries)))
  {
    MapIsSmaller(entries);
    var m := MapOf(entries);
    assert Weights(entries).Keys == m.Keys;
    assert |Weights(entries)| == |Weights(entries).Keys| && |m| == |m.Keys|;
  }

  lemma ArrayFits(t: Text, tag: u8, b: Bytes)
    requires t.Valid()
    ensures GetArray(t, tag, b).Some? ==> FitsValue(t, GetArray(t, tag, b).value.0)
  {
    hide GetAll, Number, GetStr, GetUint, GetInt, Power, Weights, FitsText;
    PowersAre();
    NumberFits(b, 4);
    if Number(b, 4).Some? {
      var (n, b1) := Number(b, 4).value;
      forall b: Bytes ensures GetStr(t, b).Some? ==> FitsText(t, GetStr(t, b).value.0) {
        StrFits(t, b);
      }
      AllFit(b1, n, StrGetter(t), s => FitsText(t, s));
      AllFit(b1, n, GetUint, _ => true);
      AllFit(b1, n, GetInt, _ => true);
      AllFit(b1, n, WeightGetter(t), (e: (string, nat)) => FitsText(t, e.0));
      var weights := GetAll(b1, n, WeightGetter(t));
      if weights.Some? {
        WeightsFit(t, weights.value.0);
      }
    }
  }

  lemma ValueFits(t: Text, b: Bytes)
    requires t.Valid()
    ensures GetValue(t, b).Some? ==> FitsValue(t, GetValue(t, b).value.0)
  {
    hide GetArray, Number, GetStr, FromLe, FitsText;
    if Take(b, 1).Some? {
      var (tag, b1) := Take(b, 1).value;
      StrFits(t, b1);
      ArrayFits(t, tag[0], b1);
    }
  }

  lemma IdFits(t: Text, b: Bytes)
    requires t.Valid()
    ensures GetId(t, b).Some? ==> FitsId(t, GetId(t, b).value.0)
  {
    hide Number, GetStr, FromLe, FitsText;
    if Take(b, 1).Some? {
      StrFits(t, Take(b, 1).value.1);
    }
  }

  predicate FitsAttr(t: Text, e: (string, Value)) { |t.bytes(e.0)| < 0x1_0000 && FitsValue(t, e.1) }

  lemma AttrFits(t: Text, b: Bytes)
    requires t.Valid()
    ensures GetAttr(t, b).Some? ==> FitsAttr(t, GetAttr(t, b).value.0)
  {
    hide Number, GetValue, FitsValue, Power;
    PowersAre();
    NumberFits(b, 2);
    if Number(b, 2).Some? {
      var (n, b1) := Number(b, 2).value;
      if Take(b1, n).Some? {
        ValueFits(t, Take(b1, n).value.1);
      }
    }
  }

  lemma AttrsFit(t: Text, b: Bytes)
    requires t.Valid()
    ensures GetAttrs(t, b).Some? ==> FitsAttrs(t, GetAttrs(t, b).value.0)
  {
    hide Number, GetAttr, GetAll, MapOf, FitsValue, Power;
    PowersAre();
    NumberFits(b, 2);
    if Number(b, 2).Some? {
      var (n, b1) := Number(b, 2).value;
      forall b: Bytes ensures GetAttr(t, b).Some? ==> FitsAttr(t, GetAttr(t, b).value.0) {
        AttrFits(t, b);
      }
      AllFit(b1, n, AttrGetter(t), (e: (string, Value)) => FitsAttr(t, e));
      var entries := GetAll(b1, n, AttrGetter(t));
      if entries.Some? {
        MapIsSmaller(entries.value.0);
        var m := MapOf(entries.value.0);
        forall k | k in m ensures |t.bytes(k)| < 0x1_0000 && FitsValue(t, m[k]) {
          assert FitsAttr(t, (k, m[k]));
        }
      }
    }
  }

  /** Whatever is decoded as a record fits the length fields it was read from. */
  lemma RecordFits(t: Text, b: Bytes)
    requires t.Valid()
    ensures GetRecord(t, b).Some? ==> FitsRecord(t, GetRecord(t, b).value.0)
  {
    hide GetId, GetAttrs, GetAll, Number, GetFloat, FitsId, FitsAttrs, Power;
    PowersAre();
    if Take(b, 1).Some? {
      var b1 := Take(b, 1).value.1;
      IdFits(t, b1);
      if GetId(t, b1).Some? {
        var b2 := GetId(t, b1).value.1;
        AttrsFit(t, b2);
        NumberFits(b2, 4);
        if Number(b2, 4).Some? {
          var (n, b3) := Number(b2, 4).value;
          AllFit(b3, n, GetFloat, _ => true);
          if GetAll(b3, n, GetFloat).Some? {
            AttrsFit(t, GetAll(b3, n, GetFloat).value.1);
          }
        }
      }
    }
  }

  /** A record is read back exactly when its counts and lengths fit the fields they are written to. */
  lemma RecordIsExact(t: Text, r: Record, rest: Bytes)
    requires t.Valid()
    ensures GetRecord(t, PutRecord(t, r) + rest) == Some((r, rest)) <==> FitsRecord(t, r)
  {
    hide GetRecord, PutRecord, FitsRecord;
    RecordFits(t, PutRecord(t, r) + rest);
    if FitsRecord(t, r) {
      RecordReads(t, r, rest);
    }
  }

  // ------------------------------------------------------------ the bytes themselves

  /** A signed number is stored as the unsigned one that is equal to it modulo 2^64. */
  lemma TwosComplement(i: i64)
    ensures Unsigned(i) as int == (i as int) % 0x1_0000_0000_0000_0000
    ensures Signed(Unsigned(i)) == i
  {
  }

  /** The first byte of a value tells its kind, and nothing else. */
  lemma TagsTellKinds(t: Text, v: Value, w: Value)
    ensures PutValue(t, v) != [] && PutValue(t, w) != []
    ensures PutValue(t, v)[0] == PutValue(t, w)[0] <==> TypeOf(v) == TypeOf(w)
  {
    hide Le, PutAll, PutStr;
  }

  lemma RecordKinds(t: Text, r: Record)
    ensures PutRecord(t, r) != [] && PutRecord(t, r)[0] == if r.Upsert? then 0 else if r.Delete? then 1 else 2
  {
    hide Le, PutAll, PutId, PutAttrs;
  }

  function Zeros(n: nat): (r: Bytes)
    ensures |r| == n && forall i | 0 <= i < n :: r[i] == 0
  {
    seq(n, _ => 0)
  }

  lemma {:induction false} LeSmall(x: nat, n: nat)
    requires x < 256 && n > 0
    ensures Le(x, n) == [x] + Zeros(n - 1)
    decreases n
  {
    if n > 1 {
      LeSmall(0, n - 1);
      assert Zeros(n - 1) == [0] + Zeros(n - 2);
    } else {
      assert Le(x / 256, 0) == [] == Zeros(0);
    }
  }

  /** Some of the bytes that files hold: the kinds of values, in the order the format numbers them, with
      numbers in eight bytes and lengths in four. */
  lemma KnownBytes(t: Text, s: string, u: Uuid)
    requires |t.bytes(s)| < 256
    ensures PutValue(t, Null) == [0] && PutValue(t, Bool(true)) == [1, 1]
    ensures PutValue(t, Uint(7)) == [2, 7] + Zeros(7) && PutValue(t, Int(7)) == [3, 7] + Zeros(7)
    ensures PutValue(t, F64(7)) == [4, 7] + Zeros(7) && PutValue(t, Datetime(7)) == [6, 7] + Zeros(7)
    ensures PutValue(t, String(s)) == [5, |t.bytes(s)|] + Zeros(3) + t.bytes(s)
    ensures PutValue(t, Uuid(u)) == [7] + u
    ensures PutValue(t, StringArray([])) == [8] + Zeros(4) && PutValue(t, UintArray([])) == [9] + Zeros(4)
    ensures PutValue(t, IntArray([])) == [10] + Zeros(4)
  {
    hide Le;
    LeSmall(7, 8);
    LeSmall(|t.bytes(s)|, 4);
    LeSmall(0, 4);
    assert [0] + Zeros(3) == Zeros(4);
  }

  lemma KnownIds(t: Text, s: string, u: Uuid)
    requires |t.bytes(s)| < 256
    ensures PutRecord(t, Delete(UintId(7))) == [1, 0, 7] + Zeros(7)
    ensures PutRecord(t, Delete(UuidId(u))) == [1, 1] + u
    ensures PutRecord(t, Delete(StringId(s))) == [1, 2, |t.bytes(s)|] + Zeros(3) + t.bytes(s)
  {
    hide Le;
    LeSmall(7, 8);
    LeSmall(|t.bytes(s)|, 4);
  }
}
