/** Typed attribute values (src/value.rs): ordering, equality, elements, coercion. */
module Values {
  import opened Wrappers

  type u8 = x: int | 0 <= x < 0x100
  type u16 = x: int | 0 <= x < 0x1_0000
  type u32 = x: int | 0 <= x < 0x1_0000_0000
  type u64 = x: int | 0 <= x < 0x1_0000_0000_0000_0000
  type i64 = x: int | -0x8000_0000_0000_0000 <= x < 0x8000_0000_0000_0000

  /** Floats are their IEEE bit patterns: that is what is stored, and `total_cmp` is defined on it. */
  type F32 = u32
  type F64 = u64

  type Uuid = b: seq<u8> | |b| == 16 witness seq(16, _ => 0)

  datatype Value =
    | Null
    | Bool(b: bool)
    | Uint(u: u64)
    | Int(i: i64)
    | F64(f: F64)
    | String(s: string)
    | Datetime(n: i64)
    | Uuid(id: Uuid)
    | StringArray(strings: seq<string>)
    | UintArray(uints: seq<u64>)
    | IntArray(ints: seq<i64>)
    | Sparse(weights: map<string, F32>)

  datatype Type =
    | TBool | TUint | TInt | TF64 | TString | TDatetime | TUuid
    | TStringArray | TUintArray | TIntArray | TSparse

  /** What the model leaves uninterpreted: parsing and rendering of text, integer-to-float
      rounding, the pattern engines, and the tokenizers. `None` from a parser or a compiler is its error. */
  datatype Host = Host(
    parseUuid: string -> Option<Uuid>,
    parseDatetime: string -> Option<i64>,
    parseUint: string -> Option<u64>,
    uintText: u64 -> string,
    uuidText: Uuid -> string,
    datetimeText: i64 -> string,
    toF64: int -> F64,
    globMatcher: (string, bool) -> Option<string -> bool>,
    regexMatcher: string -> Option<string -> bool>,
    tokenize: (nat, string) -> seq<string>
  )

  function TypeOf(v: Value): Option<Type> {
    match v
    case Null => None
    case Bool(_) => Some(TBool)
    case Uint(_) => Some(TUint)
    case Int(_) => Some(TInt)
    case F64(_) => Some(TF64)
    case String(_) => Some(TString)
    case Datetime(_) => Some(TDatetime)
    case Uuid(_) => Some(TUuid)
    case StringArray(_) => Some(TStringArray)
    case UintArray(_) => Some(TUintArray)
    case IntArray(_) => Some(TIntArray)
    case Sparse(_) => Some(TSparse)
  }

  /** True when `v` may be stored under an attribute declared `ty`. */
  predicate Fits(v: Value, ty: Type) {
    v.Null? || TypeOf(v) == Some(ty)
  }

  // ------------------------------------------------------------ ordering

  datatype Ordering = Less | Equal | Greater {
    function Flip(): Ordering {
      match this
      case Less => Greater
      case Equal => Equal
      case Greater => Less
    }
  }

  function CmpInt(a: int, b: int): Ordering {
    if a < b then Less else if a == b then Equal else Greater
  }

  function CmpChar(a: char, b: char): Ordering {
    CmpInt(a as int, b as int)
  }

  function CmpBool(a: bool, b: bool): Ordering {
    if a == b then Equal else if b then Less else Greater
  }

  /** Lexicographic order of sequences, as Rust orders strings, arrays and byte arrays. */
  function Lex<T>(a: seq<T>, b: seq<T>, cmp: (T, T) -> Ordering): Ordering {
    if a == [] && b == [] then Equal
    else if a == [] then Less
    else if b == [] then Greater
    else
      var c := cmp(a[0], b[0]);
      if c != Equal then c else Lex(a[1..], b[1..], cmp)
  }

  function CmpString(a: string, b: string): Ordering {
    Lex(a, b, CmpChar)
  }

  /** `f64::total_cmp`: sign-magnitude bit patterns read as integers. */
  function TotalKey(bits: F64): int {
    if bits < 0x8000_0000_0000_0000 then bits else 0x8000_0000_0000_0000 - 1 - bits
  }

  function AsF64(h: Host, v: Value): Option<F64> {
    match v
    case Uint(u) => Some(h.toF64(u))
    case Int(i) => Some(h.toF64(i))
    case F64(f) => Some(f)
    case Datetime(n) => Some(h.toF64(n))
    case _ => None
  }

  /** `None` means the two are not comparable. */
  function Compare(h: Host, a: Value, b: Value): Option<Ordering> {
    match (a, b)
    case (Null, Null) => Some(Equal)
    case (Null, _) => Some(Less)
    case (_, Null) => Some(Greater)
    case (Bool(x), Bool(y)) => Some(CmpBool(x, y))
    case (String(x), String(y)) => Some(CmpString(x, y))
    case (Uuid(x), Uuid(y)) => Some(Lex<int>(x, y, CmpInt))
    case (Datetime(x), Datetime(y)) => Some(CmpInt(x, y))
    case (StringArray(x), StringArray(y)) => Some(Lex(x, y, CmpString))
    case (UintArray(x), UintArray(y)) => Some(Lex<int>(x, y, CmpInt))
    case (IntArray(x), IntArray(y)) => Some(Lex<int>(x, y, CmpInt))
    case (Uint(x), Uint(y)) => Some(CmpInt(x, y))
    case (Uint(x), Int(y)) => Some(CmpInt(x, y))
    case (Int(x), Uint(y)) => Some(CmpInt(x, y))
    case (Int(x), Int(y)) => Some(CmpInt(x, y))
    case _ => CompareFloats(AsF64(h, a), AsF64(h, b), a.F64? || b.F64?)
  }

  /** The float fallback: both sides must convert, and one of them must be a float. */
  function CompareFloats(x: Option<F64>, y: Option<F64>, float: bool): Option<Ordering> {
    if float && x.Some? && y.Some? then Some(CmpInt(TotalKey(x.value), TotalKey(y.value))) else None
  }

  /** Filter equality: null equals only null, and incomparable values are unequal. */
  predicate Equals(h: Host, a: Value, b: Value) {
    if a.Null? || b.Null? then a.Null? && b.Null? else Compare(h, a, b) == Some(Equal)
  }

  function Elements(v: Value): seq<Value> {
    match v
    case StringArray(a) => seq(|a|, i requires 0 <= i < |a| => String(a[i]))
    case UintArray(a) => seq(|a|, i requires 0 <= i < |a| => Uint(a[i]))
    case IntArray(a) => seq(|a|, i requires 0 <= i < |a| => Int(a[i]))
    case _ => [v]
  }

  function AsText(h: Host, v: Value): Option<string> {
    match v
    case String(s) => Some(s)
    case Uuid(u) => Some(h.uuidText(u))
    case Datetime(n) => Some(h.datetimeText(n))
    case _ => None
  }

  // ------------------------------------------------------------ the order is total on one type

  ghost predicate IsOrder<T(!new)>(cmp: (T, T) -> Ordering) {
    && (forall a, b :: cmp(a, b) == Equal <==> a == b)
    && (forall a, b :: cmp(b, a) == cmp(a, b).Flip())
    && (forall a, b, c :: cmp(a, b) == Less && cmp(b, c) == Less ==> cmp(a, c) == Less)
  }

  lemma {:induction false} LexEqual<T(!new)>(a: seq<T>, b: seq<T>, cmp: (T, T) -> Ordering)
    requires IsOrder(cmp)
    ensures Lex(a, b, cmp) == Equal <==> a == b
    decreases |a|
  {
    if a != [] && b != [] {
      LexEqual(a[1..], b[1..], cmp);
      assert a == [a[0]] + a[1..] && b == [b[0]] + b[1..];
    }
  }

  lemma {:induction false} LexFlip<T(!new)>(a: seq<T>, b: seq<T>, cmp: (T, T) -> Ordering)
    requires IsOrder(cmp)
    ensures Lex(b, a, cmp) == Lex(a, b, cmp).Flip()
    decreases |a|
  {
    if a != [] && b != [] {
      LexFlip(a[1..], b[1..], cmp);
      assert cmp(b[0], a[0]) == cmp(a[0], b[0]).Flip();
    }
  }

  lemma {:induction false} LexTransitive<T(!new)>(a: seq<T>, b: seq<T>, c: seq<T>, cmp: (T, T) -> Ordering)
    requires IsOrder(cmp)
    requires Lex(a, b, cmp) == Less && Lex(b, c, cmp) == Less
    ensures Lex(a, c, cmp) == Less
    decreases |a|
  {
    if a != [] {
      assert b != [] && c != [];
      if cmp(a[0], b[0]) == Equal && cmp(b[0], c[0]) == Equal {
        LexTransitive(a[1..], b[1..], c[1..], cmp);
      }
    }
  }

  lemma LexIsOrder<T(!new)>(cmp: (T, T) -> Ordering)
    requires IsOrder(cmp)
    ensures IsOrder((a: seq<T>, b: seq<T>) => Lex(a, b, cmp))
  {
    var lex := (a: seq<T>, b: seq<T>) => Lex(a, b, cmp);
    forall a: seq<T>, b: seq<T> ensures lex(a, b) == Equal <==> a == b {
      LexEqual(a, b, cmp);
    }
    forall a: seq<T>, b: seq<T> ensures lex(b, a) == lex(a, b).Flip() {
      LexFlip(a, b, cmp);
    }
    forall a: seq<T>, b: seq<T>, c: seq<T> | lex(a, b) == Less && lex(b, c) == Less
      ensures lex(a, c) == Less
    {
      LexTransitive(a, b, c, cmp);
    }
  }

  lemma StringOrder()
    ensures IsOrder(CmpString)
  {
    LexIsOrder(CmpChar);
    var lex := (a: string, b: string) => Lex(a, b, CmpChar);
    assert forall a, b :: CmpString(a, b) == lex(a, b);
  }

  /** A type whose values the engine can order. Sparse vectors are ranked, never compared. */
  predicate Ordered(ty: Type) { ty != TSparse }

  /** Within one declared type `Compare` is a strict total order whose equality is identity.
      Everything the sorted index and the group map rely on. */
  lemma CompareIsTotal(h: Host, ty: Type, a: Value, b: Value)
    requires Ordered(ty) && TypeOf(a) == TypeOf(b) == Some(ty)
    ensures Compare(h, a, b).Some?
    ensures Compare(h, a, b) == Some(Equal) <==> a == b
    ensures Compare(h, b, a) == Some(Compare(h, a, b).value.Flip())
  {
    StringOrder();
    match (a, b)
    case (String(x), String(y)) => LexEqual(x, y, CmpChar); LexFlip(x, y, CmpChar);
    case (Uuid(x), Uuid(y)) => LexEqual<int>(x, y, CmpInt); LexFlip<int>(x, y, CmpInt);
    case (StringArray(x), StringArray(y)) => LexEqual(x, y, CmpString); LexFlip(x, y, CmpString);
    case (UintArray(x), UintArray(y)) => LexEqual<int>(x, y, CmpInt); LexFlip<int>(x, y, CmpInt);
    case (IntArray(x), IntArray(y)) => LexEqual<int>(x, y, CmpInt); LexFlip<int>(x, y, CmpInt);
    case _ =>
  }

  lemma CompareIsTransitive(h: Host, ty: Type, a: Value, b: Value, c: Value)
    requires Ordered(ty) && TypeOf(a) == TypeOf(b) == TypeOf(c) == Some(ty)
    requires Compare(h, a, b) == Some(Less) && Compare(h, b, c) == Some(Less)
    ensures Compare(h, a, c) == Some(Less)
  {
    StringOrder();
    match (a, b, c)
    case (String(x), String(y), String(z)) => LexTransitive(x, y, z, CmpChar);
    case (Uuid(x), Uuid(y), Uuid(z)) => LexTransitive<int>(x, y, z, CmpInt);
    case (StringArray(x), StringArray(y), StringArray(z)) => LexTransitive(x, y, z, CmpString);
    case (UintArray(x), UintArray(y), UintArray(z)) => LexTransitive<int>(x, y, z, CmpInt);
    case (IntArray(x), IntArray(y), IntArray(z)) => LexTransitive<int>(x, y, z, CmpInt);
    case _ =>
  }

  // ------------------------------------------------------------ which way it goes

  /** Dictionary order at `n`: alike before it, and there the first ends or has the smaller element. */
  predicate BeforeAt<T(==)>(a: seq<T>, b: seq<T>, less: (T, T) -> bool, n: nat) {
    n <= |a| && n < |b| && a[..n] == b[..n] && (n == |a| || less(a[n], b[n]))
  }

  ghost predicate ComesBefore<T(!new)>(a: seq<T>, b: seq<T>, less: (T, T) -> bool) {
    exists n: nat :: BeforeAt(a, b, less, n)
  }

  lemma {:induction false} LexIsDictionary<T(!new)>(a: seq<T>, b: seq<T>, cmp: (T, T) -> Ordering,
                                                    less: (T, T) -> bool)
    requires IsOrder(cmp) && forall x, y :: cmp(x, y) == Less <==> less(x, y)
    ensures Lex(a, b, cmp) == Less <==> ComesBefore(a, b, less)
    decreases |a|
  {
    if a == [] || b == [] {
      assert b != [] ==> BeforeAt(a, b, less, 0);
    } else if a[0] != b[0] {
      assert less(a[0], b[0]) ==> BeforeAt(a, b, less, 0);
      forall n: nat | n > 0 ensures !BeforeAt(a, b, less, n) {
        if n <= |a| && n < |b| {
          assert a[..n][0] != b[..n][0];
        }
      }
    } else {
      LexIsDictionary(a[1..], b[1..], cmp, less);
      assert cmp(a[0], b[0]) == Equal && !less(a[0], b[0]);
      forall n: nat | BeforeAt(a[1..], b[1..], less, n) ensures BeforeAt(a, b, less, n + 1) {
        assert a[..n + 1] == [a[0]] + a[1..][..n] && b[..n + 1] == [b[0]] + b[1..][..n];
      }
      forall n: nat | BeforeAt(a, b, less, n) ensures n > 0 && BeforeAt(a[1..], b[1..], less, n - 1) {
        assert a[1..][..n - 1] == a[..n][1..] && b[1..][..n - 1] == b[..n][1..];
      }
    }
  }

  const INT_LESS: (int, int) -> bool := (x, y) => x < y
  const CHAR_LESS: (char, char) -> bool := (x, y) => x < y
  const STRING_LESS: (string, string) -> bool := (x, y) => CmpString(x, y) == Less

  ghost predicate StringBefore(a: string, b: string) { ComesBefore(a, b, CHAR_LESS) }

  /** The total order of section 5.10 of IEEE 754-2008: every value with its sign bit set comes before every
      other, the more so the greater its magnitude; the others ascend with it. */
  predicate FloatBefore(x: F64, y: F64) {
    var negative, other := x >= 0x8000_0000_0000_0000, y >= 0x8000_0000_0000_0000;
    if negative != other then negative else if negative then x > y else x < y
  }

  /** The integer a value stands for. */
  function IntegerOf(v: Value): Option<int> {
    match v
    case Uint(u) => Some(u)
    case Int(i) => Some(i)
    case Datetime(n) => Some(n)
    case _ => None
  }

  /** The float a number stands for beside a float. */
  function Floating(h: Host, v: Value): Option<F64> {
    if v.F64? then Some(v.f) else if IntegerOf(v).Some? then Some(h.toF64(IntegerOf(v).value)) else None
  }

  /** `a` is smaller than `b`: null before everything else, false before true, numbers by size, whatever their
      width, text and arrays in dictionary order. */
  ghost predicate Smaller(h: Host, a: Value, b: Value) {
    || (a.Null? && !b.Null?)
    || (a.Bool? && b.Bool? && !a.b && b.b)
    || ((a.Datetime? <==> b.Datetime?) && IntegerOf(a).Some? && IntegerOf(b).Some? &&
        IntegerOf(a).value < IntegerOf(b).value)
    || ((a.F64? || b.F64?) && Floating(h, a).Some? && Floating(h, b).Some? &&
        FloatBefore(Floating(h, a).value, Floating(h, b).value))
    || (a.String? && b.String? && StringBefore(a.s, b.s))
    || (a.Uuid? && b.Uuid? && ComesBefore<int>(a.id, b.id, INT_LESS))
    || (a.StringArray? && b.StringArray? && ComesBefore(a.strings, b.strings, STRING_LESS))
    || (a.UintArray? && b.UintArray? && ComesBefore<int>(a.uints, b.uints, INT_LESS))
    || (a.IntArray? && b.IntArray? && ComesBefore<int>(a.ints, b.ints, INT_LESS))
  }

  lemma StringLess(a: string, b: string)
    ensures STRING_LESS(a, b) <==> StringBefore(a, b)
  {
    LexIsDictionary(a, b, CmpChar, CHAR_LESS);
  }

  lemma CompareLess(h: Host, a: Value, b: Value)
    ensures Compare(h, a, b) == Some(Less) <==> Smaller(h, a, b)
  {
    hide ComesBefore, Lex;
    StringOrder();
    match (a, b)
    case (String(x), String(y)) => StringLess(x, y);
    case (Uuid(x), Uuid(y)) => LexIsDictionary<int>(x, y, CmpInt, INT_LESS);
    case (StringArray(x), StringArray(y)) => LexIsDictionary(x, y, CmpString, STRING_LESS);
    case (UintArray(x), UintArray(y)) => LexIsDictionary<int>(x, y, CmpInt, INT_LESS);
    case (IntArray(x), IntArray(y)) => LexIsDictionary<int>(x, y, CmpInt, INT_LESS);
    case _ =>
  }

  lemma CompareFlips(h: Host, a: Value, b: Value)
    ensures Compare(h, a, b).Some? <==> Compare(h, b, a).Some?
    ensures Compare(h, a, b).Some? ==> Compare(h, b, a).value == Compare(h, a, b).value.Flip()
  {
    if TypeOf(a) == TypeOf(b) && TypeOf(a).Some? && Ordered(TypeOf(a).value) {
      CompareIsTotal(h, TypeOf(a).value, a, b);
    }
  }

  /** Any two values, of one type or two: less and greater are what they say, and equal is neither. */
  lemma CompareMeans(h: Host, a: Value, b: Value)
    ensures Compare(h, a, b) == Some(Less) <==> Smaller(h, a, b)
    ensures Compare(h, a, b) == Some(Greater) <==> Smaller(h, b, a)
    ensures Compare(h, a, b).Some? <==>
            || a.Null? || b.Null? || (TypeOf(a) == TypeOf(b) && Ordered(TypeOf(a).value))
            || ((a.Uint? || a.Int?) && (b.Uint? || b.Int?))
            || ((a.F64? || b.F64?) && Floating(h, a).Some? && Floating(h, b).Some?)
  {
    hide Smaller;
    CompareLess(h, a, b);
    CompareLess(h, b, a);
    CompareFlips(h, a, b);
  }

  // ------------------------------------------------------------ coercion

  function ToI64(x: int): Option<i64> {
    if -0x8000_0000_0000_0000 <= x < 0x8000_0000_0000_0000 then Some(x) else None
  }

  function AllToI64(xs: seq<u64>): (r: Option<seq<i64>>)
    ensures r.Some? ==> |r.value| == |xs|
  {
    if xs == [] then Some([])
    else
      var x :- ToI64(xs[0]);
      var rest :- AllToI64(xs[1..]);
      Some([x] + rest)
  }

  /** Reinterpret a JSON-inferred value as a declared type; `None` is the source's error. */
  function Coerce(h: Host, v: Value, ty: Type): Option<Value> {
    if Fits(v, ty) then Some(v)
    else match (v, ty)
      case (String(s), TUuid) => var u :- h.parseUuid(s); Some(Uuid(u))
      case (String(s), TDatetime) => var n :- h.parseDatetime(s); Some(Datetime(n))
      case (Uint(u), TInt) => var i :- ToI64(u); Some(Int(i))
      case (Uint(u), TF64) => Some(F64(h.toF64(u)))
      case (Int(i), TF64) => Some(F64(h.toF64(i)))
      case (Int(i), TUint) => if i >= 0 then Some(Uint(i)) else None
      case (Uint(u), TDatetime) => var n :- ToI64(u); Some(Datetime(n))
      case (UintArray(a), TStringArray) =>
        Some(StringArray(seq(|a|, i requires 0 <= i < |a| => h.uintText(a[i]))))
      case (StringArray(a), TUintArray) => if a == [] then Some(UintArray([])) else None
      case (StringArray(a), TIntArray) => if a == [] then Some(IntArray([])) else None
      case (UintArray(a), TIntArray) => var xs :- AllToI64(a); Some(IntArray(xs))
      case _ => None
  }

  /** Coercion lands in the declared type or fails, never changes a value that already fits,
      and so settles after one application: re-absorbing a batch cannot move a value again. */
  lemma CoerceSettles(h: Host, v: Value, ty: Type)
    ensures Coerce(h, v, ty).Some? ==> Fits(Coerce(h, v, ty).value, ty)
    ensures Coerce(h, v, ty).Some? ==> Coerce(h, Coerce(h, v, ty).value, ty) == Coerce(h, v, ty)
    ensures Coerce(h, v, ty).Some? ==> (Coerce(h, v, ty).value.Null? <==> v.Null?)
  {
  }

  /** `w` is `v` read as another type: the same number, the same numbers one by one, the host's float for it, its
      reading of a text or its printing of a number. Nothing but an empty array is read as a type it does not
      show. */
  ghost predicate ReadsAs(h: Host, v: Value, w: Value) {
    || w == v
    || (((v.Uint? && (w.Int? || w.Datetime?)) || (v.Int? && w.Uint?)) && IntegerOf(w) == IntegerOf(v))
    || ((v.Uint? || v.Int?) && w == F64(h.toF64(IntegerOf(v).value)))
    || (v.String? && w.Uuid? && h.parseUuid(v.s) == Some(w.id))
    || (v.String? && w.Datetime? && h.parseDatetime(v.s) == Some(w.n))
    || (v.UintArray? && w.IntArray? && |w.ints| == |v.uints| &&
        forall i | 0 <= i < |v.uints| :: w.ints[i] as int == v.uints[i])
    || (v.UintArray? && w.StringArray? && |w.strings| == |v.uints| &&
        forall i | 0 <= i < |v.uints| :: w.strings[i] == h.uintText(v.uints[i]))
    || (v == StringArray([]) && (w == UintArray([]) || w == IntArray([])))
  }

  lemma {:induction false} AllToI64Keeps(xs: seq<u64>)
    ensures AllToI64(xs).Some? ==> forall i | 0 <= i < |xs| :: AllToI64(xs).value[i] as int == xs[i]
    ensures AllToI64(xs).None? <==> exists i | 0 <= i < |xs| :: xs[i] >= 0x8000_0000_0000_0000
    decreases |xs|
  {
    if xs != [] {
      var rest := xs[1..];
      AllToI64Keeps(rest);
      assert forall i | 0 < i < |xs| :: xs[i] == rest[i - 1];
      assert forall i | 0 <= i < |rest| :: rest[i] == xs[i + 1];
    }
  }

  /** Coercion finds the value of the declared type that the given one reads as, and fails exactly if there is
      none. There is at most one. */
  lemma CoerceIsReading(h: Host, v: Value, ty: Type, w: Value)
    ensures Coerce(h, v, ty) == Some(w) <==> Fits(w, ty) && ReadsAs(h, v, w)
  {
    if v.UintArray? && Fits(w, ty) && ReadsAs(h, v, w) {
      AllToI64Keeps(v.uints);
      match w {
        case IntArray(_) =>
          assert forall i | 0 <= i < |v.uints| :: w.ints[i] as int == v.uints[i];
          assert Coerce(h, v, ty).value.ints == w.ints;
        case StringArray(_) => assert Coerce(h, v, ty).value.strings == w.strings;
        case _ =>
      }
    } else if v.UintArray? {
      AllToI64Keeps(v.uints);
    }
  }

  /** A number is refused exactly where it does not fit. */
  lemma CoerceRefuses(h: Host, v: Value)
    ensures v.Uint? ==> (Coerce(h, v, TInt).None? <==> v.u >= 0x8000_0000_0000_0000)
    ensures v.Uint? ==> (Coerce(h, v, TDatetime).None? <==> v.u >= 0x8000_0000_0000_0000)
    ensures v.Int? ==> (Coerce(h, v, TUint).None? <==> v.i < 0)
    ensures v.Uint? || v.Int? ==> Coerce(h, v, TF64).Some?
    ensures v.UintArray? ==>
      (Coerce(h, v, TIntArray).None? <==> exists i | 0 <= i < |v.uints| :: v.uints[i] >= 0x8000_0000_0000_0000)
  {
    if v.UintArray? {
      AllToI64Keeps(v.uints);
    }
  }
}
