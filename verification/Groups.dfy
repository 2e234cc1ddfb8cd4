/** Group keys: the values a document contributes to each, the groups it joins, and which keys share a row
    (src/aggregate.rs). */
module Groups {
  import opened Wrappers
  import opened Values
  import opened Records
  import opened Filters
  import Sorting

  datatype GroupKey = ByAttribute(attr: string) | ForEachUnique(attr: string)

  type Key = seq<Value>

  ghost predicate NoRepeats<T(!new)>(xs: seq<T>) {
    forall i, j | 0 <= i < j < |xs| :: xs[i] != xs[j]
  }

  ghost predicate Enumerates<T(!new)>(xs: seq<T>, s: set<T>) {
    (forall x :: x in xs <==> x in s) && NoRepeats(xs)
  }

  // ------------------------------------------------------------ the values of one key

  function Exploded(v: Value): set<Value> {
    if v.Null? || Elements(v) == [] then {Null} else set e | e in Elements(v)
  }

  /** The values a document contributes for one key. */
  function KeyValues(g: GroupKey, attrs: Attrs): set<Value> {
    var v := Attribute(attrs, g.attr);
    if g.ByAttribute? then {v} else Exploded(v)
  }

  lemma ElementsAlike(v: Value)
    requires !v.Null?
    ensures forall e | e in Elements(v) :: TypeOf(e) == Some(ElementType(TypeOf(v).value))
    ensures v.Sparse? ==> Elements(v) == [v]
    ensures !v.Sparse? ==> Ordered(ElementType(TypeOf(v).value))
  {
  }

  function Ascending(h: Host): (Value, Value) -> bool {
    (a, b) => Compare(h, a, b) == Some(Less)
  }

  lemma AscendingIsStrict(h: Host, ty: Type, s: set<Value>)
    requires Ordered(ty) && forall v | v in s :: TypeOf(v) == Some(ty)
    ensures Sorting.Strict(Ascending(h), s)
  {
    hide Compare;
    forall a, b | a in s && b in s
      ensures !Ascending(h)(a, a) && (a == b || Ascending(h)(a, b) || Ascending(h)(b, a))
    {
      CompareIsTotal(h, ty, a, a);
      CompareIsTotal(h, ty, a, b);
    }
    forall a, b, c | a in s && b in s && c in s && Ascending(h)(a, b) && Ascending(h)(b, c) ensures Ascending(h)(a, c) {
      CompareIsTransitive(h, ty, a, b, c);
    }
  }

  /** Drop every value equal to the last one kept. */
  method DedupBy(h: Host, xs: seq<Value>, ghost ty: Type) returns (ys: seq<Value>)
    requires forall x | x in xs :: TypeOf(x) == Some(ty)
    requires |xs| > 1 ==> Ordered(ty) && Sorting.NeverDescends(Ascending(h), xs)
    ensures (forall v :: v in ys <==> v in xs) && NoRepeats(ys)
  {
    hide Compare, Ascending;
    ys := [];
    for i := 0 to |xs|
      invariant (forall v :: v in ys <==> v in xs[..i]) && NoRepeats(ys)
      invariant i > 0 ==> ys != [] && ys[|ys| - 1] == xs[i - 1]
    {
      assert xs[..i + 1] == xs[..i] + [xs[i]] && xs[i] in xs;
      if i == 0 || !Equals(h, ys[|ys| - 1], xs[i]) {
        if i > 0 {
          assert xs[i - 1] in xs;
          NewIsNew(h, ty, xs, i);
        }
        NoRepeatsConcat(ys, [xs[i]]);
        ys := ys + [xs[i]];
      } else {
        assert xs[i - 1] in xs;
        CompareIsTotal(h, ty, xs[i - 1], xs[i]);
      }
    }
    assert xs[..|xs|] == xs;
  }

  /** Equal values are neighbours in an ascending list. */
  lemma NewIsNew(h: Host, ty: Type, xs: seq<Value>, i: nat)
    requires Ordered(ty) && (forall x | x in xs :: TypeOf(x) == Some(ty)) && Sorting.NeverDescends(Ascending(h), xs)
    requires 0 < i < |xs| && !Equals(h, xs[i - 1], xs[i])
    ensures xs[i] !in xs[..i]
  {
    hide Compare;
    assert xs[i - 1] in xs && xs[i] in xs;
    CompareIsTotal(h, ty, xs[i - 1], xs[i]);
    forall j | 0 <= j < i ensures xs[j] != xs[i] {
      if j < i - 1 && xs[j] == xs[i] {
        assert false;
      }
    }
  }

  /** The values of a document for one key: sorted, then neighbours that are equal merged. Each distinct element
      comes out once, and a document without any contributes null. */
  method ValuesOf(h: Host, g: GroupKey, attrs: Attrs) returns (values: seq<Value>)
    ensures Enumerates(values, KeyValues(g, attrs))
  {
    hide Compare, Ascending;
    var raw := Attribute(attrs, g.attr);
    if g.ByAttribute? {
      return [raw];
    }
    if raw.Null? {
      return [Null];
    }
    var sorted := Sorting.Sort(Ascending(h), Elements(raw));
    ElementsAlike(raw);
    ghost var ty := ElementType(TypeOf(raw).value);
    Sorting.SortMembers(Ascending(h), Elements(raw));
    forall v ensures v in sorted <==> v in Elements(raw) {
      assert v in sorted <==> v in Sorting.Members(sorted);
      assert v in Elements(raw) <==> v in Sorting.Members(Elements(raw));
    }
    if !raw.Sparse? {
      AscendingIsStrict(h, ty, Sorting.Members(Elements(raw)));
      Sorting.SortNeverDescends(Ascending(h), Elements(raw));
    }
    values := DedupBy(h, sorted, ty);
    assert Elements(raw) != [] ==> Elements(raw)[0] in values;
    if values == [] {
      return [Null];
    }
    assert values[0] in Elements(raw);
  }

  // ------------------------------------------------------------ the groups of a document

  /** The groups of a document: one value for each key, in every combination. */
  predicate InGroup(groupBy: seq<GroupKey>, attrs: Attrs, key: Key) {
    |key| == |groupBy| && forall i | 0 <= i < |key| :: key[i] in KeyValues(groupBy[i], attrs)
  }

  ghost predicate Combos(combos: seq<Key>, groupBy: seq<GroupKey>, attrs: Attrs) {
    && (forall k :: k in combos <==> InGroup(groupBy, attrs, k))
    && NoRepeats(combos)
  }

  predicate Extends(k: Key, base: Key, values: seq<Value>) {
    k != [] && k[..|k| - 1] == base && k[|k| - 1] in values
  }

  predicate ExtendsSome(k: Key, combos: seq<Key>, values: seq<Value>) {
    k != [] && k[..|k| - 1] in combos && k[|k| - 1] in values
  }

  /** One combination extended by every value of the next key. */
  method ExtendOne(base: Key, values: seq<Value>) returns (next: seq<Key>)
    requires NoRepeats(values)
    ensures NoRepeats(next) && forall k :: k in next <==> Extends(k, base, values)
  {
    next := seq(|values|, v requires 0 <= v < |values| => base + [values[v]]);
    forall k ensures k in next <==> Extends(k, base, values) {
      if Extends(k, base, values) {
        var v :| 0 <= v < |values| && values[v] == k[|k| - 1];
        assert k == base + [values[v]] == next[v];
      }
    }
    forall i, j | 0 <= i < j < |next| ensures next[i] != next[j] {
      assert next[i][|base|] == values[i] && next[j][|base|] == values[j];
    }
  }

  lemma NoRepeatsConcat<T(!new)>(xs: seq<T>, ys: seq<T>)
    requires NoRepeats(xs) && NoRepeats(ys) && forall x | x in xs :: x !in ys
    ensures NoRepeats(xs + ys)
  {
    forall i, j | 0 <= i < j < |xs + ys| ensures (xs + ys)[i] != (xs + ys)[j] {
      if i < |xs| <= j {
        assert xs[i] in xs && ys[j - |xs|] in ys;
      }
    }
  }

  /** Extend every combination of the first keys by every value of the next. */
  method ExtendAll(combos: seq<Key>, values: seq<Value>) returns (next: seq<Key>)
    requires NoRepeats(combos) && NoRepeats(values)
    ensures NoRepeats(next) && forall k :: k in next <==> ExtendsSome(k, combos, values)
  {
    next := [];
    for b := 0 to |combos|
      invariant NoRepeats(next) && forall k :: k in next <==> ExtendsSome(k, combos[..b], values)
    {
      var more := ExtendOne(combos[b], values);
      assert combos[..b + 1] == combos[..b] + [combos[b]] && combos[b] !in combos[..b];
      NoRepeatsConcat(next, more);
      forall k
        ensures ExtendsSome(k, combos[..b + 1], values) <==>
                ExtendsSome(k, combos[..b], values) || Extends(k, combos[b], values)
      {
      }
      next := next + more;
    }
    assert combos[..|combos|] == combos;
  }

  /** The cartesian product of the keys' values: each group of the document, once. */
  method ExpandKeys(h: Host, groupBy: seq<GroupKey>, attrs: Attrs) returns (combos: seq<Key>)
    ensures Combos(combos, groupBy, attrs)
  {
    combos := [[]];
    for g := 0 to |groupBy|
      invariant Combos(combos, groupBy[..g], attrs)
    {
      var values := ValuesOf(h, groupBy[g], attrs);
      var next := ExtendAll(combos, values);
      forall k ensures k in next <==> InGroup(groupBy[..g + 1], attrs, k) {
        GroupNext(groupBy, g, attrs, k);
      }
      combos := next;
    }
    assert groupBy[..|groupBy|] == groupBy;
  }

  lemma GroupNext(groupBy: seq<GroupKey>, g: nat, attrs: Attrs, k: Key)
    requires g < |groupBy|
    ensures InGroup(groupBy[..g + 1], attrs, k) <==>
            k != [] && InGroup(groupBy[..g], attrs, k[..|k| - 1]) && k[|k| - 1] in KeyValues(groupBy[g], attrs)
  {
    if |k| == g + 1 {
      forall i | 0 <= i < g ensures groupBy[..g + 1][i] == groupBy[..g][i] && k[..g][i] == k[i] {
      }
    }
  }

  lemma SomeValue(g: GroupKey, attrs: Attrs)
    ensures KeyValues(g, attrs) != {}
  {
    var v := Attribute(attrs, g.attr);
    if g.ByAttribute? {
      assert v in KeyValues(g, attrs);
    } else if !v.Null? && Elements(v) != [] {
      assert Elements(v)[0] in KeyValues(g, attrs);
    } else {
      assert Null in KeyValues(g, attrs);
    }
  }

  /** Every document has a group: each key contributes at least one value. */
  lemma GroupOf(groupBy: seq<GroupKey>, attrs: Attrs) returns (key: Key)
    ensures InGroup(groupBy, attrs, key)
  {
    key := [];
    for i := 0 to |groupBy|
      invariant |key| == i && forall j | 0 <= j < i :: key[j] in KeyValues(groupBy[j], attrs)
    {
      SomeValue(groupBy[i], attrs);
      var v :| v in KeyValues(groupBy[i], attrs);
      key := key + [v];
    }
  }

  // ------------------------------------------------------------ the order of keys

  function TypeName(v: Value): string {
    match v
    case Null => ""
    case Bool(_) => "bool"
    case Uint(_) => "uint"
    case Int(_) => "int"
    case F64(_) => "float"
    case String(_) => "string"
    case Datetime(_) => "datetime"
    case Uuid(_) => "uuid"
    case StringArray(_) => "[]string"
    case UintArray(_) => "[]uint"
    case IntArray(_) => "[]int"
    case Sparse(_) => "{}f16"
  }

  /** How the group map orders two values: by comparison, else by the names of their types. */
  function KeyOrder(h: Host, a: Value, b: Value): Ordering {
    var c := Compare(h, a, b);
    if c.Some? then c.value else CmpString(TypeName(a), TypeName(b))
  }

  function KeysOrder(h: Host, a: Key, b: Key): Ordering {
    Lex(a, b, (x, y) => KeyOrder(h, x, y))
  }

  /** The map takes two keys for one. */
  predicate SameKey(h: Host, a: Key, b: Key) {
    KeysOrder(h, a, b) == Equal
  }

  /** What the map can tell about a value: everything, except which sparse vector it is. */
  function Canon(v: Value): Value {
    if v.Sparse? then Sparse(map[]) else v
  }

  function Class(key: Key): (c: Key)
    ensures |c| == |key|
  {
    seq(|key|, i requires 0 <= i < |key| => Canon(key[i]))
  }

  /** Of values of one type or null, the map's order is total, and calls equal exactly those it cannot tell apart. */
  lemma KeyOrderIsTotal(h: Host, ty: Type, a: Value, b: Value)
    requires Fits(a, ty) && Fits(b, ty)
    ensures KeyOrder(h, a, b) == Equal <==> Canon(a) == Canon(b)
    ensures KeyOrder(h, b, a) == KeyOrder(h, a, b).Flip()
  {
    if !a.Null? && !b.Null? && Ordered(ty) {
      CompareIsTotal(h, ty, a, b);
    } else if a.Sparse? && b.Sparse? {
      SparseNames();
    }
  }

  lemma SparseNames()
    ensures CmpString("{}f16", "{}f16") == Equal
  {
    StringOrder();
  }

  lemma KeyOrderIsTransitive(h: Host, ty: Type, a: Value, b: Value, c: Value)
    requires Fits(a, ty) && Fits(b, ty) && Fits(c, ty)
    requires KeyOrder(h, a, b) == Less && KeyOrder(h, b, c) == Less
    ensures KeyOrder(h, a, c) == Less
  {
    hide CmpString;
    SparseNames();
    if !a.Null? {
      assert !b.Null? && !c.Null? && Ordered(ty);
      CompareIsTotal(h, ty, a, b);
      CompareIsTotal(h, ty, b, c);
      CompareIsTransitive(h, ty, a, b, c);
    }
  }

  /** Every position of a key has one type. */
  predicate KeyFits(key: Key, types: seq<Type>) {
    |key| == |types| && forall i | 0 <= i < |key| :: Fits(key[i], types[i])
  }

  lemma FitsRest(key: Key, types: seq<Type>)
    requires KeyFits(key, types) && key != []
    ensures Fits(key[0], types[0]) && KeyFits(key[1..], types[1..]) && Class(key) == [Canon(key[0])] + Class(key[1..])
  {
  }

  /** The same of whole keys. */
  lemma {:induction false} KeysOrderIsTotal(h: Host, types: seq<Type>, a: Key, b: Key)
    requires KeyFits(a, types) && KeyFits(b, types)
    ensures SameKey(h, a, b) <==> Class(a) == Class(b)
    ensures KeysOrder(h, b, a) == KeysOrder(h, a, b).Flip()
    decreases |a|
  {
    hide KeyOrder, Class, Canon;
    if a != [] {
      FitsRest(a, types);
      FitsRest(b, types);
      KeyOrderIsTotal(h, types[0], a[0], b[0]);
      KeysOrderIsTotal(h, types[1..], a[1..], b[1..]);
      assert Class(a) == Class(b) <==> Canon(a[0]) == Canon(b[0]) && Class(a[1..]) == Class(b[1..]) by {
        assert Class(a)[0] == Canon(a[0]) && Class(a)[1..] == Class(a[1..]);
        assert Class(b)[0] == Canon(b[0]) && Class(b)[1..] == Class(b[1..]);
      }
    } else {
      NoClass();
    }
  }

  lemma NoClass()
    ensures Class([]) == []
  {
  }

  lemma {:induction false} KeysOrderIsTransitive(h: Host, types: seq<Type>, a: Key, b: Key, c: Key)
    requires KeyFits(a, types) && KeyFits(b, types) && KeyFits(c, types)
    requires KeysOrder(h, a, b) == Less && KeysOrder(h, b, c) == Less
    ensures KeysOrder(h, a, c) == Less
    decreases |a|
  {
    hide KeyOrder, Class;
    if a != [] && b != [] && c != [] {
      FitsRest(a, types);
      FitsRest(b, types);
      FitsRest(c, types);
      var x, y := KeyOrder(h, a[0], b[0]), KeyOrder(h, b[0], c[0]);
      KeyOrderIsTotal(h, types[0], a[0], b[0]);
      KeyOrderIsTotal(h, types[0], b[0], c[0]);
      if x == Less && y == Less {
        KeyOrderIsTransitive(h, types[0], a[0], b[0], c[0]);
      } else if x == Equal && y == Equal {
        KeyOrderIsTotal(h, types[0], a[0], c[0]);
        KeysOrderIsTransitive(h, types[1..], a[1..], b[1..], c[1..]);
      } else {
        OrderRespectsCanon(h, types[0], a[0], b[0], c[0]);
      }
    }
  }

  lemma OrderRespectsCanon(h: Host, ty: Type, a: Value, b: Value, c: Value)
    requires Fits(a, ty) && Fits(b, ty) && Fits(c, ty)
    ensures Canon(a) == Canon(b) ==> KeyOrder(h, a, c) == KeyOrder(h, b, c)
    ensures Canon(b) == Canon(c) ==> KeyOrder(h, a, c) == KeyOrder(h, a, b)
  {
    hide CmpString;
    SparseNames();
  }

  // ------------------------------------------------------------ classes of keys

  function ClassValues(g: GroupKey, attrs: Attrs): set<Value> {
    set v | v in KeyValues(g, attrs) :: Canon(v)
  }

  /** A document's groups, as far as the map can tell them apart. */
  predicate InClass(groupBy: seq<GroupKey>, attrs: Attrs, c: Key) {
    |c| == |groupBy| && forall i | 0 <= i < |c| :: c[i] in ClassValues(groupBy[i], attrs)
  }

  /** Within one document nothing is confused: a sparse vector is the only value of its key. */
  lemma CanonKeepsApart(g: GroupKey, attrs: Attrs, v: Value, w: Value)
    requires v in KeyValues(g, attrs) && w in KeyValues(g, attrs) && Canon(v) == Canon(w)
    ensures v == w
  {
    var raw := Attribute(attrs, g.attr);
    if !raw.Null? {
      ElementsAlike(raw);
    }
  }

  lemma ClassOfGroup(groupBy: seq<GroupKey>, attrs: Attrs, key: Key)
    requires InGroup(groupBy, attrs, key)
    ensures InClass(groupBy, attrs, Class(key))
  {
    hide KeyValues, Canon;
  }

  lemma GroupOfClass(groupBy: seq<GroupKey>, attrs: Attrs, c: Key) returns (key: Key)
    requires InClass(groupBy, attrs, c)
    ensures InGroup(groupBy, attrs, key) && Class(key) == c
  {
    hide KeyValues, Canon;
    key := [];
    for i := 0 to |groupBy|
      invariant |key| == i && forall j | 0 <= j < i :: key[j] in KeyValues(groupBy[j], attrs) && Canon(key[j]) == c[j]
    {
      var v :| v in KeyValues(groupBy[i], attrs) && Canon(v) == c[i];
      key := key + [v];
    }
  }

  lemma OneGroupPerClass(groupBy: seq<GroupKey>, attrs: Attrs, a: Key, b: Key)
    requires InGroup(groupBy, attrs, a) && InGroup(groupBy, attrs, b) && Class(a) == Class(b)
    ensures a == b
  {
    hide KeyValues, Canon;
    forall i | 0 <= i < |a| ensures a[i] == b[i] {
      assert Class(a)[i] == Class(b)[i];
      CanonKeepsApart(groupBy[i], attrs, a[i], b[i]);
    }
  }

  ghost function Classes(combos: seq<Key>): (r: seq<Key>)
    ensures |r| == |combos|
  {
    seq(|combos|, i requires 0 <= i < |combos| => Class(combos[i]))
  }

  /** The combinations of a document reach each of its classes once. */
  lemma ClassesOnce(combos: seq<Key>, groupBy: seq<GroupKey>, attrs: Attrs)
    requires Combos(combos, groupBy, attrs)
    ensures (forall c :: c in Classes(combos) <==> InClass(groupBy, attrs, c)) && NoRepeats(Classes(combos))
  {
    hide InGroup, InClass, Class;
    var classes := Classes(combos);
    forall c ensures c in classes <==> InClass(groupBy, attrs, c) {
      if c in classes {
        var i :| 0 <= i < |combos| && classes[i] == c;
        assert combos[i] in combos;
        ClassOfGroup(groupBy, attrs, combos[i]);
      }
      if InClass(groupBy, attrs, c) {
        var key := GroupOfClass(groupBy, attrs, c);
        var i :| 0 <= i < |combos| && combos[i] == key;
        assert classes[i] == c;
      }
    }
    forall i, j | 0 <= i < j < |classes| ensures classes[i] != classes[j] {
      assert combos[i] in combos && combos[j] in combos;
      if classes[i] == classes[j] {
        OneGroupPerClass(groupBy, attrs, combos[i], combos[j]);
      }
    }
  }

  // ------------------------------------------------------------ the keys of a set of documents

  /** Each grouped attribute has one type in all the documents. */
  ghost predicate Groupable(groupBy: seq<GroupKey>, live: Live) {
    forall i | 0 <= i < |groupBy| :: OneType(live, groupBy[i].attr)
  }

  ghost predicate OneType(live: Live, attr: string) {
    exists ty :: AllFit(live, attr, ty)
  }

  predicate AllFit(live: Live, attr: string, ty: Type) {
    forall id | id in live :: Fits(Attribute(live[id].attrs, attr), ty)
  }

  /** One of the documents has this key. */
  ghost predicate KeyOf(groupBy: seq<GroupKey>, live: Live, key: Key) {
    exists id :: id in live && InGroup(groupBy, live[id].attrs, key)
  }

  lemma ValueFits(g: GroupKey, attrs: Attrs, ty: Type, v: Value)
    requires Fits(Attribute(attrs, g.attr), ty) && v in KeyValues(g, attrs)
    ensures Fits(v, if g.ByAttribute? then ty else ElementType(ty))
  {
    var raw := Attribute(attrs, g.attr);
    if !raw.Null? {
      ElementsAlike(raw);
    }
  }

  lemma KeysFit(groupBy: seq<GroupKey>, live: Live) returns (types: seq<Type>)
    requires Groupable(groupBy, live)
    ensures forall key | KeyOf(groupBy, live, key) :: KeyFits(key, types)
  {
    hide KeyValues, Fits;
    types := [];
    for i := 0 to |groupBy|
      invariant |types| == i
      invariant forall j, id, v | 0 <= j < i && id in live && v in KeyValues(groupBy[j], live[id].attrs) ::
        Fits(v, types[j])
    {
      assert OneType(live, groupBy[i].attr);
      var ty :| AllFit(live, groupBy[i].attr, ty);
      forall id, v | id in live && v in KeyValues(groupBy[i], live[id].attrs)
        ensures Fits(v, if groupBy[i].ByAttribute? then ty else ElementType(ty))
      {
        ValueFits(groupBy[i], live[id].attrs, ty, v);
      }
      types := types + [if groupBy[i].ByAttribute? then ty else ElementType(ty)];
    }
  }

  /** On the keys of documents whose grouped attributes have one type each, the map's order is a total order of
      the classes. */
  lemma KeysAreOrdered(h: Host, groupBy: seq<GroupKey>, live: Live)
    requires Groupable(groupBy, live)
    ensures forall a, b | KeyOf(groupBy, live, a) && KeyOf(groupBy, live, b) ::
              (SameKey(h, a, b) <==> Class(a) == Class(b)) && KeysOrder(h, b, a) == KeysOrder(h, a, b).Flip()
    ensures forall a, b, c | KeyOf(groupBy, live, a) && KeyOf(groupBy, live, b) && KeyOf(groupBy, live, c) ::
              KeysOrder(h, a, b) == Less && KeysOrder(h, b, c) == Less ==> KeysOrder(h, a, c) == Less
  {
    hide KeyOf, KeyFits, KeysOrder, Class, Groupable;
    var types := KeysFit(groupBy, live);
    forall a, b | KeyOf(groupBy, live, a) && KeyOf(groupBy, live, b)
      ensures (SameKey(h, a, b) <==> Class(a) == Class(b)) && KeysOrder(h, b, a) == KeysOrder(h, a, b).Flip()
    {
      KeysOrderIsTotal(h, types, a, b);
    }
    forall a, b, c | KeyOf(groupBy, live, a) && KeyOf(groupBy, live, b) && KeyOf(groupBy, live, c) &&
                     KeysOrder(h, a, b) == Less && KeysOrder(h, b, c) == Less
      ensures KeysOrder(h, a, c) == Less
    {
      KeysOrderIsTransitive(h, types, a, b, c);
    }
  }

  /** Two documents that could share a row: no key tells them apart. */
  predicate Meet(groupBy: seq<GroupKey>, a: Attrs, b: Attrs) {
    forall i | 0 <= i < |groupBy| :: ClassValues(groupBy[i], a) * ClassValues(groupBy[i], b) != {}
  }

  /** The two hold the same sparse vectors under the grouped attributes. */
  predicate SparseAlike(groupBy: seq<GroupKey>, a: Attrs, b: Attrs) {
    forall i | 0 <= i < |groupBy| ::
      var v, w := Attribute(a, groupBy[i].attr), Attribute(b, groupBy[i].attr);
      v.Sparse? && w.Sparse? ==> v == w
  }

  lemma SparseValues(g: GroupKey, attrs: Attrs, v: Value)
    requires v in KeyValues(g, attrs)
    ensures v.Sparse? <==> Attribute(attrs, g.attr).Sparse?
    ensures v.Sparse? ==> v == Attribute(attrs, g.attr)
  {
    var raw := Attribute(attrs, g.attr);
    if !raw.Null? {
      ElementsAlike(raw);
    }
  }

  lemma ClassesMeet(groupBy: seq<GroupKey>, a: Attrs, b: Attrs, k: Key, l: Key)
    requires InGroup(groupBy, a, k) && InGroup(groupBy, b, l) && Class(k) == Class(l)
    ensures Meet(groupBy, a, b)
    ensures SparseAlike(groupBy, a, b) ==> k == l
  {
    hide KeyValues;
    forall i | 0 <= i < |groupBy|
      ensures ClassValues(groupBy[i], a) * ClassValues(groupBy[i], b) != {}
      ensures SparseAlike(groupBy, a, b) ==> k[i] == l[i]
    {
      assert Class(k)[i] == Class(l)[i];
      assert Canon(k[i]) in ClassValues(groupBy[i], a) && Canon(l[i]) in ClassValues(groupBy[i], b);
      assert Canon(k[i]) in ClassValues(groupBy[i], a) * ClassValues(groupBy[i], b);
      SparseValues(groupBy[i], a, k[i]);
      SparseValues(groupBy[i], b, l[i]);
    }
  }

  lemma MeetingKeys(groupBy: seq<GroupKey>, a: Attrs, b: Attrs) returns (k: Key, l: Key)
    requires Meet(groupBy, a, b)
    ensures InGroup(groupBy, a, k) && InGroup(groupBy, b, l) && Class(k) == Class(l)
    ensures !SparseAlike(groupBy, a, b) ==> k != l
  {
    hide KeyValues, Canon;
    k, l := [], [];
    for i := 0 to |groupBy|
      invariant |k| == |l| == i
      invariant forall j | 0 <= j < i ::
        k[j] in KeyValues(groupBy[j], a) && l[j] in KeyValues(groupBy[j], b) && Canon(k[j]) == Canon(l[j])
    {
      var c :| c in ClassValues(groupBy[i], a) * ClassValues(groupBy[i], b);
      var v :| v in KeyValues(groupBy[i], a) && Canon(v) == c;
      var w :| w in KeyValues(groupBy[i], b) && Canon(w) == c;
      k, l := k + [v], l + [w];
    }
    assert forall i | 0 <= i < |k| :: Class(k)[i] == Class(l)[i];
    if !SparseAlike(groupBy, a, b) {
      var i :| 0 <= i < |groupBy| && Attribute(a, groupBy[i].attr).Sparse? && Attribute(b, groupBy[i].attr).Sparse? &&
               Attribute(a, groupBy[i].attr) != Attribute(b, groupBy[i].attr);
      SomeSparse(groupBy[i], a, k[i]);
      SomeSparse(groupBy[i], b, l[i]);
    }
  }

  lemma SomeSparse(g: GroupKey, attrs: Attrs, v: Value)
    requires v in KeyValues(g, attrs) && Attribute(attrs, g.attr).Sparse?
    ensures v == Attribute(attrs, g.attr)
  {
    SparseValues(g, attrs, v);
  }

  ghost predicate TellsKeysApart(h: Host, groupBy: seq<GroupKey>, live: Live) {
    forall k, l | KeyOf(groupBy, live, k) && KeyOf(groupBy, live, l) && SameKey(h, k, l) :: k == l
  }

  /** Different keys have different rows if and only if documents that no other key tells apart hold the same
      sparse vectors under the grouped attributes. */
  lemma RowsTellKeysApart(h: Host, groupBy: seq<GroupKey>, live: Live)
    requires Groupable(groupBy, live)
    ensures TellsKeysApart(h, groupBy, live) <==>
            forall id, other | id in live && other in live && Meet(groupBy, live[id].attrs, live[other].attrs) ::
              SparseAlike(groupBy, live[id].attrs, live[other].attrs)
  {
    hide Meet, SparseAlike, InGroup, SameKey, Class, Groupable;
    KeysAreOrdered(h, groupBy, live);
    if TellsKeysApart(h, groupBy, live) {
      forall id, other | id in live && other in live && Meet(groupBy, live[id].attrs, live[other].attrs)
        ensures SparseAlike(groupBy, live[id].attrs, live[other].attrs)
      {
        var k, l := MeetingKeys(groupBy, live[id].attrs, live[other].attrs);
        assert KeyOf(groupBy, live, k) && KeyOf(groupBy, live, l);
      }
    } else {
      var k, l :| KeyOf(groupBy, live, k) && KeyOf(groupBy, live, l) && SameKey(h, k, l) && k != l;
      var id :| id in live && InGroup(groupBy, live[id].attrs, k);
      var other :| other in live && InGroup(groupBy, live[other].attrs, l);
      ClassesMeet(groupBy, live[id].attrs, live[other].attrs, k, l);
      assert Meet(groupBy, live[id].attrs, live[other].attrs);
      assert !SparseAlike(groupBy, live[id].attrs, live[other].attrs);
    }
  }
}
