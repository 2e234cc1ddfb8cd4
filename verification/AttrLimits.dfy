/** Every comparison outside `Faithful` is answered wrongly over some column: the index may be trusted
    with exactly the comparisons `Faithful` names (src/attrindex.rs). */
module AttrLimits {
  import opened Wrappers
  import opened Values
  import opened Filters
  import opened AttrIndex

  function Sample(ty: Type): (v: Value)
    ensures TypeOf(v) == Some(ty)
  {
    match ty
    case TBool => Bool(false)
    case TUint => Uint(0)
    case TInt => Int(0)
    case TF64 => F64(0)
    case TString => String("")
    case TDatetime => Datetime(0)
    case TUuid => Uuid(seq(16, _ => 0))
    case TStringArray => StringArray([""])
    case TUintArray => UintArray([0])
    case TIntArray => IntArray([0])
    case TSparse => Sparse(map[])
  }

  /** The array of one element, or the element itself. */
  function Wrap(ty: Type, e: Value): (v: Value)
    requires TypeOf(e) == Some(ElementType(ty)) && !IsArray(ElementType(ty))
    ensures TypeOf(v) == Some(ty) && Parts(v) == [e]
  {
    match ty
    case TStringArray => StringArray([e.s])
    case TUintArray => UintArray([e.u])
    case TIntArray => IntArray([e.i])
    case _ => e
  }

  function OneEntry(v: Value, e: Value): Index {
    Index([Entry(e, {0})], IsMulti(v))
  }

  /** One document with one element, and after it any documents without elements. */
  lemma SmallestColumn(h: Host, ty: Type, v: Value, e: Value, others: seq<Value>)
    requires TypeOf(v) == Some(ty) && Parts(v) == [e]
    requires forall o | 0 <= o < |others| :: Fits(others[o], ty) && Parts(others[o]) == []
    ensures Serves(h, ty, OneEntry(v, e), [v] + others)
  {
    var column, x := [v] + others, OneEntry(v, e);
    forall o | 0 <= o < |column|
      ensures Fits(column[o], ty) && (if o == 0 then e in Parts(column[o]) else Parts(column[o]) == [])
    {
      assert o > 0 ==> column[o] == others[o - 1];
    }
    assert column[0] == v && e in Parts(column[0]);
    assert Holders(column, e) == {0};
    forall o | 0 <= o < |column| ensures IsMulti(column[o]) ==> IsMulti(v) {
      assert !column[o].Null? ==> TypeOf(column[o]) == TypeOf(v);
    }
    forall o, p | 0 <= o < |column| && p in Parts(column[o]) ensures Listed(x.entries, p) {
      assert o == 0 && p == e;
      assert x.entries[0].value == p;
    }
  }

  ghost predicate DishonestOn(h: Host, ty: Type, op: Op, operand: Value, x: Index, column: seq<Value>) {
    Serves(h, ty, x, column) && !Honest(Select(h, x, op, operand), Hits(h, column, op, operand))
  }

  ghost predicate Dishonest(h: Host, ty: Type, op: Op, operand: Value) {
    exists x, column :: DishonestOn(h, ty, op, operand, x, column)
  }

  lemma HitAt(h: Host, column: seq<Value>, op: Op, operand: Value, o: nat)
    ensures o in Hits(h, column, op, operand) <==> o < |column| && Eval(h, column[o], op, operand)
  {
  }

  lemma Caught(h: Host, ty: Type, op: Op, operand: Value, x: Index, column: seq<Value>, o: nat)
    requires Serves(h, ty, x, column) && Select(h, x, op, operand).Some?
    requires var s, hits := Select(h, x, op, operand).value, Hits(h, column, op, operand);
      if o in hits then o !in s.ordinals else o in s.ordinals && s.exact
    ensures Dishonest(h, ty, op, operand)
  {
    hide Hits, Select, Serves;
    assert DishonestOn(h, ty, op, operand, x, column);
  }

  /** A column `[v]` whose only document the scan refuses and the index returns. */
  lemma FalseHit(h: Host, ty: Type, op: Op, operand: Value, v: Value, e: Value)
    requires TypeOf(v) == Some(ty) && Parts(v) == [e] && !Eval(h, v, op, operand)
    requires Select(h, OneEntry(v, e), op, operand) == Some(Selection({0}, true))
    ensures Dishonest(h, ty, op, operand)
  {
    hide Hits, Eval, Select, Serves, Parts, OneEntry, Dishonest;
    SmallestColumn(h, ty, v, e, []);
    assert [v] + [] == [v];
    HitAt(h, [v], op, operand, 0);
    Caught(h, ty, op, operand, OneEntry(v, e), [v], 0);
  }

  /** A column `[v, other]` whose second document the scan accepts and the index does not return. */
  lemma LostHit(h: Host, ty: Type, op: Op, operand: Value, v: Value, e: Value, other: Value)
    requires TypeOf(v) == Some(ty) && Parts(v) == [e]
    requires Fits(other, ty) && Parts(other) == [] && Eval(h, other, op, operand)
    requires var s := Select(h, OneEntry(v, e), op, operand); s.Some? && 1 !in s.value.ordinals
    ensures Dishonest(h, ty, op, operand)
  {
    hide Hits, Eval, Select, Serves, Parts, OneEntry, Dishonest;
    SmallestColumn(h, ty, v, e, [other]);
    HitAt(h, [v] + [other], op, operand, 1);
    Caught(h, ty, op, operand, OneEntry(v, e), [v] + [other], 1);
  }

  /** What a lookup in one entry gives: the entry unless the needle compares and differs. */
  lemma LookupOne(h: Host, v: Value, e: Value, needle: Value)
    ensures Lookup(h, OneEntry(v, e), needle) == if Probe(h, e, needle) == Equal then {0} else {}
  {
  }

  lemma {:induction false} LookupAllOne(h: Host, v: Value, e: Value, needles: seq<Value>)
    ensures LookupAll(h, OneEntry(v, e), needles) <= {0}
    ensures (exists w | w in needles :: Probe(h, e, w) == Equal) ==> LookupAll(h, OneEntry(v, e), needles) == {0}
    decreases |needles|
  {
    if needles != [] {
      LookupOne(h, v, e, needles[0]);
      LookupAllOne(h, v, e, needles[1..]);
      assert [needles[0]] + needles[1..] == needles;
    }
  }

  lemma EqDishonest(h: Host, ty: Type, operand: Value)
    requires Settled(Eq, ty, operand) && !Faithful(h, ty, Eq, operand)
    ensures Dishonest(h, ty, Eq, operand)
  {
    var v := Sample(ty);
    assert Compare(h, v, operand) == None;
    LookupOne(h, v, v, operand);
    FalseHit(h, ty, Eq, operand, v, v);
  }

  lemma NullListDishonest(h: Host, ty: Type, op: Op)
    requires op.In? || op.ContainsAny?
    ensures Dishonest(h, ty, op, Null)
  {
    var v := Sample(ty);
    var e := Parts(v)[0];
    LookupAllOne(h, v, e, Elements(Null));
    assert SomeEqual(h, [Null], Null) && ShareElement(h, [Null], [Null]) by {
      assert Equals(h, Null, Null) && Null in [Null];
    }
    LostHit(h, ty, op, Null, v, e, Null);
  }

  /** A non-null element that no value of the type equals, or an array where an element is asked for. */
  lemma ListDishonest(h: Host, ty: Type, op: Op, operand: Value)
    requires op.In? || op.ContainsAny?
    requires Settled(op, ty, operand) && !Faithful(h, ty, op, operand)
    ensures Dishonest(h, ty, op, operand)
  {
    hide Compare, Faithful, Dishonest, Probe, Eval, SomeEqual, ShareElement;
    if operand.Null? {
      NullListDishonest(h, ty, op);
    } else {
      var w := BadElement(h, ty, op, operand);
      var e := if TypeOf(w) == Some(ElementType(ty)) then w else Sample(ElementType(ty));
      var v := Wrap(ty, e);
      BlindOrEqual(h, ty, op, operand, e, w);
      LookupAllOne(h, v, e, Elements(operand));
      NoneEqual(h, ty, op, operand, v, w);
      FalseHit(h, ty, op, operand, v, e);
    }
  }

  lemma BlindOrEqual(h: Host, ty: Type, op: Op, operand: Value, e: Value, w: Value)
    requires op.TakesElements() && Settled(op, ty, operand) && !operand.Null? && w in Elements(operand)
    requires TypeOf(e) == Some(ElementType(ty)) && (TypeOf(w) == Some(ElementType(ty)) ==> e == w)
    ensures Probe(h, e, w) == Equal
  {
    if w == e && ty != TSparse {
      CompareIsTotal(h, ElementType(ty), e, w);
    }
  }

  lemma BadElement(h: Host, ty: Type, op: Op, operand: Value) returns (w: Value)
    requires (op.In? || op.ContainsAny?) && !Faithful(h, ty, op, operand)
    ensures w in Elements(operand) && (TypeOf(w) != Some(ElementType(ty)) || (op.In? && IsArray(ty)) || ty == TSparse)
  {
    w := Elements(operand)[0];
    if !(op.In? && IsArray(ty)) && ty != TSparse {
      w :| w in Elements(operand) && TypeOf(w) != Some(ElementType(ty));
    }
  }

  lemma NoneEqual(h: Host, ty: Type, op: Op, operand: Value, v: Value, w: Value)
    requires (op.In? || op.ContainsAny?) && Settled(op, ty, operand) && !operand.Null? && TypeOf(v) == Some(ty)
    requires w in Elements(operand) && (TypeOf(w) != Some(ElementType(ty)) || (op.In? && IsArray(ty)) || ty == TSparse)
    ensures !Eval(h, v, op, operand)
  {
  }

  lemma ContainsDishonest(h: Host, ty: Type, operand: Value)
    requires Settled(Contains, ty, operand) && !Faithful(h, ty, Contains, operand)
    ensures Dishonest(h, ty, Contains, operand)
  {
    var e := if TypeOf(operand) == Some(ElementType(ty)) then operand else Sample(ElementType(ty));
    var v := Wrap(ty, e);
    if e == operand {
      CompareIsTotal(h, ElementType(ty), e, operand);
    }
    LookupOne(h, v, e, operand);
    FalseHit(h, ty, Contains, operand, v, e);
  }

  lemma PatternDishonest(h: Host, ty: Type, op: Op, operand: Value)
    requires op.Glob? || op.IGlob? || op.Regex?
    requires !Faithful(h, ty, op, operand)
    ensures Dishonest(h, ty, op, operand)
  {
    var t: string :| MatchesPattern(h, op, String(t), operand);
    var x := OneEntry(StringArray([t]), String(t));
    assert Gather(x.entries, v => MatchesPattern(h, op, v, operand)) == {0} by {
      assert Gather(x.entries[1..], v => MatchesPattern(h, op, v, operand)) == {};
    }
    FalseHit(h, ty, op, operand, StringArray([t]), String(t));
  }

  /** An array longer by one element. */
  function Longer(v: Value): (r: Value)
    requires IsMulti(v)
    ensures TypeOf(r) == TypeOf(v) && Parts(r) != []
  {
    match v
    case StringArray(a) => StringArray(a + [""])
    case UintArray(a) => UintArray(a + [0])
    case IntArray(a) => IntArray(a + [0])
  }

  function EmptyArray(ty: Type): (v: Value)
    requires IsArray(ty)
    ensures TypeOf(v) == Some(ty) && Parts(v) == []
  {
    match ty
    case TStringArray => StringArray([])
    case TUintArray => UintArray([])
    case TIntArray => IntArray([])
  }

  lemma {:induction false} PrefixIsLess<T(!new)>(a: seq<T>, b: seq<T>, cmp: (T, T) -> Ordering)
    requires IsOrder(cmp) && b != []
    ensures Lex(a + b, a, cmp) == Greater
    decreases |a|
  {
    if a == [] {
      assert a + b == b;
    } else {
      assert (a + b)[0] == a[0] && (a + b)[1..] == a[1..] + b;
      PrefixIsLess(a[1..], b, cmp);
    }
  }

  lemma LongerIsGreater(h: Host, v: Value)
    requires IsMulti(v)
    ensures Compare(h, Longer(v), v) == Some(Greater)
  {
    StringOrder();
    match v
    case StringArray(a) => PrefixIsLess(a, [""], CmpString);
    case UintArray(a) => PrefixIsLess<int>(a, [0], CmpInt);
    case IntArray(a) => PrefixIsLess<int>(a, [0], CmpInt);
  }

  lemma SomeSlots(column: seq<Value>) returns (slots: seq<Entry>)
    ensures AllFiled(slots, column)
  {
    hide Parts;
    var parts := set o, p | 0 <= o < |column| && p in Parts(column[o]) :: p;
    var todo := parts;
    slots := [];
    while todo != {}
      invariant todo <= parts
      invariant forall v | v in parts - todo :: Listed(slots, v)
      invariant forall i | 0 <= i < |slots| ::
        slots[i].value in parts - todo && slots[i].ordinals == Holders(column, slots[i].value)
      invariant forall i, j | 0 <= i < j < |slots| :: slots[i].value != slots[j].value
    {
      var v :| v in todo;
      todo := todo - {v};
      var longer := slots + [Entry(v, Holders(column, v))];
      forall u | u in parts - todo ensures Listed(longer, u) {
        if u == v {
          assert longer[|slots|].value == u;
        } else {
          assert Listed(slots, u);
          var i :| 0 <= i < |slots| && slots[i].value == u;
          assert longer[i].value == u;
        }
      }
      slots := longer;
    }
    forall i | 0 <= i < |slots| ensures Holders(column, slots[i].value) != {} {
      var o, p :| 0 <= o < |column| && p in Parts(column[o]) && p == slots[i].value;
      assert o in Holders(column, p);
    }
    forall v | Holders(column, v) != {} ensures Listed(slots, v) {
      var o :| o in Holders(column, v);
      assert v in parts;
    }
  }

  /** Arrays at least as great as the operand exist, but no element compares with it. */
  lemma AboveDishonest(h: Host, ty: Type, op: Op, operand: Value)
    requires (op.Gt? || op.Gte?) && IsArray(ty) && TypeOf(operand) == Some(ty)
    ensures Dishonest(h, ty, op, operand)
  {
    hide Dishonest, Gather, Indexes, AllFiled, Compare, Parts;
    var v := Longer(operand);
    var column := [v];
    var slots := SomeSlots(column);
    var x := Index(Placed(h, slots), true);
    assert IsMulti(column[0]);
    InOrderIsIndex(h, ty, slots, column, true);
    StoredBecausePart(h, x, column, Parts(v)[0]);
    LongerIsGreater(h, operand);
    HitAt(h, column, op, operand, 0);
    GatherAt(h, x, column, p => InRange(op, Compare(h, p, operand)), 0);
    forall p | p in Parts(v) ensures Compare(h, p, operand) == None {
      ElementAgainstArray(h, ty, v, p, operand);
    }
    Caught(h, ty, op, operand, x, column, 0);
  }

  lemma StoredBecausePart(h: Host, x: Index, column: seq<Value>, p: Value)
    requires Indexes(h, x, column) && column != [] && p in Parts(column[0])
    ensures x.entries != []
  {
    assert Listed(x.entries, p);
  }

  lemma ElementAgainstArray(h: Host, ty: Type, v: Value, p: Value, operand: Value)
    requires IsArray(ty) && TypeOf(v) == Some(ty) && p in Parts(v) && TypeOf(operand) == Some(ty)
    ensures Compare(h, p, operand) == None
  {
  }

  /** The empty array comes first, but has no element to be found by. */
  lemma BelowDishonest(h: Host, ty: Type, op: Op, operand: Value)
    requires op.Lte? || (op.Lt? && Elements(operand) != [])
    requires IsArray(ty) && TypeOf(operand) == Some(ty)
    ensures Dishonest(h, ty, op, operand)
  {
    hide Dishonest;
    var e, other := Sample(ElementType(ty)), EmptyArray(ty);
    var v := Wrap(ty, e);
    assert Gather(OneEntry(v, e).entries, p => InRange(op, Compare(h, p, operand))) <= {0} by {
      assert Gather(OneEntry(v, e).entries[1..], p => InRange(op, Compare(h, p, operand))) == {};
    }
    LostHit(h, ty, op, operand, v, e, other);
  }

  /** The comparisons the index may be asked about are exactly those it answers honestly over every
      stored column; each other one has a column of one or two documents where it lies. */
  lemma FaithfulIsExact(h: Host, ty: Type, op: Op, operand: Value)
    requires Settled(op, ty, operand)
    ensures Faithful(h, ty, op, operand) <==>
            forall x, column :: Serves(h, ty, x, column) ==>
                Honest(Select(h, x, op, operand), Hits(h, column, op, operand))
  {
    hide Select, Hits, Serves, Eval;
    if Faithful(h, ty, op, operand) {
      forall x, column | Serves(h, ty, x, column)
        ensures Honest(Select(h, x, op, operand), Hits(h, column, op, operand))
      {
        FaithfulIsHonest(h, ty, x, column, op, operand);
      }
    } else {
      UnfaithfulIsDishonest(h, ty, op, operand);
      var x, column :| DishonestOn(h, ty, op, operand, x, column);
    }
  }

  lemma UnfaithfulIsDishonest(h: Host, ty: Type, op: Op, operand: Value)
    requires Settled(op, ty, operand) && !Faithful(h, ty, op, operand)
    ensures Dishonest(h, ty, op, operand)
  {
    hide Dishonest;
    if op.Eq? {
      EqDishonest(h, ty, operand);
    } else if op.In? || op.ContainsAny? {
      ListDishonest(h, ty, op, operand);
    } else if op.Contains? {
      ContainsDishonest(h, ty, operand);
    } else if op.Glob? || op.IGlob? || op.Regex? {
      PatternDishonest(h, ty, op, operand);
    } else if op.Gt? || op.Gte? {
      AboveDishonest(h, ty, op, operand);
    } else {
      BelowDishonest(h, ty, op, operand);
    }
  }
}
