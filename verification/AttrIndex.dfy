/** Inverted attribute indexes: what a lookup may claim about the scan it replaces (src/attrindex.rs). */
module AttrIndex {
  import opened Wrappers
  import opened Values
  import opened Filters

  datatype Entry = Entry(value: Value, ordinals: set<nat>)

  /** Entries ascend by value; for an array attribute they are its elements. */
  datatype Index = Index(entries: seq<Entry>, multiValued: bool)

  /** `exact` claims that `ordinals` is the answer and not just a superset of it. */
  datatype Selection = Selection(ordinals: set<nat>, exact: bool)

  predicate IsMulti(v: Value) { v.StringArray? || v.UintArray? || v.IntArray? }

  /** The keys a value is filed under. */
  function Parts(v: Value): seq<Value> {
    if v.Null? then [] else Elements(v)
  }

  function Holders(column: seq<Value>, v: Value): set<nat> {
    set o | 0 <= o < |column| && v in Parts(column[o])
  }

  predicate Listed(entries: seq<Entry>, v: Value) {
    exists i | 0 <= i < |entries| :: entries[i].value == v
  }

  predicate Ascending(h: Host, entries: seq<Entry>) {
    forall i, j | 0 <= i < j < |entries| ::
      entries[i].value != entries[j].value && Compare(h, entries[i].value, entries[j].value) != Some(Greater)
  }

  /** What an index of a column holds: `column[o]` is the attribute of document `o`, null when missing. */
  ghost predicate Indexes(h: Host, x: Index, column: seq<Value>) {
    && (x.multiValued <==> exists o | 0 <= o < |column| :: IsMulti(column[o]))
    && (forall i | 0 <= i < |x.entries| :: x.entries[i].ordinals == Holders(column, x.entries[i].value))
    && (forall o, p | 0 <= o < |column| && p in Parts(column[o]) :: Listed(x.entries, p))
    && (forall i | 0 <= i < |x.entries| :: x.entries[i].ordinals != {})
    && Ascending(h, x.entries)
  }

  // ------------------------------------------------------------ building

  ghost predicate ColumnOf(ty: Type, column: seq<Value>) {
    forall o | 0 <= o < |column| :: Fits(column[o], ty)
  }

  lemma PartsFit(v: Value, ty: Type, p: Value)
    requires Fits(v, ty) && p in Parts(v)
    ensures TypeOf(p) == Some(ElementType(ty))
  {
  }

  predicate Before(h: Host, a: Entry, b: Entry) { Compare(h, a.value, b.value) == Some(Less) }

  function Place(h: Host, e: Entry, entries: seq<Entry>): seq<Entry> {
    if entries == [] || Before(h, e, entries[0]) then [e] + entries
    else [entries[0]] + Place(h, e, entries[1..])
  }

  predicate AllFit(entries: seq<Entry>, ty: Type) {
    forall e | e in entries :: TypeOf(e.value) == Some(ty)
  }

  lemma {:induction false} PlaceMembers(h: Host, e: Entry, entries: seq<Entry>)
    ensures forall x :: x in Place(h, e, entries) <==> x == e || x in entries
    decreases |entries|
  {
    if entries != [] && !Before(h, e, entries[0]) {
      PlaceMembers(h, e, entries[1..]);
      assert [entries[0]] + entries[1..] == entries;
    }
  }

  /** Placing an entry keeps the order; sparse vectors have none, and stay as they come. */
  lemma {:induction false} PlaceAscends(h: Host, e: Entry, entries: seq<Entry>, ty: Type)
    requires AllFit(entries, ty) && TypeOf(e.value) == Some(ty)
    requires Ascending(h, entries) && !Listed(entries, e.value)
    ensures Ascending(h, Place(h, e, entries)) && AllFit(Place(h, e, entries), ty)
    decreases |entries|
  {
    hide Compare;
    PlaceMembers(h, e, entries);
    if entries != [] {
      if Before(h, e, entries[0]) {
        forall j | 0 <= j < |entries| ensures Compare(h, e.value, entries[j].value) != Some(Greater) {
          FirstIsLeast(h, ty, e, entries, j);
        }
      } else {
        var rest := Place(h, e, entries[1..]);
        assert !Listed(entries[1..], e.value) by {
          forall i | 0 <= i < |entries[1..]| ensures entries[1..][i].value != e.value {
            assert entries[1..][i] == entries[i + 1];
          }
        }
        PlaceAscends(h, e, entries[1..], ty);
        PlaceMembers(h, e, entries[1..]);
        forall j | 0 <= j < |rest|
          ensures entries[0].value != rest[j].value && Compare(h, entries[0].value, rest[j].value) != Some(Greater)
        {
          assert rest[j] in rest;
          NotAfter(h, ty, entries[0], e);
        }
      }
    }
  }

  lemma FirstIsLeast(h: Host, ty: Type, e: Entry, entries: seq<Entry>, j: nat)
    requires AllFit(entries, ty) && TypeOf(e.value) == Some(ty) && Ascending(h, entries)
    requires j < |entries| && Before(h, e, entries[0])
    ensures Compare(h, e.value, entries[j].value) == Some(Less)
  {
    hide Compare;
    if ty == TSparse {
      SparseIsUnordered(h, e.value, entries[0].value);
    } else if j > 0 {
      CompareIsTotal(h, ty, entries[0].value, entries[j].value);
      CompareIsTransitive(h, ty, e.value, entries[0].value, entries[j].value);
    }
  }

  lemma SparseIsUnordered(h: Host, a: Value, b: Value)
    requires a.Sparse? || b.Sparse?
    requires !a.Null? && !b.Null?
    ensures Compare(h, a, b) == None
  {
  }

  lemma NotAfter(h: Host, ty: Type, a: Entry, e: Entry)
    requires TypeOf(a.value) == TypeOf(e.value) == Some(ty) && !Before(h, e, a)
    ensures Compare(h, a.value, e.value) != Some(Greater)
  {
    hide Compare;
    if ty == TSparse {
      SparseIsUnordered(h, a.value, e.value);
    } else {
      CompareIsTotal(h, ty, e.value, a.value);
    }
  }

  /** What has been filed when `k` parts of document `o` are done. */
  function SoFar(column: seq<Value>, o: nat, k: nat, v: Value): set<nat>
    requires o <= |column| && (o < |column| ==> k <= |Parts(column[o])|)
  {
    Holders(column[..o], v) + if o < |column| && v in Parts(column[o])[..k] then {o} else {}
  }

  ghost predicate Filed(slots: seq<Entry>, places: map<Value, nat>, column: seq<Value>, o: nat, k: nat)
    requires o <= |column| && (o < |column| ==> k <= |Parts(column[o])|)
  {
    && (forall v | v in places :: places[v] < |slots| && slots[places[v]].value == v)
    && (forall i | 0 <= i < |slots| :: slots[i].value in places && places[slots[i].value] == i)
    && (forall i | 0 <= i < |slots| :: slots[i].ordinals == SoFar(column, o, k, slots[i].value) != {})
    && (forall v | SoFar(column, o, k, v) != {} :: v in places)
  }

  /** File one part under its slot, opening the slot if there is none. */
  method File(slots: seq<Entry>, places: map<Value, nat>, column: seq<Value>, o: nat, k: nat)
    returns (slots': seq<Entry>, places': map<Value, nat>)
    requires o < |column| && k < |Parts(column[o])| && Filed(slots, places, column, o, k)
    ensures Filed(slots', places', column, o, k + 1)
  {
    hide Parts, Holders;
    var part := Parts(column[o])[k];
    forall v ensures SoFar(column, o, k + 1, v) == SoFar(column, o, k, v) + if v == part then {o} else {} {
      assert Parts(column[o])[..k + 1] == Parts(column[o])[..k] + [part];
    }
    if part in places {
      var i := places[part];
      slots' := slots[i := Entry(part, slots[i].ordinals + {o})];
      places' := places;
    } else {
      slots' := slots + [Entry(part, {o})];
      places' := places[part := |slots|];
      assert SoFar(column, o, k, part) == {};
    }
  }

  lemma NextDocument(column: seq<Value>, o: nat, v: Value)
    requires o < |column|
    ensures SoFar(column, o + 1, 0, v) == SoFar(column, o, |Parts(column[o])|, v)
  {
    assert column[..o + 1] == column[..o] + [column[o]];
    assert Parts(column[o])[..|Parts(column[o])|] == Parts(column[o]);
    forall q | 0 <= q < o ensures column[..o + 1][q] == column[..o][q] {}
    assert column[..o + 1][o] == column[o];
  }

  ghost predicate AllFiled(slots: seq<Entry>, column: seq<Value>) {
    && (forall i, j | 0 <= i < j < |slots| :: slots[i].value != slots[j].value)
    && (forall i | 0 <= i < |slots| :: slots[i].ordinals == Holders(column, slots[i].value) != {})
    && (forall v | Holders(column, v) != {} :: Listed(slots, v))
  }

  /** One pass over the documents, with a slot for every distinct part. */
  method FileAll(column: seq<Value>) returns (slots: seq<Entry>, multi: bool)
    ensures AllFiled(slots, column)
    ensures multi <==> exists o | 0 <= o < |column| :: IsMulti(column[o])
  {
    hide Parts, Holders;
    slots, multi := [], false;
    var places: map<Value, nat> := map[];
    assert forall v :: SoFar(column, 0, 0, v) == {} by {
      FiledNothing(column);
    }
    for o := 0 to |column|
      invariant Filed(slots, places, column, o, 0)
      invariant multi <==> exists q | 0 <= q < o :: IsMulti(column[q])
    {
      multi := multi || IsMulti(column[o]);
      for k := 0 to |Parts(column[o])|
        invariant Filed(slots, places, column, o, k)
      {
        slots, places := File(slots, places, column, o, k);
      }
      forall v ensures SoFar(column, o + 1, 0, v) == SoFar(column, o, |Parts(column[o])|, v) {
        NextDocument(column, o, v);
      }
    }
    assert column[..|column|] == column;
    assert forall v :: SoFar(column, |column|, 0, v) == Holders(column, v);
    forall v | Holders(column, v) != {} ensures Listed(slots, v) {
      assert slots[places[v]].value == v;
    }
  }

  lemma FiledNothing(column: seq<Value>)
    ensures forall v :: SoFar(column, 0, 0, v) == {}
  {
  }

  /** The slots in order of value. */
  lemma {:induction false} PlacedInOrder(h: Host, slots: seq<Entry>, ty: Type)
    requires AllFit(slots, ty) && forall i, j | 0 <= i < j < |slots| :: slots[i].value != slots[j].value
    ensures Ascending(h, Placed(h, slots)) && AllFit(Placed(h, slots), ty)
    ensures forall e :: e in Placed(h, slots) <==> e in slots
    decreases |slots|
  {
    if slots != [] {
      PlacedInOrder(h, slots[1..], ty);
      var rest := Placed(h, slots[1..]);
      assert [slots[0]] + slots[1..] == slots;
      assert !Listed(rest, slots[0].value) by {
        forall i | 0 <= i < |rest| ensures rest[i].value != slots[0].value {
          assert rest[i] in rest;
          var j :| 0 <= j < |slots[1..]| && slots[1..][j] == rest[i];
          assert slots[j + 1] == rest[i];
        }
      }
      PlaceAscends(h, slots[0], rest, ty);
      PlaceMembers(h, slots[0], rest);
    }
  }

  function Placed(h: Host, slots: seq<Entry>): seq<Entry> {
    if slots == [] then [] else Place(h, slots[0], Placed(h, slots[1..]))
  }

  lemma SlotsFit(slots: seq<Entry>, column: seq<Value>, ty: Type)
    requires ColumnOf(ty, column) && AllFiled(slots, column)
    ensures AllFit(slots, ElementType(ty))
  {
    forall e | e in slots ensures TypeOf(e.value) == Some(ElementType(ty)) {
      var i :| 0 <= i < |slots| && slots[i] == e;
      var o :| o in e.ordinals;
      PartsFit(column[o], ty, e.value);
    }
  }

  lemma InOrderIsIndex(h: Host, ty: Type, slots: seq<Entry>, column: seq<Value>, multi: bool)
    requires ColumnOf(ty, column) && AllFiled(slots, column)
    requires multi <==> exists o | 0 <= o < |column| :: IsMulti(column[o])
    ensures Indexes(h, Index(Placed(h, slots), multi), column)
  {
    hide Parts, Placed;
    SlotsFit(slots, column, ty);
    PlacedInOrder(h, slots, ElementType(ty));
    var entries := Placed(h, slots);
    forall i | 0 <= i < |entries| ensures entries[i].ordinals == Holders(column, entries[i].value) != {} {
      assert entries[i] in entries;
    }
    forall o, p | 0 <= o < |column| && p in Parts(column[o]) ensures Listed(entries, p) {
      assert o in Holders(column, p);
      var i :| 0 <= i < |slots| && slots[i].value == p;
      assert slots[i] in entries;
    }
  }

  /** The index of a column of one declared type. */
  method Build(h: Host, column: seq<Value>, ghost ty: Type) returns (x: Index)
    requires ColumnOf(ty, column)
    ensures Indexes(h, x, column)
  {
    var slots, multi := FileAll(column);
    x := Index(Placed(h, slots), multi);
    InOrderIsIndex(h, ty, slots, column, multi);
  }

  // ------------------------------------------------------------ selecting

  /** Values that cannot be compared count as equal. */
  function Probe(h: Host, v: Value, needle: Value): Ordering {
    var c := Compare(h, v, needle);
    if c.Some? then c.value else Equal
  }

  function Search(h: Host, entries: seq<Entry>, needle: Value, lo: nat, hi: nat): (r: Option<nat>)
    requires lo <= hi <= |entries|
    ensures r.Some? ==> lo <= r.value < hi
    decreases hi - lo
  {
    if lo == hi then None
    else
      var mid := (lo + hi) / 2;
      match Probe(h, entries[mid].value, needle)
      case Equal => Some(mid)
      case Less => Search(h, entries, needle, mid + 1, hi)
      case Greater => Search(h, entries, needle, lo, mid)
  }

  function Lookup(h: Host, x: Index, needle: Value): set<nat> {
    var found := Search(h, x.entries, needle, 0, |x.entries|);
    if found.Some? then x.entries[found.value].ordinals else {}
  }

  function LookupAll(h: Host, x: Index, needles: seq<Value>): set<nat> {
    if needles == [] then {} else Lookup(h, x, needles[0]) + LookupAll(h, x, needles[1..])
  }

  function Gather(entries: seq<Entry>, pick: Value -> bool): set<nat> {
    if entries == [] then {}
    else (if pick(entries[0].value) then entries[0].ordinals else {}) + Gather(entries[1..], pick)
  }

  /** The ordinals whose value satisfies `op`; `None` means "cannot answer", never "matches nothing". */
  function Select(h: Host, x: Index, op: Op, operand: Value): Option<Selection> {
    match op
    case Eq =>
      if x.multiValued || operand.Null? then None else Some(Selection(Lookup(h, x, operand), true))
    case In => Some(Selection(LookupAll(h, x, Elements(operand)), true))
    case ContainsAny => Some(Selection(LookupAll(h, x, Elements(operand)), true))
    case Contains =>
      if x.multiValued then Some(Selection(Lookup(h, x, operand), true))
      else Some(Selection(Gather(x.entries, v => TextContains(h, v, operand)), true))
    case Glob => SelectPattern(h, x, op, operand)
    case IGlob => SelectPattern(h, x, op, operand)
    case Regex => SelectPattern(h, x, op, operand)
    case _ =>
      if op.IsRange() && !operand.Null? then
        Some(Selection(Gather(x.entries, v => InRange(op, Compare(h, v, operand))), !x.multiValued))
      else None
  }

  predicate TextContains(h: Host, v: Value, operand: Value) {
    var hay, needle := AsText(h, v), AsText(h, operand);
    hay.Some? && needle.Some? && IsSubstring(needle.value, hay.value)
  }

  function SelectPattern(h: Host, x: Index, op: Op, operand: Value): Option<Selection> {
    var text :- AsText(h, operand);
    var m :- Pattern(h, op, text);
    Some(Selection(Gather(x.entries, v => MatchesPattern(h, op, v, operand)), true))
  }

  /** What an index answers at all, and when it says exactly: the plain forms, not the negated nor the full-text ones;
      equality only over single values, and ranges over arrays as a superset only. */
  lemma SelectAnswers(h: Host, x: Index, op: Op, operand: Value)
    ensures Select(h, x, op, operand).Some? <==>
            || op.In? || op.ContainsAny? || op.Contains?
            || (op.Eq? && !x.multiValued && !operand.Null?) || (op.IsRange() && !operand.Null?)
            || ((op.Glob? || op.IGlob? || op.Regex?) && AsText(h, operand).Some? &&
                Pattern(h, op, AsText(h, operand).value).Some?)
    ensures Select(h, x, op, operand).Some? ==>
      (Select(h, x, op, operand).value.exact <==> !(op.IsRange() && x.multiValued))
  {
    hide Gather, Lookup, LookupAll, Pattern, Compare, Elements, AsText, InRange, MatchesPattern, TextContains;
  }

  // ------------------------------------------------------------ what a selection may claim

  /** A stored index of an attribute declared `ty`: empty indexes are never stored. */
  ghost predicate Serves(h: Host, ty: Type, x: Index, column: seq<Value>) {
    ColumnOf(ty, column) && Indexes(h, x, column) && x.entries != []
  }

  /** The documents the scan accepts. */
  ghost function Hits(h: Host, column: seq<Value>, op: Op, operand: Value): set<nat> {
    set o | 0 <= o < |column| && Eval(h, column[o], op, operand)
  }

  ghost predicate Honest(s: Option<Selection>, hits: set<nat>) {
    s.Some? ==> hits <= s.value.ordinals && (s.value.exact ==> s.value.ordinals == hits)
  }

  predicate AllOf(vs: seq<Value>, ty: Type) {
    forall v | v in vs :: TypeOf(v) == Some(ty)
  }

  /** The comparisons a stored index answers honestly whatever the documents hold. Not so: `Eq` with a
      list operand; a range over arrays; `In` over arrays; a null in `In` or `ContainsAny`; a list packed as
      text against a type that is not text; membership in `[]int`; a pattern over `[]string`. */
  ghost predicate Faithful(h: Host, ty: Type, op: Op, operand: Value) {
    match op
    case Eq => IsArray(ty) || operand.Null? || (ty != TSparse && TypeOf(operand) == Some(ty))
    case In =>
      || Elements(operand) == []
      || (!IsArray(ty) && ty != TSparse && AllOf(Elements(operand), ty))
    case ContainsAny =>
      || Elements(operand) == []
      || (ty != TSparse && AllOf(Elements(operand), ElementType(ty)))
    case Contains =>
      || !IsArray(ty) || operand.Null?
      || (ty != TIntArray && TypeOf(operand) == Some(ElementType(ty)))
    case Glob => ty == TStringArray ==> MatchesNothing(h, op, operand)
    case IGlob => ty == TStringArray ==> MatchesNothing(h, op, operand)
    case Regex => ty == TStringArray ==> MatchesNothing(h, op, operand)
    case _ =>
      op.IsRange() && IsArray(ty) ==> TypeOf(operand) != Some(ty) || (op.Lt? && Elements(operand) == [])
  }

  ghost predicate MatchesNothing(h: Host, op: Op, operand: Value) {
    forall t: string :: !MatchesPattern(h, op, String(t), operand)
  }

  // ------------------------------------------------------------ lookups on one type

  /** The middle entry says on which side of it the needle can stand. */
  lemma MiddleDecides(h: Host, ty: Type, entries: seq<Entry>, needle: Value, mid: nat, i: nat)
    requires Ordered(ty) && AllFit(entries, ty) && TypeOf(needle) == Some(ty) && Ascending(h, entries)
    requires mid < |entries| && i < |entries| && entries[i].value == needle
    ensures Probe(h, entries[mid].value, needle) == if mid < i then Less else if mid == i then Equal else Greater
  {
    hide Compare;
    var v := entries[mid].value;
    assert entries[mid] in entries;
    CompareIsTotal(h, ty, v, needle);
    CompareIsTotal(h, ty, needle, v);
  }

  lemma MiddleFound(h: Host, ty: Type, entries: seq<Entry>, needle: Value, mid: nat)
    requires Ordered(ty) && AllFit(entries, ty) && TypeOf(needle) == Some(ty)
    requires mid < |entries| && Probe(h, entries[mid].value, needle) == Equal
    ensures entries[mid].value == needle
  {
    hide Compare;
    assert entries[mid] in entries;
    CompareIsTotal(h, ty, entries[mid].value, needle);
  }

  lemma {:induction false} SearchFinds(h: Host, ty: Type, entries: seq<Entry>, needle: Value, lo: nat, hi: nat)
    requires Ordered(ty) && AllFit(entries, ty) && TypeOf(needle) == Some(ty) && Ascending(h, entries)
    requires lo <= hi <= |entries|
    requires forall i | 0 <= i < |entries| :: entries[i].value == needle ==> lo <= i < hi
    ensures match Search(h, entries, needle, lo, hi)
            case Some(i) => entries[i].value == needle
            case None => !Listed(entries, needle)
    decreases hi - lo
  {
    hide Probe, Ascending, AllFit;
    if lo < hi {
      var mid := (lo + hi) / 2;
      forall i | 0 <= i < |entries| && entries[i].value == needle
        ensures Probe(h, entries[mid].value, needle) == if mid < i then Less else if mid == i then Equal else Greater
      {
        MiddleDecides(h, ty, entries, needle, mid, i);
      }
      match Probe(h, entries[mid].value, needle)
      case Equal => MiddleFound(h, ty, entries, needle, mid);
      case Less => SearchFinds(h, ty, entries, needle, mid + 1, hi);
      case Greater => SearchFinds(h, ty, entries, needle, lo, mid);
    }
  }

  lemma EntriesFit(h: Host, ty: Type, x: Index, column: seq<Value>)
    requires Serves(h, ty, x, column)
    ensures AllFit(x.entries, ElementType(ty))
    ensures x.multiValued <==> IsArray(ty)
  {
    forall e | e in x.entries ensures TypeOf(e.value) == Some(ElementType(ty)) {
      var o :| o in e.ordinals;
      PartsFit(column[o], ty, e.value);
    }
    var e := x.entries[0];
    var o :| o in e.ordinals;
    assert e.value in Parts(column[o]);
    assert IsMulti(column[o]) <==> IsArray(ty);
  }

  /** With a needle of the element type a lookup finds exactly the documents filed under it. */
  lemma LookupIsExact(h: Host, ty: Type, x: Index, column: seq<Value>, needle: Value)
    requires Serves(h, ty, x, column) && Ordered(ElementType(ty)) && TypeOf(needle) == Some(ElementType(ty))
    ensures Lookup(h, x, needle) == Holders(column, needle)
  {
    EntriesFit(h, ty, x, column);
    SearchFinds(h, ElementType(ty), x.entries, needle, 0, |x.entries|);
    if !Listed(x.entries, needle) {
      forall o | 0 <= o < |column| ensures needle !in Parts(column[o]) {
      }
    }
  }

  /** With a needle that compares with nothing, a lookup returns some document all the same. */
  lemma LookupIsBlind(h: Host, x: Index, needle: Value)
    requires x.entries != [] && forall i | 0 <= i < |x.entries| :: Compare(h, x.entries[i].value, needle) == None
    requires forall i | 0 <= i < |x.entries| :: x.entries[i].ordinals != {}
    ensures Lookup(h, x, needle) != {}
  {
  }

  lemma {:induction false} LookupAllIs(h: Host, x: Index, needles: seq<Value>, o: nat)
    ensures o in LookupAll(h, x, needles) <==> exists w | w in needles :: o in Lookup(h, x, w)
    decreases |needles|
  {
    if needles != [] {
      LookupAllIs(h, x, needles[1..], o);
      assert [needles[0]] + needles[1..] == needles;
    }
  }

  lemma {:induction false} GatherIs(entries: seq<Entry>, pick: Value -> bool, o: nat)
    ensures o in Gather(entries, pick) <==> exists e | e in entries :: pick(e.value) && o in e.ordinals
    decreases |entries|
  {
    if entries != [] {
      GatherIs(entries[1..], pick, o);
      assert [entries[0]] + entries[1..] == entries;
    }
  }

  ghost predicate SomePart(v: Value, pick: Value -> bool) {
    exists p | p in Parts(v) :: pick(p)
  }

  lemma OnePart(v: Value, pick: Value -> bool)
    requires !IsMulti(v)
    ensures SomePart(v, pick) <==> !v.Null? && pick(v)
  {
    if !v.Null? {
      assert Parts(v) == [v] && v in Parts(v);
    }
  }

  /** Testing every distinct value is testing every document. */
  lemma GatherAt(h: Host, x: Index, column: seq<Value>, pick: Value -> bool, o: nat)
    requires Indexes(h, x, column)
    ensures o in Gather(x.entries, pick) <==> o < |column| && SomePart(column[o], pick)
  {
    hide Gather, Parts, Ascending;
    GatherIs(x.entries, pick, o);
    if o < |column| && SomePart(column[o], pick) {
      var p :| p in Parts(column[o]) && pick(p);
      assert Listed(x.entries, p);
      var i :| 0 <= i < |x.entries| && x.entries[i].value == p;
      assert x.entries[i] in x.entries;
    }
  }

  lemma GatherIsExact(h: Host, x: Index, column: seq<Value>, pick: Value -> bool, hits: set<nat>)
    requires Indexes(h, x, column)
    requires hits == set o | 0 <= o < |column| && SomePart(column[o], pick)
    ensures Gather(x.entries, pick) == hits
  {
    hide Gather, Parts, Ascending, Indexes, SomePart;
    forall o: nat ensures o in Gather(x.entries, pick) <==> o in hits {
      GatherAt(h, x, column, pick, o);
    }
  }

  // ------------------------------------------------------------ faithful comparisons are honest

  lemma EqualIsSame(h: Host, ty: Type, a: Value, b: Value)
    requires Ordered(ty) && Fits(a, ty) && TypeOf(b) == Some(ty)
    ensures Equals(h, a, b) <==> a == b
  {
    if !a.Null? {
      CompareIsTotal(h, ty, a, b);
    }
  }

  lemma EqHonest(h: Host, ty: Type, x: Index, column: seq<Value>, operand: Value)
    requires Serves(h, ty, x, column) && Faithful(h, ty, Eq, operand)
    ensures Honest(Select(h, x, Eq, operand), Hits(h, column, Eq, operand))
  {
    hide Compare;
    EntriesFit(h, ty, x, column);
    if !IsArray(ty) && !operand.Null? {
      LookupIsExact(h, ty, x, column, operand);
      forall o | 0 <= o < |column| ensures Eval(h, column[o], Eq, operand) <==> operand in Parts(column[o]) {
        EqualIsSame(h, ty, column[o], operand);
      }
    }
  }

  /** One stored value against one wanted element. */
  lemma SharesIs(h: Host, ty: Type, v: Value, w: Value)
    requires Fits(v, ty) && Ordered(ElementType(ty)) && TypeOf(w) == Some(ElementType(ty))
    ensures SomeEqual(h, Elements(v), w) <==> w in Parts(v)
    ensures !IsArray(ty) ==> (Equals(h, v, w) <==> w in Parts(v))
  {
    forall m | m in Elements(v) ensures Equals(h, w, m) <==> m == w {
      if m.Null? {
        assert v.Null?;
      } else {
        PartsFit(v, ty, m);
        EqualIsSame(h, ElementType(ty), w, m);
      }
    }
    if !IsArray(ty) {
      EqualIsSame(h, ty, v, w);
    }
  }

  lemma ListHonest(h: Host, ty: Type, x: Index, column: seq<Value>, op: Op, operand: Value)
    requires op.In? || op.ContainsAny?
    requires Serves(h, ty, x, column) && Faithful(h, ty, op, operand)
    ensures Honest(Select(h, x, op, operand), Hits(h, column, op, operand))
  {
    hide Compare;
    var ws := Elements(operand);
    if ws != [] {
      forall o: nat ensures o in LookupAll(h, x, ws) <==> o in Hits(h, column, op, operand) {
        LookupAllIs(h, x, ws, o);
        forall w | w in ws ensures o in Lookup(h, x, w) <==> o < |column| && w in Parts(column[o]) {
          LookupIsExact(h, ty, x, column, w);
        }
        if o < |column| {
          forall w | w in ws ensures SomeEqual(h, Elements(column[o]), w) <==> w in Parts(column[o]) {
            SharesIs(h, ty, column[o], w);
          }
          if !IsArray(ty) {
            forall w | w in ws ensures Equals(h, column[o], w) <==> w in Parts(column[o]) {
              SharesIs(h, ty, column[o], w);
            }
          }
        }
      }
    }
  }

  lemma ContainsHonest(h: Host, ty: Type, x: Index, column: seq<Value>, operand: Value)
    requires Serves(h, ty, x, column) && Faithful(h, ty, Contains, operand)
    ensures Honest(Select(h, x, Contains, operand), Hits(h, column, Contains, operand))
  {
    hide Compare, Gather, SomePart, Search, IsSubstring;
    EntriesFit(h, ty, x, column);
    if !IsArray(ty) {
      forall o | 0 <= o < |column|
        ensures Eval(h, column[o], Contains, operand) <==> SomePart(column[o], v => TextContains(h, v, operand))
      {
        OnePart(column[o], v => TextContains(h, v, operand));
      }
      GatherIsExact(h, x, column, v => TextContains(h, v, operand), Hits(h, column, Contains, operand));
    } else if operand.Null? {
      forall i | 0 <= i < |x.entries| ensures !x.entries[i].value.Null? {
        assert x.entries[i] in x.entries;
      }
      SearchNull(h, x.entries, 0, |x.entries|);
    } else {
      LookupIsExact(h, ty, x, column, operand);
      forall o | 0 <= o < |column| ensures Eval(h, column[o], Contains, operand) <==> operand in Parts(column[o]) {
        SharesIs(h, ty, column[o], operand);
      }
    }
  }

  lemma {:induction false} SearchNull(h: Host, entries: seq<Entry>, lo: nat, hi: nat)
    requires lo <= hi <= |entries| && forall i | 0 <= i < |entries| :: !entries[i].value.Null?
    ensures Search(h, entries, Null, lo, hi) == None
    decreases hi - lo
  {
    if lo < hi {
      SearchNull(h, entries, lo, (lo + hi) / 2);
    }
  }

  lemma NotText(h: Host, op: Op, v: Value, operand: Value)
    requires AsText(h, v).None?
    ensures !MatchesPattern(h, op, v, operand)
  {
  }

  lemma NoElementMatches(h: Host, ty: Type, v: Value, op: Op, operand: Value)
    requires IsArray(ty) && Fits(v, ty) && (ty == TStringArray ==> MatchesNothing(h, op, operand))
    ensures !MatchesPattern(h, op, v, operand) && !SomePart(v, p => MatchesPattern(h, op, p, operand))
  {
    hide MatchesPattern, Parts;
    NotText(h, op, v, operand);
    forall p | p in Parts(v) ensures !MatchesPattern(h, op, p, operand) {
      PartsFit(v, ty, p);
      if ty != TStringArray {
        NotText(h, op, p, operand);
      }
    }
  }

  lemma PatternHonest(h: Host, ty: Type, x: Index, column: seq<Value>, op: Op, operand: Value)
    requires op.Glob? || op.IGlob? || op.Regex?
    requires Serves(h, ty, x, column) && Faithful(h, ty, op, operand)
    ensures Honest(Select(h, x, op, operand), Hits(h, column, op, operand))
  {
    hide Gather, SomePart, Indexes;
    forall o | 0 <= o < |column|
      ensures Eval(h, column[o], op, operand) <==> SomePart(column[o], v => MatchesPattern(h, op, v, operand))
    {
      if IsArray(ty) {
        NoElementMatches(h, ty, column[o], op, operand);
      } else {
        OnePart(column[o], v => MatchesPattern(h, op, v, operand));
      }
    }
    GatherIsExact(h, x, column, v => MatchesPattern(h, op, v, operand), Hits(h, column, op, operand));
  }

  lemma NoArrayInRange(h: Host, ty: Type, v: Value, op: Op, operand: Value)
    requires op.IsRange() && Settled(op, ty, operand) && Faithful(h, ty, op, operand) && IsArray(ty) && Fits(v, ty) &&
      !operand.Null?
    ensures !Eval(h, v, op, operand)
  {
    hide Compare;
    if TypeOf(operand) == Some(ty) {
      NothingBelowEmpty(h, ty, v, operand);
    } else {
      OtherArray(h, ty, v, operand);
    }
  }

  lemma RangeHonest(h: Host, ty: Type, x: Index, column: seq<Value>, op: Op, operand: Value)
    requires op.IsRange() && Settled(op, ty, operand)
    requires Serves(h, ty, x, column) && Faithful(h, ty, op, operand)
    ensures Honest(Select(h, x, op, operand), Hits(h, column, op, operand))
  {
    hide Compare, Gather, SomePart, Indexes, InRange, Faithful, Settled;
    EntriesFit(h, ty, x, column);
    if !operand.Null? {
      if IsArray(ty) {
        forall o | 0 <= o < |column| ensures !Eval(h, column[o], op, operand) {
          NoArrayInRange(h, ty, column[o], op, operand);
        }
      } else {
        forall o | 0 <= o < |column|
          ensures Eval(h, column[o], op, operand) <==> SomePart(column[o], v => InRange(op, Compare(h, v, operand)))
        {
          OnePart(column[o], v => InRange(op, Compare(h, v, operand)));
        }
        GatherIsExact(h, x, column, v => InRange(op, Compare(h, v, operand)), Hits(h, column, op, operand));
      }
    }
  }

  lemma OtherArray(h: Host, ty: Type, v: Value, operand: Value)
    requires IsArray(ty) && Fits(v, ty) && operand.StringArray? && ty != TStringArray
    ensures !v.Null? ==> Compare(h, v, operand) == None
  {
  }

  lemma NothingBelowEmpty(h: Host, ty: Type, v: Value, operand: Value)
    requires IsArray(ty) && Fits(v, ty) && TypeOf(operand) == Some(ty) && Elements(operand) == []
    ensures !v.Null? ==> Compare(h, v, operand) != Some(Less)
  {
  }

  lemma FaithfulIsHonest(h: Host, ty: Type, x: Index, column: seq<Value>, op: Op, operand: Value)
    requires Serves(h, ty, x, column) && Settled(op, ty, operand) && Faithful(h, ty, op, operand)
    ensures Honest(Select(h, x, op, operand), Hits(h, column, op, operand))
  {
    if op.Eq? {
      EqHonest(h, ty, x, column, operand);
    } else if op.In? || op.ContainsAny? {
      ListHonest(h, ty, x, column, op, operand);
    } else if op.Contains? {
      ContainsHonest(h, ty, x, column, operand);
    } else if op.Glob? || op.IGlob? || op.Regex? {
      PatternHonest(h, ty, x, column, op, operand);
    } else if op.IsRange() {
      RangeHonest(h, ty, x, column, op, operand);
    }
  }
}
