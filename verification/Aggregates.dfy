/** Aggregation, one document at a time and one shard at a time, against its definition on the whole set
    of matching documents (src/aggregate.rs, src/store.rs). */
module Aggregates {
  import opened Wrappers
  import opened Values
  import opened Records
  import opened Filters
  import opened Groups
  import opened Sums
  import opened Ranking

  datatype Agg =
    | Count(of: Option<string>)
    | Sum(attr: string) | Min(attr: string) | Max(attr: string) | Avg(attr: string)

  /** Running state of one aggregation. */
  datatype Accumulator = Accumulator(count: nat, sum: real, integral: bool, seen: bool, min: Option<Value>,
      max: Option<Value>)

  const FRESH := Accumulator(0, 0.0, true, false, None, None)

  /** An answer: a whole number, a float, or a stored value. */
  datatype Final = Whole(n: int) | Float(x: real) | Stored(v: Value)

  type States = map<string, Accumulator>

  /** What a request asks; `float` reads a stored float exactly. */
  datatype Request = Request(host: Host, float: F64 -> real, aggs: map<string, Agg>, groupBy: seq<GroupKey>)

  function Numeric(q: Request, v: Value): Option<real> {
    match v
    case Uint(u) => Some(u as real)
    case Int(i) => Some(i as real)
    case F64(f) => Some(q.float(f))
    case Datetime(n) => Some(n as real)
    case _ => None
  }

  // ------------------------------------------------------------ one step

  function Larger(q: Request, v: Value, current: Option<Value>, want: Ordering): Option<Value> {
    if current.None? || Compare(q.host, v, current.value) == Some(want) then Some(v) else current
  }

  /** One document into one running state; `None` is the source's error. */
  function Accumulate(q: Request, acc: Accumulator, agg: Agg, attrs: Attrs): Option<Accumulator> {
    match agg
    case Count(None) => Some(acc.(count := acc.count + 1))
    case Count(Some(a)) => Some(if Attribute(attrs, a).Null? then acc else acc.(count := acc.count + 1))
    case Min(a) =>
      var v := Attribute(attrs, a);
      Some(if v.Null? then acc else acc.(min := Larger(q, v, acc.min, Less), count := acc.count + 1))
    case Max(a) =>
      var v := Attribute(attrs, a);
      Some(if v.Null? then acc else acc.(max := Larger(q, v, acc.max, Greater), count := acc.count + 1))
    case _ =>
      var v := Attribute(attrs, agg.attr);
      if v.Null? then Some(acc)
      else
        var n :- Numeric(q, v);
        Some(acc.(integral := acc.integral && (v.Uint? || v.Int?), sum := acc.sum + n, count := acc.count + 1,
            seen := true))
  }

  function Finalize(acc: Accumulator, agg: Agg): Final {
    match agg
    case Count(_) => Whole(acc.count)
    case Sum(_) =>
      if !acc.seen then Whole(0)
      else if acc.integral && acc.sum.Floor as real == acc.sum && -9000000000000000.0 < acc.sum < 9000000000000000.0
      then Whole(acc.sum.Floor)
      else Float(acc.sum)
    case Avg(_) => if acc.count == 0 then Stored(Null) else Float(acc.sum / acc.count as real)
    case Min(_) => Stored(if acc.min.Some? then acc.min.value else Null)
    case Max(_) => Stored(if acc.max.Some? then acc.max.value else Null)
  }

  // ------------------------------------------------------------ what an aggregation means

  /** The documents that hold a value for an attribute. */
  ghost function Present(live: Live, ids: set<Id>, attr: string): set<Id> {
    set id | id in ids && id in live && !Attribute(live[id].attrs, attr).Null?
  }

  function ValueAt(live: Live, attr: string, id: Id): Value {
    if id in live then Attribute(live[id].attrs, attr) else Null
  }

  ghost function NumberAt(q: Request, live: Live, attr: string): Id -> real {
    id => var n := Numeric(q, ValueAt(live, attr, id)); if n.Some? then n.value else 0.0
  }

  ghost predicate AllWhole(live: Live, ids: set<Id>, attr: string) {
    forall id | id in Present(live, ids, attr) :: ValueAt(live, attr, id).Uint? || ValueAt(live, attr, id).Int?
  }

  /** `v` is the extreme value: nothing lies beyond it. */
  ghost predicate Extreme(q: Request, live: Live, ids: set<Id>, attr: string, v: Value, beyond: Ordering) {
    && (exists id :: id in Present(live, ids, attr) && ValueAt(live, attr, id) == v)
    && (forall id | id in Present(live, ids, attr) :: Compare(q.host, ValueAt(live, attr, id), v) != Some(beyond))
  }

  /** The aggregate of a set of documents, with no mention of any order. */
  ghost predicate Means(q: Request, agg: Agg, live: Live, ids: set<Id>, r: Final) {
    match agg
    case Count(None) => r == Whole(|ids|)
    case Count(Some(a)) => r == Whole(|Present(live, ids, a)|)
    case Sum(a) =>
      var total := SumOver(Present(live, ids, a), NumberAt(q, live, a));
      if Present(live, ids, a) == {} then r == Whole(0)
      else if AllWhole(live, ids, a) && -9000000000000000.0 < total < 9000000000000000.0
          then r.Whole? && r.n as real == total
      else r == Float(total)
    case Avg(a) =>
      var n := |Present(live, ids, a)|;
      if n == 0 then r == Stored(Null) else r == Float(SumOver(Present(live, ids, a), NumberAt(q, live, a)) / n as real)
    case Min(a) => if Present(live, ids, a) == {} then r == Stored(Null)
        else r.Stored? && Extreme(q, live, ids, a, r.v, Less)
    case Max(a) => if Present(live, ids, a) == {} then r == Stored(Null)
        else r.Stored? && Extreme(q, live, ids, a, r.v, Greater)
  }

  /** A running state stands for a set of documents. */
  ghost predicate StandsFor(q: Request, agg: Agg, live: Live, ids: set<Id>, acc: Accumulator) {
    match agg
    case Count(None) => acc.count == |ids|
    case Count(Some(a)) => acc.count == |Present(live, ids, a)|
    case Min(a) => ExtremeHolds(q, live, ids, a, acc.min, Less)
    case Max(a) => ExtremeHolds(q, live, ids, a, acc.max, Greater)
    case _ =>
      var present := Present(live, ids, agg.attr);
      && acc.count == |present| && acc.sum == SumOver(present, NumberAt(q, live, agg.attr))
      && (acc.seen <==> present != {}) && (acc.integral <==> AllWhole(live, ids, agg.attr))
  }

  ghost predicate ExtremeHolds(q: Request, live: Live, ids: set<Id>, attr: string, v: Option<Value>, beyond: Ordering) {
    if Present(live, ids, attr) == {} then v.None? else v.Some? && Extreme(q, live, ids, attr, v.value, beyond)
  }

  /** Every value of an attribute has one type that has an order. */
  ghost predicate Comparable(live: Live, attr: string) {
    exists ty :: Ordered(ty) && forall id | id in live :: Fits(Attribute(live[id].attrs, attr), ty)
  }

  /** Minima and maxima are asked of attributes that can be ordered. */
  ghost predicate Askable(agg: Agg, live: Live) {
    agg.Min? || agg.Max? ==> Comparable(live, agg.attr)
  }

  lemma PresentNext(live: Live, ids: set<Id>, id: Id, attr: string)
    requires id in live && id !in ids
    ensures Present(live, ids + {id}, attr) ==
            if ValueAt(live, attr, id).Null? then Present(live, ids, attr) else Present(live, ids, attr) + {id}
  {
  }

  lemma ExtremeNext(q: Request, live: Live, ids: set<Id>, id: Id, attr: string, current: Option<Value>,
                    beyond: Ordering)
    requires beyond != Equal && id in live && id !in ids && Comparable(live, attr)
    requires ExtremeHolds(q, live, ids, attr, current, beyond) && !ValueAt(live, attr, id).Null?
    ensures ExtremeHolds(q, live, ids + {id}, attr, Larger(q, ValueAt(live, attr, id), current, beyond), beyond)
  {
    hide Compare;
    PresentNext(live, ids, id, attr);
    var v, r := ValueAt(live, attr, id), Larger(q, ValueAt(live, attr, id), current, beyond).value;
    var ty :| Ordered(ty) && forall id | id in live :: Fits(Attribute(live[id].attrs, attr), ty);
    forall other | other in Present(live, ids + {id}, attr)
      ensures Compare(q.host, ValueAt(live, attr, other), r) != Some(beyond)
    {
      var w := ValueAt(live, attr, other);
      CompareIsTotal(q.host, ty, v, v);
      if current.Some? {
        BeyondIsTransitive(q, ty, w, v, current.value, beyond);
      }
    }
  }

  /** Nothing lies beyond a value that lies beyond the best so far. */
  lemma BeyondIsTransitive(q: Request, ty: Type, w: Value, v: Value, best: Value, beyond: Ordering)
    requires Ordered(ty) && TypeOf(w) == TypeOf(v) == TypeOf(best) == Some(ty) && beyond != Equal
    ensures Compare(q.host, v, best) == Some(beyond) && Compare(q.host, w, best) != Some(beyond) ==>
      Compare(q.host, w, v) != Some(beyond)
    ensures Compare(q.host, v, v) == Some(Equal)
  {
    hide Compare;
    CompareIsTotal(q.host, ty, v, v);
    CompareIsTotal(q.host, ty, v, best);
    CompareIsTotal(q.host, ty, w, best);
    CompareIsTotal(q.host, ty, w, v);
    if Compare(q.host, v, best) == Some(beyond) && Compare(q.host, w, v) == Some(beyond) {
      if beyond == Less {
        CompareIsTransitive(q.host, ty, w, v, best);
      } else {
        CompareIsTransitive(q.host, ty, best, v, w);
      }
    }
  }

  lemma SumNext(q: Request, live: Live, ids: set<Id>, id: Id, attr: string)
    requires id in live && id !in ids && !ValueAt(live, attr, id).Null? && Numeric(q, ValueAt(live, attr, id)).Some?
    ensures SumOver(Present(live, ids + {id}, attr), NumberAt(q, live, attr)) ==
            SumOver(Present(live, ids, attr), NumberAt(q, live, attr)) + Numeric(q, ValueAt(live, attr, id)).value
    ensures AllWhole(live, ids + {id}, attr) <==>
            AllWhole(live, ids, attr) && (ValueAt(live, attr, id).Uint? || ValueAt(live, attr, id).Int?)
  {
    PresentNext(live, ids, id, attr);
    SumAdd(Present(live, ids, attr), NumberAt(q, live, attr), id);
  }

  lemma SumHoldsNext(q: Request, agg: Agg, live: Live, ids: set<Id>, id: Id, acc: Accumulator)
    requires (agg.Sum? || agg.Avg?) && StandsFor(q, agg, live, ids, acc) && id in live && id !in ids
    requires Accumulate(q, acc, agg, live[id].attrs).Some?
    ensures StandsFor(q, agg, live, ids + {id}, Accumulate(q, acc, agg, live[id].attrs).value)
  {
    hide SumOver, AllWhole, Numeric, NumberAt, Larger;
    PresentNext(live, ids, id, agg.attr);
    if !ValueAt(live, agg.attr, id).Null? {
      SumNext(q, live, ids, id, agg.attr);
    } else {
      WholeSame(live, ids, ids + {id}, agg.attr);
    }
  }

  lemma ExtremeHoldsNext(q: Request, agg: Agg, live: Live, ids: set<Id>, id: Id, acc: Accumulator)
    requires (agg.Min? || agg.Max?) && StandsFor(q, agg, live, ids, acc) && id in live && id !in ids &&
      Askable(agg, live)
    ensures Accumulate(q, acc, agg, live[id].attrs).Some?
    ensures StandsFor(q, agg, live, ids + {id}, Accumulate(q, acc, agg, live[id].attrs).value)
  {
    hide Compare, Extreme, Larger;
    PresentNext(live, ids, id, agg.attr);
    if !ValueAt(live, agg.attr, id).Null? {
      if agg.Min? {
        ExtremeNext(q, live, ids, id, agg.attr, acc.min, Less);
      } else {
        ExtremeNext(q, live, ids, id, agg.attr, acc.max, Greater);
      }
    } else {
      ExtremeSame(q, live, ids, ids + {id}, agg.attr);
    }
  }

  /** One more document: the state stands for one more document. */
  lemma AccumulateHolds(q: Request, agg: Agg, live: Live, ids: set<Id>, id: Id, acc: Accumulator)
    requires StandsFor(q, agg, live, ids, acc) && id in live && id !in ids && Askable(agg, live)
    requires Accumulate(q, acc, agg, live[id].attrs).Some?
    ensures StandsFor(q, agg, live, ids + {id}, Accumulate(q, acc, agg, live[id].attrs).value)
  {
    hide Askable;
    if agg.Min? || agg.Max? {
      ExtremeHoldsNext(q, agg, live, ids, id, acc);
    } else if agg.Sum? || agg.Avg? {
      SumHoldsNext(q, agg, live, ids, id, acc);
    } else if agg.of.Some? {
      PresentNext(live, ids, id, agg.of.value);
    }
  }

  lemma ExtremeSame(q: Request, live: Live, a: set<Id>, b: set<Id>, attr: string)
    requires Present(live, a, attr) == Present(live, b, attr)
    ensures forall v, beyond :: Extreme(q, live, a, attr, v, beyond) <==> Extreme(q, live, b, attr, v, beyond)
  {
  }

  lemma WholeSame(live: Live, a: set<Id>, b: set<Id>, attr: string)
    requires Present(live, a, attr) == Present(live, b, attr)
    ensures AllWhole(live, a, attr) <==> AllWhole(live, b, attr)
  {
  }

  lemma FreshHolds(q: Request, agg: Agg, live: Live)
    ensures StandsFor(q, agg, live, {}, FRESH)
  {
    match agg
    case Count(None) =>
    case Count(Some(a)) => assert Present(live, {}, a) == {};
    case _ => assert Present(live, {}, agg.attr) == {};
  }

  ghost predicate IsWhole(x: real) { x.Floor as real == x }

  lemma WholeAdd(x: real, y: real)
    requires IsWhole(x) && IsWhole(y)
    ensures IsWhole(x + y)
  {
    assert x + y == (x.Floor + y.Floor) as real;
  }

  lemma {:induction false} WholeSum(s: set<Id>, f: Id -> real)
    requires forall id | id in s :: IsWhole(f(id))
    ensures IsWhole(SumOver(s, f))
    decreases |s|
  {
    hide IsWhole;
    if s == {} {
      ZeroIsWhole();
    } else {
      var id := Pick(s);
      WholeSum(s - {id}, f);
      WholeAdd(SumOver(s - {id}, f), f(id));
    }
  }

  lemma ZeroIsWhole()
    ensures IsWhole(0.0)
  {
  }

  /** The state of a set of documents finishes to what the aggregate of that set means. */
  lemma FinalizeMeans(q: Request, agg: Agg, live: Live, ids: set<Id>, acc: Accumulator)
    requires StandsFor(q, agg, live, ids, acc)
    ensures Means(q, agg, live, ids, Finalize(acc, agg))
  {
    match agg {
      case Sum(a) =>
        if AllWhole(live, ids, a) {
          WholeSum(Present(live, ids, a), NumberAt(q, live, a));
        }
      case _ =>
    }
  }

  // ------------------------------------------------------------ the aggregator

  /** The documents of one class of keys: those of one row. */
  ghost function GroupIds(q: Request, live: Live, c: Key): set<Id> {
    set id | id in live && InClass(q.groupBy, live[id].attrs, c)
  }

  // One entry for each class.
  ghost predicate OneEach<V>(m: map<Key, V>) {
    forall k, l | k in m && l in m && Class(k) == Class(l) :: k == l
  }

  ghost function ByClass<V>(m: map<Key, V>): (r: map<Key, V>)
    requires OneEach(m)
  {
    map k | k in m :: Class(k) := m[k]
  }

  lemma InByClass<V>(m: map<Key, V>, k: Key)
    requires OneEach(m) && k in m
    ensures Class(k) in ByClass(m) && ByClass(m)[Class(k)] == m[k]
  {
  }

  lemma ByClassUpdate<V>(m: map<Key, V>, k: Key, v: V)
    requires OneEach(m) && (k in m || forall l | l in m :: Class(l) != Class(k))
    ensures OneEach(m[k := v]) && ByClass(m[k := v]) == ByClass(m)[Class(k) := v]
  {
  }

  /** A sum or average meets a value that is not a number. */
  predicate Refused(q: Request, attrs: Attrs) {
    exists l | l in q.aggs :: Accumulate(q, FRESH, q.aggs[l], attrs).None?
  }

  ghost predicate StatesHold(q: Request, live: Live, ids: set<Id>, states: States) {
    states.Keys == q.aggs.Keys && forall l | l in states :: StandsFor(q, q.aggs[l], live, ids, states[l])
  }

  ghost predicate AllAskable(q: Request, live: Live) {
    forall l | l in q.aggs :: Askable(q.aggs[l], live)
  }

  lemma RefusedAnywhere(q: Request, a: Accumulator, b: Accumulator, agg: Agg, attrs: Attrs)
    ensures Accumulate(q, a, agg, attrs).None? <==> Accumulate(q, b, agg, attrs).None?
  {
  }

  /** One document into every running state of one group. */
  method AccumulateAll(q: Request, states: States, d: Doc, ghost live: Live, ghost ids: set<Id>)
    returns (r: Option<States>)
    requires StatesHold(q, live, ids, states) && AllAskable(q, live)
    requires d.id in live && live[d.id] == d && d.id !in ids
    ensures r.None? <==> Refused(q, d.attrs)
    ensures r.Some? ==> StatesHold(q, live, ids + {d.id}, r.value)
  {
    hide Accumulate, StandsFor, Askable;
    var next := states;
    var todo := q.aggs.Keys;
    while todo != {}
      invariant todo <= q.aggs.Keys && next.Keys == q.aggs.Keys
      invariant forall l | l in q.aggs && l in todo :: next[l] == states[l]
      invariant forall l | l in q.aggs && l !in todo ::
        StandsFor(q, q.aggs[l], live, ids + {d.id}, next[l]) && Accumulate(q, FRESH, q.aggs[l], d.attrs).Some?
    {
      var l :| l in todo;
      todo := todo - {l};
      var acc := Accumulate(q, next[l], q.aggs[l], d.attrs);
      RefusedAnywhere(q, next[l], FRESH, q.aggs[l], d.attrs);
      if acc.None? {
        return None;
      }
      AccumulateHolds(q, q.aggs[l], live, ids, d.id, states[l]);
      next := next[l := acc.value];
    }
    return Some(next);
  }

  /** One implicit group when nothing is grouped, even of no documents; otherwise one row for every class of keys
      that has a document, under a key of one of its documents. */
  ghost predicate AnswersFor(q: Request, live: Live, all: map<string, Final>, rows: map<Key, map<string, Final>>) {
    if q.groupBy == [] then
      && rows == map[] && all.Keys == q.aggs.Keys
      && forall l | l in all :: Means(q, q.aggs[l], live, live.Keys, all[l])
    else
      && all == map[]
      && OneEach(rows) && (forall c :: c in ByClass(rows) <==> GroupIds(q, live, c) != {})
      && (forall key | key in rows ::
            KeyOf(q.groupBy, live, key) && rows[key].Keys == q.aggs.Keys &&
            forall l | l in rows[key] :: Means(q, q.aggs[l], live, GroupIds(q, live, Class(key)), rows[key][l]))
  }

  ghost function IdsAfter(q: Request, was: Live, now: Live, combos: seq<Key>, i: nat, key: Key): set<Id>
    requires i <= |combos|
  {
    if key in combos[..i] then GroupIds(q, now, key) else GroupIds(q, was, key)
  }

  ghost predicate GroupsAfter(q: Request, was: Live, now: Live, groups: map<Key, States>, combos: seq<Key>, i: nat)
    requires i <= |combos|
  {
    && (forall key :: key in groups <==> IdsAfter(q, was, now, combos, i, key) != {})
    && (forall key | key in groups :: StatesHold(q, now, IdsAfter(q, was, now, combos, i, key), groups[key]))
  }

  /** The entry a key finds in the group map. */
  method Lookup(q: Request, groups: map<Key, States>, key: Key, ghost now: Live) returns (at: Key)
    requires Groupable(q.groupBy, now) && KeyOf(q.groupBy, now, key)
    requires forall k | k in groups :: KeyOf(q.groupBy, now, k)
    ensures Class(at) == Class(key) && KeyOf(q.groupBy, now, at)
    ensures at in groups || (at == key && forall k | k in groups :: Class(k) != Class(key))
  {
    hide Groupable, KeyOf, SameKey, Class;
    KeysAreOrdered(q.host, q.groupBy, now);
    if k :| k in groups && SameKey(q.host, k, key) {
      return k;
    }
    return key;
  }

  /** The states of a group, opened if there are none. */
  method Slot(q: Request, groups: map<Key, States>, at: Key, ghost was: Live, ghost now: Live, ghost classes: seq<Key>,
              ghost i: nat)
    returns (slot: States)
    requires OneEach(groups) && (at in groups || forall k | k in groups :: Class(k) != Class(at))
    requires i <= |classes| && GroupsAfter(q, was, now, ByClass(groups), classes, i)
    ensures StatesHold(q, now, IdsAfter(q, was, now, classes, i, Class(at)), slot)
  {
    hide StandsFor, IdsAfter;
    slot := if at in groups then groups[at] else map l | l in q.aggs :: FRESH;
    if at in groups {
      InByClass(groups, at);
    } else {
      assert Class(at) !in ByClass(groups);
      forall l | l in slot ensures StandsFor(q, q.aggs[l], now, {}, slot[l]) {
        FreshHolds(q, q.aggs[l], now);
      }
    }
  }

  /** One document into each of its groups. */
  method FeedGroups(q: Request, groups: map<Key, States>, combos: seq<Key>, d: Doc, ghost was: Live, ghost now: Live)
    returns (r: Option<map<Key, States>>)
    requires Keyed(was) && d.id !in was && now == was[d.id := d] && AllAskable(q, now) && Groupable(q.groupBy, now)
    requires Combos(combos, q.groupBy, d.attrs) && combos != []
    requires OneEach(groups) && GroupsAfter(q, was, now, ByClass(groups), Classes(combos), 0)
    requires forall k | k in groups :: KeyOf(q.groupBy, now, k)
    ensures r.None? <==> Refused(q, d.attrs)
    ensures r.Some? ==>
      && OneEach(r.value) && GroupsAfter(q, was, now, ByClass(r.value), Classes(combos), |combos|)
      && forall k | k in r.value :: KeyOf(q.groupBy, now, k)
  {
    hide Refused, StatesHold, AllAskable, GroupIds, Combos, Groupable, KeyOf, Class, OneEach, ByClass, InClass,
      GroupsAfter, IdsAfter, Classes;
    var next := groups;
    ghost var classes := Classes(combos);
    ClassesOnce(combos, q.groupBy, d.attrs);
    for i := 0 to |combos|
      invariant OneEach(next) && GroupsAfter(q, was, now, ByClass(next), classes, i) && (i > 0 ==> !Refused(q, d.attrs))
      invariant forall k | k in next :: KeyOf(q.groupBy, now, k)
    {
      var key := combos[i];
      ComboIsKey(q, now, combos, i, d);
      KeyIsNew(q, was, now, classes, i, d);
      var at := Lookup(q, next, key, now);
      var slot := Slot(q, next, at, was, now, classes, i);
      var more := AccumulateAll(q, slot, d, now, GroupIds(q, was, classes[i]));
      if more.None? {
        return None;
      }
      FedOne(q, was, now, next, classes, i, at, more.value);
      next := next[at := more.value];
    }
    return Some(next);
  }

  lemma FedOne(q: Request, was: Live, now: Live, groups: map<Key, States>, classes: seq<Key>, i: nat, at: Key,
               states: States)
    requires i < |classes| && Class(at) == classes[i] && OneEach(groups)
    requires at in groups || forall k | k in groups :: Class(k) != Class(at)
    requires GroupsAfter(q, was, now, ByClass(groups), classes, i)
    requires GroupIds(q, now, classes[i]) != {} && StatesHold(q, now, GroupIds(q, now, classes[i]), states)
    requires forall c :: IdsAfter(q, was, now, classes, i + 1, c) ==
               if c == classes[i] then GroupIds(q, now, c) else IdsAfter(q, was, now, classes, i, c)
    ensures OneEach(groups[at := states]) && GroupsAfter(q, was, now, ByClass(groups[at := states]), classes, i + 1)
  {
    hide StatesHold, GroupIds, IdsAfter, Class, OneEach, ByClass;
    ByClassUpdate(groups, at, states);
  }

  lemma ComboIsKey(q: Request, now: Live, combos: seq<Key>, i: nat, d: Doc)
    requires i < |combos| && Combos(combos, q.groupBy, d.attrs) && d.id in now && now[d.id] == d
    ensures KeyOf(q.groupBy, now, combos[i]) && Classes(combos)[i] == Class(combos[i])
  {
    assert combos[i] in combos;
  }

  lemma KeyIsNew(q: Request, was: Live, now: Live, classes: seq<Key>, i: nat, d: Doc)
    requires i < |classes| && NoRepeats(classes) && forall c :: c in classes <==> InClass(q.groupBy, d.attrs, c)
    requires Keyed(was) && d.id !in was && now == was[d.id := d]
    ensures IdsAfter(q, was, now, classes, i, classes[i]) == GroupIds(q, was, classes[i])
    ensures d.id !in GroupIds(q, was, classes[i])
    ensures GroupIds(q, now, classes[i]) == GroupIds(q, was, classes[i]) + {d.id}
    ensures forall c :: IdsAfter(q, was, now, classes, i + 1, c) ==
              if c == classes[i] then GroupIds(q, now, c) else IdsAfter(q, was, now, classes, i, c)
  {
    hide InClass;
    assert classes[..i + 1] == classes[..i] + [classes[i]] && classes[i] !in classes[..i] && classes[i] in classes;
  }

  /** The streaming aggregator. `fed` is what it has been given; the groups stand for exactly that. */
  class Aggregator {
    const q: Request
    var groups: map<Key, States>
    ghost var fed: Live

    ghost predicate Valid()
      reads this
    {
      && Keyed(fed) && OneEach(groups)
      && (forall c :: c in ByClass(groups) <==> GroupIds(q, fed, c) != {})
      && (forall key | key in groups ::
            KeyOf(q.groupBy, fed, key) && StatesHold(q, fed, GroupIds(q, fed, Class(key)), groups[key]))
    }

    constructor (q: Request)
      ensures this.q == q && fed == map[] && Valid()
    {
      this.q := q;
      groups := map[];
      fed := map[];
    }

    /** Feed one document; false is the source's error, which fails the query. */
    method Feed(d: Doc) returns (ok: bool)
      requires Valid() && d.id !in fed && AllAskable(q, fed[d.id := d]) && Groupable(q.groupBy, fed[d.id := d])
      modifies this
      ensures ok <==> !Refused(q, d.attrs)
      ensures ok ==> Valid() && fed == old(fed)[d.id := d]
    {
      hide Refused, AllAskable, Groupable, KeyOf, OneEach, ByClass, GroupIds, Combos, Class;
      var combos := ExpandKeys(q.host, q.groupBy, d.attrs);
      SomeCombo(q, d, combos);
      ghost var now := fed[d.id := d];
      BeforeFeeding(q, fed, now, groups, Classes(combos));
      var next := FeedGroups(q, groups, combos, d, fed, now);
      if next.None? {
        return false;
      }
      ClassesOnce(combos, q.groupBy, d.attrs);
      AfterFeeding(q, fed, now, next.value, Classes(combos), d);
      groups := next.value;
      fed := now;
      return true;
    }

    /** Each value is the aggregate of the set of documents fed, or of the group's. */
    method Finish() returns (all: map<string, Final>, rows: map<Key, map<string, Final>>)
      requires Valid()
      ensures AnswersFor(q, fed, all, rows)
    {
      hide StandsFor, Means, Finalize, KeyOf, GroupIds, Class, OneEach, ByClass;
      if q.groupBy == [] {
        var state := if [] in groups then groups[[]] else map l | l in q.aggs :: FRESH;
        WholeState(q, fed, groups, state);
        return map l | l in state :: Finalize(state[l], q.aggs[l]), map[];
      }
      all := map[];
      rows := map key | key in groups :: FinishedRow(q, groups[key]);
      FinishedRows(q, fed, groups, rows);
    }
  }

  function FinishedRow(q: Request, states: States): map<string, Final> {
    map l | l in states && l in q.aggs :: Finalize(states[l], q.aggs[l])
  }

  lemma FinishedRows(q: Request, fed: Live, groups: map<Key, States>, rows: map<Key, map<string, Final>>)
    requires q.groupBy != [] && OneEach(groups) && forall c :: c in ByClass(groups) <==> GroupIds(q, fed, c) != {}
    requires forall key | key in groups ::
               KeyOf(q.groupBy, fed, key) && StatesHold(q, fed, GroupIds(q, fed, Class(key)), groups[key])
    requires rows == map key | key in groups :: FinishedRow(q, groups[key])
    ensures AnswersFor(q, fed, map[], rows)
  {
    hide StatesHold, FinishedRow, Means, KeyOf, GroupIds, Class, OneEach, ByClass;
    SameClasses(groups, rows);
    forall key | key in rows
      ensures rows[key].Keys == q.aggs.Keys
      ensures forall l | l in rows[key] :: Means(q, q.aggs[l], fed, GroupIds(q, fed, Class(key)), rows[key][l])
    {
      FinishedRowMeans(q, fed, GroupIds(q, fed, Class(key)), groups[key]);
    }
  }

  lemma FinishedRowMeans(q: Request, fed: Live, ids: set<Id>, states: States)
    requires StatesHold(q, fed, ids, states)
    ensures FinishedRow(q, states).Keys == q.aggs.Keys
    ensures forall l | l in FinishedRow(q, states) :: Means(q, q.aggs[l], fed, ids, FinishedRow(q, states)[l])
  {
    hide StandsFor, Means, Finalize;
    forall l | l in states ensures Means(q, q.aggs[l], fed, ids, Finalize(states[l], q.aggs[l])) {
      FinalizeMeans(q, q.aggs[l], fed, ids, states[l]);
    }
  }

  /** Nothing grouped: the one state stands for everything fed, if there is one. */
  lemma WholeState(q: Request, fed: Live, groups: map<Key, States>, state: States)
    requires q.groupBy == [] && OneEach(groups) && forall c :: c in ByClass(groups) <==> GroupIds(q, fed, c) != {}
    requires forall key | key in groups :: StatesHold(q, fed, GroupIds(q, fed, Class(key)), groups[key])
    requires state == if [] in groups then groups[[]] else map l | l in q.aggs :: FRESH
    ensures state.Keys == q.aggs.Keys
    ensures forall l | l in state :: Means(q, q.aggs[l], fed, fed.Keys, Finalize(state[l], q.aggs[l]))
  {
    hide StandsFor, Means, Finalize, GroupIds, Class, ByClass, OneEach;
    OneGroup(q, fed);
    OneEntry(q, fed, groups);
    forall l | l in state ensures Means(q, q.aggs[l], fed, fed.Keys, Finalize(state[l], q.aggs[l])) {
      if [] !in groups {
        FreshHolds(q, q.aggs[l], fed);
      }
      FinalizeMeans(q, q.aggs[l], fed, fed.Keys, state[l]);
    }
  }

  lemma SameClasses<V, W>(m: map<Key, V>, n: map<Key, W>)
    requires m.Keys == n.Keys && OneEach(m)
    ensures OneEach(n) && ByClass(n).Keys == ByClass(m).Keys
  {
    forall k, l | k in n && l in n && Class(k) == Class(l) ensures k == l {
      assert k in m && l in m;
    }
    forall c ensures c in ByClass(n) <==> c in ByClass(m) {
      if c in ByClass(n) {
        var k :| k in n && Class(k) == c;
        assert k in m;
      }
      if c in ByClass(m) {
        var k :| k in m && Class(k) == c;
        assert k in n;
      }
    }
  }

  /** Every document has a group. */
  lemma SomeCombo(q: Request, d: Doc, combos: seq<Key>)
    requires Combos(combos, q.groupBy, d.attrs)
    ensures combos != []
  {
    var key := GroupOf(q.groupBy, d.attrs);
    assert key in combos;
  }

  lemma BeforeFeeding(q: Request, was: Live, now: Live, groups: map<Key, States>, classes: seq<Key>)
    requires OneEach(groups) && forall c :: c in ByClass(groups) <==> GroupIds(q, was, c) != {}
    requires forall key | key in groups ::
               KeyOf(q.groupBy, was, key) && StatesHold(q, was, GroupIds(q, was, Class(key)), groups[key])
    requires forall id | id in was :: id in now && now[id] == was[id]
    ensures GroupsAfter(q, was, now, ByClass(groups), classes, 0)
    ensures forall key | key in groups :: KeyOf(q.groupBy, now, key)
  {
    hide StatesHold, InGroup, InClass;
    forall key | key in groups
      ensures KeyOf(q.groupBy, now, key) && StatesHold(q, now, GroupIds(q, was, Class(key)), groups[key])
    {
      StatesKept(q, was, now, GroupIds(q, was, Class(key)), groups[key]);
    }
  }

  lemma AfterFeeding(q: Request, was: Live, now: Live, groups: map<Key, States>, classes: seq<Key>, d: Doc)
    requires OneEach(groups) && GroupsAfter(q, was, now, ByClass(groups), classes, |classes|)
    requires forall c :: c in classes <==> InClass(q.groupBy, d.attrs, c)
    requires Keyed(was) && d.id !in was && now == was[d.id := d]
    ensures Keyed(now) && forall c :: c in ByClass(groups) <==> GroupIds(q, now, c) != {}
    ensures forall key | key in groups :: StatesHold(q, now, GroupIds(q, now, Class(key)), groups[key])
  {
    hide StatesHold, InClass;
    assert classes[..|classes|] == classes;
    forall c ensures IdsAfter(q, was, now, classes, |classes|, c) == GroupIds(q, now, c) {
    }
    forall key | key in groups ensures StatesHold(q, now, GroupIds(q, now, Class(key)), groups[key]) {
      InByClass(groups, key);
    }
  }

  lemma StatesKept(q: Request, was: Live, now: Live, ids: set<Id>, states: States)
    requires StatesHold(q, was, ids, states) && ids <= was.Keys
    requires forall id | id in was :: id in now && now[id] == was[id]
    ensures StatesHold(q, now, ids, states)
  {
    forall l | l in states ensures StandsFor(q, q.aggs[l], now, ids, states[l]) {
      HoldsKept(q, q.aggs[l], was, now, ids, states[l]);
    }
  }

  lemma HoldsKept(q: Request, agg: Agg, was: Live, now: Live, ids: set<Id>, acc: Accumulator)
    requires StandsFor(q, agg, was, ids, acc) && ids <= was.Keys
    requires forall id | id in was :: id in now && now[id] == was[id]
    ensures StandsFor(q, agg, now, ids, acc)
  {
    forall attr ensures Present(now, ids, attr) == Present(was, ids, attr) {
    }
    if !agg.Count? {
      SumSame(Present(was, ids, agg.attr), NumberAt(q, was, agg.attr), NumberAt(q, now, agg.attr));
    }
  }

  lemma OneGroup(q: Request, live: Live)
    requires q.groupBy == []
    ensures GroupIds(q, live, []) == live.Keys
  {
  }

  lemma OneEntry(q: Request, live: Live, groups: map<Key, States>)
    requires q.groupBy == [] && OneEach(groups) && forall c :: c in ByClass(groups) <==> GroupIds(q, live, c) != {}
    ensures [] in groups <==> GroupIds(q, live, []) != {}
    ensures Class([]) == []
  {
    assert forall k: Key :: Class(k) == [] ==> k == [];
  }

  /** A set of documents has one aggregate, so no feeding order can change an answer. */
  lemma OneMeaning(q: Request, agg: Agg, live: Live, ids: set<Id>, a: Final, b: Final)
    requires Means(q, agg, live, ids, a) && Means(q, agg, live, ids, b) && Askable(agg, live)
    ensures a == b
  {
    hide SumOver, AllWhole, Compare;
    if (agg.Min? || agg.Max?) && Present(live, ids, agg.attr) != {} {
      var ty :| Ordered(ty) && forall id | id in live :: Fits(Attribute(live[id].attrs, agg.attr), ty);
      CompareIsTotal(q.host, ty, a.v, b.v);
    }
  }

  // ------------------------------------------------------------ group counts

  /** With plain attributes every document counts in exactly one row. */
  lemma OneRowEach(groupBy: seq<GroupKey>, attrs: Attrs, a: Key, b: Key)
    requires forall i | 0 <= i < |groupBy| :: groupBy[i].ByAttribute?
    requires InClass(groupBy, attrs, a) && InClass(groupBy, attrs, b)
    ensures a == b
  {
    forall i | 0 <= i < |a| ensures a[i] == b[i] {
      assert a[i] in ClassValues(groupBy[i], attrs) && b[i] in ClassValues(groupBy[i], attrs);
    }
  }

  ghost function Size(groups: map<Key, set<Id>>): Key -> real {
    k => if k in groups then |groups[k]| as real else 0.0
  }

  ghost function Union(groups: map<Key, set<Id>>, keys: set<Key>): set<Id> {
    set k, id | k in keys && k in groups && id in groups[k] :: id
  }

  lemma UnionTake(groups: map<Key, set<Id>>, keys: set<Key>, k: Key)
    requires keys <= groups.Keys && k in keys && forall l | l in keys && k != l :: groups[k] !! groups[l]
    ensures Union(groups, keys) == Union(groups, keys - {k}) + groups[k] && Union(groups, keys - {k}) !! groups[k]
  {
    forall id ensures id in Union(groups, keys) <==> id in Union(groups, keys - {k}) + groups[k] {
      if id in Union(groups, keys) {
        var l :| l in keys && id in groups[l];
        assert l != k ==> l in keys - {k};
      }
    }
  }

  lemma {:induction false} PartsAddUp(groups: map<Key, set<Id>>, keys: set<Key>)
    requires keys <= groups.Keys && forall k, l | k in keys && l in keys && k != l :: groups[k] !! groups[l]
    ensures SumOver(keys, Size(groups)) == |Union(groups, keys)| as real
    decreases |keys|
  {
    hide Union;
    if keys == {} {
      NoUnion(groups);
    } else {
      var k := Pick(keys);
      UnionTake(groups, keys, k);
      PartsAddUp(groups, keys - {k});
    }
  }

  lemma NoUnion(groups: map<Key, set<Id>>)
    ensures Union(groups, {}) == {}
  {
  }

  ghost function CountIn(rows: map<Key, map<string, Final>>, name: string): Key -> real {
    key => if key in rows && name in rows[key] && rows[key][name].Whole? then rows[key][name].n as real else 0.0
  }

  /** What a counted row counts. */
  lemma CountedRows(q: Request, live: Live, all: map<string, Final>, rows: map<Key, map<string, Final>>, name: string)
    requires AnswersFor(q, live, all, rows) && q.groupBy != [] && name in q.aggs && q.aggs[name] == Count(None)
    ensures OneEach(rows)
    ensures forall key | key in rows :: name in rows[key] && GroupIds(q, live, Class(key)) != {} &&
                                        rows[key][name] == Whole(|GroupIds(q, live, Class(key))|)
    ensures forall c | GroupIds(q, live, c) != {} :: exists key :: key in rows && Class(key) == c
  {
    hide KeyOf, GroupIds, Class;
    forall key | key in rows ensures GroupIds(q, live, Class(key)) != {} {
      InByClass(rows, key);
    }
    forall c | GroupIds(q, live, c) != {} ensures exists key :: key in rows && Class(key) == c {
      assert c in ByClass(rows);
    }
  }

  /** Grouped by plain attributes, the rows' counts add up to the number of documents, whatever the keys and
      whichever of them share a row. */
  lemma RowCountsAddUp(q: Request, live: Live, all: map<string, Final>, rows: map<Key, map<string, Final>>,
                       name: string)
    requires AnswersFor(q, live, all, rows) && q.groupBy != []
    requires forall i | 0 <= i < |q.groupBy| :: q.groupBy[i].ByAttribute?
    requires name in q.aggs && q.aggs[name] == Count(None)
    ensures SumOver(rows.Keys, CountIn(rows, name)) == |live.Keys| as real
  {
    hide AnswersFor, InClass, Class, Union, SumOver;
    CountedRows(q, live, all, rows, name);
    var groups := map key | key in rows :: GroupIds(q, live, Class(key));
    forall k, l | k in groups && l in groups && k != l ensures groups[k] !! groups[l] {
      RowsApart(q, live, Class(k), Class(l));
    }
    EveryRow(q, live, rows, groups);
    PartsAddUp(groups, groups.Keys);
    forall key | key in rows ensures CountIn(rows, name)(key) == Size(groups)(key) {
    }
    SumSame(rows.Keys, CountIn(rows, name), Size(groups));
  }

  lemma RowsApart(q: Request, live: Live, c: Key, d: Key)
    requires (forall i | 0 <= i < |q.groupBy| :: q.groupBy[i].ByAttribute?) && c != d
    ensures GroupIds(q, live, c) !! GroupIds(q, live, d)
  {
    hide InClass;
    forall id | id in GroupIds(q, live, c) ensures id !in GroupIds(q, live, d) {
      if id in GroupIds(q, live, d) {
        OneRowEach(q.groupBy, live[id].attrs, c, d);
        assert false;
      }
    }
  }

  lemma EveryRow(q: Request, live: Live, rows: map<Key, map<string, Final>>, groups: map<Key, set<Id>>)
    requires groups.Keys == rows.Keys && forall key | key in rows :: groups[key] == GroupIds(q, live, Class(key))
    requires forall c | GroupIds(q, live, c) != {} :: exists key :: key in rows && Class(key) == c
    ensures Union(groups, groups.Keys) == live.Keys
  {
    hide InClass, Class;
    forall id ensures id in live.Keys <==> id in Union(groups, groups.Keys) {
      if id in live {
        var key := GroupOf(q.groupBy, live[id].attrs);
        ClassOfGroup(q.groupBy, live[id].attrs, key);
        assert id in GroupIds(q, live, Class(key));
        var k :| k in rows && Class(k) == Class(key);
        assert id in groups[k];
      }
    }
  }

  /** Exploded by one array attribute, a row counts every document that has its element, once however often the
      document lists it; a document without elements counts under null. */
  lemma ExplodedCounts(q: Request, live: Live, all: map<string, Final>, rows: map<Key, map<string, Final>>,
                       attr: string, name: string, v: Value)
    requires AnswersFor(q, live, all, rows) && q.groupBy == [ForEachUnique(attr)] && !v.Sparse?
    requires name in q.aggs && q.aggs[name] == Count(None)
    ensures var having := set id | id in live && v in Exploded(Attribute(live[id].attrs, attr));
      if [v] in rows then name in rows[[v]] && rows[[v]][name] == Whole(|having|) else having == {}
  {
    hide AnswersFor, GroupIds, OneEach, Class, Exploded;
    CountedRows(q, live, all, rows, name);
    ExplodedIds(q, live, attr, v);
    assert Class([v]) == [v] by {
      PlainClass([v], v);
    }
    var having := set id | id in live && v in Exploded(Attribute(live[id].attrs, attr));
    if having != {} {
      var k :| k in rows && Class(k) == [v];
      PlainClass(k, v);
    }
  }

  lemma PlainClass(key: Key, v: Value)
    requires !v.Sparse?
    ensures Class(key) == [v] <==> key == [v]
  {
    if |key| == 1 {
      assert Class(key) == [Canon(key[0])];
      assert key == [key[0]];
    }
  }

  lemma ExplodedIds(q: Request, live: Live, attr: string, v: Value)
    requires q.groupBy == [ForEachUnique(attr)] && !v.Sparse?
    ensures GroupIds(q, live, [v]) == set id | id in live && v in Exploded(Attribute(live[id].attrs, attr))
  {
    hide InClass, Exploded;
    forall id | id in live
      ensures InClass(q.groupBy, live[id].attrs, [v]) <==> v in Exploded(Attribute(live[id].attrs, attr))
    {
      ExplodedClass(q.groupBy, live[id].attrs, attr, v);
    }
  }

  lemma ExplodedClass(groupBy: seq<GroupKey>, attrs: Attrs, attr: string, v: Value)
    requires groupBy == [ForEachUnique(attr)] && !v.Sparse?
    ensures InClass(groupBy, attrs, [v]) <==> v in Exploded(Attribute(attrs, attr))
  {
    hide Exploded;
    assert [v][0] == v;
    assert v in ClassValues(groupBy[0], attrs) <==> v in KeyValues(groupBy[0], attrs) by {
      if v in KeyValues(groupBy[0], attrs) {
        assert Canon(v) in ClassValues(groupBy[0], attrs);
      }
    }
  }

  /** Two documents that differ only in a sparse vector they are grouped by share one row. */
  lemma SparseKeysMerge(q: Request, all: map<string, Final>, rows: map<Key, map<string, Final>>, name: string)
    requires q.groupBy == [ByAttribute("s")] && name in q.aggs && q.aggs[name] == Count(None)
    requires AnswersFor(q, TWO_SPARSE, all, rows)
    ensures |rows| == 1 && forall key | key in rows :: name in rows[key] && rows[key][name] == Whole(2)
    ensures !TellsKeysApart(q.host, q.groupBy, TWO_SPARSE)
  {
    hide AnswersFor, InClass, Class;
    CountedRows(q, TWO_SPARSE, all, rows, name);
    var c: Key := [Sparse(map[])];
    SparseClass(q, c);
    assert GroupIds(q, TWO_SPARSE, c) == {UintId(1), UintId(2)};
    forall key | key in rows ensures Class(key) == c {
      SparseClass(q, Class(key));
    }
    var key :| key in rows && Class(key) == c;
    assert rows.Keys == {key};
    assert |rows| == |rows.Keys|;
    SparseApart(q);
  }

  const TWO_SPARSE: Live := map[
    UintId(1) := Doc(UintId(1), [], map["s" := Sparse(map["x" := 1])]),
    UintId(2) := Doc(UintId(2), [], map["s" := Sparse(map["x" := 2])])]

  lemma SparseClass(q: Request, c: Key)
    requires q.groupBy == [ByAttribute("s")]
    ensures forall id | id in TWO_SPARSE :: InClass(q.groupBy, TWO_SPARSE[id].attrs, c) <==> c == [Sparse(map[])]
  {
    forall id | id in TWO_SPARSE
      ensures InClass(q.groupBy, TWO_SPARSE[id].attrs, c) <==> c == [Sparse(map[])]
    {
      var v := Attribute(TWO_SPARSE[id].attrs, "s");
      assert KeyValues(q.groupBy[0], TWO_SPARSE[id].attrs) == {v} && Canon(v) == Sparse(map[]);
      assert ClassValues(q.groupBy[0], TWO_SPARSE[id].attrs) == {Sparse(map[])} by {
        assert v in KeyValues(q.groupBy[0], TWO_SPARSE[id].attrs);
      }
    }
  }

  lemma SparseApart(q: Request)
    requires q.groupBy == [ByAttribute("s")]
    ensures !TellsKeysApart(q.host, q.groupBy, TWO_SPARSE)
  {
    var a, b := TWO_SPARSE[UintId(1)], TWO_SPARSE[UintId(2)];
    var one, two := a.attrs["s"], b.attrs["s"];
    assert one.weights["x"] == 1 && two.weights["x"] == 2;
    assert InGroup(q.groupBy, a.attrs, [one]) && InGroup(q.groupBy, b.attrs, [two]);
    assert KeyOf(q.groupBy, TWO_SPARSE, [one]) && KeyOf(q.groupBy, TWO_SPARSE, [two]);
    assert KeyFits([one], [TSparse]) && KeyFits([two], [TSparse]);
    assert Class([one]) == Class([two]);
    KeysOrderIsTotal(q.host, [TSparse], [one], [two]);
    assert [one][0] == one && [two][0] == two;
  }

  // ------------------------------------------------------------ shard by shard

  /** The tail slice fed with shard `i`: unlike ranking, it always goes by the schema's count. */
  function FedTail(hash: Id -> nat, tail: seq<Record>, shards: nat, i: nat): seq<Record> {
    if shards <= 1 then tail else Slice(hash, tail, shards, i)
  }

  /** The live documents the shard loop reaches. */
  ghost function Fed(hash: Id -> nat, base: Live, parts: seq<Live>, shards: nat, tail: seq<Record>): Live {
    if |parts| == 1 then Replay(base, FedTail(hash, tail, shards, 0)) else Replay(base, tail)
  }

  function Matching(accepts: Doc -> bool, live: Live): Live {
    map id | id in live && accepts(live[id]) :: live[id]
  }

  lemma FedPiece(hash: Id -> nat, base: Live, parts: seq<Live>, shards: nat, tail: seq<Record>, i: nat)
    requires Sharded(hash, base, parts, shards) && i < |parts|
    ensures Replay(parts[i], FedTail(hash, tail, shards, i)) ==
            if |parts| == 1 then Fed(hash, base, parts, shards, tail)
                else ShardPart(hash, Fed(hash, base, parts, shards, tail), shards, i)
  {
    if |parts| > 1 {
      ShardPartReplays(hash, base, tail, shards, i);
    }
  }

  /** Feed every accepted document of one materialized map, in whatever order it yields them. */
  method FeedAll(a: Aggregator, live: Live, accepts: Doc -> bool, ghost whole: Live) returns (ok: bool)
    requires a.Valid() && Keyed(live) && a.fed.Keys !! live.Keys
    requires AllAskable(a.q, whole) && Groupable(a.q.groupBy, whole)
    requires forall id | id in live :: id in whole && whole[id] == live[id]
    requires forall id | id in a.fed :: id in whole && whole[id] == a.fed[id]
    modifies a
    ensures ok ==> a.Valid() && a.fed == old(a.fed) + Matching(accepts, live)
    ensures ok <==> NoneRefused(a.q, accepts, live)
  {
    hide Refused, AllAskable, Groupable, Aggregator.Valid, Taken;
    var todo := live.Keys;
    ghost var q, was := a.q, a.fed;
    NothingTaken(live, accepts, was);
    while todo != {}
      invariant todo <= live.Keys && a.Valid() && a.q == q && a.fed == Taken(was, live, accepts, todo)
      invariant forall id | id in live && id !in todo && accepts(live[id]) :: !Refused(q, live[id].attrs)
    {
      var id :| id in todo;
      TakenNext(was, live, accepts, todo, id);
      todo := todo - {id};
      if accepts(live[id]) {
        TakenWithin(was, live, accepts, todo, whole);
        FewerAskable(q, whole, Taken(was, live, accepts, todo));
        FewerGroupable(q.groupBy, whole, Taken(was, live, accepts, todo));
        ok := a.Feed(live[id]);
        if !ok {
          return;
        }
      }
    }
    AllTaken(was, live, accepts);
    return true;
  }

  /** No accepted document holds a value that an aggregate refuses. */
  ghost predicate NoneRefused(q: Request, accepts: Doc -> bool, live: Live) {
    forall id | id in live && accepts(live[id]) :: !Refused(q, live[id].attrs)
  }

  /** What has been fed while `todo` is still to come. */
  ghost function Taken(was: Live, live: Live, accepts: Doc -> bool, todo: set<Id>): Live {
    was + map id | id in live && id !in todo && accepts(live[id]) :: live[id]
  }

  lemma NothingTaken(live: Live, accepts: Doc -> bool, was: Live)
    ensures Taken(was, live, accepts, live.Keys) == was
  {
  }

  lemma TakenNext(was: Live, live: Live, accepts: Doc -> bool, todo: set<Id>, id: Id)
    requires id in todo && todo <= live.Keys && was.Keys !! live.Keys
    ensures id !in Taken(was, live, accepts, todo)
    ensures Taken(was, live, accepts, todo - {id}) ==
            if accepts(live[id]) then Taken(was, live, accepts, todo)[id := live[id]]
                else Taken(was, live, accepts, todo)
  {
  }

  lemma TakenWithin(was: Live, live: Live, accepts: Doc -> bool, todo: set<Id>, whole: Live)
    requires forall id | id in live :: id in whole && whole[id] == live[id]
    requires forall id | id in was :: id in whole && whole[id] == was[id]
    ensures var fed := Taken(was, live, accepts, todo); forall id | id in fed :: id in whole && whole[id] == fed[id]
  {
  }

  lemma AllTaken(was: Live, live: Live, accepts: Doc -> bool)
    ensures Taken(was, live, accepts, {}) == was + Matching(accepts, live)
  {
  }

  lemma FewerGroupable(groupBy: seq<GroupKey>, whole: Live, part: Live)
    requires Groupable(groupBy, whole) && forall id | id in part :: id in whole && whole[id] == part[id]
    ensures Groupable(groupBy, part)
  {
    hide Fits;
    forall i | 0 <= i < |groupBy| ensures OneType(part, groupBy[i].attr) {
      assert OneType(whole, groupBy[i].attr);
      var ty :| AllFit(whole, groupBy[i].attr, ty);
      assert AllFit(part, groupBy[i].attr, ty);
    }
  }

  lemma FewerAskable(q: Request, whole: Live, part: Live)
    requires AllAskable(q, whole) && forall id | id in part :: id in whole && whole[id] == part[id]
    ensures AllAskable(q, part)
  {
    forall l | l in q.aggs ensures Askable(q.aggs[l], part) {
      var agg := q.aggs[l];
      if agg.Min? || agg.Max? {
        var ty :| Ordered(ty) && forall id | id in whole :: Fits(Attribute(whole[id].attrs, agg.attr), ty);
        assert forall id | id in part :: Fits(Attribute(part[id].attrs, agg.attr), ty);
      }
    }
  }

  /** What the query loop aggregates over. */
  ghost function Reached(hash: Id -> nat, base: Live, parts: seq<Live>, shards: nat, tail: seq<Record>): Live {
    if parts == [] then Replay(map[], tail) else Fed(hash, base, parts, shards, tail)
  }

  ghost predicate Before(hash: Id -> nat, parts: seq<Live>, shards: nat, i: nat, id: Id) {
    if |parts| == 1 then i > 0 else ShardOf(hash, id, shards) < i
  }

  lemma PieceIs(hash: Id -> nat, base: Live, parts: seq<Live>, shards: nat, tail: seq<Record>, i: nat, id: Id)
    requires Sharded(hash, base, parts, shards) && i < |parts|
    ensures var piece, whole := Replay(parts[i], FedTail(hash, tail, shards, i)), Fed(hash, base, parts, shards, tail);
      && (id in piece <==> id in whole && Before(hash, parts, shards, i + 1, id) && !Before(hash, parts, shards, i, id))
      && (id in piece ==> piece[id] == whole[id])
  {
    FedPiece(hash, base, parts, shards, tail, i);
  }

  /** The streaming loop over the shards: whatever the order of shards and documents, the answers are those
      of the set of accepted documents reached; it fails exactly when one of them is refused. */
  method AggregateShards(q: Request, hash: Id -> nat, parts: seq<Live>, shards: nat, tail: seq<Record>,
                         accepts: Doc -> bool, ghost base: Live)
    returns (ok: bool, all: map<string, Final>, rows: map<Key, map<string, Final>>)
    requires Keyed(base) && (forall i | 0 <= i < |parts| :: Keyed(parts[i])) &&
      (parts != [] ==> Sharded(hash, base, parts, shards))
    requires AllAskable(q, Reached(hash, base, parts, shards, tail))
    requires Groupable(q.groupBy, Reached(hash, base, parts, shards, tail))
    ensures ok ==> AnswersFor(q, Matching(accepts, Reached(hash, base, parts, shards, tail)), all, rows)
    ensures ok <==> NoneRefused(q, accepts, Reached(hash, base, parts, shards, tail))
  {
    hide AnswersFor, AllAskable, Groupable, Refused, Sharded, Fed, Replay, Before, Aggregator.Valid;
    ghost var whole := Reached(hash, base, parts, shards, tail);
    var a := new Aggregator(q);
    all, rows := map[], map[];
    if parts == [] {
      var live := new LiveSet();
      live.MutateAll(tail);
      ReplayKeyed(map[], tail);
      ok := FeedAll(a, live.docs, accepts, whole);
      if !ok {
        return;
      }
    } else {
      assert forall id :: !Before(hash, parts, shards, 0, id) by {
        NoneBefore(hash, parts, shards);
      }
      for i := 0 to |parts|
        invariant a.Valid() && a.q == q && fresh(a)
        invariant forall id :: id in a.fed <==> id in whole && accepts(whole[id]) && Before(hash, parts, shards, i, id)
        invariant forall id | id in a.fed :: a.fed[id] == whole[id] && !Refused(q, whole[id].attrs)
      {
        var live := new LiveSet.From(parts[i]);
        live.MutateAll(FedTail(hash, tail, shards, i));
        ReplayKeyed(parts[i], FedTail(hash, tail, shards, i));
        PiecesGrow(hash, base, parts, shards, tail, i);
        ok := FeedAll(a, live.docs, accepts, whole);
        if !ok {
          return;
        }
      }
      forall id | id in whole ensures Before(hash, parts, shards, |parts|, id) {
        AllBefore(hash, base, parts, shards, id);
      }
    }
    assert a.fed == Matching(accepts, whole);
    ok := true;
    all, rows := a.Finish();
  }

  lemma PiecesGrow(hash: Id -> nat, base: Live, parts: seq<Live>, shards: nat, tail: seq<Record>, i: nat)
    requires Sharded(hash, base, parts, shards) && i < |parts|
    ensures var piece, whole := Replay(parts[i], FedTail(hash, tail, shards, i)), Fed(hash, base, parts, shards, tail);
      forall id ::
        && (id in piece <==>
            id in whole && Before(hash, parts, shards, i + 1, id) && !Before(hash, parts, shards, i, id))
        && (id in piece ==> piece[id] == whole[id])
        && (Before(hash, parts, shards, i, id) ==> Before(hash, parts, shards, i + 1, id))
  {
    hide Before, Replay, Fed, FedTail, Sharded;
    var piece, whole := Replay(parts[i], FedTail(hash, tail, shards, i)), Fed(hash, base, parts, shards, tail);
    forall id ensures
      && (id in piece <==> id in whole && Before(hash, parts, shards, i + 1, id) && !Before(hash, parts, shards, i, id))
      && (id in piece ==> piece[id] == whole[id])
      && (Before(hash, parts, shards, i, id) ==> Before(hash, parts, shards, i + 1, id))
    {
      PieceIs(hash, base, parts, shards, tail, i, id);
      BeforeGrows(hash, parts, shards, i, id);
    }
  }

  lemma NoneBefore(hash: Id -> nat, parts: seq<Live>, shards: nat)
    ensures forall id :: !Before(hash, parts, shards, 0, id)
  {
  }

  lemma BeforeGrows(hash: Id -> nat, parts: seq<Live>, shards: nat, i: nat, id: Id)
    ensures Before(hash, parts, shards, i, id) ==> Before(hash, parts, shards, i + 1, id)
  {
  }

  lemma AllBefore(hash: Id -> nat, base: Live, parts: seq<Live>, shards: nat, id: Id)
    requires parts != [] && Sharded(hash, base, parts, shards)
    ensures Before(hash, parts, shards, |parts|, id)
  {
    if |parts| > 1 {
      ShardInRange(hash, id, shards);
    }
  }

  /** With as many resident shards as the schema says, or none yet, the loop reaches every live document. */
  lemma FedIsWhole(hash: Id -> nat, base: Live, parts: seq<Live>, shards: nat, tail: seq<Record>)
    requires if parts == [] then base == map[] else Sharded(hash, base, parts, shards) && |parts| == AtLeast(shards, 1)
    ensures Reached(hash, base, parts, shards, tail) == Replay(base, tail)
  {
  }

  function AtLeast(a: nat, b: nat): nat { if a >= b then a else b }

  /** The records of a tail that belong to any shard but the first. */
  function Elsewhere(hash: Id -> nat, records: seq<Record>, shards: nat): seq<Record> {
    if records == [] then []
    else
      var rest := Elsewhere(hash, records[1..], shards);
      if ShardOf(hash, records[0].Id(), shards) != 0 then [records[0]] + rest else rest
  }

  lemma {:induction false} ElsewhereHistory(hash: Id -> nat, doc: Option<Doc>, id: Id, records: seq<Record>,
      shards: nat)
    ensures History(doc, id, Elsewhere(hash, records, shards)) ==
            if ShardOf(hash, id, shards) != 0 then History(doc, id, records) else doc
    decreases |records|
  {
    if records != [] {
      var rest := Elsewhere(hash, records[1..], shards);
      ElsewhereHistory(hash, Touch(doc, id, records[0]), id, records[1..], shards);
      ElsewhereHistory(hash, doc, id, records[1..], shards);
      assert ([records[0]] + rest)[1..] == rest;
    }
  }

  /** What the loop feeds of one document when there is one resident shard. */
  lemma OneShardAt(hash: Id -> nat, base: Live, shards: nat, tail: seq<Record>, id: Id)
    ensures At(Fed(hash, base, [base], shards, tail), id) ==
            if ShardOf(hash, id, shards) == 0 then At(Replay(base, tail), id) else At(base, id)
    ensures At(Replay(base, Elsewhere(hash, tail, shards)), id) ==
            if ShardOf(hash, id, shards) == 0 then At(base, id) else At(Replay(base, tail), id)
  {
    hide At;
    ReplayAt(base, id, FedTail(hash, tail, shards, 0));
    ReplayAt(base, id, tail);
    ReplayAt(base, id, Elsewhere(hash, tail, shards));
    ElsewhereHistory(hash, At(base, id), id, tail, shards);
    if shards > 1 {
      SliceHistory(hash, At(base, id), id, tail, shards, 0);
    }
  }

  /** One resident shard under a schema that names more: aggregation reaches every live document, as it is now, if
      and only if the tail's records for the other shards change nothing. Ranking has no such gap. */
  lemma OneShardUndercounts(hash: Id -> nat, base: Live, shards: nat, tail: seq<Record>)
    ensures Fed(hash, base, [base], shards, tail) == Replay(base, tail) <==>
            Replay(base, Elsewhere(hash, tail, shards)) == base
  {
    hide At, Fed, Replay;
    var fed, whole, other := Fed(hash, base, [base], shards, tail), Replay(base, tail),
        Replay(base, Elsewhere(hash, tail, shards));
    forall id
      ensures At(fed, id) == if ShardOf(hash, id, shards) == 0 then At(whole, id) else At(base, id)
      ensures At(other, id) == if ShardOf(hash, id, shards) == 0 then At(base, id) else At(whole, id)
    {
      OneShardAt(hash, base, shards, tail, id);
    }
    if fed == whole {
      SameEverywhere(other, base);
    }
    if other == base {
      SameEverywhere(fed, whole);
    }
  }
}
