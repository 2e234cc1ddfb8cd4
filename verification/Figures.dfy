/** What the answers of aggregation say, one document at a time (src/aggregate.rs). */
module Figures {
  import opened Wrappers
  import opened Values
  import opened Records
  import opened Filters
  import opened Sums
  import opened Groups
  import opened Aggregates
  import Conditions

  /** The number an aggregate answers, whole or not. */
  function Amount(r: Final): real {
    match r
    case Whole(n) => n as real
    case Float(x) => x
    case Stored(_) => 0.0
  }

  /** What one document contributes: its integer, its instant, its float as a number, nothing without the
      attribute. Other values are refused before they get here. */
  function Contribution(q: Request, v: Value): real {
    if IntegerOf(v).Some? then IntegerOf(v).value as real else if v.F64? then q.float(v.f) else 0.0
  }

  lemma SumIs(q: Request, live: Live, ids: set<Id>, attr: string, r: Final)
    requires Means(q, Sum(attr), live, ids, r)
    ensures Amount(r) == SumOver(Present(live, ids, attr), NumberAt(q, live, attr))
  {
    hide AllWhole;
    if Present(live, ids, attr) == {} {
      assert SumOver(Present(live, ids, attr), NumberAt(q, live, attr)) == 0.0;
    }
  }

  /** A sum starts from zero and each document adds its own number, once. */
  lemma SumGrows(q: Request, live: Live, ids: set<Id>, id: Id, attr: string, before: Final, after: Final)
    requires Means(q, Sum(attr), live, ids, before) && Means(q, Sum(attr), live, ids + {id}, after)
    requires id in live && id !in ids
    ensures ids == {} ==> before == Aggregates.Whole(0)
    ensures Amount(after) == Amount(before) + Contribution(q, Attribute(live[id].attrs, attr))
  {
    hide Means, SumOver, NumberAt;
    SumIs(q, live, ids, attr, before);
    SumIs(q, live, ids + {id}, attr, after);
    var v := Attribute(live[id].attrs, attr);
    if v.Null? {
      assert Present(live, ids + {id}, attr) == Present(live, ids, attr);
    } else {
      assert Present(live, ids + {id}, attr) == Present(live, ids, attr) + {id};
      SumAdd(Present(live, ids, attr), NumberAt(q, live, attr), id);
      ContributionIs(q, live, id, attr);
    }
    if ids == {} {
      NoneSum(q, live, attr, before);
    }
  }

  lemma NoneSum(q: Request, live: Live, attr: string, r: Final)
    requires Means(q, Sum(attr), live, {}, r)
    ensures r == Aggregates.Whole(0)
  {
    assert Present(live, {}, attr) == {};
  }

  lemma ContributionIs(q: Request, live: Live, id: Id, attr: string)
    requires id in live
    ensures NumberAt(q, live, attr)(id) == Contribution(q, Attribute(live[id].attrs, attr))
  {
  }

  /** The documents that have a value there. */
  ghost function Having(live: Live, ids: set<Id>, attr: string): set<Id> {
    set id | id in ids && id in live && attr in live[id].attrs && live[id].attrs[attr] != Null
  }

  /** An average times the number of documents that have a value is their sum; without any it is null. */
  lemma AverageTimesCount(q: Request, live: Live, ids: set<Id>, attr: string, avg: Final, sum: Final)
    requires Means(q, Avg(attr), live, ids, avg) && Means(q, Sum(attr), live, ids, sum)
    ensures Having(live, ids, attr) == {} ==> avg == Stored(Null)
    ensures Having(live, ids, attr) != {} ==>
      avg.Float? && avg.x * |Having(live, ids, attr)| as real == Amount(sum)
  {
    hide SumOver, NumberAt, AllWhole;
    SumIs(q, live, ids, attr, sum);
    assert Having(live, ids, attr) == Present(live, ids, attr);
  }

  /** A count of an attribute is the number of documents that have a value. */
  lemma CountIs(q: Request, live: Live, ids: set<Id>, attr: string, r: Final)
    requires Means(q, Count(Some(attr)), live, ids, r)
    ensures r == Aggregates.Whole(|Having(live, ids, attr)|)
  {
    assert Having(live, ids, attr) == Present(live, ids, attr);
  }

  /** A minimum is a value that some document has and that no document's is smaller than; a maximum one that is
      smaller than no document's; of nothing, null. */
  lemma ExtremesBound(q: Request, live: Live, ids: set<Id>, attr: string, low: Final, high: Final)
    requires Means(q, Min(attr), live, ids, low) && Means(q, Max(attr), live, ids, high)
    ensures Having(live, ids, attr) == {} ==> low == high == Stored(Null)
    ensures Having(live, ids, attr) != {} ==>
      && low.Stored? && high.Stored?
      && (exists id :: id in Having(live, ids, attr) && live[id].attrs[attr] == low.v)
      && (exists id :: id in Having(live, ids, attr) && live[id].attrs[attr] == high.v)
      && (forall id | id in Having(live, ids, attr) :: !Smaller(q.host, live[id].attrs[attr], low.v) &&
            !Smaller(q.host, high.v, live[id].attrs[attr]))
  {
    hide Compare, Smaller;
    assert Having(live, ids, attr) == Present(live, ids, attr);
    forall id | id in Having(live, ids, attr)
      ensures !Smaller(q.host, live[id].attrs[attr], low.v) && !Smaller(q.host, high.v, live[id].attrs[attr])
    {
      CompareMeans(q.host, live[id].attrs[attr], low.v);
      CompareMeans(q.host, live[id].attrs[attr], high.v);
    }
  }

  /** A value that is not a number and not missing. */
  predicate NotANumber(v: Value) {
    !v.Null? && !v.F64? && IntegerOf(v).None?
  }

  /** A document is refused exactly if a sum or an average is asked of an attribute where it holds something that is
      not a number; counts and extremes refuse nothing. */
  lemma RefusedIs(q: Request, attrs: Attrs)
    ensures Refused(q, attrs) <==>
            exists l ::
              l in q.aggs && (q.aggs[l].Sum? || q.aggs[l].Avg?) && NotANumber(Attribute(attrs, q.aggs[l].attr))
  {
    forall l | l in q.aggs
      ensures Accumulate(q, FRESH, q.aggs[l], attrs).None? <==>
              (q.aggs[l].Sum? || q.aggs[l].Avg?) && NotANumber(Attribute(attrs, q.aggs[l].attr))
    {
      hide Compare;
    }
  }

  // ------------------------------------------------------------ which documents a row is about

  /** `e` is one of what a value is exploded into: the elements of an array, null for an empty one, else itself. */
  predicate ExplodesTo(v: Value, e: Value) {
    match v
    case StringArray(a) => if a == [] then e.Null? else e.String? && e.s in a
    case UintArray(a) => if a == [] then e.Null? else e.Uint? && e.u in a
    case IntArray(a) => if a == [] then e.Null? else e.Int? && e.i in a
    case _ => e == v
  }

  lemma ExplodedIs(v: Value, e: Value)
    ensures e in Exploded(v) <==> ExplodesTo(v, e)
  {
    Conditions.ElementsAre(v, e);
    if v.StringArray? || v.UintArray? || v.IntArray? {
      SomeElement(v);
    }
  }

  lemma SomeElement(v: Value)
    ensures Elements(v) == [] <==> v == StringArray([]) || v == UintArray([]) || v == IntArray([])
  {
    match v
    case StringArray(a) => assert |Elements(v)| == |a|;
    case UintArray(a) => assert |Elements(v)| == |a|;
    case IntArray(a) => assert |Elements(v)| == |a|;
    case _ => assert |Elements(v)| == 1;
  }

  /** The row named `key` is about exactly the documents that have, under each grouped attribute, the key's value
      or, exploded, one of whose elements is it. */
  lemma RowHolds(q: Request, live: Live, key: Key, id: Id)
    requires id in live && |key| == |q.groupBy| && forall i | 0 <= i < |key| :: !key[i].Sparse?
    ensures id in GroupIds(q, live, Class(key)) <==>
      forall i | 0 <= i < |key| ::
        var v := Attribute(live[id].attrs, q.groupBy[i].attr);
        if q.groupBy[i].ByAttribute? then v == key[i] else ExplodesTo(v, key[i])
  {
    hide Exploded, ExplodesTo, Attribute;
    forall i | 0 <= i < |key|
      ensures var v := Attribute(live[id].attrs, q.groupBy[i].attr);
        Class(key)[i] in ClassValues(q.groupBy[i], live[id].attrs) <==>
          if q.groupBy[i].ByAttribute? then v == key[i] else ExplodesTo(v, key[i])
    {
      ClassValueIs(q.groupBy[i], live[id].attrs, key[i]);
    }
  }

  lemma ClassValueIs(g: GroupKey, attrs: Attrs, e: Value)
    requires !e.Sparse?
    ensures var v := Attribute(attrs, g.attr);
      Canon(e) in ClassValues(g, attrs) <==> if g.ByAttribute? then v == e else ExplodesTo(v, e)
  {
    hide Exploded, ExplodesTo;
    var v := Attribute(attrs, g.attr);
    ExplodedIs(v, e);
    if e in KeyValues(g, attrs) {
      assert Canon(e) in ClassValues(g, attrs);
    }
    if Canon(e) in ClassValues(g, attrs) {
      var w :| w in KeyValues(g, attrs) && Canon(w) == Canon(e);
      assert w == e;
    }
  }
}
