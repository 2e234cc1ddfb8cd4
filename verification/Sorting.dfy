/** Sorting by a strict order, truncation, and why neither the sorting algorithm nor the order in which
    the elements arrive can show in the result. */
module Sorting {

  ghost predicate Strict<T(!new)>(less: (T, T) -> bool, s: set<T>) {
    && (forall a | a in s :: !less(a, a))
    && (forall a, b | a in s && b in s :: a == b || less(a, b) || less(b, a))
    && (forall a, b, c | a in s && b in s && c in s && less(a, b) && less(b, c) :: less(a, c))
  }

  ghost predicate Ascends<T(!new)>(less: (T, T) -> bool, xs: seq<T>) {
    forall i, j | 0 <= i < j < |xs| :: less(xs[i], xs[j])
  }

  ghost predicate Distinct<T(!new)>(xs: seq<T>) {
    forall i, j | 0 <= i < j < |xs| :: xs[i] != xs[j]
  }

  function Members<T(==)>(xs: seq<T>): set<T> { set x | x in xs }

  function Insert<T>(less: (T, T) -> bool, x: T, xs: seq<T>): seq<T> {
    if xs == [] then [x] else if less(x, xs[0]) then [x] + xs else [xs[0]] + Insert(less, x, xs[1..])
  }

  function Sort<T>(less: (T, T) -> bool, xs: seq<T>): seq<T> {
    if xs == [] then [] else Insert(less, xs[0], Sort(less, xs[1..]))
  }

  function Take<T>(k: nat, xs: seq<T>): seq<T> {
    if |xs| <= k then xs else xs[..k]
  }

  function Keep<T>(xs: seq<T>, keep: T -> bool): seq<T> {
    if xs == [] then [] else (if keep(xs[0]) then [xs[0]] else []) + Keep(xs[1..], keep)
  }

  function Flatten<T>(xss: seq<seq<T>>): seq<T> {
    if xss == [] then [] else xss[0] + Flatten(xss[1..])
  }

  // ------------------------------------------------------------ what is in them

  lemma MembersConcat<T>(xs: seq<T>, ys: seq<T>)
    ensures Members(xs + ys) == Members(xs) + Members(ys)
  {
  }

  lemma SomeMember<T(!new)>(xs: seq<T>)
    ensures xs != [] ==> Members(xs) != {}
  {
    if xs != [] {
      assert xs[0] in Members(xs);
    }
  }

  lemma {:induction false} InsertMembers<T>(less: (T, T) -> bool, x: T, xs: seq<T>)
    ensures Members(Insert(less, x, xs)) == Members(xs) + {x} && |Insert(less, x, xs)| == |xs| + 1
    decreases |xs|
  {
    if xs != [] && !less(x, xs[0]) {
      InsertMembers(less, x, xs[1..]);
      MembersConcat([xs[0]], xs[1..]);
      MembersConcat([xs[0]], Insert(less, x, xs[1..]));
      assert [xs[0]] + xs[1..] == xs;
    } else {
      MembersConcat([x], xs);
    }
  }

  lemma {:induction false} SortMembers<T>(less: (T, T) -> bool, xs: seq<T>)
    ensures Members(Sort(less, xs)) == Members(xs) && |Sort(less, xs)| == |xs|
    decreases |xs|
  {
    if xs != [] {
      SortMembers(less, xs[1..]);
      InsertMembers(less, xs[0], Sort(less, xs[1..]));
      MembersConcat([xs[0]], xs[1..]);
      assert [xs[0]] + xs[1..] == xs;
    }
  }

  lemma {:induction false} KeepMembers<T>(xs: seq<T>, keep: T -> bool)
    ensures Members(Keep(xs, keep)) == set x | x in xs && keep(x)
    ensures |Keep(xs, keep)| <= |xs|
    decreases |xs|
  {
    if xs != [] {
      KeepMembers(xs[1..], keep);
      assert [xs[0]] + xs[1..] == xs;
      MembersConcat(if keep(xs[0]) then [xs[0]] else [], Keep(xs[1..], keep));
    }
  }

  lemma {:induction false} FlattenMembers<T(!new)>(xss: seq<seq<T>>, x: T)
    ensures x in Flatten(xss) <==> exists i :: 0 <= i < |xss| && x in xss[i]
    decreases |xss|
  {
    if xss != [] {
      FlattenMembers(xss[1..], x);
      if x in Flatten(xss[1..]) {
        var i :| 0 <= i < |xss[1..]| && x in xss[1..][i];
        assert x in xss[i + 1];
      }
      if i :| 0 <= i < |xss| && x in xss[i] {
        assert i > 0 ==> xss[1..][i - 1] == xss[i];
      }
    }
  }

  // ------------------------------------------------------------ ascending, and in one way only

  lemma {:induction false} FlattenOne<T(!new)>(xss: seq<seq<T>>, xs: seq<T>)
    ensures Flatten(xss + [xs]) == Flatten(xss) + xs
    decreases |xss|
  {
    if xss == [] {
      assert [xs][1..] == [];
      assert Flatten([xs]) == xs + Flatten([]);
    } else {
      assert (xss + [xs])[1..] == xss[1..] + [xs];
      FlattenOne(xss[1..], xs);
    }
  }

  lemma {:induction false} InsertAscends<T(!new)>(less: (T, T) -> bool, x: T, xs: seq<T>)
    requires Strict(less, Members(xs) + {x}) && x !in xs && Ascends(less, xs)
    ensures Ascends(less, Insert(less, x, xs))
    decreases |xs|
  {
    if xs != [] {
      if less(x, xs[0]) {
        forall j | 0 <= j < |xs| ensures less(x, xs[j]) {
          assert xs[0] in Members(xs) && xs[j] in Members(xs);
          assert j > 0 ==> less(xs[0], xs[j]);
        }
      } else {
        var rest := Insert(less, x, xs[1..]);
        InsertAscends(less, x, xs[1..]);
        InsertMembers(less, x, xs[1..]);
        forall j | 0 <= j < |rest| ensures less(xs[0], rest[j]) {
          assert rest[j] in Members(rest) && xs[0] in Members(xs);
        }
      }
    }
  }

  lemma TailMembers<T(!new)>(xs: seq<T>)
    requires xs != [] && Distinct(xs)
    ensures Members(xs[1..]) == Members(xs) - {xs[0]} && Distinct(xs[1..])
  {
    assert [xs[0]] + xs[1..] == xs;
    MembersConcat([xs[0]], xs[1..]);
    assert xs[0] !in xs[1..];
  }

  lemma {:induction false} SortAscends<T(!new)>(less: (T, T) -> bool, xs: seq<T>)
    requires Strict(less, Members(xs)) && Distinct(xs)
    ensures Ascends(less, Sort(less, xs)) && Members(Sort(less, xs)) == Members(xs)
    decreases |xs|
  {
    SortMembers(less, xs);
    if xs != [] {
      TailMembers(xs);
      assert xs[0] in Members(xs);
      SortAscends(less, xs[1..]);
      var rest := Sort(less, xs[1..]);
      assert xs[0] !in Members(rest) && Members(rest) + {xs[0]} == Members(xs);
      InsertAscends(less, xs[0], rest);
    }
  }

  /** Ascending, with repeats allowed. */
  ghost predicate NeverDescends<T(!new)>(less: (T, T) -> bool, xs: seq<T>) {
    forall i, j | 0 <= i < j < |xs| :: !less(xs[j], xs[i])
  }

  lemma {:induction false} InsertNeverDescends<T(!new)>(less: (T, T) -> bool, x: T, xs: seq<T>)
    requires Strict(less, Members(xs) + {x}) && NeverDescends(less, xs)
    ensures NeverDescends(less, Insert(less, x, xs))
    decreases |xs|
  {
    if xs != [] {
      if less(x, xs[0]) {
        forall j | 0 <= j < |xs| ensures !less(xs[j], x) {
          assert xs[0] in Members(xs) && xs[j] in Members(xs);
          assert j > 0 ==> !less(xs[j], xs[0]);
        }
      } else {
        var rest := Insert(less, x, xs[1..]);
        InsertNeverDescends(less, x, xs[1..]);
        InsertMembers(less, x, xs[1..]);
        forall j | 0 <= j < |rest| ensures !less(rest[j], xs[0]) {
          assert rest[j] in Members(rest) && xs[0] in Members(xs);
        }
      }
    }
  }

  lemma {:induction false} SortNeverDescends<T(!new)>(less: (T, T) -> bool, xs: seq<T>)
    requires Strict(less, Members(xs))
    ensures NeverDescends(less, Sort(less, xs))
    decreases |xs|
  {
    if xs != [] {
      assert [xs[0]] + xs[1..] == xs;
      MembersConcat([xs[0]], xs[1..]);
      SortNeverDescends(less, xs[1..]);
      SortMembers(less, xs[1..]);
      InsertNeverDescends(less, xs[0], Sort(less, xs[1..]));
    }
  }

  lemma AscendsDistinct<T(!new)>(less: (T, T) -> bool, xs: seq<T>)
    requires Strict(less, Members(xs)) && Ascends(less, xs)
    ensures Distinct(xs)
  {
    forall i, j | 0 <= i < j < |xs| ensures xs[i] != xs[j] {
      assert less(xs[i], xs[j]) && xs[i] in Members(xs);
    }
  }

  lemma SameFirst<T(!new)>(less: (T, T) -> bool, xs: seq<T>, ys: seq<T>)
    requires Strict(less, Members(xs)) && Members(xs) == Members(ys) && xs != []
    requires Ascends(less, xs) && Ascends(less, ys)
    ensures ys != [] && xs[0] == ys[0]
  {
    assert xs[0] in Members(xs) && xs[0] in Members(ys);
    assert ys[0] in Members(ys) && ys[0] in Members(xs);
    var i :| 0 <= i < |xs| && xs[i] == ys[0];
    var j :| 0 <= j < |ys| && ys[j] == xs[0];
    if i > 0 && j > 0 {
      assert false;
    }
  }

  /** There is only one way to arrange a set in ascending order. */
  lemma {:induction false} OneArrangement<T(!new)>(less: (T, T) -> bool, xs: seq<T>, ys: seq<T>)
    requires Strict(less, Members(xs)) && Members(xs) == Members(ys)
    requires Ascends(less, xs) && Ascends(less, ys)
    ensures xs == ys
    decreases |xs|
  {
    if xs == [] {
      SomeMember(ys);
    } else {
      SameFirst(less, xs, ys);
      AscendsDistinct(less, xs);
      AscendsDistinct(less, ys);
      TailMembers(xs);
      TailMembers(ys);
      OneArrangement(less, xs[1..], ys[1..]);
      assert xs == [xs[0]] + xs[1..] && ys == [ys[0]] + ys[1..];
    }
  }

  /** What a sort returns depends only on which elements it is given. */
  lemma SortIgnoresArrival<T(!new)>(less: (T, T) -> bool, xs: seq<T>, ys: seq<T>)
    requires Strict(less, Members(xs)) && Distinct(xs) && Distinct(ys) && Members(xs) == Members(ys)
    ensures Sort(less, xs) == Sort(less, ys)
  {
    SortAscends(less, xs);
    SortAscends(less, ys);
    OneArrangement(less, Sort(less, xs), Sort(less, ys));
  }

  // ------------------------------------------------------------ parts of a sorted list

  lemma {:induction false} KeepAscends<T(!new)>(less: (T, T) -> bool, xs: seq<T>, keep: T -> bool)
    requires Ascends(less, xs)
    ensures Ascends(less, Keep(xs, keep))
    decreases |xs|
  {
    if xs != [] {
      KeepAscends(less, xs[1..], keep);
      KeepMembers(xs[1..], keep);
      var rest := Keep(xs[1..], keep);
      forall j | 0 <= j < |rest| ensures less(xs[0], rest[j]) {
        assert rest[j] in Members(rest) && rest[j] in xs[1..];
      }
    }
  }

  lemma {:induction false} KeepConcat<T>(xs: seq<T>, ys: seq<T>, keep: T -> bool)
    ensures Keep(xs + ys, keep) == Keep(xs, keep) + Keep(ys, keep)
    decreases |xs|
  {
    if xs == [] {
      assert xs + ys == ys;
    } else {
      assert (xs + ys)[0] == xs[0] && (xs + ys)[1..] == xs[1..] + ys;
      KeepConcat(xs[1..], ys, keep);
      var head := if keep(xs[0]) then [xs[0]] else [];
      assert head + (Keep(xs[1..], keep) + Keep(ys, keep)) == head + Keep(xs[1..], keep) + Keep(ys, keep);
    }
  }

  lemma {:induction false} KeepAll<T>(xs: seq<T>, keep: T -> bool)
    requires forall i | 0 <= i < |xs| :: keep(xs[i])
    ensures Keep(xs, keep) == xs
    decreases |xs|
  {
    if xs != [] {
      KeepAll(xs[1..], keep);
    }
  }

  /** Sorting a part of a list is sorting the list and keeping that part. */
  lemma SortPart<T(!new)>(less: (T, T) -> bool, all: seq<T>, part: seq<T>)
    requires Strict(less, Members(all)) && Distinct(all) && Distinct(part) && Members(part) <= Members(all)
    ensures Sort(less, part) == Keep(Sort(less, all), x => x in part)
  {
    hide Sort, Keep;
    SortAscends(less, all);
    SortAscends(less, part);
    KeepAscends(less, Sort(less, all), x => x in part);
    KeepMembers(Sort(less, all), x => x in part);
    assert Members(Keep(Sort(less, all), x => x in part)) == Members(part) by {
      forall x ensures x in Sort(less, all) && x in part <==> x in part {
        assert x in Members(part) ==> x in Members(Sort(less, all));
      }
    }
    OneArrangement(less, Sort(less, part), Keep(Sort(less, all), x => x in part));
  }

  /** Where the best `k` of a list end up when only a part of it is sorted. */
  lemma PartStartsWith<T(!new)>(less: (T, T) -> bool, all: seq<T>, part: seq<T>, k: nat)
    requires Strict(less, Members(all)) && Distinct(all) && Distinct(part) && Members(part) <= Members(all)
    ensures Keep(Take(k, Sort(less, all)), x => x in part) <= Sort(less, part)
  {
    hide Sort, Keep;
    SortPart(less, all, part);
    var sorted := Sort(less, all);
    var best := Take(k, sorted);
    assert sorted == best + sorted[|best|..];
    KeepConcat(best, sorted[|best|..], x => x in part);
  }

  /** Any part that still holds the best `k` of a list has the same best `k`. */
  lemma TopOfPart<T(!new)>(less: (T, T) -> bool, all: seq<T>, part: seq<T>, k: nat)
    requires Strict(less, Members(all)) && Distinct(all) && Distinct(part) && Members(part) <= Members(all)
    requires forall x | x in Take(k, Sort(less, all)) :: x in part
    ensures Take(k, Sort(less, part)) == Take(k, Sort(less, all))
  {
    hide Sort, Keep;
    PartStartsWith(less, all, part, k);
    KeepAll(Take(k, Sort(less, all)), x => x in part);
    SortPart(less, all, part);
    KeepMembers(Sort(less, all), x => x in part);
  }

  /** An element among the best `k` of a list is among the best `k` of any part that holds it. */
  lemma BestStaysBest<T(!new)>(less: (T, T) -> bool, all: seq<T>, part: seq<T>, k: nat, x: T)
    requires Strict(less, Members(all)) && Distinct(all) && Distinct(part) && Members(part) <= Members(all)
    requires x in Take(k, Sort(less, all)) && x in part
    ensures x in Take(k, Sort(less, part))
  {
    hide Sort, Keep;
    PartStartsWith(less, all, part, k);
    var best := Take(k, Sort(less, all));
    KeepMembers(best, y => y in part);
    var mine := Keep(best, y => y in part);
    assert x in Members(mine);
    var i :| 0 <= i < |mine| && mine[i] == x;
    assert Sort(less, part)[i] == x;
  }

  ghost predicate TopsOf<T(!new)>(less: (T, T) -> bool, lists: seq<seq<T>>, tops: seq<seq<T>>, k: nat) {
    |tops| == |lists| && forall i | 0 <= i < |lists| :: Distinct(lists[i]) && tops[i] == Take(k, Sort(less, lists[i]))
  }

  lemma TopsWithin<T(!new)>(less: (T, T) -> bool, lists: seq<seq<T>>, tops: seq<seq<T>>, k: nat, x: T)
    requires TopsOf(less, lists, tops, k) && x in Flatten(tops)
    ensures x in Flatten(lists)
  {
    hide Sort, Flatten;
    FlattenMembers(tops, x);
    FlattenMembers(lists, x);
    var i :| 0 <= i < |tops| && x in tops[i];
    SortMembers(less, lists[i]);
    assert x in Members(Sort(less, lists[i]));
  }

  lemma BestIsInSomeTop<T(!new)>(less: (T, T) -> bool, lists: seq<seq<T>>, tops: seq<seq<T>>, k: nat, x: T)
    requires Strict(less, Members(Flatten(lists))) && Distinct(Flatten(lists)) && TopsOf(less, lists, tops, k)
    requires x in Take(k, Sort(less, Flatten(lists)))
    ensures x in Flatten(tops)
  {
    hide Sort, Flatten, Strict, Distinct;
    SortMembers(less, Flatten(lists));
    assert x in Members(Sort(less, Flatten(lists)));
    FlattenMembers(lists, x);
    var i :| 0 <= i < |lists| && x in lists[i];
    forall y | y in lists[i] ensures y in Flatten(lists) {
      FlattenMembers(lists, y);
    }
    BestStaysBest(less, Flatten(lists), lists[i], k, x);
    FlattenMembers(tops, x);
    assert x in tops[i];
  }

  /** Merging truncated lists loses nothing: the best `k` of the union are the best `k` of the lists'
      own best `k`. */
  lemma MergedTop<T(!new)>(less: (T, T) -> bool, lists: seq<seq<T>>, tops: seq<seq<T>>, k: nat)
    requires Strict(less, Members(Flatten(lists))) && Distinct(Flatten(lists)) && Distinct(Flatten(tops))
    requires TopsOf(less, lists, tops, k)
    ensures Take(k, Sort(less, Flatten(tops))) == Take(k, Sort(less, Flatten(lists)))
  {
    hide Sort, Flatten, Strict, Distinct, TopsOf;
    forall x | x in Flatten(tops) ensures x in Flatten(lists) {
      TopsWithin(less, lists, tops, k, x);
    }
    forall x | x in Take(k, Sort(less, Flatten(lists))) ensures x in Flatten(tops) {
      BestIsInSomeTop(less, lists, tops, k, x);
    }
    TopOfPart(less, Flatten(lists), Flatten(tops), k);
  }

  // ------------------------------------------------------------ distinctness

  lemma {:induction false} SortDistinct<T(!new)>(less: (T, T) -> bool, xs: seq<T>)
    requires Strict(less, Members(xs)) && Distinct(xs)
    ensures Distinct(Sort(less, xs))
  {
    SortAscends(less, xs);
    AscendsDistinct(less, Sort(less, xs));
  }

  ghost predicate Apart<T(!new)>(lists: seq<seq<T>>) {
    && (forall i | 0 <= i < |lists| :: Distinct(lists[i]))
    && (forall i, j | 0 <= i < j < |lists| :: Members(lists[i]) !! Members(lists[j]))
  }

  lemma {:induction false} FlattenDistinct<T(!new)>(lists: seq<seq<T>>)
    requires Apart(lists)
    ensures Distinct(Flatten(lists))
    decreases |lists|
  {
    if lists != [] {
      FlattenDistinct(lists[1..]);
      var head, rest := lists[0], Flatten(lists[1..]);
      forall x | x in head ensures x !in rest {
        FlattenMembers(lists[1..], x);
        assert x in Members(lists[0]);
        forall i | 0 <= i < |lists[1..]| ensures x !in lists[1..][i] {
          assert lists[1..][i] == lists[i + 1];
          assert x !in Members(lists[i + 1]);
        }
      }
      forall i, j | 0 <= i < j < |head + rest| ensures (head + rest)[i] != (head + rest)[j] {
        if i < |head| <= j {
          assert head[i] in head && rest[j - |head|] in rest;
        }
      }
    }
  }

  lemma TopsApart<T(!new)>(less: (T, T) -> bool, lists: seq<seq<T>>, tops: seq<seq<T>>, k: nat)
    requires Apart(lists) && TopsOf(less, lists, tops, k)
    requires forall i | 0 <= i < |lists| :: Strict(less, Members(lists[i]))
    ensures Apart(tops)
  {
    hide Sort, Strict;
    forall i | 0 <= i < |tops| ensures Distinct(tops[i]) && Members(tops[i]) <= Members(lists[i]) {
      SortDistinct(less, lists[i]);
      SortMembers(less, lists[i]);
      assert forall x | x in tops[i] :: x in Sort(less, lists[i]);
      assert forall x | x in Sort(less, lists[i]) :: x in Members(Sort(less, lists[i]));
    }
    forall i, j | 0 <= i < j < |tops| ensures Members(tops[i]) !! Members(tops[j]) {
      assert Members(lists[i]) !! Members(lists[j]);
    }
  }

  // ------------------------------------------------------------ the first k, told without sorting

  lemma {:induction false} DistinctSize<T(!new)>(xs: seq<T>)
    requires Distinct(xs)
    ensures |Members(xs)| == |xs|
    decreases |xs|
  {
    if xs != [] {
      TailMembers(xs);
      DistinctSize(xs[1..]);
      assert xs[0] in Members(xs);
    }
  }

  ghost function Image<A(!new), B(!new)>(s: set<A>, f: A -> B): set<B> {
    set x | x in s :: f(x)
  }

  lemma {:induction false} ImageSize<A(!new), B(!new)>(s: set<A>, f: A -> B)
    requires forall x, y | x in s && y in s && f(x) == f(y) :: x == y
    ensures |Image(s, f)| == |s|
    decreases |s|
  {
    if s != {} {
      var x :| x in s;
      var rest := s - {x};
      ImageSize(rest, f);
      assert f(x) !in Image(rest, f);
      assert Image(s, f) == Image(rest, f) + {f(x)};
    }
  }

  function AtMost(k: nat, n: nat): nat { if n < k then n else k }

  /** `ys` are the first `k` of `s`: as many as there are up to `k`, in order, and nothing left out comes first. */
  ghost predicate IsTop<T(!new)>(less: (T, T) -> bool, s: set<T>, k: nat, ys: seq<T>) {
    && |ys| == AtMost(k, |s|) && Ascends(less, ys) && Members(ys) <= s
    && forall y, x | y in ys && x in s && x !in ys :: less(y, x)
  }

  lemma SortedIsTop<T(!new)>(less: (T, T) -> bool, xs: seq<T>, k: nat)
    requires Strict(less, Members(xs)) && Distinct(xs)
    ensures IsTop(less, Members(xs), k, Take(k, Sort(less, xs)))
  {
    hide Sort, Strict;
    SortAscends(less, xs);
    SortMembers(less, xs);
    DistinctSize(xs);
    var sorted, ys := Sort(less, xs), Take(k, Sort(less, xs));
    forall y | y in ys ensures y in Members(xs) {
      assert y in Members(sorted);
    }
    forall y, x | y in ys && x in Members(xs) && x !in ys ensures less(y, x) {
      assert x in Members(sorted);
      var i :| 0 <= i < |ys| && ys[i] == y;
      var j :| 0 <= j < |sorted| && sorted[j] == x;
      assert j >= |ys|;
      assert less(sorted[i], sorted[j]);
    }
  }

  lemma TopsShare<T(!new)>(less: (T, T) -> bool, s: set<T>, k: nat, ys: seq<T>, zs: seq<T>)
    requires Strict(less, s) && IsTop(less, s, k, ys) && IsTop(less, s, k, zs)
    ensures Members(ys) <= Members(zs)
  {
    AscendsDistinct(less, ys);
    AscendsDistinct(less, zs);
    DistinctSize(ys);
    DistinctSize(zs);
    forall y | y in Members(ys) ensures y in Members(zs) {
      if y !in Members(zs) {
        LeftOver(Members(ys), Members(zs), y);
        var z :| z in Members(zs) && z !in Members(ys);
        OneWay(less, s, y, z);
        assert false;
      }
    }
  }

  lemma OneWay<T(!new)>(less: (T, T) -> bool, s: set<T>, y: T, z: T)
    requires Strict(less, s) && y in s && z in s
    ensures !less(y, z) || !less(z, y)
  {
  }

  lemma LeftOver<T(!new)>(a: set<T>, b: set<T>, y: T)
    requires |a| == |b| && y in a && y !in b
    ensures exists z :: z in b && z !in a
  {
    if b <= a {
      CardinalityOrder(b, a - {y});
    }
  }

  lemma {:induction false} CardinalityOrder<T>(a: set<T>, b: set<T>)
    requires a <= b
    ensures |a| <= |b|
    decreases |a|
  {
    if a != {} {
      var x :| x in a;
      CardinalityOrder(a - {x}, b - {x});
    }
  }

  /** There is only one such list. */
  lemma OneTop<T(!new)>(less: (T, T) -> bool, s: set<T>, k: nat, ys: seq<T>, zs: seq<T>)
    requires Strict(less, s) && IsTop(less, s, k, ys) && IsTop(less, s, k, zs)
    ensures ys == zs
  {
    TopsShare(less, s, k, ys, zs);
    TopsShare(less, s, k, zs, ys);
    assert forall x | x in Members(ys) :: x in s;
    OneArrangement(less, ys, zs);
  }
}
