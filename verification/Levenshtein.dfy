/** Bounded edit distance on two swapped rows (src/fts.rs). */
module Levenshtein {

  function Min(a: nat, b: nat): nat { if a <= b then a else b }

  function Init<T>(a: seq<T>): seq<T>
    requires a != []
  {
    a[..|a| - 1]
  }

  function Last<T>(a: seq<T>): T
    requires a != []
  {
    a[|a| - 1]
  }

  /** The textbook recurrence. */
  function Distance(a: string, b: string): nat
    decreases |a| + |b|
  {
    if a == [] then |b|
    else if b == [] then |a|
    else Min(Min(Distance(Init(a), b) + 1, Distance(a, Init(b)) + 1),
             Distance(Init(a), Init(b)) + if Last(a) == Last(b) then 0 else 1)
  }

  // ------------------------------------------------------------ what the recurrence measures

  /** One character inserted, deleted or replaced. */
  datatype Edit = Insert(at: nat, c: char) | Delete(at: nat) | Replace(at: nat, c: char)

  predicate Allowed(e: Edit, a: string) {
    if e.Insert? then e.at <= |a| else e.at < |a|
  }

  function Perform(e: Edit, a: string): string
    requires Allowed(e, a)
  {
    match e
    case Insert(i, c) => a[..i] + [c] + a[i..]
    case Delete(i) => a[..i] + a[i + 1..]
    case Replace(i, c) => a[..i] + [c] + a[i + 1..]
  }

  /** `edits`, done in order, turn `a` into `b`. */
  predicate Turns(edits: seq<Edit>, a: string, b: string)
    decreases |edits|
  {
    if edits == [] then a == b
    else Allowed(edits[0], a) && Turns(edits[1..], Perform(edits[0], a), b)
  }

  lemma {:induction false} DistanceSelf(a: string)
    ensures Distance(a, a) == 0
  {
    if a != [] {
      DistanceSelf(Init(a));
    }
  }

  /** Removing, adding or changing one character at the same place moves the distance by at most one. */
  lemma {:induction false} OneCharacter(a: string, u: string, x: char, y: char, v: string)
    ensures Distance(a, u + v) <= Distance(a, u + [x] + v) + 1
    ensures Distance(a, u + [x] + v) <= Distance(a, u + v) + 1
    ensures Distance(a, u + [x] + v) <= Distance(a, u + [y] + v) + 1
    decreases |a| + |v|
  {
    var p, q, r := u + v, u + [x] + v, u + [y] + v;
    if v != [] {
      assert Init(p) == u + Init(v) && Init(q) == u + [x] + Init(v) && Init(r) == u + [y] + Init(v);
      assert Last(p) == Last(q) == Last(r) == Last(v);
      OneCharacter(a, u, x, y, Init(v));
      if a != [] {
        OneCharacter(Init(a), u, x, y, v);
        OneCharacter(Init(a), u, x, y, Init(v));
      }
    } else {
      assert p == u && q == u + [x] && r == u + [y];
      assert Init(q) == u && Init(r) == u;
      if a != [] {
        OneCharacter(Init(a), u, x, y, v);
      }
    }
  }

  lemma EditMovesByOne(a: string, b: string, e: Edit)
    requires Allowed(e, b)
    ensures Distance(a, Perform(e, b)) <= Distance(a, b) + 1
  {
    match e {
      case Insert(i, c) =>
        assert b == b[..i] + b[i..];
        OneCharacter(a, b[..i], c, c, b[i..]);
      case Delete(i) =>
        assert b == b[..i] + [b[i]] + b[i + 1..];
        OneCharacter(a, b[..i], b[i], b[i], b[i + 1..]);
      case Replace(i, c) =>
        assert b == b[..i] + [b[i]] + b[i + 1..];
        OneCharacter(a, b[..i], c, b[i], b[i + 1..]);
    }
  }

  lemma {:induction false} EditsBoundDistance(a: string, m: string, b: string, edits: seq<Edit>)
    requires Turns(edits, m, b)
    ensures Distance(a, b) <= Distance(a, m) + |edits|
    decreases |edits|
  {
    if edits != [] {
      EditMovesByOne(a, m, edits[0]);
      EditsBoundDistance(a, Perform(edits[0], m), b, edits[1..]);
    }
  }

  lemma {:induction false} TurnsConcat(xs: seq<Edit>, ys: seq<Edit>, a: string, m: string, b: string)
    requires Turns(xs, a, m) && Turns(ys, m, b)
    ensures Turns(xs + ys, a, b)
    decreases |xs|
  {
    if xs == [] {
      assert xs + ys == ys;
    } else {
      assert (xs + ys)[0] == xs[0] && (xs + ys)[1..] == xs[1..] + ys;
      TurnsConcat(xs[1..], ys, Perform(xs[0], a), m, b);
    }
  }

  /** Edits that leave a last character alone. */
  lemma {:induction false} TurnsUnder(edits: seq<Edit>, a: string, b: string, c: char)
    requires Turns(edits, a, b)
    ensures Turns(edits, a + [c], b + [c])
    decreases |edits|
  {
    if edits != [] {
      var e := edits[0];
      assert Perform(e, a + [c]) == Perform(e, a) + [c];
      TurnsUnder(edits[1..], Perform(e, a), b, c);
    }
  }

  lemma TurnsOne(e: Edit, a: string)
    requires Allowed(e, a)
    ensures Turns([e], a, Perform(e, a))
  {
    assert [e][1..] == [];
  }

  lemma Then(edits: seq<Edit>, e: Edit, a: string, m: string, b: string)
    requires Turns(edits, a, m) && Allowed(e, m) && Perform(e, m) == b
    ensures Turns(edits + [e], a, b)
  {
    TurnsOne(e, m);
    TurnsConcat(edits, [e], a, m, b);
  }

  /** How the best edits of a smaller pair extend, one lemma for each branch of the recurrence. */
  lemma ThenInsert(edits: seq<Edit>, a: string, b: string)
    requires b != [] && Turns(edits, a, Init(b))
    ensures Turns(edits + [Insert(|b| - 1, Last(b))], a, b)
  {
    assert Perform(Insert(|b| - 1, Last(b)), Init(b)) == b;
    Then(edits, Insert(|b| - 1, Last(b)), a, Init(b), b);
  }

  lemma ThenDelete(edits: seq<Edit>, a: string, b: string)
    requires a != [] && Turns(edits, Init(a), b)
    ensures Turns(edits + [Delete(|b|)], a, b)
  {
    assert a == Init(a) + [Last(a)];
    TurnsUnder(edits, Init(a), b, Last(a));
    assert Perform(Delete(|b|), b + [Last(a)]) == b;
    Then(edits, Delete(|b|), a, b + [Last(a)], b);
  }

  lemma ThenReplace(edits: seq<Edit>, a: string, b: string)
    requires a != [] && b != [] && Turns(edits, Init(a), Init(b))
    ensures Last(a) == Last(b) ==> Turns(edits, a, b)
    ensures Turns(edits + [Replace(|b| - 1, Last(b))], a, b)
  {
    assert a == Init(a) + [Last(a)] && b == Init(b) + [Last(b)];
    TurnsUnder(edits, Init(a), Init(b), Last(a));
    assert Perform(Replace(|b| - 1, Last(b)), Init(b) + [Last(a)]) == b;
    Then(edits, Replace(|b| - 1, Last(b)), a, Init(b) + [Last(a)], b);
  }

  /** The distance is reached by some list of edits. */
  lemma {:induction false} BestEdits(a: string, b: string) returns (edits: seq<Edit>)
    ensures Turns(edits, a, b) && |edits| == Distance(a, b)
    decreases |a| + |b|
  {
    hide Turns;
    if a == [] && b == [] {
      edits := [];
      NoEdits(a);
    } else if b != [] && Distance(a, b) == Distance(a, Init(b)) + 1 {
      edits := BestEdits(a, Init(b));
      ThenInsert(edits, a, b);
      edits := edits + [Insert(|b| - 1, Last(b))];
    } else if Distance(a, b) == Distance(Init(a), b) + 1 {
      edits := BestEdits(Init(a), b);
      ThenDelete(edits, a, b);
      edits := edits + [Delete(|b|)];
    } else {
      edits := BestEdits(Init(a), Init(b));
      ThenReplace(edits, a, b);
      if Last(a) != Last(b) {
        edits := edits + [Replace(|b| - 1, Last(b))];
      }
    }
  }

  lemma NoEdits(a: string)
    ensures Turns([], a, a)
  {
  }

  /** The recurrence is the least number of single-character edits. */
  lemma DistanceIsFewestEdits(a: string, b: string, max: nat)
    ensures Distance(a, b) <= max <==> exists edits :: Turns(edits, a, b) && |edits| <= max
  {
    var best := BestEdits(a, b);
    forall edits | Turns(edits, a, b) ensures Distance(a, b) <= |edits| {
      DistanceSelf(a);
      EditsBoundDistance(a, a, b, edits);
    }
  }

  // ------------------------------------------------------------ the two early exits

  lemma {:induction false} LengthGap(a: string, b: string)
    ensures Distance(a, b) >= if |a| >= |b| then |a| - |b| else |b| - |a|
    decreases |a| + |b|
  {
    if a != [] && b != [] {
      LengthGap(Init(a), b);
      LengthGap(a, Init(b));
      LengthGap(Init(a), Init(b));
    }
  }

  // ------------------------------------------------------------ far words near by

  /** `b` is `a` with characters left out. */
  predicate Subsequence(b: string, a: string) {
    if b == [] then true
    else if a == [] then false
    else (Last(a) == Last(b) && Subsequence(Init(b), Init(a))) || Subsequence(b, Init(a))
  }

  /** A distance as small as the difference of lengths means that only deletions are needed. */
  lemma {:induction false} GapIsSubsequence(a: string, b: string)
    requires |a| >= |b| && Distance(a, b) == |a| - |b|
    ensures Subsequence(b, a)
    decreases |a| + |b|
  {
    if a != [] && b != [] {
      LengthGap(Init(a), b);
      LengthGap(a, Init(b));
      LengthGap(Init(a), Init(b));
      if Distance(Init(a), b) + 1 == Distance(a, b) {
        GapIsSubsequence(Init(a), b);
      } else {
        GapIsSubsequence(Init(a), Init(b));
      }
    }
  }

  lemma {:induction false} SubsequenceIsShorter(b: string, a: string)
    requires Subsequence(b, a)
    ensures |b| <= |a|
    ensures |b| == |a| ==> b == a
    decreases |a|
  {
    if b != [] {
      if Last(a) == Last(b) && Subsequence(Init(b), Init(a)) {
        SubsequenceIsShorter(Init(b), Init(a));
        assert a == Init(a) + [Last(a)] && b == Init(b) + [Last(b)];
      } else {
        SubsequenceIsShorter(b, Init(a));
      }
    }
  }

  lemma ZeroIsSame(a: string, b: string)
    ensures Distance(a, b) == 0 <==> a == b
  {
    DistanceSelf(a);
    LengthGap(a, b);
    if Distance(a, b) == 0 {
      GapIsSubsequence(a, b);
      SubsequenceIsShorter(b, a);
    }
  }

  /** `a` followed by `n` times `c`. */
  function Padded(a: string, c: char, n: nat): string {
    if n == 0 then a else Padded(a, c, n - 1) + [c]
  }

  lemma {:induction false} PaddedInit(a: string, c: char, n: nat)
    ensures |Padded(a, c, n)| == |a| + n
    ensures n > 0 ==> Init(Padded(a, c, n)) == Padded(a, c, n - 1) && Last(Padded(a, c, n)) == c
    decreases n
  {
    if n > 0 {
      PaddedInit(a, c, n - 1);
    }
  }

  /** Padding moves a word away from itself by exactly the padding. */
  lemma {:induction false} PaddedDistance(a: string, c: char, n: nat)
    ensures Distance(Padded(a, c, n), a) == n
    decreases n
  {
    PaddedInit(a, c, n);
    LengthGap(Padded(a, c, n), a);
    if n == 0 {
      DistanceSelf(a);
    } else {
      PaddedDistance(a, c, n - 1);
    }
  }

  /** Padding with a character that `b` does not end in helps no subsequence. */
  lemma {:induction false} PaddingIsUseless(b: string, a: string, c: char, n: nat)
    requires b != [] && Last(b) != c && Subsequence(b, Padded(a, c, n))
    ensures Subsequence(b, a)
    decreases n
  {
    PaddedInit(a, c, n);
    if n > 0 {
      PaddingIsUseless(b, a, c, n - 1);
    }
  }

  /** Some character that `b` does not end in. */
  function NotLast(b: string): (c: char)
    ensures b != [] ==> Last(b) != c
  {
    if b != [] && Last(b) == 'a' then 'b' else 'a'
  }

  /** A word no shorter than another, padded, is as far from itself as the padding and farther from the other. */
  lemma PaddedIsFarther(a: string, b: string, n: nat)
    requires a != b && |a| >= |b|
    ensures var d := Padded(a, NotLast(b), n); Distance(d, a) == n && Distance(d, b) > n
  {
    var c := NotLast(b);
    var d := Padded(a, c, n);
    PaddedInit(a, c, n);
    PaddedDistance(a, c, n);
    LengthGap(d, b);
    if Distance(d, b) <= n {
      GapIsSubsequence(d, b);
      if b != [] {
        PaddingIsUseless(b, a, c, n);
        SubsequenceIsShorter(b, a);
      }
      assert false;
    }
  }

  // ------------------------------------------------------------ the matrix

  /** One cell of the matrix. */
  function Cell(a: string, b: string, i: nat, j: nat): nat
    requires i <= |a| && j <= |b|
  {
    Distance(a[..i], b[..j])
  }

  lemma CellStep(a: string, b: string, i: nat, j: nat)
    requires 0 < i <= |a| && 0 < j <= |b|
    ensures Cell(a, b, i, j) ==
            Min(Min(Cell(a, b, i - 1, j) + 1, Cell(a, b, i, j - 1) + 1),
                Cell(a, b, i - 1, j - 1) + if a[i - 1] == b[j - 1] then 0 else 1)
  {
    assert Init(a[..i]) == a[..i - 1] && Init(b[..j]) == b[..j - 1];
  }

  /** Row `i` lies above `max` up to column `n`. */
  predicate RowAbove(a: string, b: string, i: nat, max: nat, n: nat)
    requires i <= |a| && n <= |b|
  {
    forall j | 0 <= j <= n :: Cell(a, b, i, j) > max
  }

  /** Row minima never decrease. */
  lemma {:induction false} RowsStayAbove(a: string, b: string, i: nat, k: nat, max: nat)
    requires i <= k <= |a| && RowAbove(a, b, i, max, |b|)
    ensures RowAbove(a, b, k, max, |b|)
    decreases k - i
  {
    if i < k {
      NextRowAbove(a, b, i, max, |b|);
      RowsStayAbove(a, b, i + 1, k, max);
    }
  }

  lemma {:induction false} NextRowAbove(a: string, b: string, i: nat, max: nat, n: nat)
    requires i < |a| && n <= |b| && RowAbove(a, b, i, max, |b|)
    ensures RowAbove(a, b, i + 1, max, n)
    decreases n
  {
    assert Cell(a, b, i, 0) > max;
    if n > 0 {
      NextRowAbove(a, b, i, max, n - 1);
      CellStep(a, b, i + 1, n);
    }
  }

  /** One row from the one above it, and a lower bound of its cells that is one of them. */
  method FillRow(a: string, b: string, i: nat, prev: array<nat>, cur: array<nat>) returns (rowMin: nat)
    requires 1 <= i <= |a| && prev != cur && prev.Length == cur.Length == |b| + 1
    requires forall j | 0 <= j <= |b| :: prev[j] == Cell(a, b, i - 1, j)
    modifies cur
    ensures forall j | 0 <= j <= |b| :: cur[j] == Cell(a, b, i, j) && rowMin <= cur[j]
  {
    cur[0] := i;
    rowMin := cur[0];
    for j := 1 to |b| + 1
      invariant forall k | 0 <= k <= |b| :: prev[k] == Cell(a, b, i - 1, k)
      invariant 0 <= rowMin && forall k | 0 <= k < j :: cur[k] == Cell(a, b, i, k) && rowMin <= cur[k]
    {
      CellStep(a, b, i, j);
      var cost: nat := if a[i - 1] != b[j - 1] then 1 else 0;
      cur[j] := Min(Min(prev[j] + 1, cur[j - 1] + 1), prev[j - 1] + cost);
      rowMin := Min(rowMin, cur[j]);
    }
  }

  /** The two rows of the source, swapped after each character of `a`. */
  method LevenshteinWithin(a: string, b: string, max: nat) returns (r: bool)
    ensures r <==> exists edits :: Turns(edits, a, b) && |edits| <= max
    ensures r <==> Distance(a, b) <= max
  {
    hide Turns, Distance;
    DistanceIsFewestEdits(a, b, max);
    LengthGap(a, b);
    assert a[..|a|] == a && b[..|b|] == b;
    if (if |a| >= |b| then |a| - |b| else |b| - |a|) > max {
      return false;
    }
    var prev := new nat[|b| + 1](j => j);
    var cur := new nat[|b| + 1](_ => 0);
    FirstRow(a, b);
    for i := 1 to |a| + 1
      invariant prev != cur && prev.Length == cur.Length == |b| + 1 && fresh(prev) && fresh(cur)
      invariant forall j | 0 <= j <= |b| :: prev[j] == Cell(a, b, i - 1, j)
    {
      var rowMin := FillRow(a, b, i, prev, cur);
      if rowMin > max {
        RowsStayAbove(a, b, i, |a|, max);
        assert Cell(a, b, |a|, |b|) > max;
        return false;
      }
      prev, cur := cur, prev;
    }
    return prev[|b|] <= max;
  }

  lemma FirstRow(a: string, b: string)
    ensures forall j | 0 <= j <= |b| :: Cell(a, b, 0, j) == j
  {
  }
}
