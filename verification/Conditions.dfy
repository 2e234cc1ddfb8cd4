/** What each comparison of a filter asks of a stored value, and what coercing its operand makes of that
    (src/doc.rs). */
module Conditions {
  import opened Wrappers
  import opened Values
  import opened Schemas
  import opened Filters
  import Levenshtein

  // ------------------------------------------------------------ equality and ranges

  /** The same value, or the same number in another width or beside a float; never two sparse vectors. */
  predicate Alike(h: Host, a: Value, b: Value) {
    || (a == b && !a.Sparse?)
    || ((a.Uint? || a.Int?) && (b.Uint? || b.Int?) && IntegerOf(a) == IntegerOf(b))
    || ((a.F64? || b.F64?) && Floating(h, a).Some? && Floating(h, a) == Floating(h, b))
  }

  /** Equality, of a comparison or of an element of a list. */
  lemma EqualMeans(h: Host, a: Value, b: Value)
    ensures Equals(h, a, b) <==> Alike(h, a, b)
    ensures Eval(h, a, Eq, b) <==> Alike(h, a, b)
  {
    EqualsAlike(h, a, b);
    hide Equals, Alike;
  }

  lemma EqualsAlike(h: Host, a: Value, b: Value)
    ensures Equals(h, a, b) <==> Alike(h, a, b)
  {
    hide Lex;
    if TypeOf(a) == TypeOf(b) && TypeOf(a).Some? && Ordered(TypeOf(a).value) {
      CompareIsTotal(h, TypeOf(a).value, a, b);
    }
  }

  lemma RangeIs(h: Host, actual: Value, op: Op, expected: Value)
    requires op.IsRange()
    ensures Eval(h, actual, op, expected) <==>
            !actual.Null? && !expected.Null? && InRange(op, Compare(h, actual, expected))
  {
    hide Compare, InRange;
  }

  /** The four ranges. One is never met by or against null, nor by values that do not compare. */
  lemma RangesMean(h: Host, actual: Value, expected: Value)
    ensures Eval(h, actual, Gt, expected) <==> !expected.Null? && Smaller(h, expected, actual)
    ensures Eval(h, actual, Lt, expected) <==> !actual.Null? && Smaller(h, actual, expected)
    ensures Eval(h, actual, Gte, expected) <==>
            !expected.Null? && (Smaller(h, expected, actual) || Alike(h, actual, expected))
    ensures Eval(h, actual, Lte, expected) <==>
            !actual.Null? && (Smaller(h, actual, expected) || Alike(h, actual, expected))
  {
    hide Compare, Smaller, Eval, Alike;
    RangeIs(h, actual, Gt, expected);
    RangeIs(h, actual, Lt, expected);
    RangeIs(h, actual, Gte, expected);
    RangeIs(h, actual, Lte, expected);
    CompareMeans(h, actual, expected);
    EqualMeans(h, actual, expected);
    NullIsSmallest(h, actual, expected);
    NullIsSmallest(h, expected, actual);
    if actual.Null? || expected.Null? {
      NullIsAlone(h, actual, expected);
    }
  }

  lemma NullIsAlone(h: Host, a: Value, b: Value)
    requires a.Null? || b.Null?
    ensures Alike(h, a, b) <==> a == b
  {
  }

  lemma NullIsSmallest(h: Host, a: Value, b: Value)
    ensures Smaller(h, a, b) ==> !b.Null?
    ensures a.Null? ==> (Smaller(h, a, b) <==> !b.Null?)
  {
  }

  /** Each negated comparison is met exactly by the values that its plain form is not met by, missing ones
      included. */
  lemma NegationsAre(h: Host, actual: Value, expected: Value)
    ensures Eval(h, actual, NotEq, expected) <==> !Eval(h, actual, Eq, expected)
    ensures Eval(h, actual, NotIn, expected) <==> !Eval(h, actual, In, expected)
    ensures Eval(h, actual, NotContains, expected) <==> !Eval(h, actual, Contains, expected)
    ensures Eval(h, actual, NotContainsAny, expected) <==> !Eval(h, actual, ContainsAny, expected)
  {
    hide Equals, SomeEqual, ShareElement, ContainsValue, MatchesPattern, InRange, Compare, Elements;
  }

  lemma PatternNegations(h: Host, actual: Value, expected: Value)
    ensures Eval(h, actual, NotGlob, expected) <==> !Eval(h, actual, Glob, expected)
    ensures Eval(h, actual, NotIGlob, expected) <==> !Eval(h, actual, IGlob, expected)
    ensures Eval(h, actual, NotRegex, expected) <==> !Eval(h, actual, Regex, expected)
  {
    hide Equals, SomeEqual, ShareElement, ContainsValue, MatchesPattern, InRange, Compare, Elements;
    SamePatterns(h, actual, expected);
  }

  lemma SamePatterns(h: Host, actual: Value, expected: Value)
    ensures MatchesPattern(h, NotGlob, actual, expected) == MatchesPattern(h, Glob, actual, expected)
    ensures MatchesPattern(h, NotIGlob, actual, expected) == MatchesPattern(h, IGlob, actual, expected)
    ensures MatchesPattern(h, NotRegex, actual, expected) == MatchesPattern(h, Regex, actual, expected)
  {
  }

  // ------------------------------------------------------------ membership and text

  /** `e` is one of the elements of `v`: of an array one of its entries, of anything else the value itself. */
  predicate Lists(v: Value, e: Value) {
    match v
    case StringArray(a) => e.String? && e.s in a
    case UintArray(a) => e.Uint? && e.u in a
    case IntArray(a) => e.Int? && e.i in a
    case _ => e == v
  }

  lemma ElementsAre(v: Value, e: Value)
    ensures e in Elements(v) <==> Lists(v, e)
  {
    match v
    case StringArray(a) =>
      if Lists(v, e) {
        var i :| 0 <= i < |a| && a[i] == e.s;
        assert Elements(v)[i] == e;
      }
    case UintArray(a) =>
      if Lists(v, e) {
        var i :| 0 <= i < |a| && a[i] == e.u;
        assert Elements(v)[i] == e;
      }
    case IntArray(a) =>
      if Lists(v, e) {
        var i :| 0 <= i < |a| && a[i] == e.i;
        assert Elements(v)[i] == e;
      }
    case _ =>
  }

  lemma SomeEqualMeans(h: Host, candidates: Value, v: Value)
    ensures SomeEqual(h, Elements(candidates), v) <==> exists e :: Lists(candidates, e) && Alike(h, v, e)
  {
    hide Elements, Lists, Alike, Equals;
    forall e: Value ensures e in Elements(candidates) <==> Lists(candidates, e) {
      ElementsAre(candidates, e);
    }
    forall e: Value ensures Equals(h, v, e) <==> Alike(h, v, e) {
      EqualMeans(h, v, e);
    }
  }

  /** Membership asks for an element alike. */
  lemma MembershipMeans(h: Host, actual: Value, expected: Value)
    ensures Eval(h, actual, In, expected) <==> exists e :: Lists(expected, e) && Alike(h, actual, e)
    ensures actual.StringArray? || actual.UintArray? ==>
      (Eval(h, actual, Contains, expected) <==> exists e :: Lists(actual, e) && Alike(h, expected, e))
  {
    hide Elements, Lists, Alike, SomeEqual, Equals;
    SomeEqualMeans(h, expected, actual);
    SomeEqualMeans(h, actual, expected);
  }

  /** ContainsAny asks for two elements alike, one of each side. */
  lemma OverlapMeans(h: Host, actual: Value, expected: Value)
    ensures Eval(h, actual, ContainsAny, expected) <==>
            exists e, mine :: Lists(expected, e) && Lists(actual, mine) && Alike(h, e, mine)
  {
    hide Elements, Lists, Alike, SomeEqual, Equals;
    forall e: Value ensures e in Elements(expected) <==> Lists(expected, e) {
      ElementsAre(expected, e);
    }
    forall e: Value
      ensures SomeEqual(h, Elements(actual), e) <==> exists mine :: Lists(actual, mine) && Alike(h, e, mine)
    {
      SomeEqualMeans(h, actual, e);
    }
  }

  lemma WindowSplits<T>(s: seq<T>, w: seq<T>)
    ensures (exists i | 0 <= i <= |s| :: WindowAt(s, w, i)) <==> exists before, after :: s == before + w + after
  {
    if i :| 0 <= i <= |s| && WindowAt(s, w, i) {
      assert s == s[..i] + w + s[i + |w|..];
    }
    if before, after :| s == before + w + after {
      assert WindowAt(s, w, |before|);
    }
  }

  /** Of anything but the two arrays, Contains asks for the operand's text inside the value's. */
  lemma SubstringMeans(h: Host, actual: Value, expected: Value)
    requires !actual.StringArray? && !actual.UintArray?
    ensures Eval(h, actual, Contains, expected) <==>
            AsText(h, actual).Some? && AsText(h, expected).Some? &&
            exists before, after :: AsText(h, actual).value == before + AsText(h, expected).value + after
  {
    if AsText(h, actual).Some? && AsText(h, expected).Some? {
      WindowSplits(AsText(h, actual).value, AsText(h, expected).value);
    }
  }

  /** Patterns match a value's text, globs with or without regard to case; one that does not compile matches
      nothing. */
  lemma PatternsMean(h: Host, text: string, pattern: string)
    ensures Eval(h, String(text), Glob, String(pattern)) <==>
            h.globMatcher(pattern, true).Some? && h.globMatcher(pattern, true).value(text)
    ensures Eval(h, String(text), IGlob, String(pattern)) <==>
            h.globMatcher(pattern, false).Some? && h.globMatcher(pattern, false).value(text)
    ensures Eval(h, String(text), Regex, String(pattern)) <==>
            h.regexMatcher(pattern).Some? && h.regexMatcher(pattern).value(text)
  {
  }

  // ------------------------------------------------------------ full text

  /** Words side by side, one space between any two. */
  lemma {:induction false} JoinOne(words: seq<string>, last: string)
    ensures Join(words + [last]) == if words == [] then last else Join(words) + " " + last
    decreases |words|
  {
    var all := words + [last];
    if |words| <= 1 {
      if words != [] {
        assert all[0] == words[0] && all[1..] == [last];
      }
    } else {
      assert all[0] == words[0] && all[1..] == words[1..] + [last];
      JoinOne(words[1..], last);
    }
  }

  /** `doc` has a word that `term` becomes by at most as many single-character edits. */
  ghost predicate WithinEdits(doc: seq<string>, term: string, edits: nat) {
    exists d, es :: d in doc && |es| <= edits && Levenshtein.Turns(es, d, term)
  }

  lemma NearMeans(doc: seq<string>, term: string, budget: nat)
    ensures HasNear(doc, term, budget) <==> WithinEdits(doc, term, budget)
  {
    hide Levenshtein.Distance, Levenshtein.Turns;
    if HasNear(doc, term, budget) {
      var d :| d in doc && Levenshtein.Distance(d, term) <= budget;
      Levenshtein.DistanceIsFewestEdits(d, term, budget);
      var es :| Levenshtein.Turns(es, d, term) && |es| <= budget;
      assert d in doc && |es| <= budget && Levenshtein.Turns(es, d, term);
    }
    if d, es :| d in doc && |es| <= budget && Levenshtein.Turns(es, d, term) {
      Levenshtein.DistanceIsFewestEdits(d, term, budget);
    }
  }

  /** Full-text comparisons are over the tokens of the value's text and of the operand's: every token, or not every
      token. None is met by an operand without tokens. */
  lemma FullTextMeans(h: Host, actual: Value, expected: Value, config: FtsConfig)
    requires AttributeText(actual).Some? && AsText(h, expected).Some?
    ensures var doc := h.tokenize(config.tokenizer, AttributeText(actual).value);
      var terms := h.tokenize(config.tokenizer, AsText(h, expected).value);
      && (EvalFullText(h, actual, ContainsAllTokens, expected, config) <==>
            terms != [] && forall t | t in terms :: t in doc)
      && (EvalFullText(h, actual, NotContainsAllTokens, expected, config) <==>
            exists t :: t in terms && t !in doc)
  {
    hide AttributeText, AsText, HasNear, HasWindow;
  }

  /** The tokens of the operand in one stretch of those of the text. */
  lemma SequenceMeans(h: Host, actual: Value, expected: Value, config: FtsConfig)
    requires AttributeText(actual).Some? && AsText(h, expected).Some?
    ensures var doc := h.tokenize(config.tokenizer, AttributeText(actual).value);
      var terms := h.tokenize(config.tokenizer, AsText(h, expected).value);
      EvalFullText(h, actual, ContainsTokenSequence, expected, config) <==>
      terms != [] && exists before, after :: doc == before + terms + after
  {
    hide AttributeText, AsText, HasNear, HasWindow, HasAll;
    var doc := h.tokenize(config.tokenizer, AttributeText(actual).value);
    var terms := h.tokenize(config.tokenizer, AsText(h, expected).value);
    WindowMeans(doc, terms);
  }

  lemma WindowMeans(doc: seq<string>, terms: seq<string>)
    ensures HasWindow(doc, terms) <==> exists before, after :: doc == before + terms + after
  {
    WindowSplits(doc, terms);
  }

  /** Fuzzy: every token of the operand is within one edit of some token of the text, or is one of them if it has at
      most five characters. */
  lemma FuzzyMeans(h: Host, actual: Value, expected: Value, config: FtsConfig)
    requires AttributeText(actual).Some? && AsText(h, expected).Some?
    ensures var doc := h.tokenize(config.tokenizer, AttributeText(actual).value);
      var terms := h.tokenize(config.tokenizer, AsText(h, expected).value);
      EvalFullText(h, actual, Fuzzy, expected, config) <==>
      terms != [] && forall t | t in terms :: WithinEdits(doc, t, if |t| <= 5 then 0 else 1)
  {
    hide AttributeText, AsText, HasNear, WithinEdits, HasAll, HasWindow;
    var doc := h.tokenize(config.tokenizer, AttributeText(actual).value);
    forall t ensures HasNear(doc, t, EditBudget(|t|)) <==> WithinEdits(doc, t, if |t| <= 5 then 0 else 1) {
      NearMeans(doc, t, EditBudget(|t|));
    }
  }

  lemma NoFullText(h: Host, actual: Value, op: Op, expected: Value, config: FtsConfig)
    requires (!actual.String? && !actual.StringArray?) || AsText(h, expected).None?
    ensures !EvalFullText(h, actual, op, expected, config)
  {
  }

  // ------------------------------------------------------------ coerced operands

  lemma {:induction false} CoerceAllEach(h: Host, vs: seq<Value>, ty: Type)
    ensures CoerceAll(h, vs, ty).Some? ==>
      var ws := CoerceAll(h, vs, ty).value;
      |ws| == |vs| && forall i | 0 <= i < |vs| :: Coerce(h, vs[i], ty) == Some(ws[i])
    decreases |vs|
  {
    hide Coerce;
    if vs != [] && CoerceAll(h, vs, ty).Some? {
      CoerceAllEach(h, vs[1..], ty);
    }
  }

  lemma {:induction false} PackedNumbers(vs: seq<Value>)
    ensures (forall v | v in vs :: v.Uint?) ==>
      |Uints(vs)| == |vs| && forall i | 0 <= i < |vs| :: Uints(vs)[i] == vs[i].u
    ensures (forall v | v in vs :: v.Int?) ==>
      |Ints(vs)| == |vs| && forall i | 0 <= i < |vs| :: Ints(vs)[i] == vs[i].i
    decreases |vs|
  {
    if vs != [] {
      PackedNumbers(vs[1..]);
    }
  }

  lemma {:induction false} PackedTexts(h: Host, vs: seq<Value>)
    ensures (forall v | v in vs :: v.String?) ==>
      |Texts(h, vs)| == |vs| && forall i | 0 <= i < |vs| :: Texts(h, vs)[i] == vs[i].s
    decreases |vs|
  {
    if vs != [] {
      PackedTexts(h, vs[1..]);
      assert vs[0] in vs && forall v | v in vs[1..] :: v in vs;
    }
  }

  /** The types whose coerced lists keep their elements as they are. */
  predicate Listable(ty: Type) { ty == TString || ty == TUint || ty == TInt }

  lemma CoercedElements(h: Host, list: Value, ty: Type, w: Value)
    requires (list.StringArray? || list.UintArray?) && Listable(ty) && CoerceOperand(h, list, ty) == Some(w)
    ensures |Elements(w)| == |Elements(list)|
    ensures forall i | 0 <= i < |Elements(list)| :: Coerce(h, Elements(list)[i], ty) == Some(Elements(w)[i])
  {
    hide Coerce, Elements, CoerceAll, Pack;
    var vs := CoerceAll(h, Elements(list), ty).value;
    CoerceAllEach(h, Elements(list), ty);
    forall i | 0 <= i < |vs| ensures TypeOf(vs[i]) == Some(ty) {
      ElementTyped(list, i);
      CoerceSettles(h, Elements(list)[i], ty);
    }
    PackKeeps(h, vs, ty);
  }

  lemma PackKeeps(h: Host, vs: seq<Value>, ty: Type)
    requires Listable(ty) && forall i | 0 <= i < |vs| :: TypeOf(vs[i]) == Some(ty)
    ensures Elements(Pack(h, vs, ty)) == vs
  {
    hide Uints, Ints, Texts;
    PackedNumbers(vs);
    PackedTexts(h, vs);
    if ty.TUint? {
      assert forall i | 0 <= i < |vs| :: vs[i].Uint?;
    } else if ty.TInt? {
      assert forall i | 0 <= i < |vs| :: vs[i].Int?;
    } else {
      assert forall i | 0 <= i < |vs| :: vs[i].String?;
    }
    assert |Elements(Pack(h, vs, ty))| == |vs|;
  }

  /** Membership in a list, as the caller means it: some element of it reads as the stored value. */
  ghost predicate ReadsAmong(h: Host, list: Value, v: Value) {
    exists e :: e in Elements(list) && ReadsAs(h, e, v)
  }

  /** The coerced list is met by exactly the stored values of type `ty` that the caller's list means. */
  ghost predicate Preserves(h: Host, ty: Type, list: Value, w: Value) {
    forall v | TypeOf(v) == Some(ty) :: Eval(h, v, In, w) <==> ReadsAmong(h, list, v)
  }

  lemma ListedAlike(h: Host, ty: Type, list: Value, w: Value, v: Value)
    requires (list.StringArray? || list.UintArray?) && Listable(ty) && CoerceOperand(h, list, ty) == Some(w)
    requires TypeOf(v) == Some(ty)
    ensures Eval(h, v, In, w) <==> ReadsAmong(h, list, v)
  {
    hide Coerce, ReadsAs, Elements, CoerceOperand, Compare;
    CoercedElements(h, list, ty, w);
    if e :| e in Elements(w) && Equals(h, v, e) {
      var i :| 0 <= i < |Elements(w)| && Elements(w)[i] == e;
      CoerceSettles(h, Elements(list)[i], ty);
      ElementTyped(list, i);
      CompareIsTotal(h, ty, v, e);
      CoerceIsReading(h, Elements(list)[i], ty, e);
      assert Elements(list)[i] in Elements(list) && ReadsAs(h, Elements(list)[i], v);
    }
    if e :| e in Elements(list) && ReadsAs(h, e, v) {
      var i :| 0 <= i < |Elements(list)| && Elements(list)[i] == e;
      CoerceIsReading(h, e, ty, v);
      assert Elements(w)[i] == v;
      CompareIsTotal(h, ty, v, v);
      assert Elements(w)[i] in Elements(w) && Equals(h, v, Elements(w)[i]);
    }
  }

  lemma ElementTyped(list: Value, i: nat)
    requires (list.StringArray? || list.UintArray?) && i < |Elements(list)|
    ensures !Elements(list)[i].Null?
  {
  }

  /** Text stands for the elements of every other type, and no stored value of such a type is equal to a text. */
  lemma PackedIsText(h: Host, ty: Type, list: Value, w: Value, v: Value)
    requires (list.StringArray? || list.UintArray?) && !Listable(ty) && CoerceOperand(h, list, ty) == Some(w)
    requires TypeOf(v) == Some(ty)
    ensures !Eval(h, v, In, w)
  {
  }

  /** The promise of element-wise coercion, that a list operand is still compared element by element, holds over
      text and integers and for the empty list, and nowhere else: over uuids, datetimes and floats the elements
      become texts, which no stored value equals. */
  lemma MembershipIsExact(h: Host, ty: Type, list: Value, w: Value)
    requires (list.StringArray? || list.UintArray?) && !IsArray(ty) && CoerceOperand(h, list, ty) == Some(w)
    ensures Preserves(h, ty, list, w) <==> Listable(ty) || Elements(list) == []
  {
    hide Coerce, ReadsAs, Eval, CoerceOperand;
    if Listable(ty) {
      forall v | TypeOf(v) == Some(ty) ensures Eval(h, v, In, w) <==> ReadsAmong(h, list, v) {
        ListedAlike(h, ty, list, w, v);
      }
    } else {
      forall v | TypeOf(v) == Some(ty) ensures !Eval(h, v, In, w) {
        PackedIsText(h, ty, list, w, v);
      }
      if Elements(list) != [] {
        var e := Elements(list)[0];
        FirstReads(h, ty, list, w);
        var v :| TypeOf(v) == Some(ty) && ReadsAs(h, e, v);
        assert e in Elements(list);
        assert ReadsAmong(h, list, v);
      }
    }
  }

  lemma FirstReads(h: Host, ty: Type, list: Value, w: Value)
    requires (list.StringArray? || list.UintArray?) && CoerceOperand(h, list, ty) == Some(w) && Elements(list) != []
    ensures exists v :: TypeOf(v) == Some(ty) && ReadsAs(h, Elements(list)[0], v)
  {
    hide ReadsAs, Coerce;
    CoerceAllEach(h, Elements(list), ty);
    var e := Elements(list)[0];
    var v := CoerceAll(h, Elements(list), ty).value[0];
    CoerceIsReading(h, e, ty, v);
    CoerceSettles(h, e, ty);
    assert TypeOf(v) == Some(ty) && ReadsAs(h, e, v);
  }

  /** A single operand, coerced, is met by exactly the stored value that it reads as. */
  lemma CoercedEqual(h: Host, ty: Type, x: Value, w: Value, v: Value)
    requires Ordered(ty) && TypeOf(v) == Some(ty) && !x.Null? && Coerce(h, x, ty) == Some(w)
    ensures Eval(h, v, Eq, w) <==> ReadsAs(h, x, v)
  {
    hide Coerce, ReadsAs, Compare;
    CoerceSettles(h, x, ty);
    CoerceIsReading(h, x, ty, w);
    CoerceIsReading(h, x, ty, v);
    CompareIsTotal(h, ty, v, w);
  }

  /** An array's elements are all of its element type; everything else is its own element. */
  lemma ElementTypes(v: Value, ty: Type)
    requires TypeOf(v) == Some(ty)
    ensures IsArray(ty) <==> v.StringArray? || v.UintArray? || v.IntArray?
    ensures forall e | e in Elements(v) :: TypeOf(e) == Some(ElementType(ty))
  {
  }

  /** The comparison a scalar operand becomes: of the attribute's type for equality and ranges, of its elements' type
      for the list operators; refused if it reads as none; left alone for patterns and text. */
  lemma CoercedComparison(h: Host, types: map<string, Type>, key: string, op: Op, x: Value, w: Value)
    requires key in types && !x.Null? && !x.StringArray? && !x.UintArray?
    ensures op.Eq? || op.NotEq? || op.IsRange() ==>
      (CoerceFilter(h, types, Cmp(key, op, x)) == Some(Cmp(key, op, w)) <==> Fits(w, types[key]) && ReadsAs(h, x, w))
    ensures op.TakesElements() && !IsArray(types[key]) ==>
      (CoerceFilter(h, types, Cmp(key, op, x)) == Some(Cmp(key, op, w)) <==> Fits(w, types[key]) && ReadsAs(h, x, w))
    ensures op.TakesElements() && types[key] == TStringArray ==>
      (CoerceFilter(h, types, Cmp(key, op, x)) == Some(Cmp(key, op, w)) <==> Fits(w, TString) && ReadsAs(h, x, w))
    ensures op.TakesElements() && types[key] == TUintArray ==>
      (CoerceFilter(h, types, Cmp(key, op, x)) == Some(Cmp(key, op, w)) <==> Fits(w, TUint) && ReadsAs(h, x, w))
    ensures op.TakesElements() && types[key] == TIntArray ==>
      (CoerceFilter(h, types, Cmp(key, op, x)) == Some(Cmp(key, op, w)) <==> Fits(w, TInt) && ReadsAs(h, x, w))
    ensures op.IsFullText() || op.IsPattern() ==> CoerceFilter(h, types, Cmp(key, op, x)) == Some(Cmp(key, op, x))
  {
    hide Coerce, ReadsAs, Fits;
    CoerceIsReading(h, x, Target(op, types[key]), w);
  }

  /** Every part of a connective is coerced on its own, in place. */
  lemma {:induction false} CoercedParts(h: Host, types: map<string, Type>, f: Filter, from: nat)
    requires (f.And? || f.Or?) && from <= |f.parts| && CoerceParts(h, types, f, from).Some?
    ensures var fs := CoerceParts(h, types, f, from).value;
      && |fs| == |f.parts| - from
      && forall i | from <= i < |f.parts| :: CoerceFilter(h, types, f.parts[i]) == Some(fs[i - from])
    decreases |f.parts| - from
  {
    if from < |f.parts| {
      CoercedParts(h, types, f, from + 1);
    }
  }

  /** The instance the code's own example names: a list with the text of a datetime, asked of a document with that
      datetime. Alone the text is found; in a list it is not. */
  lemma MembershipIsLost(h: Host, text: string, n: i64)
    requires h.parseDatetime(text) == Some(n)
    ensures var types, attrs := map["when" := TDatetime], map["when" := Datetime(n)];
      var alone, listed := CoerceFilter(h, types, Cmp("when", Eq, String(text))),
        CoerceFilter(h, types, Cmp("when", In, StringArray([text])));
      && alone.Some? && Matches(h, map[], alone.value, attrs)
      && listed.Some? && !Matches(h, map[], listed.value, attrs)
  {
    hide CoerceOperand, Coerce, Eval;
    var w := CoercedList(h, text, n);
    var v := Datetime(n);
    PackedIsText(h, TDatetime, StringArray([text]), w, v);
    assert Coerce(h, String(text), TDatetime) == Some(v) && CoerceOperand(h, String(text), TDatetime) == Some(v) by {
      CoercedText(h, text, n);
    }
    EqualMeans(h, v, v);
  }

  lemma CoercedText(h: Host, text: string, n: i64)
    requires h.parseDatetime(text) == Some(n)
    ensures Coerce(h, String(text), TDatetime) == CoerceOperand(h, String(text), TDatetime) == Some(Datetime(n))
  {
  }

  lemma CoercedList(h: Host, text: string, n: i64) returns (w: Value)
    requires h.parseDatetime(text) == Some(n)
    ensures CoerceOperand(h, StringArray([text]), TDatetime) == Some(w)
  {
    hide Coerce;
    CoercedText(h, text, n);
    var es := Elements(StringArray([text]));
    assert es == [String(text)] && es[1..] == [];
    assert CoerceAll(h, es[1..], TDatetime) == Some([]);
    assert CoerceAll(h, es, TDatetime).Some?;
    w := Pack(h, CoerceAll(h, es, TDatetime).value, TDatetime);
  }
}
