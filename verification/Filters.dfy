/** Filter expressions: coercion against the schema, and the scan that decides what matches (src/doc.rs). */
module Filters {
  import opened Wrappers
  import opened Values
  import opened Records
  import opened Schemas
  import Levenshtein

  datatype Op =
    | Eq | NotEq | Gt | Gte | Lt | Lte
    | In | NotIn
    | Glob | NotGlob | IGlob | NotIGlob
    | Contains | NotContains | ContainsAny | NotContainsAny
    | Regex | NotRegex
    | ContainsAllTokens | NotContainsAllTokens | ContainsTokenSequence | Fuzzy
  {
    predicate IsFullText() {
      ContainsAllTokens? || NotContainsAllTokens? || ContainsTokenSequence? || Fuzzy?
    }

    predicate IsRange() { Gt? || Gte? || Lt? || Lte? }

    predicate IsPattern() { Glob? || NotGlob? || IGlob? || NotIGlob? || Regex? || NotRegex? }

    /** Operators whose operand is a list of candidate elements, or one element. */
    predicate TakesElements() {
      In? || NotIn? || ContainsAny? || NotContainsAny? || Contains? || NotContains?
    }
  }

  datatype Filter =
    | And(parts: seq<Filter>)
    | Or(parts: seq<Filter>)
    | Not(inner: Filter)
    | Cmp(key: string, op: Op, value: Value)

  // ------------------------------------------------------------ one comparison

  /** `w` stands in `s` from position `i`. */
  predicate WindowAt<T(==)>(s: seq<T>, w: seq<T>, i: int) {
    0 <= i <= |s| - |w| && s[i..i + |w|] == w
  }

  predicate IsSubstring(needle: string, hay: string) {
    exists i | 0 <= i <= |hay| :: WindowAt(hay, needle, i)
  }

  /** The compiled pattern; `None` is a pattern that does not compile. */
  function Pattern(h: Host, op: Op, pattern: string): Option<string -> bool> {
    if op.Regex? || op.NotRegex? then h.regexMatcher(pattern)
    else h.globMatcher(pattern, op.Glob? || op.NotGlob?)
  }

  predicate MatchesPattern(h: Host, op: Op, actual: Value, expected: Value) {
    var text, pattern := AsText(h, actual), AsText(h, expected);
    text.Some? && pattern.Some? &&
    var compiled := Pattern(h, op, pattern.value);
    compiled.Some? && compiled.value(text.value)
  }

  predicate SomeEqual(h: Host, candidates: seq<Value>, v: Value) {
    exists e | e in candidates :: Equals(h, v, e)
  }

  predicate ShareElement(h: Host, mine: seq<Value>, wanted: seq<Value>) {
    exists w | w in wanted :: SomeEqual(h, mine, w)
  }

  /** Membership for two of the array types, substring for everything else. */
  predicate ContainsValue(h: Host, actual: Value, expected: Value) {
    if actual.StringArray? || actual.UintArray? then SomeEqual(h, Elements(actual), expected)
    else
      var hay, needle := AsText(h, actual), AsText(h, expected);
      hay.Some? && needle.Some? && IsSubstring(needle.value, hay.value)
  }

  predicate InRange(op: Op, c: Option<Ordering>) {
    match c
    case Some(Greater) => op.Gt? || op.Gte?
    case Some(Less) => op.Lt? || op.Lte?
    case Some(Equal) => op.Gte? || op.Lte?
    case None => false
  }

  predicate Eval(h: Host, actual: Value, op: Op, expected: Value) {
    match op
    case Eq => Equals(h, actual, expected)
    case NotEq => !Equals(h, actual, expected)
    case In => SomeEqual(h, Elements(expected), actual)
    case NotIn => !SomeEqual(h, Elements(expected), actual)
    case Contains => ContainsValue(h, actual, expected)
    case NotContains => !ContainsValue(h, actual, expected)
    case ContainsAny => ShareElement(h, Elements(actual), Elements(expected))
    case NotContainsAny => !ShareElement(h, Elements(actual), Elements(expected))
    case Glob => MatchesPattern(h, op, actual, expected)
    case IGlob => MatchesPattern(h, op, actual, expected)
    case Regex => MatchesPattern(h, op, actual, expected)
    case NotGlob => !MatchesPattern(h, op, actual, expected)
    case NotIGlob => !MatchesPattern(h, op, actual, expected)
    case NotRegex => !MatchesPattern(h, op, actual, expected)
    case ContainsAllTokens => false
    case NotContainsAllTokens => false
    case ContainsTokenSequence => false
    case Fuzzy => false
    case _ => !actual.Null? && !expected.Null? && InRange(op, Compare(h, actual, expected))
  }

  // ------------------------------------------------------------ full-text comparisons

  const DEFAULT_FTS := FtsConfig(0, 1.2, 0.75)

  function Join(words: seq<string>): string {
    if words == [] then "" else if |words| == 1 then words[0] else words[0] + " " + Join(words[1..])
  }

  /** The text of an attribute: a string, or the elements of a string array side by side. */
  function AttributeText(v: Value): Option<string> {
    match v
    case String(s) => Some(s)
    case StringArray(a) => Some(Join(a))
    case _ => None
  }

  predicate HasAll(doc: seq<string>, terms: seq<string>) {
    forall t | t in terms :: t in doc
  }

  /** `terms` is a contiguous window of `doc`. */
  predicate HasWindow(doc: seq<string>, terms: seq<string>) {
    exists i | 0 <= i <= |doc| :: WindowAt(doc, terms, i)
  }

  function EditBudget(length: nat): nat { if length <= 5 then 0 else 1 }

  predicate HasNear(doc: seq<string>, term: string, budget: nat) {
    exists d | d in doc :: Levenshtein.Distance(d, term) <= budget
  }

  predicate EvalFullText(h: Host, actual: Value, op: Op, expected: Value, config: FtsConfig) {
    var text, query := AttributeText(actual), AsText(h, expected);
    text.Some? && query.Some? &&
    var doc, terms := h.tokenize(config.tokenizer, text.value), h.tokenize(config.tokenizer, query.value);
    terms != [] &&
    match op
    case ContainsAllTokens => HasAll(doc, terms)
    case NotContainsAllTokens => !HasAll(doc, terms)
    case ContainsTokenSequence => HasWindow(doc, terms)
    case Fuzzy => forall t | t in terms :: HasNear(doc, t, EditBudget(|t|))
    case _ => false
  }

  // ------------------------------------------------------------ the scan

  function Attribute(attrs: Attrs, key: string): Value {
    if key in attrs then attrs[key] else Null
  }

  predicate Matches(h: Host, fts: map<string, FtsConfig>, f: Filter, attrs: Attrs) {
    match f
    case And(parts) => forall i | 0 <= i < |parts| :: Matches(h, fts, parts[i], attrs)
    case Or(parts) => exists i | 0 <= i < |parts| :: Matches(h, fts, parts[i], attrs)
    case Not(inner) => !Matches(h, fts, inner, attrs)
    case Cmp(key, op, value) =>
      var actual := Attribute(attrs, key);
      if op.IsFullText() then
        EvalFullText(h, actual, op, value, if key in fts then fts[key] else DEFAULT_FTS)
      else Eval(h, actual, op, value)
  }

  // ------------------------------------------------------------ coercion of operands

  function ElementType(ty: Type): Type {
    match ty
    case TStringArray => TString
    case TUintArray => TUint
    case TIntArray => TInt
    case _ => ty
  }

  function IsArray(ty: Type): bool { ty != ElementType(ty) }

  function CoerceAll(h: Host, vs: seq<Value>, ty: Type): (r: Option<seq<Value>>)
    ensures r.Some? ==> forall v | v in r.value :: Fits(v, ty)
  {
    if vs == [] then Some([])
    else
      var v :- Coerce(h, vs[0], ty);
      var rest :- CoerceAll(h, vs[1..], ty);
      Some([v] + rest)
  }

  function Texts(h: Host, vs: seq<Value>): seq<string> {
    if vs == [] then []
    else
      var t := AsText(h, vs[0]);
      (if t.Some? then [t.value] else []) + Texts(h, vs[1..])
  }

  function Uints(vs: seq<Value>): seq<u64> {
    if vs == [] then [] else (if vs[0].Uint? then [vs[0].u] else []) + Uints(vs[1..])
  }

  function Ints(vs: seq<Value>): seq<i64> {
    if vs == [] then [] else (if vs[0].Int? then [vs[0].i] else []) + Ints(vs[1..])
  }

  /** Types with no array form of their own are kept as the text of their elements. */
  function Pack(h: Host, vs: seq<Value>, target: Type): Value {
    match target
    case TUint => UintArray(Uints(vs))
    case TInt => IntArray(Ints(vs))
    case _ => StringArray(Texts(h, vs))
  }

  function CoerceOperand(h: Host, v: Value, target: Type): Option<Value> {
    if v.StringArray? || v.UintArray? then
      var vs :- CoerceAll(h, Elements(v), target);
      Some(Pack(h, vs, target))
    else Coerce(h, v, target)
  }

  function Target(op: Op, declared: Type): Type {
    if op.TakesElements() then ElementType(declared) else declared
  }

  /** `None` is the source's error; the value of an undeclared attribute, a pattern and a null stay. */
  function CoerceFilter(h: Host, types: map<string, Type>, f: Filter): Option<Filter>
    decreases f, 1, 0
  {
    match f
    case And(parts) => var fs :- CoerceParts(h, types, f, 0); Some(And(fs))
    case Or(parts) => var fs :- CoerceParts(h, types, f, 0); Some(Or(fs))
    case Not(inner) => var g :- CoerceFilter(h, types, inner); Some(Not(g))
    case Cmp(key, op, value) =>
      if key !in types || op.IsFullText() || op.IsPattern() || value.Null? then Some(f)
      else
        var v :- CoerceOperand(h, value, Target(op, types[key]));
        Some(Cmp(key, op, v))
  }

  function CoerceParts(h: Host, types: map<string, Type>, f: Filter, from: nat): Option<seq<Filter>>
    requires f.And? || f.Or?
    requires from <= |f.parts|
    decreases f, 0, |f.parts| - from
  {
    if from == |f.parts| then Some([])
    else
      var g :- CoerceFilter(h, types, f.parts[from]);
      var rest :- CoerceParts(h, types, f, from + 1);
      Some([g] + rest)
  }

  /** What a coerced operand can be. Patterns are not coerced, so theirs can be anything. */
  predicate Settled(op: Op, declared: Type, v: Value) {
    var target := Target(op, declared);
    || op.IsFullText() || op.IsPattern() || v.Null? || TypeOf(v) == Some(target)
    || match target
       case TUint => v.UintArray?
       case TInt => v.IntArray?
       case _ => v.StringArray?
  }

  predicate AllSettled(types: map<string, Type>, f: Filter) {
    match f
    case And(parts) => forall i | 0 <= i < |parts| :: AllSettled(types, parts[i])
    case Or(parts) => forall i | 0 <= i < |parts| :: AllSettled(types, parts[i])
    case Not(inner) => AllSettled(types, inner)
    case Cmp(key, op, v) => key in types ==> Settled(op, types[key], v)
  }

  /** Coercion leaves no operand of a declared attribute in a form the engine does not expect. */
  lemma {:induction false} CoercionSettles(h: Host, types: map<string, Type>, f: Filter)
    requires CoerceFilter(h, types, f).Some?
    ensures AllSettled(types, CoerceFilter(h, types, f).value)
    decreases f, 1, 0
  {
    match f
    case And(parts) => PartsSettle(h, types, f, 0);
    case Or(parts) => PartsSettle(h, types, f, 0);
    case Not(inner) => CoercionSettles(h, types, inner);
    case Cmp(key, op, v) =>
  }

  lemma {:induction false} PartsSettle(h: Host, types: map<string, Type>, f: Filter, from: nat)
    requires (f.And? || f.Or?) && from <= |f.parts| && CoerceParts(h, types, f, from).Some?
    ensures forall i | 0 <= i < |CoerceParts(h, types, f, from).value| ::
      AllSettled(types, CoerceParts(h, types, f, from).value[i])
    decreases f, 0, |f.parts| - from
  {
    if from < |f.parts| {
      CoercionSettles(h, types, f.parts[from]);
      PartsSettle(h, types, f, from + 1);
    }
  }
}
