/** Which of the settings a write asks for end up in the schema its commit publishes (src/doc.rs, src/store.rs). */
module Settings {
  import opened Wrappers
  import opened Values
  import opened Records
  import opened Schemas

  /** Everything `want` asks for is in `have`. */
  predicate Includes<V(==)>(have: map<string, V>, want: map<string, V>) {
    forall k | k in want :: k in have && have[k] == want[k]
  }

  /** The schema says everything the request asked it to say. */
  predicate Grants(s: Schema, want: WriteConfig) {
    && (want.metric.Some? ==> s.metric == want.metric.value)
    && (want.numShards.Some? ==> s.numShards == want.numShards)
    && Includes(s.attributes, want.types) && Includes(s.fts, want.fts) && Includes(s.embed, want.embed)
  }

  /** A configuration counts as empty exactly if it asks for nothing: every schema says what it asks for. */
  lemma EmptyAsksNothing(c: WriteConfig)
    ensures c.IsEmpty() <==> forall s :: Grants(s, c)
  {
    if forall s :: Grants(s, c) {
      var other := if c.metric == Some(CosineDistance) then DotProduct else CosineDistance;
      assert Grants(EMPTY_SCHEMA.(metric := other), c);
      assert c.metric.None?;
      assert Grants(EMPTY_SCHEMA, c);
      assert c.numShards.None?;
      assert forall k :: k !in c.types && k !in c.fts && k !in c.embed;
    }
  }

  function AttrsOf(r: Record): Attrs {
    match r
    case Upsert(d) => d.attrs
    case Patch(_, attrs) => attrs
    case Delete(_) => map[]
  }

  /** The type of the first value under `key` that is not null, in the order of the batch. */
  function FirstType(records: seq<Record>, key: string): Option<Type>
    decreases |records|
  {
    if records == [] then None
    else
      var attrs := AttrsOf(records[0]);
      if key in attrs && !attrs[key].Null? then TypeOf(attrs[key]) else FirstType(records[1..], key)
  }

  /** The type an attribute has after a commit, if any. */
  function TypeAfter(base: Schema, config: WriteConfig, records: seq<Record>, key: string): Option<Type> {
    if key in config.types then Some(config.types[key])
    else if key in base.attributes then Some(base.attributes[key])
    else FirstType(records, key)
  }

  /** What can be told before a commit: of the schema it starts from, of the one configuration it is given, and
      of its records. */
  predicate GrantedBy(base: Schema, config: WriteConfig, records: seq<Record>, want: WriteConfig) {
    && (want.metric.Some? ==> want.metric.value == if config.metric.Some? then config.metric.value else base.metric)
    && (want.numShards.Some? ==> want.numShards == if config.numShards.Some? then config.numShards else base.numShards)
    && (forall k | k in want.types :: TypeAfter(base, config, records, k) == Some(want.types[k]))
    && Includes(base.fts + config.fts, want.fts) && Includes(base.embed + config.embed, want.embed)
  }

  lemma AbsorbRecordDeclares(h: Host, s: Schema, r: Record)
    requires AbsorbRecord(h, s, r).Ok?
    ensures var t := AbsorbRecord(h, s, r).value.0;
      && t.metric == s.metric && t.numShards == s.numShards && t.fts == s.fts && t.embed == s.embed
      && t.attributes == Inferred(s.attributes, AttrsOf(r))
  {
    hide Inferred, Coerced, AttrFails, CoerceId, IsFinite;
    match r
    case Upsert(_) =>
    case Patch(_, _) =>
    case Delete(_) =>
      NothingInferred(s.attributes);
  }

  lemma NothingInferred(types: map<string, Type>)
    ensures Inferred(types, map[]) == types
  {
  }

  /** A batch declares the first type each unknown attribute shows, and nothing else. */
  lemma {:induction false} AbsorbDeclares(h: Host, s: Schema, records: seq<Record>, key: string)
    requires Absorb(h, s, records).Ok?
    ensures var t := Absorb(h, s, records).value.0;
      && t.metric == s.metric && t.numShards == s.numShards && t.fts == s.fts && t.embed == s.embed
      && (if key in t.attributes then Some(t.attributes[key]) else None) ==
         if key in s.attributes then Some(s.attributes[key]) else FirstType(records, key)
    decreases |records|
  {
    hide AbsorbRecord;
    if records != [] {
      AbsorbRecordDeclares(h, s, records[0]);
      AbsorbDeclares(h, AbsorbRecord(h, s, records[0]).value.0, records[1..], key);
    }
  }

  lemma DeclareMerges(s: Schema, c: WriteConfig, hasData: bool)
    requires Declare(s, c, hasData).Ok?
    ensures var t := Declare(s, c, hasData).value;
      && t.metric == (if c.metric.Some? then c.metric.value else s.metric)
      && t.numShards == (if c.numShards.Some? then c.numShards else s.numShards)
      && t.attributes == s.attributes + c.types && t.fts == s.fts + c.fts && t.embed == s.embed + c.embed
  {
  }

  lemma SameSettings(t: Schema, base: Schema, config: WriteConfig, records: seq<Record>, want: WriteConfig)
    requires t.metric == if config.metric.Some? then config.metric.value else base.metric
    requires t.numShards == if config.numShards.Some? then config.numShards else base.numShards
    requires t.fts == base.fts + config.fts && t.embed == base.embed + config.embed
    requires forall k | k in want.types ::
               (if k in t.attributes then Some(t.attributes[k]) else None) == TypeAfter(base, config, records, k)
    ensures Grants(t, want) <==> GrantedBy(base, config, records, want)
  {
    hide TypeAfter;
  }

  /** A commit that succeeds publishes what a request wants if and only if the settings it ran with, its base
      and its records say the same. */
  lemma GrantedExactly(h: Host, s: Schema, hasData: bool, config: WriteConfig, records: seq<Record>, want: WriteConfig)
    requires Prepare(h, s, hasData, config, records).Ok?
    ensures Grants(Prepare(h, s, hasData, config, records).value.0, want) <==> GrantedBy(s, config, records, want)
  {
    hide Declare, Absorb, Grants, GrantedBy, FirstType;
    DeclareMerges(s, config, hasData);
    var d := Declare(s, config, hasData).value;
    var t := Prepare(h, s, hasData, config, records).value.0;
    AbsorbDeclares(h, d, records, "");
    forall k | k in want.types
      ensures (if k in t.attributes then Some(t.attributes[k]) else None) == TypeAfter(s, config, records, k)
    {
      AbsorbDeclares(h, d, records, k);
    }
    SameSettings(t, s, config, records, want);
  }

  lemma OwnAreGranted(base: Schema, config: WriteConfig, records: seq<Record>)
    ensures GrantedBy(base, config, records, config)
  {
  }
}
