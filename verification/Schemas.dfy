/** A namespace's declared shape: inference, enforcement, and what they keep (src/doc.rs). */
module Schemas {
  import opened Wrappers
  import opened Values
  import opened Records

  datatype IdType = IdUint | IdUuid | IdString

  datatype Metric = CosineDistance | EuclideanSquared | DotProduct

  /** A tokenizer is a number here; what it does to text is a parameter of the text engine. */
  datatype FtsConfig = FtsConfig(tokenizer: nat, k1: real, b: real)

  datatype EmbedSpec = EmbedSpec(model: Option<string>)

  datatype Schema = Schema(
    attributes: map<string, Type>,
    idType: Option<IdType>,
    metric: Metric,
    dim: Option<nat>,
    numShards: Option<nat>,
    fts: map<string, FtsConfig>,
    embed: map<string, EmbedSpec>
  ) {
    /** Shard count, defaulting to one. */
    function Shards(): nat {
      if numShards.Some? then numShards.value else 1
    }
  }

  const EMPTY_SCHEMA := Schema(map[], None, CosineDistance, None, None, map[], map[])

  /** Namespace-level settings a write may carry. */
  datatype WriteConfig = WriteConfig(
    metric: Option<Metric>,
    types: map<string, Type>,
    fts: map<string, FtsConfig>,
    numShards: Option<nat>,
    embed: map<string, EmbedSpec>
  ) {
    predicate IsEmpty() {
      metric.None? && types == map[] && fts == map[] && numShards.None? && embed == map[]
    }
  }

  const EMPTY_CONFIG := WriteConfig(None, map[], map[], None, map[])

  datatype SchemaError =
    | MetricFixed | TypeFixed | FtsFixed | ShardCountRange | ShardCountFixed | EmbedFixed
    | BadId | NoVector | WrongDimension | NotFinite | BadAttribute

  // ------------------------------------------------------------ declarations

  function SetMetric(s: Schema, requested: Metric, hasData: bool): Result<Schema, SchemaError> {
    if !hasData then Ok(s.(metric := requested))
    else if s.metric != requested then Err(MetricFixed)
    else Ok(s)
  }

  predicate Conflicts<V(==)>(have: map<string, V>, want: map<string, V>) {
    exists k | k in want :: k in have && have[k] != want[k]
  }

  function SetShards(s: Schema, requested: nat, hasData: bool): Result<Schema, SchemaError> {
    if requested == 0 || requested > 256 then Err(ShardCountRange)
    else if s.numShards.None? then
      if hasData then Err(ShardCountFixed) else Ok(s.(numShards := Some(requested)))
    else if s.numShards.value != requested then Err(ShardCountFixed)
    else Ok(s)
  }

  function DeclareNames(s: Schema, c: WriteConfig): Result<Schema, SchemaError> {
    if Conflicts(s.attributes, c.types) then Err(TypeFixed)
    else if Conflicts(s.fts, c.fts) then Err(FtsFixed)
    else Ok(s.(attributes := s.attributes + c.types, fts := s.fts + c.fts))
  }

  function DeclareEmbed(s: Schema, c: WriteConfig): Result<Schema, SchemaError> {
    if Conflicts(s.embed, c.embed) then Err(EmbedFixed) else Ok(s.(embed := s.embed + c.embed))
  }

  /** Metric, then types and full-text settings, then the shard count, then embeddings. */
  function Declare(s: Schema, c: WriteConfig, hasData: bool): Result<Schema, SchemaError> {
    var s1 :- if c.metric.Some? then SetMetric(s, c.metric.value, hasData) else Ok(s);
    var s2 :- DeclareNames(s1, c);
    var s3 :- if c.numShards.Some? then SetShards(s2, c.numShards.value, hasData) else Ok(s2);
    DeclareEmbed(s3, c)
  }

  // ------------------------------------------------------------ absorbing records

  function IdTypeOf(id: Id): IdType {
    match id
    case UintId(_) => IdUint
    case UuidId(_) => IdUuid
    case StringId(_) => IdString
  }

  function CoerceId(h: Host, id: Id, ty: IdType): Option<Id> {
    if IdTypeOf(id) == ty then Some(id)
    else match (id, ty)
      case (StringId(s), IdUuid) => var u :- h.parseUuid(s); Some(UuidId(u))
      case (StringId(s), IdUint) => var u :- h.parseUint(s); Some(UintId(u))
      case (UintId(u), IdString) => Some(StringId(h.uintText(u)))
      case (UuidId(u), IdString) => Some(StringId(h.uuidText(u)))
      case _ => None
  }

  /** The first id of a namespace fixes its id type; later ids are coerced to it. */
  function AbsorbId(h: Host, s: Schema, id: Id): Result<(Schema, Id), SchemaError> {
    if s.idType.None? then Ok((s.(idType := Some(IdTypeOf(id))), id))
    else
      var coerced := CoerceId(h, id, s.idType.value);
      if coerced.Some? then Ok((s, coerced.value)) else Err(BadId)
  }

  /** An f32 bit pattern is finite unless its exponent is all ones. */
  predicate IsFinite(f: F32) {
    (f / 0x80_0000) % 0x100 != 0xFF
  }

  function AbsorbVector(s: Schema, vector: seq<F32>): Result<Schema, SchemaError> {
    if vector == [] then
      if s.dim.Some? then Err(NoVector) else Ok(s)
    else if s.dim.Some? && s.dim.value != |vector| then Err(WrongDimension)
    else if exists f | f in vector :: !IsFinite(f) then Err(NotFinite)
    else Ok(s.(dim := Some(|vector|)))
  }

  predicate AttrFails(h: Host, types: map<string, Type>, key: string, v: Value) {
    key in types && Coerce(h, v, types[key]).None?
  }

  function CoercedAttr(h: Host, types: map<string, Type>, key: string, v: Value): Value
    requires !AttrFails(h, types, key, v)
  {
    if key in types then Coerce(h, v, types[key]).value else v
  }

  function Coerced(h: Host, types: map<string, Type>, attrs: Attrs): Attrs
    requires forall k | k in attrs :: !AttrFails(h, types, k, attrs[k])
  {
    map k | k in attrs :: CoercedAttr(h, types, k, attrs[k])
  }

  /** A null declares no type; any other value of an unknown attribute declares its own. */
  function Inferred(types: map<string, Type>, attrs: Attrs): map<string, Type> {
    types + map k | k in attrs && k !in types && !attrs[k].Null? :: TypeOf(attrs[k]).value
  }

  function AbsorbAttrs(h: Host, s: Schema, attrs: Attrs): Result<(Schema, Attrs), SchemaError> {
    if exists k | k in attrs :: AttrFails(h, s.attributes, k, attrs[k]) then Err(BadAttribute)
    else Ok((s.(attributes := Inferred(s.attributes, attrs)), Coerced(h, s.attributes, attrs)))
  }

  function AbsorbRecord(h: Host, s: Schema, r: Record): Result<(Schema, Record), SchemaError> {
    match r
    case Upsert(d) =>
      var (s1, id) :- AbsorbId(h, s, d.id);
      var s2 :- AbsorbVector(s1, d.vector);
      var (s3, attrs) :- AbsorbAttrs(h, s2, d.attrs);
      Ok((s3, Upsert(Doc(id, d.vector, attrs))))
    case Patch(target, patch) =>
      var (s1, id) :- AbsorbId(h, s, target);
      var (s2, attrs) :- AbsorbAttrs(h, s1, patch);
      Ok((s2, Patch(id, attrs)))
    case Delete(target) =>
      var (s1, id) :- AbsorbId(h, s, target);
      Ok((s1, Delete(id)))
  }

  function Absorb(h: Host, s: Schema, records: seq<Record>): Result<(Schema, seq<Record>), SchemaError>
    decreases |records|
  {
    if records == [] then Ok((s, []))
    else
      var (s1, r) :- AbsorbRecord(h, s, records[0]);
      var (s2, rest) :- Absorb(h, s1, records[1..]);
      Ok((s2, [r] + rest))
  }

  /** Everything a commit does to a batch before it is framed. */
  function Prepare(h: Host, s: Schema, hasData: bool, c: WriteConfig,
                   records: seq<Record>): Result<(Schema, seq<Record>), SchemaError> {
    var declared :- Declare(s, c, hasData);
    Absorb(h, declared, records)
  }

  // ------------------------------------------------------------ what they keep

  predicate TypedAttrs(s: Schema, attrs: Attrs) {
    forall k | k in attrs && !attrs[k].Null? :: k in s.attributes && TypeOf(attrs[k]) == Some(s.attributes[k])
  }

  predicate TypedId(s: Schema, id: Id) {
    s.idType == Some(IdTypeOf(id))
  }

  predicate TypedVector(s: Schema, vector: seq<F32>) {
    vector != [] ==> s.dim == Some(|vector|) && forall f | f in vector :: IsFinite(f)
  }

  predicate TypedDoc(s: Schema, d: Doc) {
    TypedId(s, d.id) && TypedVector(s, d.vector) && TypedAttrs(s, d.attrs)
  }

  predicate TypedRecord(s: Schema, r: Record) {
    match r
    case Upsert(d) => TypedDoc(s, d)
    case Patch(id, attrs) => TypedId(s, id) && TypedAttrs(s, attrs)
    case Delete(id) => TypedId(s, id)
  }

  predicate TypedBatch(s: Schema, records: seq<Record>) {
    forall i | 0 <= i < |records| :: TypedRecord(s, records[i])
  }

  /** `b` keeps every declaration of `a`. */
  predicate Grows(a: Schema, b: Schema) {
    && (forall k | k in a.attributes :: k in b.attributes && b.attributes[k] == a.attributes[k])
    && (a.idType.Some? ==> b.idType == a.idType)
    && (a.dim.Some? ==> b.dim == a.dim)
    && (a.numShards.Some? ==> b.numShards == a.numShards)
    && (forall k | k in a.fts :: k in b.fts && b.fts[k] == a.fts[k])
    && (forall k | k in a.embed :: k in b.embed && b.embed[k] == a.embed[k])
  }

  lemma GrowsTransitive(a: Schema, b: Schema, c: Schema)
    requires Grows(a, b) && Grows(b, c)
    ensures Grows(a, c)
  {
  }

  lemma TypedLater(a: Schema, b: Schema, r: Record)
    requires Grows(a, b) && TypedRecord(a, r)
    ensures TypedRecord(b, r)
  {
  }

  lemma MergeKeeps<V>(have: map<string, V>, want: map<string, V>)
    requires !Conflicts(have, want)
    ensures forall k | k in have :: k in have + want && (have + want)[k] == have[k]
  {
    forall k | k in have ensures (have + want)[k] == have[k] {
      assert k in want ==> want[k] == have[k];
    }
  }

  lemma DeclareNamesGrows(s: Schema, c: WriteConfig)
    requires DeclareNames(s, c).Ok?
    ensures Grows(s, DeclareNames(s, c).value)
  {
    MergeKeeps(s.attributes, c.types);
    MergeKeeps(s.fts, c.fts);
  }

  lemma DeclareEmbedGrows(s: Schema, c: WriteConfig)
    requires DeclareEmbed(s, c).Ok?
    ensures Grows(s, DeclareEmbed(s, c).value)
  {
    MergeKeeps(s.embed, c.embed);
  }

  /** Declarations only ever add; the shard count can change only while there is no data. */
  lemma DeclareGrows(s: Schema, c: WriteConfig, hasData: bool)
    requires Declare(s, c, hasData).Ok?
    ensures Grows(s, Declare(s, c, hasData).value)
    ensures Declare(s, c, hasData).value.numShards != s.numShards ==> !hasData
  {
    var s1 := if c.metric.Some? then SetMetric(s, c.metric.value, hasData).value else s;
    DeclareNamesGrows(s1, c);
    var s2 := DeclareNames(s1, c).value;
    var s3 := if c.numShards.Some? then SetShards(s2, c.numShards.value, hasData).value else s2;
    DeclareEmbedGrows(s3, c);
    GrowsTransitive(s, s2, s3);
    GrowsTransitive(s, s3, DeclareEmbed(s3, c).value);
  }

  lemma InferOne(types: map<string, Type>, done: Attrs, key: string, v: Value)
    requires key !in done
    ensures key in Inferred(types, done) <==> key in types
    ensures Inferred(types, done[key := v]) ==
            if key in types || v.Null? then Inferred(types, done) else Inferred(types, done)[key := TypeOf(v).value]
  {
  }

  lemma AbsorbAttrsTypes(h: Host, s: Schema, attrs: Attrs)
    requires AbsorbAttrs(h, s, attrs).Ok?
    ensures Grows(s, AbsorbAttrs(h, s, attrs).value.0)
    ensures TypedAttrs(AbsorbAttrs(h, s, attrs).value.0, AbsorbAttrs(h, s, attrs).value.1)
  {
    var out := AbsorbAttrs(h, s, attrs).value.1;
    forall k | k in attrs
      ensures out[k].Null? <==> attrs[k].Null?
      ensures k in s.attributes ==> Fits(out[k], s.attributes[k])
    {
      assert !AttrFails(h, s.attributes, k, attrs[k]);
      if k in s.attributes {
        CoerceSettles(h, attrs[k], s.attributes[k]);
      }
    }
  }

  lemma AbsorbRecordTypes(h: Host, s: Schema, r: Record)
    requires AbsorbRecord(h, s, r).Ok?
    ensures Grows(s, AbsorbRecord(h, s, r).value.0)
    ensures AbsorbRecord(h, s, r).value.0.numShards == s.numShards
    ensures TypedRecord(AbsorbRecord(h, s, r).value.0, AbsorbRecord(h, s, r).value.1)
  {
    match r
    case Upsert(d) =>
      var s2 := AbsorbVector(AbsorbId(h, s, d.id).value.0, d.vector).value;
      AbsorbAttrsTypes(h, s2, d.attrs);
    case Patch(target, patch) =>
      AbsorbAttrsTypes(h, AbsorbId(h, s, target).value.0, patch);
    case Delete(_) =>
  }

  /** A batch that is accepted comes out wholly typed under a schema that kept every declaration,
      whatever the documents of the batch declared on the way. */
  lemma {:induction false} AbsorbTypes(h: Host, s: Schema, records: seq<Record>)
    requires Absorb(h, s, records).Ok?
    ensures Grows(s, Absorb(h, s, records).value.0)
    ensures Absorb(h, s, records).value.0.numShards == s.numShards
    ensures |Absorb(h, s, records).value.1| == |records|
    ensures TypedBatch(Absorb(h, s, records).value.0, Absorb(h, s, records).value.1)
    decreases |records|
  {
    if records != [] {
      var (s1, r) := AbsorbRecord(h, s, records[0]).value;
      var (s2, rest) := Absorb(h, s1, records[1..]).value;
      AbsorbRecordTypes(h, s, records[0]);
      AbsorbTypes(h, s1, records[1..]);
      GrowsTransitive(s, s1, s2);
      TypedLater(s1, s2, r);
    }
  }

  lemma PrepareTypes(h: Host, s: Schema, hasData: bool, c: WriteConfig, records: seq<Record>)
    requires Prepare(h, s, hasData, c, records).Ok?
    ensures Grows(s, Prepare(h, s, hasData, c, records).value.0)
    ensures TypedBatch(Prepare(h, s, hasData, c, records).value.0, Prepare(h, s, hasData, c, records).value.1)
    ensures |Prepare(h, s, hasData, c, records).value.1| == |records|
    ensures Prepare(h, s, hasData, c, records).value.0.numShards != s.numShards ==> !hasData
    ensures s.numShards.Some? ==> Prepare(h, s, hasData, c, records).value.0.numShards == s.numShards
  {
    var declared := Declare(s, c, hasData).value;
    DeclareGrows(s, c, hasData);
    AbsorbTypes(h, declared, records);
    GrowsTransitive(s, declared, Absorb(h, declared, records).value.0);
  }

  /** A shard count is between 1 and 256 wherever it came from. */
  predicate Sane(s: Schema) {
    s.numShards.Some? ==> 1 <= s.numShards.value <= 256
  }

  lemma PrepareSane(h: Host, s: Schema, hasData: bool, c: WriteConfig, records: seq<Record>)
    requires Prepare(h, s, hasData, c, records).Ok? && Sane(s)
    ensures Sane(Prepare(h, s, hasData, c, records).value.0)
  {
    AbsorbTypes(h, Declare(s, c, hasData).value, records);
  }

  /** Mutations of typed documents by typed records stay typed. */
  predicate TypedLive(s: Schema, live: Live) {
    forall id | id in live :: TypedDoc(s, live[id])
  }

  lemma {:induction false} ReplayTyped(s: Schema, live: Live, records: seq<Record>)
    requires TypedLive(s, live) && TypedBatch(s, records)
    ensures TypedLive(s, Replay(live, records))
    decreases |records|
  {
    if records != [] {
      assert TypedRecord(s, records[0]);
      assert TypedBatch(s, records[1..]) by {
        forall i | 0 <= i < |records[1..]| ensures TypedRecord(s, records[1..][i]) {
          assert records[1..][i] == records[i + 1];
        }
      }
      ReplayTyped(s, Apply(live, records[0]), records[1..]);
    }
  }

  // ------------------------------------------------------------ the schema, updated in place

  /** The schema copy one commit attempt works on. A rejected batch leaves it half updated, and the
      attempt drops it. */
  class Draft {
    var schema: Schema

    constructor (from: Schema)
      ensures schema == from
    {
      schema := from;
    }

    method TakeId(h: Host, id: Id) returns (r: Result<Id, SchemaError>)
      modifies this
      ensures r.Ok? <==> AbsorbId(h, old(schema), id).Ok?
      ensures r.Ok? ==> AbsorbId(h, old(schema), id) == Ok((schema, r.value))
      ensures r.Err? ==> AbsorbId(h, old(schema), id) == Err(r.error)
    {
      if schema.idType.None? {
        schema := schema.(idType := Some(IdTypeOf(id)));
        return Ok(id);
      }
      var coerced := CoerceId(h, id, schema.idType.value);
      r := if coerced.Some? then Ok(coerced.value) else Err(BadId);
    }

    method TakeVector(vector: seq<F32>) returns (r: Result<(), SchemaError>)
      modifies this
      ensures r.Ok? ==> AbsorbVector(old(schema), vector) == Ok(schema)
      ensures r.Err? ==> AbsorbVector(old(schema), vector) == Err(r.error)
    {
      if vector == [] {
        return if schema.dim.Some? then Err(NoVector) else Ok(());
      }
      if schema.dim.Some? && schema.dim.value != |vector| {
        return Err(WrongDimension);
      }
      schema := schema.(dim := Some(|vector|));
      for i := 0 to |vector|
        invariant forall j | 0 <= j < i :: IsFinite(vector[j])
        invariant schema == old(schema).(dim := Some(|vector|))
      {
        if !IsFinite(vector[i]) {
          return Err(NotFinite);
        }
      }
      r := Ok(());
    }

    /** Attribute by attribute: declare, coerce or reject. */
    method TakeAttrs(h: Host, attrs: Attrs) returns (r: Result<Attrs, SchemaError>)
      modifies this
      ensures r.Ok? ==> AbsorbAttrs(h, old(schema), attrs) == Ok((schema, r.value))
      ensures r.Err? ==> AbsorbAttrs(h, old(schema), attrs) == Err(r.error)
    {
      ghost var before, done: Attrs := schema.attributes, map[];
      var out: Attrs, todo := map[], attrs.Keys;
      while todo != {}
        invariant done.Keys !! todo && done.Keys + todo == attrs.Keys && out.Keys == done.Keys
        invariant forall k | k in done :: done[k] == attrs[k]
        invariant forall k | k in done ::
          !AttrFails(h, before, k, attrs[k]) && out[k] == CoercedAttr(h, before, k, attrs[k])
        invariant schema == old(schema).(attributes := Inferred(before, done))
        decreases todo
      {
        var key :| key in todo;
        todo := todo - {key};
        var v := attrs[key];
        InferOne(before, done, key, v);
        if key in schema.attributes {
          var coerced := Coerce(h, v, schema.attributes[key]);
          if coerced.None? {
            assert AttrFails(h, before, key, attrs[key]);
            return Err(BadAttribute);
          }
          out := out[key := coerced.value];
        } else {
          if !v.Null? {
            schema := schema.(attributes := schema.attributes[key := TypeOf(v).value]);
          }
          out := out[key := v];
        }
        done := done[key := v];
      }
      assert done == attrs;
      assert out == Coerced(h, before, attrs);
      r := Ok(out);
    }

    method TakeRecord(h: Host, record: Record) returns (r: Result<Record, SchemaError>)
      modifies this
      ensures r.Ok? ==> AbsorbRecord(h, old(schema), record) == Ok((schema, r.value))
      ensures r.Err? ==> AbsorbRecord(h, old(schema), record) == Err(r.error)
    {
      var id := TakeId(h, record.Id());
      if id.Err? {
        return Err(id.error);
      }
      match record
      case Delete(_) => r := Ok(Delete(id.value));
      case Patch(_, patch) =>
        var attrs := TakeAttrs(h, patch);
        r := if attrs.Ok? then Ok(Patch(id.value, attrs.value)) else Err(attrs.error);
      case Upsert(d) =>
        var vector := TakeVector(d.vector);
        if vector.Err? {
          return Err(vector.error);
        }
        var attrs := TakeAttrs(h, d.attrs);
        r := if attrs.Ok? then Ok(Upsert(Doc(id.value, d.vector, attrs.value))) else Err(attrs.error);
    }

    /** Fold a whole batch in, record by record, stopping at the first one that does not fit. */
    method TakeAll(h: Host, records: seq<Record>) returns (r: Result<seq<Record>, SchemaError>)
      modifies this
      ensures r.Ok? ==> Absorb(h, old(schema), records) == Ok((schema, r.value))
      ensures r.Err? ==> Absorb(h, old(schema), records) == Err(r.error)
    {
      var out := [];
      assert records[0..] == records;
      assert Absorb(h, schema, records).Ok? ==>
          [] + Absorb(h, schema, records).value.1 == Absorb(h, schema, records).value.1;
      for i := 0 to |records|
        invariant Absorb(h, old(schema), records) ==
                  match Absorb(h, schema, records[i..])
                  case Ok(rest) => Ok((rest.0, out + rest.1))
                  case Err(e) => Err(e)
      {
        assert records[i..][0] == records[i] && records[i..][1..] == records[i + 1..];
        ghost var before, done := schema, out;
        var taken := TakeRecord(h, records[i]);
        if taken.Err? {
          assert Absorb(h, before, records[i..]) == Err(taken.error);
          return Err(taken.error);
        }
        out := out + [taken.value];
        ghost var rest := Absorb(h, schema, records[i + 1..]);
        if rest.Ok? {
          assert done + ([taken.value] + rest.value.1) == out + rest.value.1;
        }
      }
      assert out + [] == out;
      r := Ok(out);
    }
  }
}
