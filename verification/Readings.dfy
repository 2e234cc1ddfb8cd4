/** What a schema makes of the values it is given: it reads them, and changes nothing else (src/doc.rs). */
module Readings {
  import opened Wrappers
  import opened Values
  import opened Records
  import opened Schemas
  import opened Settings

  // ------------------------------------------------------------ ids

  /** `w` is `id` read as another type: as the host reads its text or prints it. */
  predicate ReadsId(h: Host, id: Id, w: Id) {
    || w == id
    || (id.StringId? && w.UuidId? && h.parseUuid(id.s) == Some(w.id))
    || (id.StringId? && w.UintId? && h.parseUint(id.s) == Some(w.u))
    || (id.UintId? && w == StringId(h.uintText(id.u)))
    || (id.UuidId? && w == StringId(h.uuidText(id.id)))
  }

  /** An id is coerced to the one id of the declared type that it reads as, or refused if there is none. */
  lemma CoerceIdIsReading(h: Host, id: Id, ty: IdType, w: Id)
    ensures CoerceId(h, id, ty) == Some(w) <==> IdTypeOf(w) == ty && ReadsId(h, id, w)
  {
  }

  // ------------------------------------------------------------ records

  ghost predicate ReadsAttrs(h: Host, attrs: Attrs, w: Attrs) {
    w.Keys == attrs.Keys && forall k | k in attrs :: ReadsAs(h, attrs[k], w[k])
  }

  /** `w` is the same mutation as `r`: of the same kind, with the same vector and the same attributes, whose id
      and values are read. */
  ghost predicate ReadsRecord(h: Host, r: Record, w: Record) {
    match (r, w)
    case (Upsert(d), Upsert(e)) => ReadsId(h, d.id, e.id) && e.vector == d.vector && ReadsAttrs(h, d.attrs, e.attrs)
    case (Patch(id, attrs), Patch(wid, wattrs)) => ReadsId(h, id, wid) && ReadsAttrs(h, attrs, wattrs)
    case (Delete(id), Delete(wid)) => ReadsId(h, id, wid)
    case _ => false
  }

  ghost predicate ReadsBatch(h: Host, records: seq<Record>, ws: seq<Record>) {
    |ws| == |records| && forall i | 0 <= i < |records| :: ReadsRecord(h, records[i], ws[i])
  }

  lemma AbsorbIdReads(h: Host, s: Schema, id: Id)
    requires AbsorbId(h, s, id).Ok?
    ensures ReadsId(h, id, AbsorbId(h, s, id).value.1)
  {
    if s.idType.Some? {
      CoerceIdIsReading(h, id, s.idType.value, AbsorbId(h, s, id).value.1);
    }
  }

  lemma AbsorbAttrsReads(h: Host, s: Schema, attrs: Attrs)
    requires AbsorbAttrs(h, s, attrs).Ok?
    ensures ReadsAttrs(h, attrs, AbsorbAttrs(h, s, attrs).value.1)
  {
    hide ReadsAs, Coerce, Inferred;
    var out := AbsorbAttrs(h, s, attrs).value.1;
    forall k | k in attrs ensures ReadsAs(h, attrs[k], out[k]) {
      assert !AttrFails(h, s.attributes, k, attrs[k]);
      if k in s.attributes {
        CoerceIsReading(h, attrs[k], s.attributes[k], out[k]);
      } else {
        ReadsItself(h, attrs[k]);
      }
    }
  }

  lemma ReadsItself(h: Host, v: Value)
    ensures ReadsAs(h, v, v)
  {
  }

  lemma AbsorbRecordReads(h: Host, s: Schema, r: Record)
    requires AbsorbRecord(h, s, r).Ok?
    ensures ReadsRecord(h, r, AbsorbRecord(h, s, r).value.1)
  {
    hide ReadsId, ReadsAttrs, AbsorbId, AbsorbAttrs, AbsorbVector;
    AbsorbIdReads(h, s, r.Id());
    match r
    case Upsert(d) => AbsorbAttrsReads(h, AbsorbVector(AbsorbId(h, s, d.id).value.0, d.vector).value, d.attrs);
    case Patch(id, attrs) => AbsorbAttrsReads(h, AbsorbId(h, s, id).value.0, attrs);
    case Delete(_) =>
  }

  /** Whatever a batch declares on the way, what comes out is the batch, record by record, read. */
  lemma {:induction false} AbsorbReads(h: Host, s: Schema, records: seq<Record>)
    requires Absorb(h, s, records).Ok?
    ensures ReadsBatch(h, records, Absorb(h, s, records).value.1)
    decreases |records|
  {
    hide ReadsRecord, AbsorbRecord;
    if records != [] {
      AbsorbRecordReads(h, s, records[0]);
      AbsorbReads(h, AbsorbRecord(h, s, records[0]).value.0, records[1..]);
    }
  }

  /** What a writer is about to PUT is the batch it was given, read: nothing lost, added or changed. */
  lemma PrepareReads(h: Host, s: Schema, hasData: bool, c: WriteConfig, records: seq<Record>)
    requires Prepare(h, s, hasData, c, records).Ok?
    ensures ReadsBatch(h, records, Prepare(h, s, hasData, c, records).value.1)
  {
    AbsorbReads(h, Declare(s, c, hasData).value, records);
  }

  lemma OneValue(h: Host, s: Schema, attrs: Attrs, w: Attrs, x: Attrs)
    requires ReadsAttrs(h, attrs, w) && ReadsAttrs(h, attrs, x) && TypedAttrs(s, w) && TypedAttrs(s, x)
    ensures w == x
  {
    hide ReadsAs, Coerce;
    forall k | k in attrs ensures w[k] == x[k] {
      ReadsNull(h, attrs[k], w[k]);
      ReadsNull(h, attrs[k], x[k]);
      if !attrs[k].Null? {
        CoerceIsReading(h, attrs[k], s.attributes[k], w[k]);
        CoerceIsReading(h, attrs[k], s.attributes[k], x[k]);
      }
    }
  }

  lemma ReadsNull(h: Host, v: Value, w: Value)
    requires ReadsAs(h, v, w)
    ensures w.Null? <==> v.Null?
  {
  }

  /** A record reads as at most one record of a schema's types, so the two facts proved of an accepted batch, that
      it is read and that it is typed, leave no choice of what is stored. */
  lemma OneReading(h: Host, s: Schema, r: Record, w: Record, x: Record)
    requires ReadsRecord(h, r, w) && ReadsRecord(h, r, x) && TypedRecord(s, w) && TypedRecord(s, x)
    ensures w == x
  {
    hide ReadsId, ReadsAttrs, TypedAttrs, CoerceId;
    CoerceIdIsReading(h, r.Id(), s.idType.value, w.Id());
    CoerceIdIsReading(h, r.Id(), s.idType.value, x.Id());
    match r
    case Upsert(d) => OneValue(h, s, d.attrs, w.doc.attrs, x.doc.attrs);
    case Patch(_, attrs) => OneValue(h, s, attrs, w.attrs, x.attrs);
    case Delete(_) =>
  }

  // ------------------------------------------------------------ what is refused

  /** Under the id type, the dimension and the attribute types declared so far, every part of the record can be
      read; a document has a vector exactly of the declared dimension, and all of its numbers are finite. */
  ghost predicate Acceptable(h: Host, s: Schema, r: Record) {
    && (s.idType.Some? ==> exists w :: IdTypeOf(w) == s.idType.value && ReadsId(h, r.Id(), w))
    && (r.Upsert? && s.dim.Some? ==> |r.doc.vector| == s.dim.value && r.doc.vector != [])
    && (r.Upsert? ==> forall f | f in r.doc.vector :: IsFinite(f))
    && (forall k | k in AttrsOf(r) && k in s.attributes ::
          exists w :: Fits(w, s.attributes[k]) && ReadsAs(h, AttrsOf(r)[k], w))
  }

  lemma AbsorbIdAccepts(h: Host, s: Schema, id: Id)
    ensures AbsorbId(h, s, id).Ok? <==>
            (s.idType.Some? ==> exists w :: IdTypeOf(w) == s.idType.value && ReadsId(h, id, w))
  {
    hide ReadsId, CoerceId;
    if s.idType.Some? {
      forall w ensures CoerceId(h, id, s.idType.value) == Some(w) <==>
                       IdTypeOf(w) == s.idType.value && ReadsId(h, id, w)
      {
        CoerceIdIsReading(h, id, s.idType.value, w);
      }
      if AbsorbId(h, s, id).Ok? {
        var w := CoerceId(h, id, s.idType.value).value;
        assert IdTypeOf(w) == s.idType.value && ReadsId(h, id, w);
      }
    }
  }

  lemma AbsorbAttrsAccepts(h: Host, s: Schema, attrs: Attrs)
    ensures AbsorbAttrs(h, s, attrs).Ok? <==>
            forall k | k in attrs && k in s.attributes ::
              exists w :: Fits(w, s.attributes[k]) && ReadsAs(h, attrs[k], w)
  {
    hide ReadsAs, Coerce, Fits, Inferred;
    forall k | k in attrs && k in s.attributes
      ensures AttrFails(h, s.attributes, k, attrs[k]) <==>
              !exists w :: Fits(w, s.attributes[k]) && ReadsAs(h, attrs[k], w)
    {
      forall w ensures Coerce(h, attrs[k], s.attributes[k]) == Some(w) <==>
                       Fits(w, s.attributes[k]) && ReadsAs(h, attrs[k], w)
      {
        CoerceIsReading(h, attrs[k], s.attributes[k], w);
      }
      if !AttrFails(h, s.attributes, k, attrs[k]) {
        var w := Coerce(h, attrs[k], s.attributes[k]).value;
        assert Fits(w, s.attributes[k]) && ReadsAs(h, attrs[k], w);
      }
    }
  }

  /** A record is refused exactly if some part of it cannot be read, or its vector does not fit. */
  lemma AbsorbRecordAccepts(h: Host, s: Schema, r: Record)
    ensures AbsorbRecord(h, s, r).Ok? <==> Acceptable(h, s, r)
  {
    hide ReadsId, ReadsAs, CoerceId, AbsorbAttrs, Fits;
    AbsorbIdAccepts(h, s, r.Id());
    var id := AbsorbId(h, s, r.Id());
    if id.Ok? {
      match r
      case Upsert(d) =>
        var vector := AbsorbVector(id.value.0, d.vector);
        if vector.Ok? {
          AbsorbAttrsAccepts(h, vector.value, d.attrs);
        }
      case Patch(_, attrs) => AbsorbAttrsAccepts(h, id.value.0, attrs);
      case Delete(_) =>
    }
  }

  /** A batch is refused at its first record that is not acceptable under what the records before it declared. */
  lemma {:induction false} AbsorbAccepts(h: Host, s: Schema, records: seq<Record>, last: Record)
    ensures Absorb(h, s, records + [last]).Ok? <==>
            Absorb(h, s, records).Ok? && Acceptable(h, Absorb(h, s, records).value.0, last)
    decreases |records|
  {
    hide AbsorbRecord, Acceptable;
    var all := records + [last];
    if records == [] {
      assert all[0] == last && all[1..] == [];
      AbsorbRecordAccepts(h, s, last);
    } else {
      assert all[0] == records[0] && all[1..] == records[1..] + [last];
      if AbsorbRecord(h, s, records[0]).Ok? {
        AbsorbAccepts(h, AbsorbRecord(h, s, records[0]).value.0, records[1..], last);
      }
    }
  }

  /** Settings are refused exactly if one that is fixed would change: a declared type, full-text or embedding
      setting ever; the metric once there is data; the shard count once it is set or there is data. */
  lemma DeclareAccepts(s: Schema, c: WriteConfig, hasData: bool)
    ensures Declare(s, c, hasData).Ok? <==>
            && (c.metric.Some? && hasData ==> c.metric.value == s.metric)
            && (forall k | k in c.types && k in s.attributes :: c.types[k] == s.attributes[k])
            && (forall k | k in c.fts && k in s.fts :: c.fts[k] == s.fts[k])
            && (forall k | k in c.embed && k in s.embed :: c.embed[k] == s.embed[k])
            && (c.numShards.Some? ==> 1 <= c.numShards.value <= 256)
            && (c.numShards.Some? ==> s.numShards == c.numShards || (s.numShards.None? && !hasData))
  {
    hide Conflicts;
    ConflictsMean(s.attributes, c.types);
    ConflictsMean(s.fts, c.fts);
    ConflictsMean(s.embed, c.embed);
  }

  lemma ConflictsMean<V>(have: map<string, V>, want: map<string, V>)
    ensures Conflicts(have, want) <==> !forall k | k in want && k in have :: want[k] == have[k]
  {
  }

  /** The sign, exponent and fraction of a 32-bit float: it is finite unless its exponent is the greatest. */
  lemma FiniteFields(sign: nat, exponent: nat, fraction: nat)
    requires sign < 2 && exponent < 256 && fraction < 0x80_0000
    ensures IsFinite(sign * 0x8000_0000 + exponent * 0x80_0000 + fraction) <==> exponent < 255
  {
    var f := sign * 0x8000_0000 + exponent * 0x80_0000 + fraction;
    assert f / 0x80_0000 == sign * 256 + exponent;
  }
}
