/** Length-prefixed framing, so that one object holds many records (src/store.rs). */
module Framing {
  import opened Wrappers
  import opened Records
  import opened Codec

  function Framed(entries: seq<Bytes>): Bytes {
    if entries == [] then [] else Le(|entries[0]|, 4) + entries[0] + Framed(entries[1..])
  }

  function Unframed(blob: Bytes): Option<seq<Bytes>>
    decreases |blob|
  {
    if blob == [] then Some([])
    else
      var (n, b1) :- Number(blob, 4);
      var (x, b2) :- Take(b1, n);
      var rest :- Unframed(b2);
      Some([x] + rest)
  }

  lemma {:induction false} FramedConcat(a: seq<Bytes>, b: seq<Bytes>)
    ensures Framed(a + b) == Framed(a) + Framed(b)
    decreases |a|
  {
    if a == [] {
      assert a + b == b;
    } else {
      assert (a + b)[0] == a[0] && (a + b)[1..] == a[1..] + b;
      FramedConcat(a[1..], b);
      assert Framed(a + b) == Le(|a[0]|, 4) + a[0] + (Framed(a[1..]) + Framed(b));
    }
  }

  method Frame(entries: seq<Bytes>) returns (blob: Bytes)
    ensures blob == Framed(entries)
  {
    blob := [];
    for i := 0 to |entries|
      invariant blob == Framed(entries[..i])
    {
      assert entries[..i + 1] == entries[..i] + [entries[i]];
      FramedConcat(entries[..i], [entries[i]]);
      assert Framed([entries[i]]) == Le(|entries[i]|, 4) + entries[i] + Framed([entries[i]][1..]);
      blob := blob + Le(|entries[i]|, 4) + entries[i];
    }
    assert entries[..|entries|] == entries;
  }

  function After(out: seq<Bytes>, rest: Option<seq<Bytes>>): Option<seq<Bytes>> {
    if rest.None? then None else Some(out + rest.value)
  }

  /** One turn of the cursor. */
  lemma NextFrame(blob: Bytes, pos: nat)
    requires pos < |blob|
    ensures pos + 4 > |blob| ==> Unframed(blob[pos..]) == None
    ensures pos + 4 <= |blob| ==>
      var n := FromLe(blob[pos..pos + 4]);
      Unframed(blob[pos..]) == if pos + 4 + n > |blob| then None
                               else After([blob[pos + 4..pos + 4 + n]], Unframed(blob[pos + 4 + n..]))
  {
    hide FromLe;
    if pos + 4 <= |blob| {
      var n := FromLe(blob[pos..pos + 4]);
      assert blob[pos..][..4] == blob[pos..pos + 4] && blob[pos..][4..] == blob[pos + 4..];
      if pos + 4 + n <= |blob| {
        assert blob[pos + 4..][..n] == blob[pos + 4..pos + 4 + n] && blob[pos + 4..][n..] == blob[pos + 4 + n..];
      }
    }
  }

  lemma AfterTwice(a: seq<Bytes>, b: seq<Bytes>, rest: Option<seq<Bytes>>)
    ensures After(a, After(b, rest)) == After(a + b, rest)
  {
    if rest.Some? {
      assert a + (b + rest.value) == a + b + rest.value;
    }
  }

  /** The cursor of the source; `None` is its error, for a truncated header or a truncated body. */
  method Unframe(blob: Bytes) returns (r: Option<seq<Bytes>>)
    ensures r == Unframed(blob)
  {
    var out: seq<Bytes>, pos := [], 0;
    NothingBefore(blob);
    hide Unframed, After;
    while pos < |blob|
      invariant pos <= |blob| && Unframed(blob) == After(out, Unframed(blob[pos..]))
    {
      NextFrame(blob, pos);
      NoneAfter(out);
      if pos + 4 > |blob| {
        return None;
      }
      var n := FromLe(blob[pos..pos + 4]);
      if pos + 4 + n > |blob| {
        return None;
      }
      var x := blob[pos + 4..pos + 4 + n];
      AfterTwice(out, [x], Unframed(blob[pos + 4 + n..]));
      out, pos := out + [x], pos + 4 + n;
    }
    AllRead(blob, pos, out);
    return Some(out);
  }

  lemma NothingBefore(blob: Bytes)
    ensures Unframed(blob) == After([], Unframed(blob[0..]))
  {
    assert blob[0..] == blob;
    if Unframed(blob).Some? {
      assert [] + Unframed(blob).value == Unframed(blob).value;
    }
  }

  lemma NoneAfter(out: seq<Bytes>)
    ensures After(out, None) == None
  {
  }

  lemma AllRead(blob: Bytes, pos: nat, out: seq<Bytes>)
    requires pos == |blob|
    ensures After(out, Unframed(blob[pos..])) == Some(out)
  {
    assert blob[pos..] == [] && out + [] == out;
  }

  /** One entry comes back, with what follows it, if its length fits the header; otherwise the first entry
      read has another length. */
  lemma OneEntry(x: Bytes, rest: Bytes)
    ensures var r := Unframed(Le(|x|, 4) + x + rest);
      if |x| < 0x1_0000_0000 then r == var more :- Unframed(rest); Some([x] + more)
      else r.Some? ==> r.value != [] && |r.value[0]| != |x|
  {
    PowersAre();
    hide Power, Le, FromLe;
    LeRoundTrip(|x|, 4);
    var blob := Le(|x|, 4) + x + rest;
    assert blob == Le(|x|, 4) + (x + rest);
    TakeReads(Le(|x|, 4), x + rest);
    if |x| < 0x1_0000_0000 {
      Below(|x|, 0x1_0000_0000);
      TakeReads(x, rest);
    }
  }

  /** Unframing inverts framing exactly when every entry is shorter than 2^32 bytes. */
  lemma {:induction false} FramingIsExact(entries: seq<Bytes>)
    ensures Unframed(Framed(entries)) == Some(entries) <==>
      forall i | 0 <= i < |entries| :: |entries[i]| < 0x1_0000_0000
    decreases |entries|
  {
    hide Le, Unframed;
    if entries == [] {
      assert Unframed([]) == Some([]) by {
        NothingFramed();
      }
    } else {
      OneEntry(entries[0], Framed(entries[1..]));
      FramingIsExact(entries[1..]);
      assert [entries[0]] + entries[1..] == entries;
      if Unframed(Framed(entries)) == Some(entries) && |entries[0]| < 0x1_0000_0000 {
        assert Unframed(Framed(entries)).value[1..] == entries[1..];
      }
      if forall i | 0 <= i < |entries| :: |entries[i]| < 0x1_0000_0000 {
        forall i | 0 <= i < |entries[1..]| ensures |entries[1..][i]| < 0x1_0000_0000 {
          assert entries[1..][i] == entries[i + 1];
        }
      }
      if forall i | 0 <= i < |entries[1..]| :: |entries[1..][i]| < 0x1_0000_0000 {
        forall i | 1 <= i < |entries| ensures |entries[i]| < 0x1_0000_0000 {
          assert entries[1..][i - 1] == entries[i];
        }
      }
    }
  }

  lemma NothingFramed()
    ensures Unframed([]) == Some([])
  {
  }

  // ------------------------------------------------------------ objects of records

  function Encoded(t: Text, records: seq<Record>): (r: seq<Bytes>)
    ensures |r| == |records| && forall i | 0 <= i < |r| :: r[i] == PutRecord(t, records[i])
  {
    seq(|records|, i requires 0 <= i < |records| => PutRecord(t, records[i]))
  }

  function Decoded(t: Text, blobs: seq<Bytes>): Option<seq<Record>> {
    if blobs == [] then Some([])
    else
      var (r, _) :- GetRecord(t, blobs[0]);
      var rest :- Decoded(t, blobs[1..]);
      Some([r] + rest)
  }

  /** Reading an object gives back the records written to it. */
  ghost predicate Restores(t: Text, records: seq<Record>) {
    var entries := Unframed(Framed(Encoded(t, records)));
    entries.Some? && Decoded(t, entries.value) == Some(records)
  }

  /** A record that can be written to an object and read back. */
  predicate Storable(t: Text, r: Record) {
    FitsRecord(t, r) && |PutRecord(t, r)| < 0x1_0000_0000
  }

  lemma {:induction false} DecodedFit(t: Text, blobs: seq<Bytes>)
    requires t.Valid()
    ensures Decoded(t, blobs).Some? ==> forall r | r in Decoded(t, blobs).value :: FitsRecord(t, r)
    decreases |blobs|
  {
    hide FitsRecord, GetRecord;
    if blobs != [] {
      RecordFits(t, blobs[0]);
      DecodedFit(t, blobs[1..]);
    }
  }

  /** A frame whose length was cut off its header reads as a strict prefix of the record, which is none. */
  lemma LongEntryIsLost(t: Text, r: Record, rest: Bytes)
    requires t.Valid() && FitsRecord(t, r) && |PutRecord(t, r)| >= 0x1_0000_0000
    ensures var blobs := Unframed(Le(|PutRecord(t, r)|, 4) + PutRecord(t, r) + rest);
      blobs.Some? ==> Decoded(t, blobs.value).None?
  {
    PowersAre();
    hide Power, Le, FromLe, FitsRecord, GetRecord, PutRecord;
    var x := PutRecord(t, r);
    var n := |x| % 0x1_0000_0000;
    LeRoundTrip(|x|, 4);
    var blob := Le(|x|, 4) + x + rest;
    assert blob == Le(|x|, 4) + (x + rest);
    TakeReads(Le(|x|, 4), x + rest);
    assert Number(blob, 4) == Some((n, x + rest));
    assert (x + rest)[..n] == x[..n];
    PrefixIsRejected(t, r, n);
  }

  lemma FirstRestored(t: Text, records: seq<Record>)
    requires t.Valid() && records != [] && |PutRecord(t, records[0])| < 0x1_0000_0000 && FitsRecord(t, records[0])
    ensures Restores(t, records) <==> Restores(t, records[1..])
  {
    hide GetRecord, PutRecord, FitsRecord, Le, Unframed;
    var x, rest := PutRecord(t, records[0]), Framed(Encoded(t, records[1..]));
    assert Encoded(t, records)[1..] == Encoded(t, records[1..]);
    assert Framed(Encoded(t, records)) == Le(|x|, 4) + x + rest;
    OneEntry(x, rest);
    RecordReads(t, records[0], []);
    assert x + [] == x;
    var more := Unframed(rest);
    if more.Some? {
      assert ([x] + more.value)[1..] == more.value;
      assert [records[0]] + records[1..] == records;
      if Decoded(t, [x] + more.value) == Some(records) {
        assert Decoded(t, more.value).value == records[1..];
      }
    }
  }

  /** Writing an object and reading it back gives its records, in order, if and only if every one of them fits its
      length fields and its frame. */
  lemma {:induction false} ObjectIsExact(t: Text, records: seq<Record>)
    requires t.Valid()
    ensures Restores(t, records) <==> forall i | 0 <= i < |records| :: Storable(t, records[i])
    decreases |records|
  {
    hide GetRecord, PutRecord, FitsRecord, Le, Unframed, Framed, Decoded;
    if records == [] {
      NothingRestored(t);
    } else {
      AllFitIfRestored(t, records);
      if FitsRecord(t, records[0]) {
        if |PutRecord(t, records[0])| < 0x1_0000_0000 {
          FirstRestored(t, records);
          ObjectIsExact(t, records[1..]);
          assert forall i | 1 <= i < |records| :: records[1..][i - 1] == records[i];
          assert forall i | 0 <= i < |records[1..]| :: records[1..][i] == records[i + 1];
        } else {
          FirstFrame(t, records);
          LongEntryIsLost(t, records[0], Framed(Encoded(t, records[1..])));
          assert !Storable(t, records[0]);
        }
      } else {
        assert !Storable(t, records[0]);
      }
    }
  }

  lemma FirstFrame(t: Text, records: seq<Record>)
    requires records != []
    ensures var x := PutRecord(t, records[0]);
      Framed(Encoded(t, records)) == Le(|x|, 4) + x + Framed(Encoded(t, records[1..]))
  {
    hide PutRecord, Le;
    assert Encoded(t, records)[1..] == Encoded(t, records[1..]);
  }

  lemma NothingRestored(t: Text)
    ensures Restores(t, [])
  {
    assert Encoded(t, []) == [];
  }

  lemma AllFitIfRestored(t: Text, records: seq<Record>)
    requires t.Valid()
    ensures Restores(t, records) ==> forall i | 0 <= i < |records| :: FitsRecord(t, records[i])
  {
    hide FitsRecord, Decoded, Unframed, Framed;
    if Restores(t, records) {
      DecodedFit(t, Unframed(Framed(Encoded(t, records))).value);
      forall i | 0 <= i < |records| ensures FitsRecord(t, records[i]) {
        assert records[i] in records;
      }
    }
  }

  /** Writing an object and reading it back. */
  method ObjectRoundTrip(t: Text, records: seq<Record>) returns (back: Option<seq<Record>>)
    requires t.Valid()
    ensures back == Some(records) <==> forall i | 0 <= i < |records| :: Storable(t, records[i])
  {
    hide PutRecord, GetRecord, FitsRecord, Framed, Unframed, Decoded;
    var blob := Frame(Encoded(t, records));
    var entries := Unframe(blob);
    ObjectIsExact(t, records);
    back := if entries.None? then None else Decoded(t, entries.value);
  }
}
