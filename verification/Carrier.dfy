/** The context carrier that crosses process boundaries in the `sw8` and `sw8-correlation` headers.
    Text fields are the UTF-8 bytes of the strings. */
module Carrier {
  import opened Text
  import opened Base64

  datatype Fields = Fields(
    traceId: Bytes,
    segmentId: Bytes,
    spanId: string,
    service: Bytes,
    serviceInstance: Bytes,
    endpoint: Bytes,
    clientAddress: Bytes)

  const EMPTY := Fields([], [], [], [], [], [], [])

  predicate IsValid(f: Fields) {
    && f.traceId != [] && f.segmentId != [] && f.service != [] && f.serviceInstance != []
    && f.endpoint != [] && f.clientAddress != []
    && IsNumeric(f.spanId)
  }

  /** The getter of `Carrier.val`. */
  function Header(f: Fields): string {
    Join(["1", Encode(f.traceId), Encode(f.segmentId), f.spanId, Encode(f.service),
          Encode(f.serviceInstance), Encode(f.endpoint), Encode(f.clientAddress)], "-")
  }

  /** A carrier object: the last text assigned to `val` and the seven fields. */
  datatype State = State(raw: string, fields: Fields) {
    predicate Suppressed() {
      raw != [] && !IsValid(fields)
    }
  }

  /** One `self.field = b64decode(part)` of the setter: nothing is assigned once a part is malformed. */
  function Assign(s: Result<State>, part: string, put: (Fields, Bytes) -> Fields): Result<State> {
    if s.Raised? then Raised
    else
      var b := Decode(part);
      if b.Raised? then Raised else Ok(s.value.(fields := put(s.value.fields, b.value)))
  }

  /** The setter of `Carrier.val` on a carrier whose fields are `f`. */
  function SetHeader(f: Fields, val: string): Result<State> {
    var parts := Split(val, "-");
    if val == [] || |parts| != 8 then Ok(State(val, f))
    else
      var a := Assign(Ok(State(val, f)), parts[1], (g: Fields, b) => g.(traceId := b));
      var b := Assign(a, parts[2], (g: Fields, b) => g.(segmentId := b));
      var c := if b.Raised? then Raised else Ok(b.value.(fields := b.value.fields.(spanId := parts[3])));
      var d := Assign(c, parts[4], (g: Fields, b) => g.(service := b));
      var e := Assign(d, parts[5], (g: Fields, b) => g.(serviceInstance := b));
      var h := Assign(e, parts[6], (g: Fields, b) => g.(endpoint := b));
      Assign(h, parts[7], (g: Fields, b) => g.(clientAddress := b))
  }

  /** What a receiver gets: a fresh carrier whose `val` is set to the header. */
  function Receive(header: string): Result<State> {
    SetHeader(EMPTY, header)
  }

  lemma NoDashInCode(b: Bytes)
    ensures '-' !in Encode(b) && ':' !in Encode(b) && ',' !in Encode(b)
  {
    var s := Encode(b);
    forall i | 0 <= i < |s|
      ensures s[i] != '-' && s[i] != ':' && s[i] != ','
    {
      assert IsCodeChar(s[i]);
    }
  }

  lemma HeaderParts(f: Fields)
    requires '-' !in f.spanId
    ensures Split(Header(f), "-")
            == ["1", Encode(f.traceId), Encode(f.segmentId), f.spanId, Encode(f.service),
                Encode(f.serviceInstance), Encode(f.endpoint), Encode(f.clientAddress)]
  {
    NoDashInCode(f.traceId);
    NoDashInCode(f.segmentId);
    NoDashInCode(f.service);
    NoDashInCode(f.serviceInstance);
    NoDashInCode(f.endpoint);
    NoDashInCode(f.clientAddress);
    SplitOfJoin(["1", Encode(f.traceId), Encode(f.segmentId), f.spanId, Encode(f.service),
                 Encode(f.serviceInstance), Encode(f.endpoint), Encode(f.clientAddress)], '-');
  }

  lemma DecodeFields(f: Fields)
    ensures Decode(Encode(f.traceId)) == Ok(f.traceId)
    ensures Decode(Encode(f.segmentId)) == Ok(f.segmentId)
    ensures Decode(Encode(f.service)) == Ok(f.service)
    ensures Decode(Encode(f.serviceInstance)) == Ok(f.serviceInstance)
    ensures Decode(Encode(f.endpoint)) == Ok(f.endpoint)
    ensures Decode(Encode(f.clientAddress)) == Ok(f.clientAddress)
  {
    DecodeOfEncode(f.traceId);
    DecodeOfEncode(f.segmentId);
    DecodeOfEncode(f.service);
    DecodeOfEncode(f.serviceInstance);
    DecodeOfEncode(f.endpoint);
    DecodeOfEncode(f.clientAddress);
  }

  /** A dash in the span id, and nothing else, adds pieces to the header. */
  lemma DashSpoilsHeader(f: Fields)
    requires '-' in f.spanId
    ensures |Split(Header(f), "-")| != 8
  {
    var pieces := ["1", Encode(f.traceId), Encode(f.segmentId), f.spanId, Encode(f.service),
                   Encode(f.serviceInstance), Encode(f.endpoint), Encode(f.clientAddress)];
    SplitCount(Header(f), '-');
    JoinSeparators(pieces, '-');
    SeparatorsOfEight(pieces, '-', 3);
  }

  /** How often `c` occurs in the pieces. */
  function Occurrences(pieces: seq<string>, c: char): nat {
    if pieces == [] then 0 else multiset(pieces[0])[c] + Occurrences(pieces[1..], c)
  }

  lemma {:induction false} JoinSeparators(pieces: seq<string>, c: char)
    requires pieces != []
    ensures multiset(Join(pieces, [c]))[c] == |pieces| - 1 + Occurrences(pieces, c)
  {
    if |pieces| > 1 {
      JoinSeparators(pieces[1..], c);
    }
  }

  lemma {:induction false} SeparatorsOfEight(pieces: seq<string>, c: char, k: nat)
    requires k < |pieces| && c in pieces[k]
    ensures Occurrences(pieces, c) > 0
  {
    if k > 0 {
      SeparatorsOfEight(pieces[1..], c, k - 1);
    }
  }

  /** Decoding an encoded header restores all seven fields exactly when the span id has no dash. */
  lemma HeaderRoundTrip(f: Fields)
    ensures Receive(Header(f)).Ok?
    ensures Receive(Header(f)).value.fields == f <==> '-' !in f.spanId
    ensures Receive(Header(f)).value.raw == Header(f) != []
  {
    if '-' in f.spanId {
      DashSpoilsHeader(f);
    } else {
      HeaderParts(f);
      DecodeFields(f);
    }
  }

  /** Validity survives the wire, whatever the fields hold; so the receiver sees suppression
      exactly when the sender's carrier was not valid. */
  lemma ValidityCrossesWire(f: Fields)
    ensures Receive(Header(f)).Ok?
    ensures IsValid(Receive(Header(f)).value.fields) <==> IsValid(f)
    ensures Receive(Header(f)).value.Suppressed() <==> !IsValid(f)
  {
    HeaderRoundTrip(f);
    if '-' in f.spanId {
      DashSpoilsHeader(f);
      var k :| 0 <= k < |f.spanId| && f.spanId[k] == '-';
      assert !IsNumeric(f.spanId);
    }
  }

  // ----- correlation -----

  /** A Python dictionary: entries in insertion order, keys distinct. */
  type Dict = seq<(Bytes, Bytes)>

  predicate DistinctKeys(d: Dict) {
    forall i, j :: 0 <= i < j < |d| ==> d[i].0 != d[j].0
  }

  /** `d[key] = value`: an existing key keeps its place. */
  function Put(d: Dict, key: Bytes, value: Bytes): Dict {
    if d == [] then [(key, value)]
    else if d[0].0 == key then [(key, value)] + d[1..]
    else [d[0]] + Put(d[1..], key, value)
  }

  lemma {:induction false} PutNewKey(d: Dict, key: Bytes, value: Bytes)
    requires forall i :: 0 <= i < |d| ==> d[i].0 != key
    ensures Put(d, key, value) == d + [(key, value)]
  {
    if d != [] {
      PutNewKey(d[1..], key, value);
      assert d == [d[0]] + d[1..];
    }
  }

  lemma {:induction false} PutOldKey(d: Dict, value: Bytes, k: nat)
    requires DistinctKeys(d) && k < |d|
    ensures Put(d, d[k].0, value) == d[k := (d[k].0, value)]
  {
    if k > 0 {
      PutOldKey(d[1..], value, k - 1);
      assert d == [d[0]] + d[1..];
    }
  }

  function Entry(e: (Bytes, Bytes)): string {
    Encode(e.0) + ":" + Encode(e.1)
  }

  function Entries(d: Dict): (r: seq<string>)
    ensures |r| == |d|
    ensures forall i :: 0 <= i < |d| ==> r[i] == Entry(d[i])
  {
    if d == [] then [] else [Entry(d[0])] + Entries(d[1..])
  }

  /** The getter of `SW8CorrelationCarrier.val`. */
  function CorrelationHeader(d: Dict): string {
    Join(Entries(d), ",")
  }

  /** The header lists the entries in order, key and value of each in base64 around a colon. */
  lemma CorrelationParts(d: Dict, i: nat)
    requires i < |d|
    ensures |Split(CorrelationHeader(d), ",")| == |d|
    ensures Split(Split(CorrelationHeader(d), ",")[i], ":") == [Encode(d[i].0), Encode(d[i].1)]
  {
    forall j | 0 <= j < |d|
      ensures ',' !in Entries(d)[j]
    {
      NoDashInCode(d[j].0);
      NoDashInCode(d[j].1);
    }
    SplitOfJoin(Entries(d), ',');
    EntryParts(d[i]);
  }

  lemma EntryParts(e: (Bytes, Bytes))
    ensures Split(Entry(e), ":") == [Encode(e.0), Encode(e.1)]
  {
    NoDashInCode(e.0);
    NoDashInCode(e.1);
    SplitPrefix(Encode(e.0), ':', Encode(e.1));
    SplitPrefix(Encode(e.1), ':', []);
  }

  /** What the setter leaves behind; `ok` is false when a malformed part made it raise. */
  datatype Absorbed = Absorbed(correlation: Dict, ok: bool)

  /** The setter's loop over the comma-separated parts, on a carrier that already holds `d`. */
  function Absorb(parts: seq<string>, d: Dict, max: int): Absorbed {
    if parts == [] || |d| > max then Absorbed(d, true)
    else
      var kv := Split(parts[0], ":");
      if |kv| != 2 then Absorb(parts[1..], d, max)
      else
        var k := Decode(kv[0]);
        var v := Decode(kv[1]);
        if k.Raised? || v.Raised? then Absorbed(d, false) else Absorb(parts[1..], Put(d, k.value, v.value), max)
  }

  function SetCorrelation(d: Dict, val: string, max: int): Absorbed {
    if val == [] then Absorbed(d, true) else Absorb(Split(val, ","), d, max)
  }

  class CorrelationCarrier {
    var correlation: Dict

    constructor ()
      ensures correlation == []
    {
      correlation := [];
    }

    /** The setter of `SW8CorrelationCarrier.val`; `max` is `correlation_element_max_number`. */
    method SetVal(val: string, max: int) returns (ok: bool)
      modifies this
      ensures Absorbed(correlation, ok) == SetCorrelation(old(correlation), val, max)
    {
      if val == [] {
        return true;
      }
      var parts := Split(val, ",");
      var i := 0;
      while i < |parts| && |correlation| <= max
        invariant 0 <= i <= |parts|
        invariant Absorb(parts[i..], correlation, max) == SetCorrelation(old(correlation), val, max)
      {
        assert parts[i..][1..] == parts[i + 1..];
        var kv := Split(parts[i], ":");
        if |kv| == 2 {
          var v := Decode(kv[1]);
          var k := Decode(kv[0]);
          if k.Raised? || v.Raised? {
            return false;
          }
          correlation := Put(correlation, k.value, v.value);
        }
        i := i + 1;
      }
      return true;
    }
  }

  /** How many entries the setter lets into an empty carrier. */
  function Admitted(max: int, n: nat): (k: nat)
    ensures k <= n
  {
    if max < 0 then 0 else if n <= max + 1 then n else max + 1
  }

  /** One encoded entry is absorbed as the pair it came from. */
  lemma AbsorbEntry(e: (Bytes, Bytes), parts: seq<string>, d: Dict, max: int)
    requires |d| <= max
    requires forall i :: 0 <= i < |d| ==> d[i].0 != e.0
    ensures Absorb([Entry(e)] + parts, d, max) == Absorb(parts, d + [e], max)
  {
    EntryParts(e);
    DecodeOfEncode(e.0);
    DecodeOfEncode(e.1);
    PutNewKey(d, e.0, e.1);
    assert ([Entry(e)] + parts)[1..] == parts;
  }

  lemma AbsorbStops(parts: seq<string>, d: Dict, max: int)
    requires parts == [] || |d| > max
    ensures Absorb(parts, d, max) == Absorbed(d, true)
  {
  }

  lemma NextKeyIsNew(d: Dict, k: nat)
    requires DistinctKeys(d) && k < |d|
    ensures forall i :: 0 <= i < k ==> d[..k][i].0 != d[k].0
    ensures d[..k] + [d[k]] == d[..k + 1]
  {
  }

  lemma AbsorbNext(d: Dict, entries: seq<string>, k: nat, max: int)
    requires DistinctKeys(d) && k < |d| && k <= max
    requires k < |entries| && entries[k] == Entry(d[k])
    ensures Absorb(entries[k..], d[..k], max) == Absorb(entries[k + 1..], d[..k + 1], max)
  {
    NextKeyIsNew(d, k);
    var more := entries[k + 1..];
    assert entries[k..] == [Entry(d[k])] + more;
    AbsorbEntry(d[k], more, d[..k], max);
  }

  predicate EntriesOf(entries: seq<string>, d: Dict) {
    |entries| == |d| && forall i :: 0 <= i < |d| ==> entries[i] == Entry(d[i])
  }

  lemma {:induction false} AbsorbUpTo(d: Dict, entries: seq<string>, n: nat, max: int)
    requires DistinctKeys(d) && EntriesOf(entries, d) && n <= |d| && (n == 0 || n <= max + 1)
    ensures Absorb(entries, [], max) == Absorb(entries[n..], d[..n], max)
  {
    if n == 0 {
      assert entries[n..] == entries && d[..n] == [];
    } else {
      var k := n - 1;
      AbsorbUpTo(d, entries, k, max);
      assert entries[k] == Entry(d[k]);
      AbsorbNext(d, entries, k, max);
    }
  }

  lemma AbsorbEntries(d: Dict, entries: seq<string>, max: int)
    requires DistinctKeys(d) && EntriesOf(entries, d)
    ensures Absorb(entries, [], max) == Absorbed(d[..Admitted(max, |d|)], true)
  {
    var n := Admitted(max, |d|);
    AbsorbUpTo(d, entries, n, max);
    assert n == |d| ==> entries[n..] == [];
    AbsorbStops(entries[n..], d[..n], max);
  }

  /** An empty carrier restores the first `max + 1` entries in order, so a dictionary of at most
      that many comes back whole. */
  lemma CorrelationRoundTrip(d: Dict, max: int)
    requires DistinctKeys(d)
    ensures SetCorrelation([], CorrelationHeader(d), max) == Absorbed(d[..Admitted(max, |d|)], true)
    ensures SetCorrelation([], CorrelationHeader(d), max) == Absorbed(d, true) <==> |d| == 0 || |d| <= max + 1
  {
    assert d[..0] == [];
    if d == [] {
      assert CorrelationHeader(d) == [];
    } else {
      forall i | 0 <= i < |d|
        ensures ',' !in Entries(d)[i]
      {
        NoDashInCode(d[i].0);
        NoDashInCode(d[i].1);
      }
      SplitOfJoin(Entries(d), ',');
      AbsorbEntries(d, Entries(d), max);
      assert d[..|d|] == d;
      assert |d[..Admitted(max, |d|)]| == Admitted(max, |d|);
      assert CorrelationHeader(d) != [] by {
        assert ':' in Entries(d)[0];
        if |d| > 1 {
          assert ':' in Join(Entries(d), ",");
        }
      }
    }
  }
}
