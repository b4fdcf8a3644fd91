/**
 * Encoder and parser pairs of apps/router/src/protocol.ts and apps/router/src/scram.ts.
 * Strings are their UTF-8 bytes.
 */
module Codecs {
  import opened Bytes
  import opened Protocol

  datatype Parse<+T> = Parsed(value: T) | Malformed

  // ---------- Startup packets

  const SSL_REQUEST_CODE: int := 80877103
  const GSSENC_REQUEST_CODE: int := 80877104
  const CANCEL_REQUEST_CODE: int := 80877102

  type Parameters = map<Bytes, Bytes>

  datatype CancelKey = CancelKey(processId: int, secretKey: int)

  datatype StartupPacket = StartupPacket(code: int, parameters: Parameters, cancel: Option<CancelKey>)

  datatype Entry = Entry(key: Bytes, value: Bytes)

  /** `"__proto__"`: assigning a string to it leaves a JavaScript object as it was. */
  const PROTO: Bytes := [0x5f, 0x5f, 0x70, 0x72, 0x6f, 0x74, 0x6f, 0x5f, 0x5f]

  function SetParameter(p: Parameters, key: Bytes, value: Bytes): Parameters {
    if key == PROTO then p else p[key := value]
  }

  /** The loop of `parseStartupPacket`, from `offset` on. */
  function ReadParameters(body: Bytes, offset: nat, p: Parameters): Parse<Parameters>
    decreases |body| - offset
  {
    if offset >= |body| then Parsed(p)
    else
      var keyEnd := IndexOfNul(body, offset);
      if keyEnd.None? || keyEnd.value == offset then Parsed(p)
      else
        var valueEnd := IndexOfNul(body, keyEnd.value + 1);
        if valueEnd.None? then Malformed
        else ReadParameters(body, valueEnd.value + 1,
                            SetParameter(p, body[offset..keyEnd.value], body[keyEnd.value + 1..valueEnd.value]))
  }

  function StartupPacketOf(payload: Bytes): Parse<StartupPacket> {
    if |payload| < 4 then Malformed
    else
      var code := ReadInt32BE(payload, 0);
      if code == SSL_REQUEST_CODE || code == GSSENC_REQUEST_CODE then Parsed(StartupPacket(code, map[], None))
      else if code == CANCEL_REQUEST_CODE then
        if |payload| < 12 then Malformed
        else Parsed(StartupPacket(code, map[], Some(CancelKey(ReadInt32BE(payload, 4), ReadInt32BE(payload, 8)))))
      else
        var p := ReadParameters(payload[4..], 0, map[]);
        if p.Malformed? then Malformed else Parsed(StartupPacket(code, p.value, None))
  }

  method ParseStartupPacket(message: RawMessage) returns (r: Parse<StartupPacket>)
    ensures r == StartupPacketOf(message.payload)
  {
    if |message.payload| < 4 { return Malformed; }
    var code := ReadInt32BE(message.payload, 0);
    if code == SSL_REQUEST_CODE || code == GSSENC_REQUEST_CODE {
      return Parsed(StartupPacket(code, map[], None));
    }
    if code == CANCEL_REQUEST_CODE {
      if |message.payload| < 12 { return Malformed; }
      var key := CancelKey(ReadInt32BE(message.payload, 4), ReadInt32BE(message.payload, 8));
      return Parsed(StartupPacket(code, map[], Some(key)));
    }
    var parameters := ParseParameters(message.payload[4..]);
    if parameters.Malformed? { return Malformed; }
    return Parsed(StartupPacket(code, parameters.value, None));
  }

  method ParseParameters(body: Bytes) returns (r: Parse<Parameters>)
    ensures r == ReadParameters(body, 0, map[])
  {
    hide IndexOfNul;
    var parameters: Parameters := map[];
    var offset := 0;
    while offset < |body|
      invariant ReadParameters(body, 0, map[]) == ReadParameters(body, offset, parameters)
    {
      var keyEnd := IndexOfNul(body, offset);
      if keyEnd.None? { break; }
      var key := body[offset..keyEnd.value];
      if |key| == 0 { break; }
      var valueEnd := IndexOfNul(body, keyEnd.value + 1);
      if valueEnd.None? { return Malformed; }
      parameters := SetParameter(parameters, key, body[keyEnd.value + 1..valueEnd.value]);
      offset := valueEnd.value + 1;
    }
    return Parsed(parameters);
  }

  function PrintEntry(e: Entry): Bytes { e.key + [0] + e.value + [0] }

  function PrintEntries(entries: seq<Entry>): Bytes {
    if entries == [] then [] else PrintEntry(entries[0]) + PrintEntries(entries[1..])
  }

  /** The packet for a version and the entries of a parameter object, in the order it lists them. */
  function StartupPacketBytes(version: int, entries: seq<Entry>): Bytes
    requires IsInt32(version) && IsInt32(9 + |PrintEntries(entries)|)
  {
    WriteInt32BE(9 + |PrintEntries(entries)|) + WriteInt32BE(version) + (PrintEntries(entries) + [0])
  }

  lemma {:induction false} PrintEntriesSnoc(entries: seq<Entry>, e: Entry)
    ensures PrintEntries(entries + [e]) == PrintEntries(entries) + PrintEntry(e)
  {
    if entries == [] {
      assert [e][1..] == [] && [] + [e] == [e];
      assert PrintEntry(e) + [] == PrintEntry(e) && [] + PrintEntry(e) == PrintEntry(e);
    } else {
      PrintEntriesSnoc(entries[1..], e);
      assert (entries + [e])[0] == entries[0] && (entries + [e])[1..] == entries[1..] + [e];
      ConcatAssoc(PrintEntry(entries[0]), PrintEntries(entries[1..]), PrintEntry(e));
    }
  }

  method EncodeStartupPacket(version: int, entries: seq<Entry>) returns (out: Bytes)
    requires IsInt32(version) && IsInt32(9 + |PrintEntries(entries)|)
    ensures out == StartupPacketBytes(version, entries)
  {
    var body: Bytes := [];
    for i := 0 to |entries|
      invariant body == PrintEntries(entries[..i])
    {
      body := body + (entries[i].key + [0] + entries[i].value + [0]);
      PrintEntriesSnoc(entries[..i], entries[i]);
      assert entries[..i + 1] == entries[..i] + [entries[i]];
    }
    assert entries[..|entries|] == entries;
    body := body + [0];
    out := WriteInt32BE(8 + |body|) + WriteInt32BE(version) + body;
  }

  function AsParameters(entries: seq<Entry>, p: Parameters): Parameters {
    if entries == [] then p else AsParameters(entries[1..], p[entries[0].key := entries[0].value])
  }

  predicate Printable(e: Entry) {
    e.key != [] && 0 !in e.key && 0 !in e.value && e.key != PROTO
  }

  lemma ReadOne(body: Bytes, offset: nat, k: nat, v: nat, p: Parameters)
    requires offset < k < v < |body| && body[k] == 0 && body[v] == 0
    requires 0 !in body[offset..k] && 0 !in body[k + 1..v] && body[offset..k] != PROTO
    ensures ReadParameters(body, offset, p) ==
            ReadParameters(body, v + 1, p[body[offset..k] := body[k + 1..v]])
  {
    hide IndexOfNul;
    IndexOfNulIs(body, offset, k);
    IndexOfNulIs(body, k + 1, v);
  }

  lemma ReadEntry(before: Bytes, e: Entry, after: Bytes, p: Parameters)
    requires Printable(e)
    ensures ReadParameters(before + (PrintEntry(e) + after), |before|, p) ==
            ReadParameters(before + (PrintEntry(e) + after), |before + PrintEntry(e)|, p[e.key := e.value])
  {
    hide ReadParameters;
    var body := before + (PrintEntry(e) + after);
    var k := |before| + |e.key|;
    var v := k + 1 + |e.value|;
    assert body == before + e.key + [0] + e.value + [0] + after;
    assert body[|before|..k] == e.key && body[k] == 0;
    assert body[k + 1..v] == e.value && body[v] == 0;
    ReadOne(body, |before|, k, v, p);
  }

  lemma {:induction false} ReadEntries(before: Bytes, entries: seq<Entry>, p: Parameters)
    requires forall e :: e in entries ==> Printable(e)
    ensures ReadParameters(before + (PrintEntries(entries) + [0]), |before|, p) == Parsed(AsParameters(entries, p))
    decreases |entries|
  {
    var body := before + (PrintEntries(entries) + [0]);
    if entries == [] {
      assert body == before + [0];
      IndexOfNulIs(body, |before|, |before|);
    } else {
      var e, rest := entries[0], PrintEntries(entries[1..]) + [0];
      ConcatAssoc(PrintEntry(e), PrintEntries(entries[1..]), [0]);
      ReadEntry(before, e, rest, p);
      ConcatAssoc(before, PrintEntry(e), rest);
      ReadEntries(before + PrintEntry(e), entries[1..], p[e.key := e.value]);
    }
  }

  predicate IsRequestCode(version: int) {
    version == SSL_REQUEST_CODE || version == GSSENC_REQUEST_CODE || version == CANCEL_REQUEST_CODE
  }

  lemma {:induction false} EntriesInMap(entries: seq<Entry>, p: Parameters, k: Bytes)
    requires forall i, j :: 0 <= i < j < |entries| ==> entries[i].key != entries[j].key
    ensures (k in AsParameters(entries, p) <==> k in p || exists e :: e in entries && e.key == k)
    ensures forall e :: e in entries && e.key == k ==> AsParameters(entries, p)[k] == e.value
    ensures k in p && (forall e :: e in entries ==> e.key != k) ==> AsParameters(entries, p)[k] == p[k]
    decreases |entries|
  {
    if entries != [] {
      var q := p[entries[0].key := entries[0].value];
      EntriesInMap(entries[1..], q, k);
      assert forall e :: e in entries <==> e == entries[0] || e in entries[1..];
    }
  }

  /** The reader frames an encoded startup packet, whatever follows it. */
  lemma StartupPacketFrames(version: int, entries: seq<Entry>, rest: Bytes)
    requires IsInt32(version) && 9 + |PrintEntries(entries)| <= MAX_MESSAGE_BYTES
    ensures var packet := StartupPacketBytes(version, entries);
            NextStartup(packet + rest) == Framed(RawMessage(None, packet[4..], packet), rest)
  {
    var packet := StartupPacketBytes(version, entries);
    var n := 9 + |PrintEntries(entries)|;
    assert [] + WriteInt32BE(n) + (packet[4..] + rest) == packet + rest;
    ReadWriteInt32(n, [], packet[4..] + rest);
    assert (packet + rest)[..n] == packet && (packet + rest)[n..] == rest;
  }

  /** Parsing undoes encoding: the version and exactly the entries come back. */
  lemma ParseUndoesEncode(version: int, entries: seq<Entry>)
    requires IsInt32(version) && !IsRequestCode(version) && IsInt32(9 + |PrintEntries(entries)|)
    requires forall e :: e in entries ==> Printable(e)
    requires forall i, j :: 0 <= i < j < |entries| ==> entries[i].key != entries[j].key
    ensures var r := StartupPacketOf(StartupPacketBytes(version, entries)[4..]);
            && r == Parsed(StartupPacket(version, AsParameters(entries, map[]), None))
            && (forall e :: e in entries ==> e.key in r.value.parameters && r.value.parameters[e.key] == e.value)
            && (forall k :: k in r.value.parameters ==> exists e :: e in entries && e.key == k)
  {
    var payload := StartupPacketBytes(version, entries)[4..];
    var body := PrintEntries(entries) + [0];
    assert payload == [] + WriteInt32BE(version) + body;
    ReadWriteInt32(version, [], body);
    assert payload[4..] == [] + body;
    ReadEntries([], entries, map[]);
    var m := AsParameters(entries, map[]);
    forall e | e in entries ensures e.key in m && m[e.key] == e.value {
      EntriesInMap(entries, map[], e.key);
    }
    forall k | k in m ensures exists e :: e in entries && e.key == k {
      EntriesInMap(entries, map[], k);
    }
  }

  // ---------- ErrorResponse

  const TAG_SEVERITY: byte := 0x53
  const TAG_VERBATIM: byte := 0x56
  const TAG_CODE: byte := 0x43
  const TAG_MESSAGE: byte := 0x4d
  const TAG_DETAIL: byte := 0x44
  const TAG_HINT: byte := 0x48

  /** `"FATAL"`. */
  const FATAL: Bytes := [0x46, 0x41, 0x54, 0x41, 0x4c]

  datatype ErrorOptions = ErrorOptions(severity: Option<Bytes>, code: Bytes, message: Bytes,
                                       detail: Option<Bytes>, hint: Option<Bytes>)

  datatype Field = Field(tag: byte, value: Bytes)

  function Given(tag: byte, value: Option<Bytes>): seq<Field> {
    if value.Some? && value.value != [] then [Field(tag, value.value)] else []
  }

  /** The fields an error prints; an absent or empty detail or hint is left out. */
  function FieldsOf(o: ErrorOptions): seq<Field> {
    var severity := if o.severity.Some? then o.severity.value else FATAL;
    [Field(TAG_SEVERITY, severity), Field(TAG_VERBATIM, severity), Field(TAG_CODE, o.code),
     Field(TAG_MESSAGE, o.message)] + (Given(TAG_DETAIL, o.detail) + Given(TAG_HINT, o.hint))
  }

  function PrintField(f: Field): Bytes { [f.tag] + f.value + [0] }

  function PrintFields(fields: seq<Field>): Bytes {
    if fields == [] then [] else PrintField(fields[0]) + PrintFields(fields[1..])
  }

  function ErrorPayload(o: ErrorOptions): Bytes { PrintFields(FieldsOf(o)) + [0] }

  function ReadFields(payload: Bytes, offset: nat, fields: map<byte, Bytes>): map<byte, Bytes>
    decreases |payload| - offset
  {
    if offset >= |payload| || payload[offset] == 0 then fields
    else
      var end := IndexOfNul(payload, offset + 1);
      if end.None? then fields
      else ReadFields(payload, end.value + 1, fields[payload[offset] := payload[offset + 1..end.value]])
  }

  method ParseErrorResponse(payload: Bytes) returns (fields: map<byte, Bytes>)
    ensures fields == ReadFields(payload, 0, map[])
  {
    fields := map[];
    var offset := 0;
    while offset < |payload|
      invariant ReadFields(payload, 0, map[]) == ReadFields(payload, offset, fields)
    {
      var tag := payload[offset];
      if tag == 0 { break; }
      var end := IndexOfNul(payload, offset + 1);
      if end.None? { break; }
      fields := fields[tag := payload[offset + 1..end.value]];
      offset := end.value + 1;
    }
  }

  function AsFields(fields: seq<Field>, m: map<byte, Bytes>): map<byte, Bytes> {
    if fields == [] then m else AsFields(fields[1..], m[fields[0].tag := fields[0].value])
  }

  lemma ReadField(before: Bytes, f: Field, after: Bytes, m: map<byte, Bytes>)
    requires f.tag != 0 && 0 !in f.value
    ensures ReadFields(before + (PrintField(f) + after), |before|, m) ==
            ReadFields(before + (PrintField(f) + after), |before + PrintField(f)|, m[f.tag := f.value])
  {
    var payload := before + (PrintField(f) + after);
    var end := |before| + 1 + |f.value|;
    assert payload == before + [f.tag] + f.value + [0] + after;
    assert payload[|before|] == f.tag && payload[|before| + 1..end] == f.value && payload[end] == 0;
    IndexOfNulIs(payload, |before| + 1, end);
  }

  lemma {:induction false} ReadPrintedFields(before: Bytes, fields: seq<Field>, m: map<byte, Bytes>)
    requires forall f :: f in fields ==> f.tag != 0 && 0 !in f.value
    ensures ReadFields(before + (PrintFields(fields) + [0]), |before|, m) == AsFields(fields, m)
    decreases |fields|
  {
    if fields != [] {
      var f, rest := fields[0], PrintFields(fields[1..]) + [0];
      ConcatAssoc(PrintField(f), PrintFields(fields[1..]), [0]);
      ReadField(before, f, rest, m);
      ConcatAssoc(before, PrintField(f), rest);
      ReadPrintedFields(before + PrintField(f), fields[1..], m[f.tag := f.value]);
    }
  }

  predicate DistinctTags(fields: seq<Field>) {
    forall i, j :: 0 <= i < j < |fields| ==> fields[i].tag != fields[j].tag
  }

  lemma {:induction false} FieldsInMap(fields: seq<Field>, m: map<byte, Bytes>, t: byte)
    requires DistinctTags(fields)
    ensures t in AsFields(fields, m) <==> t in m || exists f :: f in fields && f.tag == t
    ensures forall f :: f in fields && f.tag == t ==> AsFields(fields, m)[t] == f.value
    ensures t in m && (forall f :: f in fields ==> f.tag != t) ==> AsFields(fields, m)[t] == m[t]
    decreases |fields|
  {
    if fields != [] {
      FieldsInMap(fields[1..], m[fields[0].tag := fields[0].value], t);
      assert forall f :: f in fields <==> f == fields[0] || f in fields[1..];
    }
  }

  predicate TextOf(v: Option<Bytes>) { v.Some? ==> 0 !in v.value }

  predicate PlainText(o: ErrorOptions) {
    0 !in o.code && 0 !in o.message && TextOf(o.severity) && TextOf(o.detail) && TextOf(o.hint)
  }

  lemma FieldsArePlain(o: ErrorOptions)
    requires PlainText(o)
    ensures DistinctTags(FieldsOf(o))
    ensures forall f :: f in FieldsOf(o) ==> f.tag != 0 && 0 !in f.value
  {
  }

  /** Every field printed is recovered with its value, and no other tag appears. */
  lemma ErrorRoundTrip(o: ErrorOptions)
    requires PlainText(o)
    ensures var m := ReadFields(ErrorPayload(o), 0, map[]);
            && (forall f :: f in FieldsOf(o) ==> f.tag in m && m[f.tag] == f.value)
            && (forall t :: t in m ==> exists f :: f in FieldsOf(o) && f.tag == t)
  {
    var fields, m := FieldsOf(o), AsFields(FieldsOf(o), map[]);
    FieldsArePlain(o);
    assert [] + ErrorPayload(o) == ErrorPayload(o);
    ReadPrintedFields([], fields, map[]);
    forall f | f in fields ensures f.tag in m && m[f.tag] == f.value {
      FieldsInMap(fields, map[], f.tag);
    }
    forall t | t in m ensures exists f :: f in fields && f.tag == t {
      FieldsInMap(fields, map[], t);
    }
  }

  // ---------- SASLInitialResponse

  datatype SaslInitial = SaslInitial(mechanism: Bytes, data: Bytes)

  function Clamp(n: int, b: Bytes): nat { if n < 0 then 0 else if n > |b| then |b| else n }

  /** None of the reads past the end succeeds: Node throws, which is a malformed message here. */
  function SaslInitialOf(payload: Bytes): Parse<SaslInitial> {
    var end := IndexOfNul(payload, 0);
    if end.None? || end.value + 5 > |payload| then Malformed
    else
      var length := ReadInt32BE(payload, end.value + 1);
      var from := end.value + 5;
      Parsed(SaslInitial(payload[..end.value],
                         if length <= 0 then [] else payload[from..Clamp(from + length, payload)]))
  }

  function SaslInitialBytes(m: SaslInitial): Bytes
    requires IsInt32(|m.data|)
  {
    m.mechanism + [0] + WriteInt32BE(|m.data|) + m.data
  }

  /** For any NUL-free mechanism name and any data, empty data included. */
  lemma SaslRoundTrip(m: SaslInitial)
    requires 0 !in m.mechanism && IsInt32(|m.data|)
    ensures SaslInitialOf(SaslInitialBytes(m)) == Parsed(m)
  {
    var payload := SaslInitialBytes(m);
    var n := |m.mechanism|;
    assert payload[..n] == payload[0..n] == m.mechanism && payload[n] == 0;
    IndexOfNulIs(payload, 0, n);
    assert payload == (m.mechanism + [0]) + WriteInt32BE(|m.data|) + m.data;
    ReadWriteInt32(|m.data|, m.mechanism + [0], m.data);
    assert |payload| == n + 5 + |m.data| && payload[n + 5..|payload|] == m.data;
  }
}
