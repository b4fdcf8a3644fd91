/** The wire formats in literal bytes: what is read, what is refused, and what is printed. */
module CodecLaws {
  import opened Bytes
  import opened Protocol
  import opened Codecs

  // ---------------------------------------------------------------------------
  // Integers and frames

  /** Most significant byte first; from 0x80 on the leading byte makes the number negative. */
  lemma BigEndian(b: Bytes, at: nat)
    requires at + 4 <= |b|
    ensures var b0: int, b1: int, b2: int, b3: int := b[at], b[at + 1], b[at + 2], b[at + 3];
            ReadInt32BE(b, at) == 16_777_216 * (if b0 < 128 then b0 else b0 - 256) + 65_536 * b1 + 256 * b2 + b3
  {
  }

  /**
   * A message is a type byte, absent before the startup packet is in, and a length that counts itself;
   * below 4 or above 512 MiB it is implausible.
   */
  lemma FrameIs(startup: bool, buffer: Bytes)
    ensures var at := if startup then 0 else 1;
            Next(startup, buffer) ==
            if |buffer| < at + 4 then Incomplete
            else
              var length := ReadInt32BE(buffer, at);
              if length < 4 || length > 536_870_912 then Implausible(length)
              else if |buffer| < at + length then Incomplete
              else Framed(RawMessage(if startup then None else Some(buffer[0]), buffer[at + 4..at + length], buffer[..at + length]),
                          buffer[at + length..])
  {
    var at := if startup then 0 else 1;
    if |buffer| >= at + 4 {
      var length := ReadInt32BE(buffer, at);
      if length >= 4 && |buffer| >= at + length {
        assert buffer[..at + length][at + 4..] == buffer[at + 4..at + length];
      }
    }
  }

  /** Draining stops before part of a message, or has failed before an implausible one. */
  lemma {:induction false} DrainedIs(startup: bool, buffer: Bytes)
    ensures var r := FrameAll(startup, buffer);
            if r.failed then Next(startup, r.rest).Implausible? else Next(startup, r.rest).Incomplete?
    decreases |buffer|
  {
    var f := Next(startup, buffer);
    if f.Framed? { DrainedIs(startup, f.rest); }
  }

  // ---------------------------------------------------------------------------
  // Startup packets

  /** The three request codes carry no parameters; a cancel request carries a key of two integers. */
  lemma StartupKinds(payload: Bytes)
    ensures |payload| < 4 ==> StartupPacketOf(payload) == Malformed
    ensures |payload| >= 4 ==>
              var code := ReadInt32BE(payload, 0);
              && (code in {80877103, 80877104} ==> StartupPacketOf(payload) == Parsed(StartupPacket(code, map[], None)))
              && (code == 80877102 ==>
                    StartupPacketOf(payload) ==
                    if |payload| < 12 then Malformed
                    else Parsed(StartupPacket(code, map[], Some(CancelKey(ReadInt32BE(payload, 4), ReadInt32BE(payload, 8))))))
  {
  }

  /** Any other code is a version, followed by the parameters. */
  lemma VersionIs(payload: Bytes)
    requires |payload| >= 4 && ReadInt32BE(payload, 0) !in {80877102, 80877103, 80877104}
    ensures var p := ReadParameters(payload[4..], 0, map[]);
            StartupPacketOf(payload) ==
            if p.Malformed? then Malformed else Parsed(StartupPacket(ReadInt32BE(payload, 0), p.value, None))
  {
  }

  lemma NoNulAfter(b: Bytes, from: nat)
    requires from <= |b| && 0 !in b[from..]
    ensures IndexOfNul(b, from).None?
  {
    assert forall k :: from <= k < |b| ==> b[k] in b[from..];
  }

  /** Reading ends at an empty name or a name that no NUL ends; what was read so far counts. */
  lemma ReadingEnds(before: Bytes, rest: Bytes, p: Parameters)
    requires rest == [] || rest[0] == 0 || 0 !in rest
    ensures ReadParameters(before + rest, |before|, p) == Parsed(p)
  {
    var body := before + rest;
    if rest != [] && rest[0] == 0 {
      assert body[|before|] == 0;
      IndexOfNulIs(body, |before|, |before|);
    } else {
      assert body[|before|..] == rest;
      if rest != [] { NoNulAfter(body, |before|); }
    }
  }

  /** A name whose value no NUL ends is malformed. */
  lemma ValueMustEnd(before: Bytes, key: Bytes, value: Bytes, p: Parameters)
    requires key != [] && 0 !in key && 0 !in value
    ensures ReadParameters(before + (key + [0] + value), |before|, p) == Malformed
  {
    var body := before + (key + [0] + value);
    var k := |before| + |key|;
    assert body[|before|..k] == key && body[k] == 0 && body[k + 1..] == value;
    IndexOfNulIs(body, |before|, k);
    NoNulAfter(body, k + 1);
  }

  lemma ProtoAt(body: Bytes, offset: nat, v: nat, p: Parameters)
    requires offset + 9 < v < |body| && body[offset + 9] == 0 && body[v] == 0
    requires body[offset..offset + 9] == [0x5f, 0x5f, 0x70, 0x72, 0x6f, 0x74, 0x6f, 0x5f, 0x5f]
    requires 0 !in body[offset + 10..v]
    ensures ReadParameters(body, offset, p) == ReadParameters(body, v + 1, p)
  {
    hide IndexOfNul;
    IndexOfNulIs(body, offset, offset + 9);
    IndexOfNulIs(body, offset + 10, v);
  }

  /** A parameter named `__proto__` is read and dropped. */
  lemma ProtoIsDropped(before: Bytes, value: Bytes, after: Bytes, p: Parameters)
    requires 0 !in value
    ensures var key := [0x5f, 0x5f, 0x70, 0x72, 0x6f, 0x74, 0x6f, 0x5f, 0x5f];
            ReadParameters(before + key + [0] + value + [0] + after, |before|, p) ==
            ReadParameters(before + key + [0] + value + [0] + after, |before| + 11 + |value|, p)
  {
    hide ReadParameters;
    var key: Bytes := [0x5f, 0x5f, 0x70, 0x72, 0x6f, 0x74, 0x6f, 0x5f, 0x5f];
    var body := before + key + [0] + value + [0] + after;
    var k := |before| + 9;
    var v := k + 1 + |value|;
    assert body[|before|..k] == key;
    assert body[k + 1..v] == value;
    ProtoAt(body, |before|, v, p);
  }

  /** A length, a version and names and values each ended by a NUL, with one more at the end. */
  lemma PacketIs(version: int, entries: seq<Entry>)
    requires IsInt32(version) && IsInt32(9 + |PrintEntries(entries)|)
    ensures var packet := StartupPacketBytes(version, entries);
            && ReadInt32BE(packet, 0) == |packet| && ReadInt32BE(packet, 4) == version
            && packet[8..] == PrintEntries(entries) + [0]
  {
    var packet := StartupPacketBytes(version, entries);
    var n := 9 + |PrintEntries(entries)|;
    var tail := PrintEntries(entries) + [0];
    assert packet == [] + WriteInt32BE(n) + (WriteInt32BE(version) + tail);
    ReadWriteInt32(n, [], WriteInt32BE(version) + tail);
    assert packet == WriteInt32BE(n) + WriteInt32BE(version) + tail;
    ReadWriteInt32(version, WriteInt32BE(n), tail);
  }

  // ---------------------------------------------------------------------------
  // Errors

  function Line(tag: byte, value: Bytes): Bytes { [tag] + value + [0] }

  /** Severity twice (`S` and `V`), code `C`, message `M`, and detail `D` and hint `H` if they say anything. */
  lemma ErrorIsPrinted(o: ErrorOptions)
    ensures var severity := if o.severity.Some? then o.severity.value else [0x46, 0x41, 0x54, 0x41, 0x4c];
            var detail := if o.detail.Some? && o.detail.value != [] then Line(0x44, o.detail.value) else [];
            var hint := if o.hint.Some? && o.hint.value != [] then Line(0x48, o.hint.value) else [];
            ErrorPayload(o) ==
            Line(0x53, severity) + (Line(0x56, severity) + (Line(0x43, o.code) + (Line(0x4d, o.message) + (detail + hint)))) + [0]
  {
    var severity := if o.severity.Some? then o.severity.value else [0x46, 0x41, 0x54, 0x41, 0x4c];
    var optional := Given(0x44, o.detail) + Given(0x48, o.hint);
    var third := [Field(0x4d, o.message)] + optional;
    var second := [Field(0x43, o.code)] + third;
    var first := [Field(0x56, severity)] + second;
    hide PrintFields, Line, Given;
    assert FieldsOf(o) == [Field(0x53, severity)] + first;
    PrintedFirst(Field(0x53, severity), first);
    PrintedFirst(Field(0x56, severity), second);
    PrintedFirst(Field(0x43, o.code), third);
    PrintedFirst(Field(0x4d, o.message), optional);
    PrintedBoth(o.detail, o.hint);
  }

  lemma PrintedBoth(detail: Option<Bytes>, hint: Option<Bytes>)
    ensures PrintFields(Given(0x44, detail) + Given(0x48, hint)) ==
            (if detail.Some? && detail.value != [] then Line(0x44, detail.value) else [])
            + (if hint.Some? && hint.value != [] then Line(0x48, hint.value) else [])
  {
    PrintedOptional(0x44, detail, Given(0x48, hint));
    PrintedOptional(0x48, hint, []);
    assert Given(0x48, hint) + [] == Given(0x48, hint);
  }

  lemma PrintedFirst(f: Field, rest: seq<Field>)
    ensures PrintFields([f] + rest) == Line(f.tag, f.value) + PrintFields(rest)
  {
    assert ([f] + rest)[1..] == rest;
  }

  lemma PrintedOptional(tag: byte, value: Option<Bytes>, rest: seq<Field>)
    ensures PrintFields(Given(tag, value) + rest) ==
            (if value.Some? && value.value != [] then Line(tag, value.value) else []) + PrintFields(rest)
  {
    if Given(tag, value) == [] {
      assert [] + rest == rest;
    } else {
      PrintedFirst(Field(tag, value.value), rest);
    }
  }

  /** Reading stops at a zero tag, at the end, and at a field that no NUL ends. */
  lemma FieldsEnd(before: Bytes, rest: Bytes, m: map<byte, Bytes>)
    requires rest == [] || rest[0] == 0 || 0 !in rest[1..]
    ensures ReadFields(before + rest, |before|, m) == m
  {
    var payload := before + rest;
    if rest != [] && rest[0] != 0 {
      assert payload[|before|] == rest[0] && payload[|before| + 1..] == rest[1..];
      NoNulAfter(payload, |before| + 1);
    }
  }

  // ---------------------------------------------------------------------------
  // SASLInitialResponse

  lemma SaslParts(mechanism: Bytes, rest: Bytes)
    requires 0 !in mechanism
    ensures var payload := mechanism + [0] + rest;
            && IndexOfNul(payload, 0) == Some(|mechanism|)
            && payload[..|mechanism|] == mechanism && payload[|mechanism| + 1..] == rest
  {
    var payload := mechanism + [0] + rest;
    var n := |mechanism|;
    assert payload[0..n] == mechanism && payload[n] == 0;
    IndexOfNulIs(payload, 0, n);
  }

  /** A name, a NUL, a length and that many bytes, or as many as there are; none if it is not positive. */
  lemma SaslIs(mechanism: Bytes, rest: Bytes)
    requires 0 !in mechanism
    ensures SaslInitialOf(mechanism + [0] + rest) ==
            if |rest| < 4 then Malformed
            else
              var length := ReadInt32BE(rest, 0);
              Parsed(SaslInitial(mechanism,
                                 if length <= 0 then [] else if 4 + length > |rest| then rest[4..] else rest[4..4 + length]))
  {
    hide IndexOfNul, ReadInt32BE;
    var payload := mechanism + [0] + rest;
    var n := |mechanism|;
    SaslParts(mechanism, rest);
    if |rest| >= 4 {
      SameLength(payload, n + 1, rest);
      var length := ReadInt32BE(rest, 0);
      if 0 < length && 4 + length <= |rest| {
        assert payload[n + 1..][4..4 + length] == payload[n + 5..n + 5 + length];
      } else if 0 < length {
        assert payload[n + 1..][4..] == payload[n + 5..|payload|];
      }
    }
  }

  lemma SameLength(b: Bytes, at: nat, rest: Bytes)
    requires at + 4 <= |b| && b[at..] == rest
    ensures ReadInt32BE(b, at) == ReadInt32BE(rest, 0)
  {
    assert forall i :: 0 <= i < 4 ==> b[at + i] == rest[i];
  }

  lemma SaslNeedsAName(payload: Bytes)
    requires 0 !in payload
    ensures SaslInitialOf(payload) == Malformed
  {
    assert payload[0..] == payload;
    NoNulAfter(payload, 0);
  }
}
