/** Options, results and byte strings, Node's big-endian integer reads and writes, and `Buffer.indexOf`. */
module Bytes {
  type byte = b: int | 0 <= b < 256
  type Bytes = seq<byte>

  datatype Option<+T> = None | Some(value: T)

  datatype Result<+T, +E> = Ok(value: T) | Err(problem: E)

  lemma ConcatAssoc<T>(a: seq<T>, b: seq<T>, c: seq<T>)
    ensures a + (b + c) == (a + b) + c
  {
  }

  function Flatten(parts: seq<Bytes>): Bytes {
    if parts == [] then [] else parts[0] + Flatten(parts[1..])
  }

  lemma {:induction false} FlattenAppend(a: seq<Bytes>, b: seq<Bytes>)
    ensures Flatten(a + b) == Flatten(a) + Flatten(b)
  {
    if a == [] {
      assert a + b == b;
    } else {
      FlattenAppend(a[1..], b);
      assert (a + b)[0] == a[0] && (a + b)[1..] == a[1..] + b;
      ConcatAssoc(a[0], Flatten(a[1..]), Flatten(b));
    }
  }

  lemma FlattenSnoc(parts: seq<Bytes>)
    requires parts != []
    ensures Flatten(parts) == Flatten(parts[..|parts| - 1]) + parts[|parts| - 1]
  {
    var last := parts[|parts| - 1];
    FlattenAppend(parts[..|parts| - 1], [last]);
    assert parts == parts[..|parts| - 1] + [last];
    assert Flatten([last]) == last + Flatten([last][1..]);
  }

  predicate IsInt32(v: int) { -0x8000_0000 <= v < 0x8000_0000 }

  /** `Buffer.writeInt32BE`: the two's complement of `v`, most significant byte first. */
  function WriteInt32BE(v: int): (b: Bytes)
    requires IsInt32(v)
    ensures |b| == 4
  {
    var u := if v < 0 then v + 0x1_0000_0000 else v;
    [u / 0x100_0000, u / 0x1_0000 % 256, u / 0x100 % 256, u % 256]
  }

  /** `Buffer.readInt32BE`: signed, so a leading byte above 127 reads as negative. */
  function ReadInt32BE(b: Bytes, at: nat): (v: int)
    requires at + 4 <= |b|
    ensures IsInt32(v)
  {
    var b0: int, b1: int, b2: int := b[at], b[at + 1], b[at + 2];
    var u := b0 * 0x100_0000 + b1 * 0x1_0000 + b2 * 0x100 + b[at + 3];
    if u >= 0x8000_0000 then u - 0x1_0000_0000 else u
  }

  lemma ReadWriteInt32(v: int, before: Bytes, after: Bytes)
    requires IsInt32(v)
    ensures ReadInt32BE(before + WriteInt32BE(v) + after, |before|) == v
  {
    var u := if v < 0 then v + 0x1_0000_0000 else v;
    var b := before + WriteInt32BE(v) + after;
    assert b[|before|] == u / 0x100_0000 && b[|before| + 1] == u / 0x1_0000 % 256;
    assert b[|before| + 2] == u / 0x100 % 256 && b[|before| + 3] == u % 256;
    assert u / 0x1_0000 == u / 0x100_0000 * 256 + u / 0x1_0000 % 256;
    assert u / 0x100 == u / 0x1_0000 * 256 + u / 0x100 % 256;
  }

  lemma BytesOfInt(b0: int, b1: int, b2: int, b3: int)
    requires 0 <= b0 < 256 && 0 <= b1 < 256 && 0 <= b2 < 256 && 0 <= b3 < 256
    ensures var u := b0 * 0x100_0000 + b1 * 0x1_0000 + b2 * 0x100 + b3;
            u / 0x100_0000 == b0 && u / 0x1_0000 % 256 == b1 && u / 0x100 % 256 == b2 && u % 256 == b3
  {
    var u := b0 * 0x100_0000 + b1 * 0x1_0000 + b2 * 0x100 + b3;
    assert u / 0x100_0000 == b0;
    assert u / 0x1_0000 == b0 * 256 + b1;
    assert u / 0x100 == (b0 * 256 + b1) * 256 + b2;
  }

  lemma WriteReadInt32(b: Bytes, at: nat)
    requires at + 4 <= |b|
    ensures WriteInt32BE(ReadInt32BE(b, at)) == b[at..at + 4]
  {
    BytesOfInt(b[at], b[at + 1], b[at + 2], b[at + 3]);
  }

  /** `Buffer.indexOf(0, from)`; None stands for -1. */
  function IndexOfNul(b: Bytes, from: nat): (r: Option<nat>)
    requires from <= |b|
    ensures r.Some? ==> from <= r.value < |b| && b[r.value] == 0 && 0 !in b[from..r.value]
    ensures r.None? ==> 0 !in b[from..]
    decreases |b| - from
  {
    if from == |b| then None
    else if b[from] == 0 then Some(from)
    else IndexOfNul(b, from + 1)
  }

  lemma IndexOfNulIs(b: Bytes, from: nat, at: nat)
    requires from <= at < |b| && b[at] == 0 && 0 !in b[from..at]
    ensures IndexOfNul(b, from) == Some(at)
  {
    var r := IndexOfNul(b, from);
    assert b[at] in b[from..];
    assert forall j :: from <= j < at ==> b[j] in b[from..at];
    assert forall j :: from <= j < r.value ==> b[j] in b[from..r.value];
  }
}
