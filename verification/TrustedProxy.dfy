/** Which address a request came from, apps/control-plane/src/auth/trusted-proxy.ts. */
module TrustedProxy {
  import opened Bytes
  import opened Strings
  import opened Bits

  // ---------- Addresses

  predicate AllDigits(t: Text) { forall i :: 0 <= i < |t| ==> '0' <= t[i] <= '9' }

  function Decimal(t: Text): nat
    requires AllDigits(t)
  {
    if t == "" then 0 else 10 * Decimal(t[..|t| - 1]) + (t[|t| - 1] as int - '0' as int)
  }

  /** One to three digits, at most 255. */
  function Octet(t: Text): (r: Option<nat>)
    ensures r.Some? ==> r.value <= 255
  {
    if 1 <= |t| <= 3 && AllDigits(t) && Decimal(t) <= 255 then Some(Decimal(t)) else None
  }

  /** Four octets, the first most significant. */
  function Ipv4(addr: Text): (r: Option<nat>)
    ensures r.Some? ==> r.value < WORD
  {
    var parts := SplitAt(addr, '.');
    if |parts| != 4 then None
    else
      var a, b, c, d := Octet(parts[0]), Octet(parts[1]), Octet(parts[2]), Octet(parts[3]);
      if a.None? || b.None? || c.None? || d.None? then None
      else Some(((a.value * 256 + b.value) * 256 + c.value) * 256 + d.value)
  }

  /** The first `i` octets, when all of them are well formed. */
  function Leading(parts: seq<Text>, i: nat): Option<nat>
    requires i <= |parts|
  {
    if i == 0 then Some(0)
    else
      var before, o := Leading(parts, i - 1), Octet(parts[i - 1]);
      if before.None? || o.None? then None else Some(before.value * 256 + o.value)
  }

  lemma LeadingIsSmall(parts: seq<Text>, i: nat)
    requires i <= |parts| && i <= 4 && Leading(parts, i).Some?
    ensures i == 0 ==> Leading(parts, i).value == 0
    ensures i <= 1 ==> Leading(parts, i).value < 0x100
    ensures i <= 2 ==> Leading(parts, i).value < 0x1_0000
    ensures i <= 3 ==> Leading(parts, i).value < 0x100_0000
    ensures Leading(parts, i).value < WORD
  {
    if i > 0 { LeadingIsSmall(parts, i - 1); }
  }

  lemma ShiftIs(x: int, s: nat)
    requires s < 32
    ensures Shl32(x, s) == ToInt32(ToUint32(x) * Pow2(s))
  {
    assert s % 32 == s;
  }

  lemma ShiftEight(v: nat)
    requires v < 0x100_0000
    ensures Shl32(ToInt32(v), 8) == ToInt32(v * 256)
  {
    hide ToInt32, Pow2;
    Pow2Words();
    UnsignedOfSigned(v);
    ShiftIs(ToInt32(v), 8);
  }

  lemma OrSmall(a: nat, b: nat, r: nat)
    requires a < WORD && b < WORD && Or(a, b) == r
    ensures Or32(ToInt32(a), b) == ToInt32(r)
  {
    hide Or, ToInt32;
    UnsignedOfSigned(a);
    assert ToUint32(b) == b;
  }

  /** `(value << 8) | n` on a signed word still spells the octets, once made unsigned. */
  lemma ShiftInOctet(v: nat, n: nat)
    requires v < 0x100_0000 && n <= 255
    ensures Or32(Shl32(ToInt32(v), 8), n) == ToInt32(v * 256 + n)
  {
    hide Or, Pow2, ToInt32, Or32, Shl32;
    Pow2Words();
    OrLowBits(v, 8, n);
    ShiftEight(v);
    OrSmall(v * 256, n, v * 256 + n);
  }

  lemma OctetStep(parts: seq<Text>, i: nat, value: int, n: nat)
    requires i < |parts| && i < 4 && Leading(parts, i).Some? && Octet(parts[i]) == Some(n)
    requires value == ToInt32(Leading(parts, i).value)
    ensures Leading(parts, i + 1).Some? && Or32(Shl32(value, 8), n) == ToInt32(Leading(parts, i + 1).value)
  {
    LeadingIsSmall(parts, i);
    ShiftInOctet(Leading(parts, i).value, n);
  }

  lemma BadOctet(addr: Text, i: nat)
    requires |SplitAt(addr, '.')| == 4 && i < 4 && Octet(SplitAt(addr, '.')[i]).None?
    ensures Ipv4(addr).None?
  {
  }

  lemma AllOctets(addr: Text)
    requires |SplitAt(addr, '.')| == 4 && Leading(SplitAt(addr, '.'), 4).Some?
    ensures Ipv4(addr) == Leading(SplitAt(addr, '.'), 4)
    ensures Unsigned(ToInt32(Ipv4(addr).value)) == Ipv4(addr).value
  {
    FourOctets(SplitAt(addr, '.'));
    UnsignedOfSigned(Ipv4(addr).value);
  }

  method Ipv4ToInt(addr: Text) returns (r: Option<nat>)
    ensures r == Ipv4(addr)
  {
    hide Ipv4, Octet, Or32, ToInt32, Unsigned, SplitAt;
    var parts := SplitAt(addr, '.');
    if |parts| != 4 {
      NotFourParts(addr);
      return None;
    }
    var value: int := 0;
    NoOctetsYet();
    for i := 0 to 4
      invariant Leading(parts, i).Some? && value == ToInt32(Leading(parts, i).value)
    {
      var n := Octet(parts[i]);
      if n.None? {
        BadOctet(addr, i);
        return None;
      }
      OctetStep(parts, i, value, n.value);
      value := Or32(Shl32(value, 8), n.value);
    }
    AllOctets(addr);
    return Some(Unsigned(value));
  }

  lemma NotFourParts(addr: Text)
    requires |SplitAt(addr, '.')| != 4
    ensures Ipv4(addr).None?
  {
  }

  lemma NoOctetsYet()
    ensures ToInt32(0) == 0
  {
  }

  lemma FourOctets(parts: seq<Text>)
    requires |parts| == 4
    ensures Leading(parts, 4) ==
            var a, b, c, d := Octet(parts[0]), Octet(parts[1]), Octet(parts[2]), Octet(parts[3]);
            if a.None? || b.None? || c.None? || d.None? then None
            else Some(((a.value * 256 + b.value) * 256 + c.value) * 256 + d.value)
  {
    assert Leading(parts, 1) == if Octet(parts[0]).None? then None else Some(Octet(parts[0]).value);
    assert Leading(parts, 2).Some? <==> Octet(parts[0]).Some? && Octet(parts[1]).Some?;
    assert Leading(parts, 3).Some? <==> Leading(parts, 2).Some? && Octet(parts[2]).Some?;
  }

  // ---------- Ranges

  datatype Cidr = Cidr(base: nat, mask: nat)

  /** `bits === 0 ? 0 : (-1 << (32 - bits)) >>> 0`. */
  function MaskOf(bits: nat): nat
    requires bits <= 32
  {
    if bits == 0 then 0 else Unsigned(Shl32(-1, 32 - bits))
  }

  function CidrOf(base: nat, bits: nat): Cidr
    requires bits <= 32
  {
    Cidr(Unsigned(And32(base, MaskOf(bits))), MaskOf(bits))
  }

  /** `((value & c.mask) >>> 0) === c.base`. */
  predicate InCidr(value: nat, c: Cidr) { Unsigned(And32(value, c.mask)) == c.base }

  lemma MinusOneTimes(p: nat)
    requires 0 < p < WORD
    ensures ToUint32(ToUint32(-1) * p) == WORD - p
  {
    assert ToUint32(-1) == 0xFFFF_FFFF;
    assert 0xFFFF_FFFF * p == (p - 1) * 0x1_0000_0000 + (0x1_0000_0000 - p);
  }

  lemma ShiftMinusOne(s: nat)
    requires s < 32
    ensures Unsigned(Shl32(-1, s)) == WORD - Pow2(s)
  {
    hide ToInt32, ToUint32, Pow2, Unsigned;
    Pow2Words();
    Pow2Strict(s, 32);
    var p := Pow2(s);
    MinusOneTimes(p);
    UnsignedOfSigned(ToUint32(-1) * p);
    ShiftIs(-1, s);
  }

  /** The mask is 2^32 - 2^(32 - bits), the signed shift notwithstanding; a /0 mask is 0. */
  lemma MaskIs(bits: nat)
    requires bits <= 32
    ensures Pow2(32) == WORD && Pow2(32 - bits) <= WORD
    ensures MaskOf(bits) == WORD - Pow2(32 - bits)
  {
    Pow2Words();
    Pow2Grows(32 - bits, 32);
    hide Pow2, Shl32;
    if bits > 0 { ShiftMinusOne(32 - bits); }
  }

  lemma MaskedIs(value: nat, bits: nat)
    requires bits <= 32 && value < WORD
    ensures Unsigned(And32(value, MaskOf(bits))) == value / Pow2(32 - bits) * Pow2(32 - bits)
  {
    MaskIs(bits);
    AndMask(value, 32, 32 - bits);
    QuotientFits(value, Pow2(32 - bits));
    UnsignedAnd(value, MaskOf(bits), value / Pow2(32 - bits) * Pow2(32 - bits));
  }

  lemma UnsignedAnd(a: nat, b: nat, r: nat)
    requires a < WORD && b < WORD && And(a, b) == r < WORD
    ensures Unsigned(And32(a, b)) == r
  {
    assert ToUint32(a) == a && ToUint32(b) == b;
    UnsignedOfSigned(r);
  }

  lemma QuotientFits(v: nat, p: nat)
    requires p > 0
    ensures v / p * p <= v
  {
    assert v == p * (v / p) + v % p;
  }

  /** The signed 32-bit test is exactly agreement on the leading `bits` bits. */
  lemma CidrMatchesPrefix(value: nat, base: nat, bits: nat)
    requires bits <= 32 && value < WORD && base < WORD
    ensures InCidr(value, CidrOf(base, bits)) <==> value / Pow2(32 - bits) == base / Pow2(32 - bits)
  {
    MaskedIs(value, bits);
    MaskedIs(base, bits);
    SameMultiple(value, base, Pow2(32 - bits));
  }

  // ---------- The configured list

  /** `empty` when nothing is configured, so that no header is ever believed. */
  datatype Trusted = Trusted(empty: bool, cidrs: seq<Cidr>, literals: set<Text>)

  datatype Parsing = Parsed(trusted: Trusted) | Unparseable(entry: Text)

  function LowerChar(c: char): char { if 'A' <= c <= 'Z' then (c as int + 32) as char else c }

  function Lower(t: Text): Text { seq(|t|, i requires 0 <= i < |t| => LowerChar(t[i])) }

  /** Trimmed, lower case, without one pair of brackets. */
  function NormaliseIpv6(ip: Text): Text {
    var t := Lower(Trim(ip));
    var u := if t != "" && t[0] == '[' then t[1..] else t;
    if u != "" && u[|u| - 1] == ']' then u[..|u| - 1] else u
  }

  predicate IsDotted(t: Text) {
    var parts := SplitAt(t, '.');
    |parts| == 4 && forall i :: 0 <= i < 4 ==> parts[i] != "" && AllDigits(parts[i])
  }

  function StripIpv4Mapped(ip: Text): Text {
    if |ip| > 7 && Lower(ip[..7]) == "::ffff:" && IsDotted(ip[7..]) then ip[7..] else ip
  }

  /** The suffix as `Number` and `Number.isInteger` read it. */
  type Reader = Text -> Option<int>

  function PrefixLength(number: Reader, parts: seq<Text>): Option<nat>
    requires parts != []
  {
    var bits := if |parts| == 1 then Some(32) else number(parts[1]);
    if bits.None? || bits.value < 0 || bits.value > 32 then None else Some(bits.value)
  }

  function ParseCidr(number: Reader, entry: Text): Option<Cidr> {
    var parts := SplitAt(entry, '/');
    var base, bits := Ipv4(parts[0]), PrefixLength(number, parts);
    if base.None? || bits.None? then None else Some(CidrOf(base.value, bits.value))
  }

  function AddEntries(number: Reader, entries: seq<Text>, t: Trusted): Parsing {
    if entries == [] then Parsed(t)
    else
      var cidr := ParseCidr(number, entries[0]);
      if cidr.Some? then AddEntries(number, entries[1..], t.(cidrs := t.cidrs + [cidr.value]))
      else if ':' in entries[0] then
        AddEntries(number, entries[1..], t.(literals := t.literals + {NormaliseIpv6(entries[0])}))
      else Unparseable(entries[0])
  }

  function TrustedFrom(number: Reader, raw: Text): Parsing {
    AddEntries(number, Items(raw), Trusted(Items(raw) == [], [], {}))
  }

  method ParseTrustedProxies(number: Reader, raw: Text) returns (r: Parsing)
    ensures r == TrustedFrom(number, raw)
  {
    hide ParseCidr, Items, NormaliseIpv6;
    var entries := Items(raw);
    var cidrs: seq<Cidr> := [];
    var literals: set<Text> := {};
    assert entries[0..] == entries;
    for i := 0 to |entries|
      invariant TrustedFrom(number, raw) == AddEntries(number, entries[i..], Trusted(entries == [], cidrs, literals))
    {
      assert entries[i..][1..] == entries[i + 1..];
      var cidr := ParseCidr(number, entries[i]);
      if cidr.Some? {
        cidrs := cidrs + [cidr.value];
      } else if ':' in entries[i] {
        literals := literals + {NormaliseIpv6(entries[i])};
      } else {
        return Unparseable(entries[i]);
      }
    }
    assert entries[|entries|..] == [];
    return Parsed(Trusted(entries == [], cidrs, literals));
  }

  predicate Contains(t: Trusted, ip: Text) {
    NormaliseIpv6(ip) in t.literals ||
    (Ipv4(StripIpv4Mapped(ip)).Some? &&
     exists c :: c in t.cidrs && InCidr(Ipv4(StripIpv4Mapped(ip)).value, c))
  }

  /** The entry is an address or range, and `v` agrees with it on the leading bits. */
  predicate Covers(number: Reader, entry: Text, v: nat) {
    var parts := SplitAt(entry, '/');
    var base, bits := Ipv4(parts[0]), PrefixLength(number, parts);
    base.Some? && bits.Some? && v / Pow2(32 - bits.value) == base.value / Pow2(32 - bits.value)
  }

  lemma CidrCovers(number: Reader, entry: Text, v: nat)
    requires v < WORD
    ensures Covers(number, entry, v) <==> ParseCidr(number, entry).Some? && InCidr(v, ParseCidr(number, entry).value)
  {
    var parts := SplitAt(entry, '/');
    var base, bits := Ipv4(parts[0]), PrefixLength(number, parts);
    if base.Some? && bits.Some? { CidrMatchesPrefix(v, base.value, bits.value); }
  }

  predicate InSome(v: nat, cidrs: seq<Cidr>) { exists c :: c in cidrs && InCidr(v, c) }

  lemma {:induction false} EntriesCover(number: Reader, entries: seq<Text>, t: Trusted, v: nat)
    requires v < WORD && AddEntries(number, entries, t).Parsed?
    ensures InSome(v, AddEntries(number, entries, t).trusted.cidrs) <==>
            InSome(v, t.cidrs) || exists e :: e in entries && Covers(number, e, v)
    decreases |entries|
  {
    if entries != [] {
      var cidr := ParseCidr(number, entries[0]);
      CidrCovers(number, entries[0], v);
      assert forall e :: e in entries <==> e == entries[0] || e in entries[1..];
      if cidr.Some? {
        var u := t.(cidrs := t.cidrs + [cidr.value]);
        assert forall c :: c in u.cidrs <==> c in t.cidrs || c == cidr.value;
        EntriesCover(number, entries[1..], u, v);
      } else {
        EntriesCover(number, entries[1..], t.(literals := t.literals + {NormaliseIpv6(entries[0])}), v);
      }
    }
  }

  /** An IPv4 address is in a configured range exactly when it shares an entry's leading bits. */
  lemma RangesMeanPrefixes(number: Reader, raw: Text, ip: Text)
    requires TrustedFrom(number, raw).Parsed? && Ipv4(StripIpv4Mapped(ip)).Some?
    ensures var t, v := TrustedFrom(number, raw).trusted, Ipv4(StripIpv4Mapped(ip)).value;
            Contains(t, ip) <==>
            NormaliseIpv6(ip) in t.literals || exists e :: e in Items(raw) && Covers(number, e, v)
  {
    var v := Ipv4(StripIpv4Mapped(ip)).value;
    EntriesCover(number, Items(raw), Trusted(Items(raw) == [], [], {}), v);
    assert InSome(v, TrustedFrom(number, raw).trusted.cidrs) <==> exists e :: e in Items(raw) && Covers(number, e, v);
  }

  // ---------- The forwarded chain

  datatype Origin = Origin(socketAddress: Option<Text>, forwardedFor: Option<Text>, realIp: Option<Text>)

  /** A header or address that is missing or empty is not believed. */
  function Given(v: Option<Text>): Text { if v.Some? then v.value else "" }

  /** The last entry that is not itself a trusted proxy. */
  function RightmostUntrusted(t: Trusted, chain: seq<Text>): Option<Text> {
    if chain == [] then None
    else
      var last := chain[|chain| - 1];
      if !Contains(t, last) then Some(last) else RightmostUntrusted(t, chain[..|chain| - 1])
  }

  predicate BehindProxy(t: Trusted, o: Origin) {
    !t.empty && Given(o.socketAddress) != "" && Contains(t, Given(o.socketAddress))
  }

  function Resolved(t: Trusted, o: Origin): Option<Text> {
    if !BehindProxy(t, o) then o.socketAddress
    else
      var chain := Items(Given(o.forwardedFor));
      var hop := RightmostUntrusted(t, chain);
      if hop.Some? then hop
      else if chain != [] then Some(chain[0])
      else if Given(o.realIp) != "" then Some(Trim(Given(o.realIp)))
      else o.socketAddress
  }

  method ResolveClientIp(t: Trusted, o: Origin) returns (r: Option<Text>)
    ensures r == Resolved(t, o)
  {
    NoItems();
    hide Contains, Items, Trim;
    if t.empty || Given(o.socketAddress) == "" || !Contains(t, Given(o.socketAddress)) { return o.socketAddress; }
    if Given(o.forwardedFor) != "" {
      var chain := Items(Given(o.forwardedFor));
      var i := |chain|;
      assert chain[..i] == chain;
      while i > 0
        invariant 0 <= i <= |chain|
        invariant RightmostUntrusted(t, chain) == RightmostUntrusted(t, chain[..i])
      {
        i := i - 1;
        if !Contains(t, chain[i]) { return Some(chain[i]); }
        assert chain[..i + 1][..i] == chain[..i];
      }
      if |chain| > 0 { return Some(chain[0]); }
    }
    if Given(o.realIp) != "" { return Some(Trim(Given(o.realIp))); }
    return o.socketAddress;
  }

  lemma NoItems()
    ensures Items("") == []
  {
    assert [""][1..] == [];
  }

  /** Everything to the right of the chosen entry is a trusted proxy, and the entry is not. */
  lemma {:induction false} RightmostIs(t: Trusted, chain: seq<Text>, i: nat)
    requires i < |chain| && !Contains(t, chain[i]) && forall j :: i < j < |chain| ==> Contains(t, chain[j])
    ensures RightmostUntrusted(t, chain) == Some(chain[i])
    decreases |chain|
  {
    hide Contains;
    if i < |chain| - 1 { RightmostIs(t, chain[..|chain| - 1], i); }
  }

  lemma {:induction false} NoneUntrustedIff(t: Trusted, chain: seq<Text>)
    ensures RightmostUntrusted(t, chain).None? <==> forall e :: e in chain ==> Contains(t, e)
    decreases |chain|
  {
    hide Contains;
    if chain != [] {
      var n := |chain| - 1;
      NoneUntrustedIff(t, chain[..n]);
      assert forall e :: e in chain <==> e == chain[n] || e in chain[..n];
    }
  }

  lemma {:induction false} ChainBehind(t: Trusted, front: seq<Text>, chain: seq<Text>)
    ensures RightmostUntrusted(t, front + chain) ==
            if RightmostUntrusted(t, chain).Some? then RightmostUntrusted(t, chain) else RightmostUntrusted(t, front)
    decreases |chain|
  {
    hide Contains;
    if chain == [] {
      assert front + chain == front;
    } else {
      var n := |chain| - 1;
      assert (front + chain)[..|front| + n] == front + chain[..n];
      ChainBehind(t, front, chain[..n]);
    }
  }

  /**
   * Entries a client prepends to the header are never believed once the chain holds an untrusted
   * hop. With none, the decision passes to what was prepended, trusted or not.
   */
  lemma PrependingChangesNothing(t: Trusted, o: Origin, front: Text, chain: Text)
    requires !t.empty && o.socketAddress.Some? && o.socketAddress.value != "" && Contains(t, o.socketAddress.value)
    requires o.forwardedFor == Some(chain)
    ensures var longer := o.(forwardedFor := Some(front + "," + chain));
            if exists e :: e in Items(chain) && !Contains(t, e)
            then Resolved(t, longer) == Resolved(t, o)
            else if RightmostUntrusted(t, Items(front)).Some?
            then Resolved(t, longer) == RightmostUntrusted(t, Items(front))
            else if Items(front) != [] then Resolved(t, longer) == Some(Items(front)[0])
            else Resolved(t, longer) == Resolved(t, o)
  {
    ItemsOfBoth(front, chain);
    ChainBehind(t, Items(front), Items(chain));
    NoneUntrustedIff(t, Items(chain));
  }

  lemma {:induction false} LongerThanAll(s: set<Text>) returns (n: nat)
    ensures forall t :: t in s ==> |t| < n
    decreases |s|
  {
    n := 0;
    if s != {} {
      var t :| t in s;
      var m := LongerThanAll(s - {t});
      n := if m > |t| then m else |t| + 1;
    }
  }

  /** A run of x's is one entry, equal to itself however it is normalised, and no address. */
  lemma RunOfXs(n: nat)
    requires n > 0
    ensures var u := seq(n, i => 'x');
            Items(u) == [u] && NormaliseIpv6(u) == u && StripIpv4Mapped(u) == u && Ipv4(u).None?
  {
    var u := seq(n, i => 'x');
    assert u[0] == 'x' && u[n - 1] == 'x';
    SplitAtNothing(u, ',');
    SplitAtNothing(u, '.');
    assert Trim(u) == u;
    assert TrimmedItems([u]) == [u] + TrimmedItems([u][1..]) && [u][1..] == [];
    assert Lower(u) == u;
    if n > 7 { assert Lower(u[..7])[0] == 'x'; }
  }

  /** There is always an entry that no list trusts and that is not a given answer. */
  lemma SomeoneElse(t: Trusted, not: Option<Text>) returns (u: Text)
    ensures Items(u) == [u] && !Contains(t, u) && Some(u) != not
  {
    var n := LongerThanAll(t.literals);
    var k := n + 1 + |Given(not)|;
    u := seq(k, i => 'x');
    RunOfXs(k);
  }

  /** Prepended text never matters exactly when the chain holds an untrusted hop. */
  lemma PrependingNeverMattersIff(t: Trusted, o: Origin, chain: Text)
    requires !t.empty && o.socketAddress.Some? && o.socketAddress.value != "" && Contains(t, o.socketAddress.value)
    requires o.forwardedFor == Some(chain)
    ensures (forall front :: Resolved(t, o.(forwardedFor := Some(front + "," + chain))) == Resolved(t, o))
            <==> exists e :: e in Items(chain) && !Contains(t, e)
  {
    if exists e :: e in Items(chain) && !Contains(t, e) {
      forall front ensures Resolved(t, o.(forwardedFor := Some(front + "," + chain))) == Resolved(t, o) {
        PrependingChangesNothing(t, o, front, chain);
      }
    } else {
      var u := SomeoneElse(t, Resolved(t, o));
      PrependingChangesNothing(t, o, u, chain);
      assert RightmostUntrusted(t, [u]) == Some(u);
      assert Resolved(t, o.(forwardedFor := Some(u + "," + chain))) == Some(u);
    }
  }

  /**
   * The answer, without reference to any walk. A peer that is not itself a trusted proxy is taken
   * at its socket address whatever the headers say; behind one, the last entry that is not a
   * trusted proxy is the client, and with no such entry the first, and with no entry the other header.
   */
  lemma ResolvedIs(t: Trusted, o: Origin)
    ensures var peer := o.socketAddress;
            t.empty || peer.None? || peer.value == "" || !Contains(t, peer.value) ==> Resolved(t, o) == peer
    ensures var peer := o.socketAddress;
            var chain := if o.forwardedFor.Some? then Items(o.forwardedFor.value) else [];
            !t.empty && peer.Some? && peer.value != "" && Contains(t, peer.value) ==>
              && (forall i :: 0 <= i < |chain| && !Contains(t, chain[i])
                              && (forall j :: i < j < |chain| ==> Contains(t, chain[j])) ==>
                    Resolved(t, o) == Some(chain[i]))
              && (chain != [] && (forall e :: e in chain ==> Contains(t, e)) ==> Resolved(t, o) == Some(chain[0]))
              && (chain == [] ==>
                    Resolved(t, o) == if o.realIp.Some? && o.realIp.value != "" then Some(Trim(o.realIp.value)) else peer)
  {
    NoItems();
    var chain := Items(Given(o.forwardedFor));
    NoneUntrustedIff(t, chain);
    forall i | 0 <= i < |chain| && !Contains(t, chain[i]) && (forall j :: i < j < |chain| ==> Contains(t, chain[j]))
      ensures RightmostUntrusted(t, chain) == Some(chain[i])
    {
      RightmostIs(t, chain, i);
    }
  }
}
