/** What the configured list of proxies admits, in the text of its entries. */
module TrustedProxyLaws {
  import opened Bytes
  import opened Strings
  import opened Bits
  import opened TrustedProxy

  // ---------------------------------------------------------------------------
  // Addresses

  predicate Digits(t: Text) { forall i :: 0 <= i < |t| ==> '0' <= t[i] <= '9' }

  function Value(c: char): int { c as int - '0' as int }

  /** One to three decimal digits, at most 255. */
  predicate IsOctet(t: Text, n: nat) {
    && Digits(t) && n <= 255
    && (|t| == 1 || |t| == 2 || |t| == 3)
    && n == if |t| == 1 then Value(t[0])
            else if |t| == 2 then 10 * Value(t[0]) + Value(t[1])
            else 100 * Value(t[0]) + 10 * Value(t[1]) + Value(t[2])
  }

  lemma DecimalStep(t: Text)
    requires AllDigits(t) && t != ""
    ensures Decimal(t) == 10 * Decimal(t[..|t| - 1]) + Value(t[|t| - 1])
  {
  }

  lemma OctetIff(t: Text, n: nat)
    ensures Octet(t) == Some(n) <==> IsOctet(t, n)
  {
    if AllDigits(t) && 1 <= |t| <= 3 {
      DecimalStep(t);
      if |t| >= 2 { DecimalStep(t[..|t| - 1]); }
      if |t| == 3 {
        assert t[..2][..1] == t[..1];
        DecimalStep(t[..1]);
      }
      assert t[..0] == "" && Decimal("") == 0;
    }
  }

  lemma {:induction false} DotParts(parts: seq<Text>, k: nat)
    requires |parts| == 4 && k < 4 && forall i :: 0 <= i < 4 ==> '.' !in parts[i]
    ensures SplitAt(Dotted(parts, k), '.') == parts[k..]
    decreases 4 - k
  {
    SplitAtNothing(parts[k], '.');
    if k < 3 {
      DotParts(parts, k + 1);
      SplitAtAppend(parts[k], Dotted(parts, k + 1), '.');
      assert [parts[k]] + parts[k + 1..] == parts[k..];
    } else {
      assert parts[3..] == [parts[3]];
    }
  }

  /** The parts from `k` on with dots between them. */
  function Dotted(parts: seq<Text>, k: nat): Text
    requires |parts| == 4 && k < 4
    decreases 4 - k
  {
    if k == 3 then parts[3] else parts[k] + "." + Dotted(parts, k + 1)
  }

  lemma NoDot(t: Text)
    requires Digits(t)
    ensures '.' !in t && ':' !in t && ',' !in t && '/' !in t
  {
  }

  /** A printed dotted quad is read back as the number its octets spell. */
  lemma QuadReadsBack(parts: seq<Text>, a: nat, b: nat, c: nat, d: nat)
    requires |parts| == 4 && IsOctet(parts[0], a) && IsOctet(parts[1], b) && IsOctet(parts[2], c) && IsOctet(parts[3], d)
    ensures Ipv4(Dotted(parts, 0)) == Some(16_777_216 * a + 65_536 * b + 256 * c + d)
  {
    forall i | 0 <= i < 4 ensures '.' !in parts[i] {
      NoDot(parts[i]);
    }
    DotParts(parts, 0);
    assert parts[0..] == parts;
    OctetIff(parts[0], a);
    OctetIff(parts[1], b);
    OctetIff(parts[2], c);
    OctetIff(parts[3], d);
  }

  /** And nothing else is an address. */
  lemma OnlyQuadsAreRead(addr: Text)
    ensures Ipv4(addr).Some? ==>
              var parts := SplitAt(addr, '.');
              |parts| == 4 && forall i :: 0 <= i < 4 ==> exists n: nat :: IsOctet(parts[i], n)
  {
    if Ipv4(addr).Some? {
      var parts := SplitAt(addr, '.');
      forall i | 0 <= i < 4 ensures exists n: nat :: IsOctet(parts[i], n) {
        OctetIff(parts[i], Octet(parts[i]).value);
      }
    }
  }

  // ---------------------------------------------------------------------------
  // Entries

  /** An address by itself covers itself; with `/n` behind it, all that share its first `n` bits. */
  lemma AddressCoversItself(number: Reader, entry: Text, v: nat)
    requires '/' !in entry
    ensures Covers(number, entry, v) <==> Ipv4(entry) == Some(v)
  {
    SplitAtNothing(entry, '/');
    assert Pow2(0) == 1;
  }

  lemma RangeCovers(number: Reader, address: Text, suffix: Text, v: nat)
    requires '/' !in address && '/' !in suffix
    ensures Covers(number, address + "/" + suffix, v) <==>
              && Ipv4(address).Some? && number(suffix).Some? && 0 <= number(suffix).value <= 32
              && v / Pow2(32 - number(suffix).value) == Ipv4(address).value / Pow2(32 - number(suffix).value)
  {
    SplitAtAppend(address, suffix, '/');
    SplitAtNothing(address, '/');
    SplitAtNothing(suffix, '/');
    assert ([address] + [suffix])[1] == suffix;
  }

  /** A range is an address, or an address, a slash and a length from 0 to 32. */
  predicate IsRange(number: Reader, entry: Text) {
    var parts := SplitAt(entry, '/');
    && Ipv4(parts[0]).Some?
    && (|parts| > 1 ==> number(parts[1]).Some? && 0 <= number(parts[1]).value <= 32)
  }

  lemma {:induction false} EntriesParse(number: Reader, entries: seq<Text>, t: Trusted)
    ensures var r := AddEntries(number, entries, t);
            && (r.Parsed? <==> forall e :: e in entries ==> IsRange(number, e) || ':' in e)
            && (r.Parsed? ==> r.trusted.empty == t.empty)
            && (r.Unparseable? ==> r.entry in entries && !IsRange(number, r.entry) && ':' !in r.entry)
    decreases |entries|
  {
    if entries != [] {
      var cidr := ParseCidr(number, entries[0]);
      assert cidr.Some? <==> IsRange(number, entries[0]);
      assert forall e :: e in entries <==> e == entries[0] || e in entries[1..];
      if cidr.Some? {
        EntriesParse(number, entries[1..], t.(cidrs := t.cidrs + [cidr.value]));
      } else if ':' in entries[0] {
        EntriesParse(number, entries[1..], t.(literals := t.literals + {NormaliseIpv6(entries[0])}));
      }
    }
  }

  /** A list is refused exactly when some entry is neither a range nor has a colon; it is empty when it has no entry. */
  lemma ListAcceptedIff(number: Reader, raw: Text)
    ensures var r := TrustedFrom(number, raw);
            && (r.Parsed? <==> forall e :: e in Items(raw) ==> IsRange(number, e) || ':' in e)
            && (r.Parsed? ==> (r.trusted.empty <==> Items(raw) == []))
            && (r.Unparseable? ==> r.entry in Items(raw) && !IsRange(number, r.entry) && ':' !in r.entry)
  {
    EntriesParse(number, Items(raw), Trusted(Items(raw) == [], [], {}));
  }

  lemma {:induction false} EntriesLiterals(number: Reader, entries: seq<Text>, t: Trusted, x: Text)
    requires AddEntries(number, entries, t).Parsed?
    ensures x in AddEntries(number, entries, t).trusted.literals <==>
            x in t.literals || exists e :: e in entries && !IsRange(number, e) && NormaliseIpv6(e) == x
    decreases |entries|
  {
    if entries != [] {
      var cidr := ParseCidr(number, entries[0]);
      assert cidr.Some? <==> IsRange(number, entries[0]);
      assert forall e :: e in entries <==> e == entries[0] || e in entries[1..];
      if cidr.Some? {
        EntriesLiterals(number, entries[1..], t.(cidrs := t.cidrs + [cidr.value]), x);
      } else {
        EntriesLiterals(number, entries[1..], t.(literals := t.literals + {NormaliseIpv6(entries[0])}), x);
      }
    }
  }

  /** A peer is trusted exactly when an entry covers it, or is not a range and spells the same address. */
  lemma TrustedIff(number: Reader, raw: Text, ip: Text)
    requires TrustedFrom(number, raw).Parsed?
    ensures Contains(TrustedFrom(number, raw).trusted, ip) <==>
            exists e :: e in Items(raw) &&
              ((!IsRange(number, e) && NormaliseIpv6(e) == NormaliseIpv6(ip))
               || (Ipv4(StripIpv4Mapped(ip)).Some? && Covers(number, e, Ipv4(StripIpv4Mapped(ip)).value)))
  {
    var start := Trusted(Items(raw) == [], [], {});
    var t := TrustedFrom(number, raw).trusted;
    EntriesLiterals(number, Items(raw), start, NormaliseIpv6(ip));
    if Ipv4(StripIpv4Mapped(ip)).Some? {
      var v := Ipv4(StripIpv4Mapped(ip)).value;
      EntriesCover(number, Items(raw), start, v);
      assert InSome(v, t.cidrs) <==> exists e :: e in Items(raw) && Covers(number, e, v);
    }
  }

  /** Only peers on the configured list have their headers believed; with no list, nobody. */
  lemma UnlistedPeerIsItself(number: Reader, raw: Text, o: Origin)
    requires TrustedFrom(number, raw).Parsed?
    requires o.socketAddress.Some? ==>
               forall e :: e in Items(raw) ==>
                 && (IsRange(number, e) || NormaliseIpv6(e) != NormaliseIpv6(o.socketAddress.value))
                 && (Ipv4(StripIpv4Mapped(o.socketAddress.value)).Some? ==>
                       !Covers(number, e, Ipv4(StripIpv4Mapped(o.socketAddress.value)).value))
    ensures Resolved(TrustedFrom(number, raw).trusted, o) == o.socketAddress
  {
    var t := TrustedFrom(number, raw).trusted;
    if o.socketAddress.Some? { TrustedIff(number, raw, o.socketAddress.value); }
    ResolvedIs(t, o);
  }

  // ---------------------------------------------------------------------------
  // Spellings of one address

  /** Capitals and one pair of brackets make no difference. */
  lemma BracketsAreDropped(x: Text)
    requires x != "" && !IsWhite(x[0]) && !IsWhite(x[|x| - 1]) && x[0] != '[' && x[|x| - 1] != ']'
    ensures NormaliseIpv6("[" + x + "]") == NormaliseIpv6(x)
    ensures |NormaliseIpv6(x)| == |x|
    ensures forall i :: 0 <= i < |x| ==>
              NormaliseIpv6(x)[i] == if 'A' <= x[i] <= 'Z' then (x[i] as int + 32) as char else x[i]
  {
    var y := "[" + x + "]";
    AlreadyTrimmed(x);
    AlreadyTrimmed(y);
    assert Lower(y)[1..][..|x|] == Lower(x);
    assert Lower(x)[0] != '[' && Lower(x)[|x| - 1] != ']';
  }

  lemma AlreadyTrimmed(x: Text)
    requires x != "" && !IsWhite(x[0]) && !IsWhite(x[|x| - 1])
    ensures Trim(x) == x
  {
    assert "" + x + "" == x;
    TrimmedIs("", x, "");
  }

  /** An IPv4 address mapped into IPv6 is that address. */
  lemma MappedIsTheSame(t: Trusted, prefix: Text, ip: Text)
    requires prefix in {"::ffff:", "::FFFF:"} && Ipv4(ip).Some? && t.literals == {}
    ensures Contains(t, prefix + ip) <==> Contains(t, ip)
  {
    OnlyQuadsAreRead(ip);
    var parts := SplitAt(ip, '.');
    forall i | 0 <= i < 4 ensures parts[i] != "" && AllDigits(parts[i]) {
      var n: nat :| IsOctet(parts[i], n);
    }
    assert IsDotted(ip);
    assert (prefix + ip)[..7] == prefix && (prefix + ip)[7..] == ip;
    LowerOfPrefix();
    NoColonAtFront(ip);
  }

  lemma LowerOfPrefix()
    ensures Lower("::ffff:") == "::ffff:" && Lower("::FFFF:") == "::ffff:"
  {
  }

  lemma NoColonAtFront(ip: Text)
    requires IsDotted(ip)
    ensures StripIpv4Mapped(ip) == ip
  {
    var parts := SplitAt(ip, '.');
    assert parts[0] != "" && AllDigits(parts[0]);
    if |ip| > 7 {
      assert ip[0] == parts[0][0];
      assert Lower(ip[..7])[0] != ':';
    }
  }
}
