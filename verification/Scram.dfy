/**
 * SCRAM-SHA-256 as apps/router/src/scram.ts speaks it, on both sides, over any hash, MAC,
 * key derivation, base64 and number printing with the properties they need (RFC 5802, RFC 7677).
 */
module Scram {
  import opened Bytes
  import opened Strings
  import opened Bits

  // ---------- What is borrowed

  datatype Crypto = Crypto(hmac: (Bytes, Bytes) -> Bytes, sha256: Bytes -> Bytes,
                           pbkdf2: (Text, Bytes, int) -> Bytes, utf8: Text -> Bytes,
                           toBase64: Bytes -> Text, fromBase64: Text -> Bytes, number: Text -> Option<int>)

  const KEY_LENGTH: nat := 32
  const ITERATIONS: int := 4096
  const ITERATIONS_TEXT: Text := "4096"

  ghost predicate Lawful(c: Crypto) {
    && (forall k, d :: |c.hmac(k, d)| == KEY_LENGTH)
    && (forall d :: |c.sha256(d)| == KEY_LENGTH)
    && (forall b :: c.fromBase64(c.toBase64(b)) == b)
    && (forall b :: ',' !in c.toBase64(b) && (b != [] ==> c.toBase64(b) != ""))
    && c.number(ITERATIONS_TEXT) == Some(ITERATIONS)
  }

  /** The assumptions are consistent: something has all of these properties. */
  lemma LawfulIsPossible() returns (c: Crypto)
    ensures Lawful(c)
  {
    var block := seq(KEY_LENGTH, i => 0 as byte);
    c := Crypto((k, d) => block, d => block, (p, s, n) => block, t => [],
                b => seq(|b|, i requires 0 <= i < |b| => (b[i] as int + 0x100) as char),
                t => seq(|t|, i requires 0 <= i < |t| =>
                           if 0x100 <= t[i] as int < 0x200 then (t[i] as int - 0x100) as byte else 0),
                t => if t == ITERATIONS_TEXT then Some(ITERATIONS) else None);
    forall b: Bytes ensures c.fromBase64(c.toBase64(b)) == b && ',' !in c.toBase64(b) {
      assert |c.toBase64(b)| == |b|;
    }
  }

  function XorByte(a: byte, b: byte): byte {
    XorBound(a, b, 8);
    Pow2Words();
    Xor(a, b)
  }

  function XorBytes(a: Bytes, b: Bytes): (r: Bytes)
    requires |a| == |b|
    ensures |r| == |a|
  {
    if a == [] then [] else [XorByte(a[0], b[0])] + XorBytes(a[1..], b[1..])
  }

  method XorInto(a: Bytes, b: Bytes) returns (out: Bytes)
    requires |a| == |b|
    ensures out == XorBytes(a, b)
  {
    out := [];
    assert a[0..] == a && b[0..] == b;
    for i := 0 to |a|
      invariant XorBytes(a, b) == out + XorBytes(a[i..], b[i..])
    {
      assert a[i..][1..] == a[i + 1..] && b[i..][1..] == b[i + 1..];
      out := out + [XorByte(a[i], b[i])];
    }
    assert a[|a|..] == [] && b[|a|..] == [];
  }

  lemma {:induction false} XorBytesUndone(a: Bytes, b: Bytes)
    requires |a| == |b|
    ensures XorBytes(XorBytes(a, b), b) == a
  {
    if a != [] {
      XorUndone(a[0], b[0]);
      XorBytesUndone(a[1..], b[1..]);
      assert XorBytes(a, b)[1..] == XorBytes(a[1..], b[1..]);
    }
  }

  // ---------- Attribute lists

  /** `indexOf(c, from)`. */
  function IndexFrom(t: Text, c: char, from: nat): (r: Option<nat>)
    ensures r.Some? ==> from <= r.value < |t|
    decreases |t| - from
  {
    if from >= |t| then None else if t[from] == c then Some(from) else IndexFrom(t, c, from + 1)
  }

  type Attributes = map<Text, Text>

  function AddAttribute(m: Attributes, part: Text): Attributes {
    var eq := IndexFrom(part, '=', 0);
    if eq.Some? && eq.value > 0 then m[part[..eq.value] := part[eq.value + 1..]] else m
  }

  function AddAttributes(m: Attributes, parts: seq<Text>): Attributes
    decreases |parts|
  {
    if parts == [] then m else AddAttributes(AddAttribute(m, parts[0]), parts[1..])
  }

  /** `attributes`. */
  function AttributesOf(message: Text): Attributes { AddAttributes(map[], SplitAt(message, ',')) }

  method ReadAttributes(message: Text) returns (out: Attributes)
    ensures out == AttributesOf(message)
  {
    out := map[];
    var parts := SplitAt(message, ',');
    assert parts[0..] == parts;
    for i := 0 to |parts|
      invariant AttributesOf(message) == AddAttributes(out, parts[i..])
    {
      assert parts[i..][1..] == parts[i + 1..];
      out := AddAttribute(out, parts[i]);
    }
    assert parts[|parts|..] == [];
  }

  /** `attrs.get(name)`, with an absent or empty value read as "". */
  function Get(m: Attributes, name: Text): Text { if name in m then m[name] else "" }

  /** Position of the `n`-th comma at or after `from`. */
  function NthComma(t: Text, n: nat, from: nat): (r: Option<nat>)
    requires n > 0
    ensures r.Some? ==> r.value < |t|
    decreases n
  {
    var next := IndexFrom(t, ',', from);
    if next.None? || n == 1 then next else NthComma(t, n - 1, next.value + 1)
  }

  method NthCommaIndex(value: Text, n: nat) returns (r: Option<nat>)
    requires n > 0
    ensures r == NthComma(value, n, 0)
  {
    var index := -1;
    for i := 0 to n
      invariant -1 <= index < |value|
      invariant if i < n then NthComma(value, n, 0) == NthComma(value, n - i, index + 1)
                else index >= 0 && NthComma(value, n, 0) == Some(index)
    {
      var next := IndexFrom(value, ',', index + 1);
      if next.None? { return None; }
      index := next.value;
    }
    return Some(index);
  }

  /** `lastIndexOf(tag)`. */
  function LastIndexOf(t: Text, tag: Text, upTo: nat): Option<nat> {
    if At(t, upTo, tag) then Some(upTo)
    else if upTo == 0 then None
    else LastIndexOf(t, tag, upTo - 1)
  }

  /** `slice(0, lastIndexOf(",p="))`; with no such text the slice stops before the last character. */
  function WithoutProof(clientFinal: Text): Text {
    var at := LastIndexOf(clientFinal, ",p=", |clientFinal|);
    if at.Some? && at.value <= |clientFinal| then clientFinal[..at.value]
    else if clientFinal == "" then "" else clientFinal[..|clientFinal| - 1]
  }

  // ---------- The exchange on values

  datatype Problem =
    | MalformedFirst | ChannelBinding | NoNonce
    | NonceMismatch | NoProof | BadProofLength | AuthenticationFailed
    | NonceNotExtended | MalformedChallenge
    | OutOfOrder | NoSignature | SignatureMismatch

  datatype Server = Server(password: Text, salt: Bytes, nonce: Text,
                           clientFirstBare: Text, serverFirst: Text, combinedNonce: Text)

  datatype Client = Client(password: Text, nonce: Text, clientFirstBare: Text, authMessage: Text,
                           signature: Option<Bytes>)

  function NewServer(password: Text, salt: Bytes, nonce: Text): Server { Server(password, salt, nonce, "", "", "") }

  function NewClient(password: Text, nonce: Text): Client { Client(password, nonce, "", "", None) }

  function Challenge(c: Crypto, combined: Text, salt: Bytes): Text {
    "r=" + combined + ",s=" + c.toBase64(salt) + ",i=" + ITERATIONS_TEXT
  }

  function ServerFirst(c: Crypto, s: Server, clientFirst: Text): Result<Server, Problem> {
    var gs2End := NthComma(clientFirst, 2, 0);
    if gs2End.None? then Err(MalformedFirst)
    else if clientFirst[..gs2End.value] != "" && clientFirst[0] == 'p' then Err(ChannelBinding)
    else
      var bare := clientFirst[gs2End.value + 1..];
      var nonce := Get(AttributesOf(bare), "r");
      if nonce == "" then Err(NoNonce)
      else
        var combined := nonce + s.nonce;
        Ok(s.(clientFirstBare := bare, combinedNonce := combined, serverFirst := Challenge(c, combined, s.salt)))
  }

  /** Only a message without a nonce gets far enough to leave its bare part behind. */
  function AfterRefusal(s: Server, clientFirst: Text, problem: Problem): Server {
    var gs2End := NthComma(clientFirst, 2, 0);
    if problem.NoNonce? && gs2End.Some? then s.(clientFirstBare := clientFirst[gs2End.value + 1..]) else s
  }

  /** `"Client Key"` and `"Server Key"` in UTF-8. */
  const CLIENT_KEY: Bytes := [0x43, 0x6c, 0x69, 0x65, 0x6e, 0x74, 0x20, 0x4b, 0x65, 0x79]
  const SERVER_KEY: Bytes := [0x53, 0x65, 0x72, 0x76, 0x65, 0x72, 0x20, 0x4b, 0x65, 0x79]

  function ClientKey(c: Crypto, salted: Bytes): Bytes { c.hmac(salted, CLIENT_KEY) }

  function StoredKey(c: Crypto, salted: Bytes): Bytes { c.sha256(ClientKey(c, salted)) }

  function ClientSignature(c: Crypto, salted: Bytes, auth: Text): Bytes { c.hmac(StoredKey(c, salted), c.utf8(auth)) }

  function ServerSignature(c: Crypto, salted: Bytes, auth: Text): Bytes {
    c.hmac(c.hmac(salted, SERVER_KEY), c.utf8(auth))
  }

  function AuthMessage(bare: Text, serverFirst: Text, withoutProof: Text): Text {
    bare + "," + serverFirst + "," + withoutProof
  }

  /** The server's check of a proof. */
  predicate Proves(c: Crypto, salted: Bytes, auth: Text, proof: Bytes) {
    && |proof| == |ClientSignature(c, salted, auth)|
    && c.sha256(XorBytes(proof, ClientSignature(c, salted, auth))) == StoredKey(c, salted)
  }

  function ServerFinal(c: Crypto, s: Server, clientFinal: Text): Result<Text, Problem> {
    var attrs := AttributesOf(clientFinal);
    if "r" !in attrs || attrs["r"] != s.combinedNonce then Err(NonceMismatch)
    else if Get(attrs, "p") == "" then Err(NoProof)
    else
      var salted := c.pbkdf2(s.password, s.salt, ITERATIONS);
      var auth := AuthMessage(s.clientFirstBare, s.serverFirst, WithoutProof(clientFinal));
      var proof := c.fromBase64(Get(attrs, "p"));
      if |proof| != |ClientSignature(c, salted, auth)| then Err(BadProofLength)
      else if !Proves(c, salted, auth, proof) then Err(AuthenticationFailed)
      else Ok("v=" + c.toBase64(ServerSignature(c, salted, auth)))
  }

  function BareFirst(nonce: Text): Text { "n=,r=" + nonce }

  function ClientFirst(k: Client): (Client, Text) {
    (k.(clientFirstBare := BareFirst(k.nonce)), "n,," + BareFirst(k.nonce))
  }

  function FinalBare(combined: Text): Text { "c=biws,r=" + combined }

  function ClientFinal(c: Crypto, k: Client, serverFirst: Text): Result<(Client, Text), Problem>
    requires Lawful(c)
  {
    var attrs := AttributesOf(serverFirst);
    var combined, saltB64 := Get(attrs, "r"), Get(attrs, "s");
    var iterations := if "i" in attrs then c.number(attrs["i"]) else None;
    if combined == "" || !(k.nonce <= combined) then Err(NonceNotExtended)
    else if saltB64 == "" || iterations.None? then Err(MalformedChallenge)
    else
      var salted := c.pbkdf2(k.password, c.fromBase64(saltB64), iterations.value);
      var auth := AuthMessage(k.clientFirstBare, serverFirst, FinalBare(combined));
      var proof := XorBytes(ClientKey(c, salted), ClientSignature(c, salted, auth));
      Ok((k.(authMessage := auth, signature := Some(ServerSignature(c, salted, auth))),
          FinalBare(combined) + ",p=" + c.toBase64(proof)))
  }

  function ClientVerify(c: Crypto, k: Client, serverFinal: Text): Result<(), Problem> {
    if k.signature.None? then Err(OutOfOrder)
    else
      var received := Get(AttributesOf(serverFinal), "v");
      if received == "" then Err(NoSignature)
      else if c.fromBase64(received) != k.signature.value then Err(SignatureMismatch)
      else Ok(())
  }

  // ---------- Parsing what the two sides print

  predicate Plain(t: Text) { ',' !in t }

  datatype Attr = Attr(name: char, value: Text)

  function PrintOne(a: Attr): Text { [a.name, '='] + a.value }

  function Print(list: seq<Attr>): Text
    requires list != []
  {
    if |list| == 1 then PrintOne(list[0]) else PrintOne(list[0]) + "," + Print(list[1..])
  }

  function Read(m: Attributes, list: seq<Attr>): Attributes
    decreases |list|
  {
    if list == [] then m else Read(m[[list[0].name] := list[0].value], list[1..])
  }

  predicate Printable(a: Attr) { a.name != '=' && a.name != ',' && Plain(a.value) }

  /** A one-letter attribute is read as the letter and the text after its equals sign. */
  lemma OneAttribute(m: Attributes, a: Attr)
    requires Printable(a)
    ensures Plain(PrintOne(a)) && AddAttribute(m, PrintOne(a)) == m[[a.name] := a.value]
  {
    var part := PrintOne(a);
    assert part[1] == '=';
    assert IndexFrom(part, '=', 1) == Some(1);
    assert part[..1] == [a.name] && part[2..] == a.value;
  }

  lemma {:induction false} ReadPrinted(m: Attributes, list: seq<Attr>)
    requires list != [] && forall a :: a in list ==> Printable(a)
    ensures AddAttributes(m, SplitAt(Print(list), ',')) == Read(m, list)
    decreases |list|
  {
    var first := PrintOne(list[0]);
    var next := m[[list[0].name] := list[0].value];
    OneAttribute(m, list[0]);
    if |list| == 1 {
      SplitAtNothing(first, ',');
      assert [first][1..] == [] && list[1..] == [];
    } else {
      SplitAtAppend(first, Print(list[1..]), ',');
      SplitAtNothing(first, ',');
      var rest := SplitAt(Print(list[1..]), ',');
      assert ([first] + rest)[1..] == rest;
      ReadPrinted(next, list[1..]);
    }
  }

  lemma ReadThree(a: Attr, b: Attr, d: Attr)
    requires Printable(a) && Printable(b) && Printable(d)
    requires a.name != b.name && a.name != d.name && b.name != d.name
    ensures var m := AttributesOf(PrintOne(a) + "," + PrintOne(b) + "," + PrintOne(d));
            m == map[[a.name] := a.value, [b.name] := b.value, [d.name] := d.value]
  {
    var list := [a, b, d];
    assert list[1..] == [b, d] && [b, d][1..] == [d] && [d][1..] == [];
    assert Print([d]) == PrintOne(d) && Print([b, d]) == PrintOne(b) + "," + PrintOne(d);
    assert Print(list) == PrintOne(a) + "," + (PrintOne(b) + "," + PrintOne(d));
    assert PrintOne(a) + "," + (PrintOne(b) + "," + PrintOne(d)) == PrintOne(a) + "," + PrintOne(b) + "," + PrintOne(d);
    ReadPrinted(map[], list);
    var m1: Attributes := map[[a.name] := a.value];
    var m2: Attributes := m1[[b.name] := b.value];
    assert Read(m2, [d]) == m2[[d.name] := d.value];
    assert Read(map[], list) == m2[[d.name] := d.value];
  }

  lemma ReadTwo(a: Attr, b: Attr)
    requires Printable(a) && Printable(b) && a.name != b.name
    ensures AttributesOf(PrintOne(a) + "," + PrintOne(b)) == map[[a.name] := a.value, [b.name] := b.value]
  {
    var list := [a, b];
    assert list[1..] == [b] && [b][1..] == [];
    assert Print([b]) == PrintOne(b);
    ReadPrinted(map[], list);
    var m1: Attributes := map[[a.name] := a.value];
    assert Read(m1, [b]) == m1[[b.name] := b.value];
    assert Read(map[], list) == m1[[b.name] := b.value];
  }

  lemma ReadOne(a: Attr)
    requires Printable(a)
    ensures AttributesOf(PrintOne(a)) == map[[a.name] := a.value]
  {
    assert [a][1..] == [];
    ReadPrinted(map[], [a]);
    assert Read(map[], [a]) == map[[a.name] := a.value];
  }

  // ---------- Agreement

  predicate Nonce(t: Text) { t != "" && Plain(t) }

  lemma FirstBareReads(nonce: Text)
    requires Nonce(nonce)
    ensures NthComma("n,," + BareFirst(nonce), 2, 0) == Some(2)
    ensures ("n,," + BareFirst(nonce))[3..] == BareFirst(nonce)
    ensures Get(AttributesOf(BareFirst(nonce)), "r") == nonce
  {
    var t := "n,," + BareFirst(nonce);
    assert t[0] == 'n' && t[1] == ',' && t[2] == ',';
    assert IndexFrom(t, ',', 1) == Some(1) && IndexFrom(t, ',', 0) == Some(1) && IndexFrom(t, ',', 2) == Some(2);
    assert NthComma(t, 1, 2) == Some(2);
    ReadTwo(Attr('n', ""), Attr('r', nonce));
    assert PrintOne(Attr('n', "")) + "," + PrintOne(Attr('r', nonce)) == BareFirst(nonce);
  }

  /** The server takes the client's nonce out of its first message, and challenges. */
  lemma ServerAnswersFirst(c: Crypto, s: Server, k: Client)
    requires Nonce(k.nonce)
    ensures ServerFirst(c, s, ClientFirst(k).1) ==
            Ok(s.(clientFirstBare := BareFirst(k.nonce), combinedNonce := k.nonce + s.nonce,
                  serverFirst := Challenge(c, k.nonce + s.nonce, s.salt)))
  {
    FirstBareReads(k.nonce);
    var t := ClientFirst(k).1;
    assert t[0] == 'n' && t[..2] != "";
  }

  lemma ChallengeReads(c: Crypto, combined: Text, salt: Bytes)
    requires Lawful(c) && Plain(combined)
    ensures AttributesOf(Challenge(c, combined, salt)) ==
            map["r" := combined, "s" := c.toBase64(salt), "i" := ITERATIONS_TEXT]
  {
    var r, s, i := Attr('r', combined), Attr('s', c.toBase64(salt)), Attr('i', ITERATIONS_TEXT);
    ReadThree(r, s, i);
    assert PrintOne(r) + "," + PrintOne(s) + "," + PrintOne(i) == Challenge(c, combined, salt);
  }

  /** What the client computes for its own password, from the challenge's nonce, salt and count. */
  lemma ClientAnswers(c: Crypto, k: Client, combined: Text, salt: Bytes)
    requires Lawful(c) && Plain(combined) && combined != "" && k.nonce <= combined && salt != []
    ensures var salted := c.pbkdf2(k.password, salt, ITERATIONS);
            var auth := AuthMessage(k.clientFirstBare, Challenge(c, combined, salt), FinalBare(combined));
            var proof := XorBytes(ClientKey(c, salted), ClientSignature(c, salted, auth));
            ClientFinal(c, k, Challenge(c, combined, salt)) ==
            Ok((k.(authMessage := auth, signature := Some(ServerSignature(c, salted, auth))),
                FinalBare(combined) + ",p=" + c.toBase64(proof)))
  {
    ChallengeReads(c, combined, salt);
  }

  lemma {:induction false} LastIndexIs(t: Text, tag: Text, upTo: nat, k: nat)
    requires k <= upTo && At(t, k, tag) && forall j :: k < j <= upTo ==> !At(t, j, tag)
    ensures LastIndexOf(t, tag, upTo) == Some(k)
    decreases upTo
  {
    if upTo > k { LastIndexIs(t, tag, upTo - 1, k); }
  }

  lemma ProofIsLast(front: Text, proof: Text)
    requires Plain(proof)
    ensures WithoutProof(front + ",p=" + proof) == front
  {
    var t := front + ",p=" + proof;
    var n := |front|;
    assert t[n..n + 3] == ",p=";
    forall j | n < j <= |t| ensures !At(t, j, ",p=") {
      if j + 3 <= |t| {
        assert t[j..j + 3][0] == t[j];
        if j >= n + 3 { assert t[j] == proof[j - n - 3]; }
      }
    }
    LastIndexIs(t, ",p=", |t|, n);
    assert t[..n] == front;
  }

  lemma FinalReads(combined: Text, proof: Text)
    requires Plain(combined) && Plain(proof)
    ensures AttributesOf(FinalBare(combined) + ",p=" + proof) == map["c" := "biws", "r" := combined, "p" := proof]
  {
    var a, r, p := Attr('c', "biws"), Attr('r', combined), Attr('p', proof);
    ReadThree(a, r, p);
    assert PrintOne(a) + "," + PrintOne(r) + "," + PrintOne(p) == FinalBare(combined) + ",p=" + proof;
  }

  /**
   * A final message carrying any proof at all is accepted if and only if the hash of the proof
   * xor the client signature is the stored key.
   */
  lemma AcceptedIffProves(c: Crypto, s: Server, proof: Bytes)
    requires Lawful(c) && Plain(s.combinedNonce) && proof != []
    ensures var salted := c.pbkdf2(s.password, s.salt, ITERATIONS);
            var auth := AuthMessage(s.clientFirstBare, s.serverFirst, FinalBare(s.combinedNonce));
            var r := ServerFinal(c, s, FinalBare(s.combinedNonce) + ",p=" + c.toBase64(proof));
            && (r.Ok? <==> Proves(c, salted, auth, proof))
            && (r.Ok? ==> r.value == "v=" + c.toBase64(ServerSignature(c, salted, auth)))
  {
    FinalReads(s.combinedNonce, c.toBase64(proof));
    ProofIsLast(FinalBare(s.combinedNonce), c.toBase64(proof));
  }

  lemma OwnProofProves(c: Crypto, salted: Bytes, auth: Text)
    requires Lawful(c)
    ensures var proof := XorBytes(ClientKey(c, salted), ClientSignature(c, salted, auth));
            proof != [] && Proves(c, salted, auth, proof)
  {
    XorBytesUndone(ClientKey(c, salted), ClientSignature(c, salted, auth));
  }

  lemma SignatureVerifies(c: Crypto, k: Client, sent: Bytes)
    requires Lawful(c) && sent != [] && k.signature.Some?
    ensures ClientVerify(c, k, "v=" + c.toBase64(sent)).Ok? <==> sent == k.signature.value
  {
    ReadOne(Attr('v', c.toBase64(sent)));
    assert PrintOne(Attr('v', c.toBase64(sent))) == "v=" + c.toBase64(sent);
  }

  /** The whole exchange between a client and a server, each with the password it was given. */
  datatype Exchange = Exchange(server: Server, client: Client, verdict: Result<Text, Problem>)

  function Converse(c: Crypto, clientPassword: Text, serverPassword: Text, salt: Bytes, cn: Text, sn: Text): Result<Exchange, Problem>
    requires Lawful(c)
  {
    var (k1, first) := ClientFirst(NewClient(clientPassword, cn));
    var s1 := ServerFirst(c, NewServer(serverPassword, salt, sn), first);
    if s1.Err? then Err(s1.problem)
    else
      var k2 := ClientFinal(c, k1, s1.value.serverFirst);
      if k2.Err? then Err(k2.problem)
      else Ok(Exchange(s1.value, k2.value.0, ServerFinal(c, s1.value, k2.value.1)))
  }

  lemma ConverseReaches(c: Crypto, clientPassword: Text, serverPassword: Text, salt: Bytes, cn: Text, sn: Text)
    requires Lawful(c) && Nonce(cn) && Plain(sn) && salt != []
    ensures var combined := cn + sn;
            var challenge := Challenge(c, combined, salt);
            var auth := AuthMessage(BareFirst(cn), challenge, FinalBare(combined));
            var salted := c.pbkdf2(clientPassword, salt, ITERATIONS);
            var proof := XorBytes(ClientKey(c, salted), ClientSignature(c, salted, auth));
            var server := Server(serverPassword, salt, sn, BareFirst(cn), challenge, combined);
            Converse(c, clientPassword, serverPassword, salt, cn, sn) ==
            Ok(Exchange(server,
                        Client(clientPassword, cn, BareFirst(cn), auth, Some(ServerSignature(c, salted, auth))),
                        ServerFinal(c, server, FinalBare(combined) + ",p=" + c.toBase64(proof))))
  {
    var k1 := ClientFirst(NewClient(clientPassword, cn)).0;
    ServerAnswersFirst(c, NewServer(serverPassword, salt, sn), NewClient(clientPassword, cn));
    ClientAnswers(c, k1, cn + sn, salt);
  }

  /**
   * With the same password on both sides, for any salt and comma-free nonces: the server accepts,
   * the client's auth message is the server's, and the server's signature verifies.
   */
  lemma SamePasswordAgrees(c: Crypto, password: Text, salt: Bytes, cn: Text, sn: Text)
    requires Lawful(c) && Nonce(cn) && Plain(sn) && salt != []
    ensures var r := Converse(c, password, password, salt, cn, sn);
            && r.Ok? && r.value.verdict.Ok?
            && r.value.client.authMessage ==
               AuthMessage(r.value.server.clientFirstBare, r.value.server.serverFirst, FinalBare(cn + sn))
            && ClientVerify(c, r.value.client, r.value.verdict.value).Ok?
  {
    ConverseReaches(c, password, password, salt, cn, sn);
    var e := Converse(c, password, password, salt, cn, sn).value;
    var salted := c.pbkdf2(password, salt, ITERATIONS);
    var auth := e.client.authMessage;
    OwnProofProves(c, salted, auth);
    AcceptedIffProves(c, e.server, XorBytes(ClientKey(c, salted), ClientSignature(c, salted, auth)));
    SignatureVerifies(c, e.client, ServerSignature(c, salted, auth));
  }

  /** With any two passwords: accepted exactly when the client's proof opens the server's stored key. */
  lemma OtherPasswordIff(c: Crypto, clientPassword: Text, serverPassword: Text, salt: Bytes, cn: Text, sn: Text)
    requires Lawful(c) && Nonce(cn) && Plain(sn) && salt != []
    ensures var r := Converse(c, clientPassword, serverPassword, salt, cn, sn);
            var mine, theirs := c.pbkdf2(clientPassword, salt, ITERATIONS), c.pbkdf2(serverPassword, salt, ITERATIONS);
            && r.Ok?
            && var auth := r.value.client.authMessage;
               var proof := XorBytes(ClientKey(c, mine), ClientSignature(c, mine, auth));
               r.value.verdict.Ok? <==>
               c.sha256(XorBytes(proof, ClientSignature(c, theirs, auth))) == StoredKey(c, theirs)
  {
    ConverseReaches(c, clientPassword, serverPassword, salt, cn, sn);
    var e := Converse(c, clientPassword, serverPassword, salt, cn, sn).value;
    var mine, auth := c.pbkdf2(clientPassword, salt, ITERATIONS), e.client.authMessage;
    AcceptedIffProves(c, e.server, XorBytes(ClientKey(c, mine), ClientSignature(c, mine, auth)));
  }

  // ---------- The two objects

  class ScramServer {
    const password: Text
    const salt: Bytes
    const serverNonce: Text
    var clientFirstBare: Text
    var serverFirst: Text
    var combinedNonce: Text

    constructor (password: Text, salt: Bytes, serverNonce: Text)
      ensures View() == NewServer(password, salt, serverNonce)
    {
      this.password, this.salt, this.serverNonce := password, salt, serverNonce;
      clientFirstBare, serverFirst, combinedNonce := "", "", "";
    }

    ghost function View(): Server
      reads this
    {
      Server(password, salt, serverNonce, clientFirstBare, serverFirst, combinedNonce)
    }

    method FirstMessage(c: Crypto, clientFirst: Text) returns (r: Result<Text, Problem>)
      modifies this
      ensures var spec := ServerFirst(c, old(View()), clientFirst);
              if spec.Ok? then View() == spec.value && r == Ok(serverFirst)
              else r == Err(spec.problem) && View() == AfterRefusal(old(View()), clientFirst, spec.problem)
    {
      var gs2End := NthCommaIndex(clientFirst, 2);
      if gs2End.None? { return Err(MalformedFirst); }
      var gs2 := clientFirst[..gs2End.value];
      if gs2 != "" && gs2[0] == 'p' { return Err(ChannelBinding); }
      clientFirstBare := clientFirst[gs2End.value + 1..];
      var attrs := ReadAttributes(clientFirstBare);
      var clientNonce := Get(attrs, "r");
      if clientNonce == "" { return Err(NoNonce); }
      combinedNonce := clientNonce + serverNonce;
      serverFirst := "r=" + combinedNonce + ",s=" + c.toBase64(salt) + ",i=" + ITERATIONS_TEXT;
      return Ok(serverFirst);
    }

    method FinalMessage(c: Crypto, clientFinal: Text) returns (r: Result<Text, Problem>)
      ensures r == ServerFinal(c, View(), clientFinal)
    {
      var withoutProof := WithoutProof(clientFinal);
      var attrs := ReadAttributes(clientFinal);
      if "r" !in attrs || attrs["r"] != combinedNonce { return Err(NonceMismatch); }
      var proofB64 := Get(attrs, "p");
      if proofB64 == "" { return Err(NoProof); }
      var salted := c.pbkdf2(password, salt, ITERATIONS);
      var clientKey := c.hmac(salted, CLIENT_KEY);
      var storedKey := c.sha256(clientKey);
      var authMessage := clientFirstBare + "," + serverFirst + "," + withoutProof;
      var clientSignature := c.hmac(storedKey, c.utf8(authMessage));
      var proof := c.fromBase64(proofB64);
      if |proof| != |clientSignature| { return Err(BadProofLength); }
      var candidateKey := XorInto(proof, clientSignature);
      if c.sha256(candidateKey) != storedKey { return Err(AuthenticationFailed); }
      var serverKey := c.hmac(salted, SERVER_KEY);
      return Ok("v=" + c.toBase64(c.hmac(serverKey, c.utf8(authMessage))));
    }
  }

  class ScramClient {
    const password: Text
    const clientNonce: Text
    var clientFirstBare: Text
    var authMessage: Text
    var serverSignature: Option<Bytes>

    constructor (password: Text, clientNonce: Text)
      ensures View() == NewClient(password, clientNonce)
    {
      this.password, this.clientNonce := password, clientNonce;
      clientFirstBare, authMessage, serverSignature := "", "", None;
    }

    ghost function View(): Client
      reads this
    {
      Client(password, clientNonce, clientFirstBare, authMessage, serverSignature)
    }

    method FirstMessage() returns (r: Text)
      modifies this
      ensures (View(), r) == ClientFirst(old(View()))
    {
      clientFirstBare := "n=,r=" + clientNonce;
      return "n,," + clientFirstBare;
    }

    method FinalMessage(c: Crypto, serverFirst: Text) returns (r: Result<Text, Problem>)
      requires Lawful(c)
      modifies this
      ensures var spec := ClientFinal(c, old(View()), serverFirst);
              if spec.Ok? then View() == spec.value.0 && r == Ok(spec.value.1)
              else View() == old(View()) && r == Err(spec.problem)
    {
      var attrs := ReadAttributes(serverFirst);
      var combinedNonce := Get(attrs, "r");
      var saltB64 := Get(attrs, "s");
      var iterations := if "i" in attrs then c.number(attrs["i"]) else None;
      if combinedNonce == "" || !(clientNonce <= combinedNonce) { return Err(NonceNotExtended); }
      if saltB64 == "" || iterations.None? { return Err(MalformedChallenge); }
      var salted := c.pbkdf2(password, c.fromBase64(saltB64), iterations.value);
      var clientKey := c.hmac(salted, CLIENT_KEY);
      var storedKey := c.sha256(clientKey);
      var withoutProof := "c=biws,r=" + combinedNonce;
      authMessage := clientFirstBare + "," + serverFirst + "," + withoutProof;
      var clientSignature := c.hmac(storedKey, c.utf8(authMessage));
      var proof := XorInto(clientKey, clientSignature);
      serverSignature := Some(c.hmac(c.hmac(salted, SERVER_KEY), c.utf8(authMessage)));
      return Ok(withoutProof + ",p=" + c.toBase64(proof));
    }

    method VerifyServerSignature(c: Crypto, serverFinal: Text) returns (r: Result<(), Problem>)
      ensures r == ClientVerify(c, View(), serverFinal)
    {
      if serverSignature.None? { return Err(OutOfOrder); }
      var attrs := ReadAttributes(serverFinal);
      var received := Get(attrs, "v");
      if received == "" { return Err(NoSignature); }
      if c.fromBase64(received) != serverSignature.value { return Err(SignatureMismatch); }
      return Ok(());
    }
  }
}
