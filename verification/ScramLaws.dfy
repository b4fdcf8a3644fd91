/** The SCRAM-SHA-256 exchange as RFC 5802 writes it, formula by formula, with every constant spelled. */
module ScramLaws {
  import opened Bytes
  import opened Strings
  import opened Bits
  import opened BitLaws
  import opened Scram

  // ---------------------------------------------------------------------------
  // Exclusive or

  lemma {:induction false} XorBytesIs(a: Bytes, b: Bytes, i: nat, k: nat)
    requires |a| == |b| && i < |a|
    ensures Bit(XorBytes(a, b)[i], k) == if Bit(a[i], k) != Bit(b[i], k) then 1 else 0
  {
    if i == 0 { XorIsBitwise(a[0], b[0], k); } else { XorBytesIs(a[1..], b[1..], i - 1, k); }
  }

  // ---------------------------------------------------------------------------
  // Attribute lists

  lemma {:induction false} IndexIs(t: Text, c: char, from: nat, at: nat)
    requires from <= at < |t| && t[at] == c && c !in t[from..at]
    ensures IndexFrom(t, c, from) == Some(at)
    decreases at - from
  {
    if from < at {
      assert t[from..at][0] == t[from];
      assert forall x :: x in t[from + 1..at] ==> x in t[from..at];
      IndexIs(t, c, from + 1, at);
    }
  }

  lemma {:induction false} NoIndex(t: Text, c: char, from: nat)
    requires from <= |t| && c !in t[from..]
    ensures IndexFrom(t, c, from).None?
    decreases |t| - from
  {
    if from < |t| {
      assert t[from..][0] == t[from];
      assert forall x :: x in t[from + 1..] ==> x in t[from..];
      NoIndex(t, c, from + 1);
    }
  }

  /** The name is what stands before the first equals sign; the value is everything behind it. */
  lemma NamedAttribute(m: Attributes, name: Text, value: Text)
    requires name != "" && '=' !in name
    ensures AddAttribute(m, name + "=" + value) == m[name := value]
  {
    var part := name + "=" + value;
    assert part[0..|name|] == name && part[|name|] == '=';
    IndexIs(part, '=', 0, |name|);
    assert part[..|name|] == name && part[|name| + 1..] == value;
  }

  /** Without a name or an equals sign it is no attribute. */
  lemma NoAttribute(m: Attributes, part: Text)
    requires '=' !in part || part[0] == '='
    ensures AddAttribute(m, part) == m
  {
    if '=' !in part {
      assert part[0..] == part;
      NoIndex(part, '=', 0);
    } else {
      assert part[0..0] == "";
      IndexIs(part, '=', 0, 0);
    }
  }

  lemma {:induction false} AddsOver(m: Attributes, parts: seq<Text>)
    ensures AddAttributes(m, parts) == m + AddAttributes(map[], parts)
    decreases |parts|
  {
    if parts == [] {
      assert m + map[] == m;
    } else {
      var none: Attributes := map[];
      AddsOver(AddAttribute(m, parts[0]), parts[1..]);
      AddsOver(AddAttribute(none, parts[0]), parts[1..]);
      OneOver(m, parts[0]);
      MergeAssoc(m, AddAttribute(none, parts[0]), AddAttributes(none, parts[1..]));
    }
  }

  lemma OneOver(m: Attributes, part: Text)
    ensures AddAttribute(m, part) == m + AddAttribute(map[], part)
  {
    assert m + map[] == m;
  }

  lemma MergeAssoc(a: Attributes, b: Attributes, c: Attributes)
    ensures (a + b) + c == a + (b + c)
  {
  }

  lemma {:induction false} AddsAppend(m: Attributes, a: seq<Text>, b: seq<Text>)
    ensures AddAttributes(m, a + b) == AddAttributes(AddAttributes(m, a), b)
    decreases |a|
  {
    if a == [] {
      assert a + b == b;
    } else {
      assert (a + b)[0] == a[0] && (a + b)[1..] == a[1..] + b;
      AddsAppend(AddAttribute(m, a[0]), a[1..], b);
    }
  }

  /** Commas separate attributes; of two with one name the later counts. */
  lemma AttributesOfBoth(a: Text, b: Text)
    ensures AttributesOf(a + "," + b) == AttributesOf(a) + AttributesOf(b)
  {
    SplitAtAppend(a, b, ',');
    AddsAppend(map[], SplitAt(a, ','), SplitAt(b, ','));
    AddsOver(AttributesOf(a), SplitAt(b, ','));
  }

  lemma AttributesOfOne(part: Text)
    requires ',' !in part
    ensures AttributesOf(part) == AddAttribute(map[], part)
  {
    SplitAtNothing(part, ',');
    assert [part][1..] == [];
    var none: Attributes := map[];
    assert AddAttributes(AddAttribute(none, part), []) == AddAttribute(none, part);
  }

  // ---------------------------------------------------------------------------
  // The client's first message

  lemma SecondComma(gs2: Text, authzid: Text, bare: Text)
    requires ',' !in gs2 && ',' !in authzid
    ensures var t := gs2 + "," + authzid + "," + bare;
            NthComma(t, 2, 0) == Some(|gs2| + 1 + |authzid|) && t[|gs2| + 1 + |authzid| + 1..] == bare
  {
    var t := gs2 + "," + authzid + "," + bare;
    var first, second := |gs2|, |gs2| + 1 + |authzid|;
    assert t[0..first] == gs2 && t[first] == ',';
    IndexIs(t, ',', 0, first);
    assert t[first + 1..second] == authzid && t[second] == ',';
    IndexIs(t, ',', first + 1, second);
    assert NthComma(t, 1, first + 1) == Some(second);
  }

  /** Fewer than two commas: there is no GS2 header. */
  lemma NoHeader(c: Crypto, s: Server, t: Text)
    requires |SplitAt(t, ',')| < 3
    ensures ServerFirst(c, s, t) == Err(MalformedFirst)
  {
    var gs2End := NthComma(t, 2, 0);
    if gs2End.Some? { TwoCommas(t); }
  }

  lemma {:induction false} IndexMeans(t: Text, c: char, from: nat)
    requires IndexFrom(t, c, from).Some?
    ensures t[IndexFrom(t, c, from).value] == c
    decreases |t| - from
  {
    if t[from] != c { IndexMeans(t, c, from + 1); }
  }

  lemma TwoCommas(t: Text)
    requires NthComma(t, 2, 0).Some?
    ensures |SplitAt(t, ',')| >= 3
  {
    hide SplitAt;
    var i := IndexFrom(t, ',', 0).value;
    var j := NthComma(t, 2, 0).value;
    assert NthComma(t, 1, i + 1) == IndexFrom(t, ',', i + 1);
    IndexMeans(t, ',', 0);
    IndexMeans(t, ',', i + 1);
    assert t[..i] + "," + t[i + 1..] == t;
    SplitAtAppend(t[..i], t[i + 1..], ',');
    assert t[i + 1..j] + "," + t[j + 1..] == t[i + 1..];
    SplitAtAppend(t[i + 1..j], t[j + 1..], ',');
  }

  /**
   * A first message in RFC 5802's shape: a channel binding is refused, then a missing nonce; else the
   * challenge extends the client's nonce by the server's and names the salt and 4096 rounds.
   */
  lemma FirstMessageIs(c: Crypto, s: Server, gs2: Text, authzid: Text, bare: Text)
    requires ',' !in gs2 && ',' !in authzid
    ensures var attrs := AttributesOf(bare);
            ServerFirst(c, s, gs2 + "," + authzid + "," + bare) ==
            if gs2 != "" && gs2[0] == 'p' then Err(ChannelBinding)
            else if "r" !in attrs || attrs["r"] == "" then Err(NoNonce)
            else Ok(s.(clientFirstBare := bare, combinedNonce := attrs["r"] + s.nonce,
                       serverFirst := "r=" + (attrs["r"] + s.nonce) + ",s=" + c.toBase64(s.salt) + ",i=4096"))
  {
    var t := gs2 + "," + authzid + "," + bare;
    SecondComma(gs2, authzid, bare);
    assert t[0] == if gs2 == "" then ',' else gs2[0];
    ChallengeText(c, Get(AttributesOf(bare), "r") + s.nonce, s.salt);
  }

  lemma ChallengeText(c: Crypto, combined: Text, salt: Bytes)
    ensures Challenge(c, combined, salt) == "r=" + combined + ",s=" + c.toBase64(salt) + ",i=4096"
  {
    assert ",i=" + ITERATIONS_TEXT == ",i=4096";
  }

  /** A refusal leaves the server as it was, but that a nonce missing from `bare` leaves `bare`. */
  lemma RefusalLeaves(s: Server, gs2: Text, authzid: Text, bare: Text, problem: Problem)
    requires ',' !in gs2 && ',' !in authzid
    ensures AfterRefusal(s, gs2 + "," + authzid + "," + bare, problem) ==
            if problem == NoNonce then s.(clientFirstBare := bare) else s
  {
    SecondComma(gs2, authzid, bare);
  }

  // ---------------------------------------------------------------------------
  // Proofs

  /** "Client Key" and "Server Key" in ASCII. */
  function Ascii(t: Text): Bytes
    requires forall i :: 0 <= i < |t| ==> t[i] < '\U{80}'
  {
    seq(|t|, i requires 0 <= i < |t| => t[i] as int)
  }

  /** StoredKey := H(HMAC(SaltedPassword, "Client Key")). */
  function RfcStoredKey(c: Crypto, password: Text, salt: Bytes, rounds: int): Bytes {
    c.sha256(c.hmac(c.pbkdf2(password, salt, rounds), Ascii("Client Key")))
  }

  /** ClientSignature := HMAC(StoredKey, AuthMessage). */
  function RfcClientSignature(c: Crypto, password: Text, salt: Bytes, rounds: int, auth: Text): Bytes {
    c.hmac(RfcStoredKey(c, password, salt, rounds), c.utf8(auth))
  }

  /** ServerSignature := HMAC(HMAC(SaltedPassword, "Server Key"), AuthMessage). */
  function RfcServerSignature(c: Crypto, password: Text, salt: Bytes, rounds: int, auth: Text): Bytes {
    c.hmac(c.hmac(c.pbkdf2(password, salt, rounds), Ascii("Server Key")), c.utf8(auth))
  }

  lemma KeysAreNamed()
    ensures Ascii("Client Key") == CLIENT_KEY && Ascii("Server Key") == SERVER_KEY
  {
  }

  /** The server accepts exactly the proofs whose xor with ClientSignature hashes to StoredKey. */
  lemma ServerAcceptsIff(c: Crypto, s: Server, proof: Bytes)
    requires Lawful(c) && ',' !in s.combinedNonce && proof != []
    ensures var auth := s.clientFirstBare + "," + s.serverFirst + ",c=biws,r=" + s.combinedNonce;
            var signature := RfcClientSignature(c, s.password, s.salt, 4096, auth);
            var r := ServerFinal(c, s, "c=biws,r=" + s.combinedNonce + ",p=" + c.toBase64(proof));
            && (r.Ok? <==> |proof| == 32 &&
                           c.sha256(XorBytes(proof, signature)) == RfcStoredKey(c, s.password, s.salt, 4096))
            && (r.Ok? ==> r.value == "v=" + c.toBase64(RfcServerSignature(c, s.password, s.salt, 4096, auth)))
            && (r.Err? ==> r.problem == if |proof| == 32 then AuthenticationFailed else BadProofLength)
  {
    hide AttributesOf, WithoutProof, FinalBare, AuthMessage, StoredKey, ClientSignature, ServerSignature,
         RfcStoredKey, RfcClientSignature, RfcServerSignature, XorBytes, ServerFinal, Get;
    var message := "c=biws,r=" + s.combinedNonce + ",p=" + c.toBase64(proof);
    var auth := s.clientFirstBare + "," + s.serverFirst + ",c=biws,r=" + s.combinedNonce;
    FormulasAre(c, s.password, s.salt, auth);
    FinalFacts(c, s, proof);
    FinalDecides(c, s, message, proof, auth);
  }

  lemma FinalFacts(c: Crypto, s: Server, proof: Bytes)
    requires Lawful(c) && ',' !in s.combinedNonce && proof != []
    ensures var message := "c=biws,r=" + s.combinedNonce + ",p=" + c.toBase64(proof);
            var auth := s.clientFirstBare + "," + s.serverFirst + ",c=biws,r=" + s.combinedNonce;
            && "r" in AttributesOf(message) && AttributesOf(message)["r"] == s.combinedNonce
            && Get(AttributesOf(message), "p") == c.toBase64(proof) != ""
            && c.fromBase64(c.toBase64(proof)) == proof
            && |ClientSignature(c, c.pbkdf2(s.password, s.salt, 4096), auth)| == 32
            && auth == AuthMessage(s.clientFirstBare, s.serverFirst, WithoutProof(message))
  {
    var message := "c=biws,r=" + s.combinedNonce + ",p=" + c.toBase64(proof);
    assert message == FinalBare(s.combinedNonce) + ",p=" + c.toBase64(proof);
    AuthText(s.clientFirstBare, s.serverFirst, s.combinedNonce);
    FinalReads(s.combinedNonce, c.toBase64(proof));
    ProofIsLast(FinalBare(s.combinedNonce), c.toBase64(proof));
    hide AttributesOf, WithoutProof, AuthMessage, FinalBare;
  }

  /** The server's decision on a message whose nonce and proof are in place. */
  lemma FinalDecides(c: Crypto, s: Server, message: Text, proof: Bytes, auth: Text)
    requires "r" in AttributesOf(message) && AttributesOf(message)["r"] == s.combinedNonce
    requires Get(AttributesOf(message), "p") == c.toBase64(proof) != ""
    requires c.fromBase64(c.toBase64(proof)) == proof
    requires |ClientSignature(c, c.pbkdf2(s.password, s.salt, 4096), auth)| == 32
    requires auth == AuthMessage(s.clientFirstBare, s.serverFirst, WithoutProof(message))
    ensures var salted := c.pbkdf2(s.password, s.salt, 4096);
            var r := ServerFinal(c, s, message);
            && (r.Ok? <==> |proof| == 32 &&
                           c.sha256(XorBytes(proof, ClientSignature(c, salted, auth))) == StoredKey(c, salted))
            && (r.Ok? ==> r.value == "v=" + c.toBase64(ServerSignature(c, salted, auth)))
            && (r.Err? ==> r.problem == if |proof| == 32 then AuthenticationFailed else BadProofLength)
  {
    hide AttributesOf, WithoutProof, AuthMessage, XorBytes, ClientSignature, StoredKey, ServerSignature;
  }

  lemma AuthText(bare: Text, challenge: Text, combined: Text)
    ensures AuthMessage(bare, challenge, FinalBare(combined)) == bare + "," + challenge + ",c=biws,r=" + combined
  {
    assert "," + "c=biws,r=" == ",c=biws,r=";
  }

  lemma FormulasAre(c: Crypto, password: Text, salt: Bytes, auth: Text)
    ensures var salted := c.pbkdf2(password, salt, 4096);
            && RfcStoredKey(c, password, salt, 4096) == StoredKey(c, salted)
            && RfcClientSignature(c, password, salt, 4096, auth) == ClientSignature(c, salted, auth)
            && RfcServerSignature(c, password, salt, 4096, auth) == ServerSignature(c, salted, auth)
  {
    KeysAreNamed();
  }

  /** A final message with another nonce, or without a proof, is refused before any key is derived. */
  lemma FinalRefusedIff(c: Crypto, s: Server, message: Text)
    ensures var attrs := AttributesOf(message);
            && (ServerFinal(c, s, message) == Err(NonceMismatch) <==>
                  "r" !in attrs || attrs["r"] != s.combinedNonce)
            && (ServerFinal(c, s, message) == Err(NoProof) <==>
                  "r" in attrs && attrs["r"] == s.combinedNonce && ("p" !in attrs || attrs["p"] == ""))
  {
    hide Proves, ClientSignature, ServerSignature, WithoutProof;
  }

  lemma {:induction false} NoLastIndex(t: Text, tag: Text, upTo: nat)
    requires forall j :: 0 <= j <= upTo ==> !At(t, j, tag)
    ensures LastIndexOf(t, tag, upTo).None?
  {
    if upTo > 0 { NoLastIndex(t, tag, upTo - 1); }
  }

  /** With no ",p=" in it, all but the last character of a final message is authenticated. */
  lemma NothingToCut(t: Text)
    requires forall j :: 0 <= j <= |t| ==> !At(t, j, ",p=")
    ensures WithoutProof(t) == if t == "" then "" else t[..|t| - 1]
  {
    NoLastIndex(t, ",p=", |t|);
  }

  /** ClientProof := ClientKey XOR ClientSignature, for the challenge's own nonce, salt and rounds. */
  lemma ClientProves(c: Crypto, k: Client, combined: Text, salt: Bytes)
    requires Lawful(c) && ',' !in combined && combined != "" && k.nonce <= combined && salt != []
    ensures var challenge := "r=" + combined + ",s=" + c.toBase64(salt) + ",i=4096";
            var auth := k.clientFirstBare + "," + challenge + ",c=biws,r=" + combined;
            var proof := XorBytes(c.hmac(c.pbkdf2(k.password, salt, 4096), Ascii("Client Key")),
                                  RfcClientSignature(c, k.password, salt, 4096, auth));
            ClientFinal(c, k, challenge) ==
            Ok((k.(authMessage := auth, signature := Some(RfcServerSignature(c, k.password, salt, 4096, auth))),
                "c=biws,r=" + combined + ",p=" + c.toBase64(proof)))
  {
    KeysAreNamed();
    ClientAnswers(c, k, combined, salt);
    var challenge := "r=" + combined + ",s=" + c.toBase64(salt) + ",i=4096";
    ChallengeText(c, combined, salt);
    AuthText(k.clientFirstBare, challenge, combined);
  }

  /** A challenge whose nonce does not extend the client's own is refused; so is one without salt or rounds. */
  lemma ChallengeRefusedIff(c: Crypto, k: Client, challenge: Text)
    requires Lawful(c)
    ensures var attrs := AttributesOf(challenge);
            var grown := "r" in attrs && attrs["r"] != "" && k.nonce <= attrs["r"];
            && (ClientFinal(c, k, challenge) == Err(NonceNotExtended) <==> !grown)
            && (ClientFinal(c, k, challenge) == Err(MalformedChallenge) <==>
                  grown && ("s" !in attrs || attrs["s"] == "" || "i" !in attrs || c.number(attrs["i"]).None?))
            && (ClientFinal(c, k, challenge).Err? ==>
                  ClientFinal(c, k, challenge).problem in {NonceNotExtended, MalformedChallenge})
  {
    hide ClientKey, ClientSignature, ServerSignature;
  }

  /** The client is satisfied exactly by the signature it computed itself, and never before it did. */
  lemma VerifiedIff(c: Crypto, k: Client, message: Text)
    ensures ClientVerify(c, k, message).Ok? <==>
              var attrs := AttributesOf(message);
              k.signature.Some? && "v" in attrs && attrs["v"] != "" && c.fromBase64(attrs["v"]) == k.signature.value
  {
  }

  /** The client opens without channel binding and without a user name. */
  lemma OpeningIs(k: Client)
    ensures ClientFirst(k) == (k.(clientFirstBare := "n=,r=" + k.nonce), "n,,n=,r=" + k.nonce)
  {
    assert "n,," + ("n=,r=" + k.nonce) == "n,,n=,r=" + k.nonce;
  }
}
