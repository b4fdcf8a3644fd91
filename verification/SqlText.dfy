/**
 * The two SQL scanners of apps/control-plane/src/data/sql-text.ts and the printers of
 * identifiers.ts that they must be able to read back.
 *
 * The specification reads one token off the front of the remaining text, so that a slice of
 * a script can be compared with the script it was cut from.
 */
module SqlText {
  import opened Bytes
  import opened Strings

  // ---------- Characters

  const TAG_WINDOW: nat := 130

  predicate IsQuote(c: char) { c == '\'' || c == '"' }

  predicate IsDigit(c: char) { '0' <= c <= '9' }

  predicate IsTagChar(c: char) { 'A' <= c <= 'Z' || 'a' <= c <= 'z' || c == '_' || IsDigit(c) }

  // ---------- Tokens

  /** Length of a literal's remainder, its opening quote already read. */
  function QuotedLen(t: Text, quote: char): (n: nat)
    ensures n <= |t|
  {
    if t == "" then 0
    else if t[0] != quote then 1 + QuotedLen(t[1..], quote)
    else if |t| > 1 && t[1] == quote then 2 + QuotedLen(t[2..], quote)
    else 1
  }

  function TagChars(t: Text): (n: nat)
    ensures n <= |t|
  {
    if t == "" || !IsTagChar(t[0]) then 0 else 1 + TagChars(t[1..])
  }

  /** Length of the `$tag$` at the front, when there is one. */
  function DollarTag(t: Text): (r: Option<nat>)
    ensures r.Some? ==> 2 <= r.value <= |t|
  {
    var w := t[..Min(|t|, TAG_WINDOW)];
    if w == "" || w[0] != '$' then None
    else
      var n := TagChars(w[1..]);
      if n + 1 < |w| && w[n + 1] == '$' && (n > 0 ==> !IsDigit(w[1])) then Some(n + 2) else None
  }

  /** `indexOf`. */
  function IndexOf(t: Text, tag: Text, from: nat): (r: Option<nat>)
    requires from <= |t|
    ensures r.Some? ==> from <= r.value && r.value + |tag| <= |t|
    decreases |t| - from
  {
    if At(t, from, tag) then Some(from)
    else if from == |t| then None
    else IndexOf(t, tag, from + 1)
  }

  /** Up to and including the first `tag` at or after `from`, or everything. */
  function ThroughTag(t: Text, tag: Text, from: nat): (n: nat)
    requires from <= |t|
    ensures from <= n <= |t|
  {
    var at := IndexOf(t, tag, from);
    if at.Some? then at.value + |tag| else |t|
  }

  function LineLen(t: Text): (n: nat)
    ensures n <= |t|
  {
    if t == "" || t[0] == '\n' then 0 else 1 + LineLen(t[1..])
  }

  predicate Opens(t: Text, a: char, b: char) { |t| > 1 && t[0] == a && t[1] == b }

  /** Length of a block comment's remainder while `depth` comments are open. */
  function BlockLen(t: Text, depth: nat): (n: nat)
    ensures n <= |t|
  {
    if t == "" then 0
    else if Opens(t, '/', '*') then 2 + BlockLen(t[2..], depth + 1)
    else if Opens(t, '*', '/') then (if depth <= 1 then 2 else 2 + BlockLen(t[2..], depth - 1))
    else 1 + BlockLen(t[1..], depth)
  }

  /** Does a literal or comment start here? */
  predicate IsNoise(t: Text) {
    t != "" &&
    (IsQuote(t[0]) || DollarTag(t).Some? || Opens(t, '-', '-') || Opens(t, '/', '*'))
  }

  function TokenLen(t: Text): (n: nat)
    requires t != ""
    ensures 0 < n <= |t|
  {
    if IsQuote(t[0]) then 1 + QuotedLen(t[1..], t[0])
    else if DollarTag(t).Some? then ThroughTag(t, t[..DollarTag(t).value], DollarTag(t).value)
    else if Opens(t, '-', '-') then 2 + LineLen(t[2..])
    else if Opens(t, '/', '*') then 2 + BlockLen(t[2..], 1)
    else 1
  }

  // ---------- What the two scanners compute

  function Glue(front: Text, pieces: seq<Text>): (r: seq<Text>)
    requires pieces != []
    ensures r != [] && |r| == |pieces|
  {
    [front + pieces[0]] + pieces[1..]
  }

  /** The text between top-level semicolons. */
  function Pieces(t: Text): (r: seq<Text>)
    ensures r != []
    decreases |t|
  {
    if t == "" then [""]
    else if t[0] == ';' then [""] + Pieces(t[1..])
    else
      var n := TokenLen(t);
      Glue(t[..n], Pieces(t[n..]))
  }

  datatype Statement = Statement(text: Text, start: nat)

  /** The non-blank pieces, trimmed, each with the offset of its piece. */
  function Statements(pieces: seq<Text>, offset: nat): seq<Statement> {
    if pieces == [] then []
    else
      var text, rest := Trim(pieces[0]), Statements(pieces[1..], offset + |pieces[0]| + 1);
      if text == "" then rest else [Statement(text, offset)] + rest
  }

  function Split(sql: Text): seq<Statement> { Statements(Pieces(sql), 0) }

  function Blanked(t: Text): char
    requires t != ""
  {
    if IsNoise(t) then ' ' else t[0]
  }

  /** Every literal and comment blanked to one space. */
  function Strip(t: Text): Text
    decreases |t|
  {
    if t == "" then ""
    else [Blanked(t)] + Strip(t[TokenLen(t)..])
  }

  // ---------- Lossless split

  function Join(pieces: seq<Text>): Text
    requires pieces != []
  {
    if |pieces| == 1 then pieces[0] else pieces[0] + ";" + Join(pieces[1..])
  }

  lemma JoinGlue(front: Text, pieces: seq<Text>)
    requires pieces != []
    ensures Join(Glue(front, pieces)) == front + Join(pieces)
  {
    if |pieces| > 1 {
      assert Glue(front, pieces)[1..] == pieces[1..];
      assert front + (pieces[0] + ";" + Join(pieces[1..])) == front + pieces[0] + ";" + Join(pieces[1..]);
    }
  }

  lemma JoinCons(pieces: seq<Text>)
    requires pieces != []
    ensures Join([""] + pieces) == ";" + Join(pieces)
  {
    assert ([""] + pieces)[1..] == pieces;
  }

  /** Splitting loses nothing: the pieces joined with `;` are the script. */
  lemma {:induction false} SplitIsLossless(t: Text)
    ensures Join(Pieces(t)) == t
    decreases |t|
  {
    hide TokenLen;
    if t != "" {
      var n := TokenLen(t);
      SplitIsLossless(t[n..]);
      assert t == t[..n] + t[n..];
      if t[0] == ';' {
        StripOfSemicolon(t);
        JoinCons(Pieces(t[1..]));
      } else {
        JoinGlue(t[..n], Pieces(t[n..]));
      }
    }
  }

  function Offset(pieces: seq<Text>, k: nat): nat
    requires k <= |pieces|
  {
    if k == 0 then 0 else |pieces[0]| + 1 + Offset(pieces[1..], k - 1)
  }

  // ---------- Cutting a script in front of white space or a semicolon

  predicate IsInert(c: char) { c == ';' || IsWhite(c) }

  /** `t` ends at `e`, or carries on with a character that no token can straddle. */
  predicate Edge(t: Text, e: nat) { e <= |t| && (e < |t| ==> IsInert(t[e])) }

  lemma DropDrop(t: Text, n: nat, e: nat)
    requires n <= e <= |t|
    ensures t[n..][e - n..] == t[e..]
  {
  }

  lemma CutTail(t: Text, e: nat, n: nat)
    requires n <= e && Edge(t, e)
    ensures t[..e][n..] == t[n..][..e - n] && Edge(t[n..], e - n)
  {
  }

  lemma {:induction false} CutQuoted(t: Text, quote: char, e: nat)
    requires IsQuote(quote) && Edge(t, e)
    ensures QuotedLen(t[..e], quote) == Min(QuotedLen(t, quote), e)
    decreases e
  {
    if e > 0 {
      CutTail(t, e, 1);
      if t[0] != quote {
        CutQuoted(t[1..], quote, e - 1);
      } else if e > 1 && t[1] == quote {
        CutTail(t, e, 2);
        CutQuoted(t[2..], quote, e - 2);
      }
    }
  }

  lemma {:induction false} CutLine(t: Text, e: nat)
    requires e <= |t|
    ensures LineLen(t[..e]) == Min(LineLen(t), e)
    decreases e
  {
    if e > 0 && t[0] != '\n' {
      assert t[..e][1..] == t[1..][..e - 1];
      CutLine(t[1..], e - 1);
    }
  }

  lemma CutOpens(t: Text, a: char, b: char, e: nat)
    requires Edge(t, e) && !IsInert(b)
    ensures Opens(t[..e], a, b) == (e > 0 && Opens(t, a, b))
    ensures e > 0 && Opens(t, a, b) ==> e > 1
  {
  }

  lemma {:induction false} CutBlock(t: Text, depth: nat, e: nat)
    requires Edge(t, e)
    ensures BlockLen(t[..e], depth) == Min(BlockLen(t, depth), e)
    decreases e
  {
    CutOpens(t, '/', '*', e);
    CutOpens(t, '*', '/', e);
    if e == 0 {
    } else if Opens(t, '/', '*') {
      CutTail(t, e, 2);
      CutBlock(t[2..], depth + 1, e - 2);
    } else if Opens(t, '*', '/') {
      CutTail(t, e, 2);
      if depth > 1 { CutBlock(t[2..], depth - 1, e - 2); }
    } else {
      CutTail(t, e, 1);
      CutBlock(t[1..], depth, e - 1);
    }
  }

  lemma {:induction false} TagCharsIs(t: Text, n: nat)
    requires n < |t| && !IsTagChar(t[n]) && forall k :: 0 <= k < n ==> IsTagChar(t[k])
    ensures TagChars(t) == n
  {
    if n > 0 { TagCharsIs(t[1..], n - 1); }
  }

  /** The tag at the front depends only on the characters it is made of. */
  lemma DollarTagIs(t: Text, n: nat)
    requires 2 <= n <= |t| && n <= TAG_WINDOW && t[0] == '$' && t[n - 1] == '$'
    requires forall k :: 0 < k < n - 1 ==> IsTagChar(t[k])
    requires n > 2 ==> !IsDigit(t[1])
    ensures DollarTag(t) == Some(n)
  {
    TagCharsIs(t[..Min(|t|, TAG_WINDOW)][1..], n - 2);
  }

  lemma TagCharsAll(t: Text, k: nat)
    requires k < TagChars(t)
    ensures IsTagChar(t[k])
  {
    if k > 0 { TagCharsAll(t[1..], k - 1); }
  }

  lemma DollarTagShape(t: Text)
    requires DollarTag(t).Some?
    ensures var n := DollarTag(t).value;
            && n <= TAG_WINDOW && t[0] == '$' && t[n - 1] == '$'
            && (forall k :: 0 < k < n - 1 ==> IsTagChar(t[k]))
            && (n > 2 ==> !IsDigit(t[1]))
  {
    var w := t[..Min(|t|, TAG_WINDOW)];
    forall k | 0 < k < DollarTag(t).value - 1 ensures IsTagChar(t[k]) {
      TagCharsAll(w[1..], k - 1);
      assert w[1..][k - 1] == t[k];
    }
  }

  lemma CutTag(t: Text, e: nat)
    requires 0 < e && Edge(t, e)
    ensures DollarTag(t[..e]) == DollarTag(t)
    ensures DollarTag(t).Some? ==> DollarTag(t).value <= e
  {
    if DollarTag(t[..e]).Some? {
      DollarTagShape(t[..e]);
      DollarTagIs(t, DollarTag(t[..e]).value);
    } else if DollarTag(t).Some? {
      var n := DollarTag(t).value;
      DollarTagShape(t);
      assert n <= e;
      DollarTagIs(t[..e], n);
    }
  }

  lemma AtCut(t: Text, tag: Text, k: nat, e: nat)
    requires Edge(t, e) && k <= e && tag != ""
    requires forall j :: 0 <= j < |tag| ==> !IsInert(tag[j])
    ensures At(t[..e], k, tag) == At(t, k, tag)
  {
    if At(t, k, tag) {
      assert forall j :: k <= j < k + |tag| ==> t[j] == t[k..k + |tag|][j - k];
      assert t[..e][k..k + |tag|] == t[k..k + |tag|];
    } else if k + |tag| <= e {
      assert t[..e][k..k + |tag|] == t[k..k + |tag|];
    }
  }

  lemma {:induction false} CutThroughTag(t: Text, tag: Text, from: nat, e: nat)
    requires Edge(t, e) && from <= e
    requires forall k :: 0 <= k < |tag| ==> !IsInert(tag[k])
    requires tag != ""
    ensures ThroughTag(t[..e], tag, from) == Min(ThroughTag(t, tag, from), e)
    decreases e - from
  {
    AtCut(t, tag, from, e);
    if !At(t, from, tag) && from < e { CutThroughTag(t, tag, from + 1, e); }
  }

  /** The token at the front of a cut text is the original token, cut. */
  lemma CutToken(t: Text, e: nat)
    requires 0 < e && Edge(t, e)
    ensures IsNoise(t[..e]) == IsNoise(t)
    ensures TokenLen(t[..e]) == Min(TokenLen(t), e)
  {
    CutTag(t, e);
    CutTail(t, e, 1);
    if IsQuote(t[0]) {
      CutQuoted(t[1..], t[0], e - 1);
    } else if DollarTag(t).Some? {
      var n := DollarTag(t).value;
      DollarTagShape(t);
      assert t[..e][..n] == t[..n];
      CutThroughTag(t, t[..n], n, e);
    } else if Opens(t, '-', '-') {
      CutTail(t, e, 2);
      CutLine(t[2..], e - 2);
    } else if Opens(t, '/', '*') {
      CutTail(t, e, 2);
      CutBlock(t[2..], 1, e - 2);
    }
  }

  // ---------- Re-splitting a statement

  lemma {:induction false} CutIsOnePiece(t: Text, e: nat)
    requires Edge(t, e) && e <= |Pieces(t)[0]|
    ensures Pieces(t[..e]) == [t[..e]]
    decreases |t|
  {
    hide TokenLen;
    if e > 0 {
      var n := TokenLen(t);
      var m := Min(n, e);
      CutToken(t, e);
      assert t[..e][..m] + t[..e][m..] == t[..e];
      if n <= e {
        CutTail(t, e, n);
        CutIsOnePiece(t[n..], e - n);
      } else {
        assert t[..e][m..] == "";
      }
    }
  }

  /** The first piece is a prefix, and a semicolon or nothing follows it. */
  lemma {:induction false} FirstPiece(t: Text)
    ensures var n := |Pieces(t)[0]|; n <= |t| && Pieces(t)[0] == t[..n] && (n < |t| ==> t[n] == ';')
    decreases |t|
  {
    hide TokenLen;
    if t != "" && t[0] != ';' {
      var n := TokenLen(t);
      FirstPiece(t[n..]);
      var q := Pieces(t[n..])[0];
      assert t[..n] + t[n..][..|q|] == t[..n + |q|];
      assert Pieces(t)[0] == t[..n] + q;
    }
  }

  lemma OffsetGlue(front: Text, pieces: seq<Text>, k: nat)
    requires 0 < k < |pieces|
    ensures Offset(Glue(front, pieces), k) == |front| + Offset(pieces, k)
  {
    assert Glue(front, pieces)[1..] == pieces[1..];
  }

  lemma OffsetCons(pieces: seq<Text>, k: nat)
    requires 0 < k <= |pieces|
    ensures Offset([""] + pieces, k) == 1 + Offset(pieces, k - 1)
  {
    assert ([""] + pieces)[1..] == pieces;
  }

  lemma LaterPiece(t: Text, k: nat) returns (j: nat)
    requires 0 < k < |Pieces(t)|
    ensures t != "" && j < |Pieces(t[TokenLen(t)..])|
    ensures Pieces(t)[k] == Pieces(t[TokenLen(t)..])[j]
    ensures Offset(Pieces(t), k) == TokenLen(t) + Offset(Pieces(t[TokenLen(t)..]), j)
  {
    var rest := Pieces(t[TokenLen(t)..]);
    if t[0] == ';' {
      j := k - 1;
      OffsetCons(rest, k);
    } else {
      j := k;
      OffsetGlue(t[..TokenLen(t)], rest, k);
    }
  }

  /** Every piece starts the pieces of the text from its own offset on. */
  lemma {:induction false} PieceAt(t: Text, k: nat) returns (o: nat)
    requires k < |Pieces(t)|
    ensures o == Offset(Pieces(t), k) <= |t|
    ensures Pieces(t[o..])[0] == Pieces(t)[k]
    decreases |t|
  {
    hide TokenLen;
    if k == 0 {
      assert t[0..] == t;
      o := 0;
    } else {
      var j := LaterPiece(t, k);
      var n := TokenLen(t);
      var r := PieceAt(t[n..], j);
      o := n + r;
      DropDrop(t, n, o);
    }
  }

  lemma WhiteToken(t: Text)
    requires t != "" && IsWhite(t[0])
    ensures TokenLen(t) == 1
  {
  }

  /** Leading white space belongs to no token, so dropping it moves no boundary. */
  lemma {:induction false} SkipWhite(t: Text, i: nat)
    requires i <= |Pieces(t)[0]| && i <= |t| && AllWhite(t[..i])
    ensures Pieces(t[i..])[0] == Pieces(t)[0][i..]
    decreases i
  {
    if i > 0 {
      assert IsWhite(t[..i][0]) && AllWhite(t[1..][..i - 1]) by {
        assert t[1..][..i - 1] == t[..i][1..];
      }
      WhiteToken(t);
      hide TokenLen;
      assert Pieces(t)[0] == t[..1] + Pieces(t[1..])[0];
      SkipWhite(t[1..], i - 1);
      DropDrop(t, 1, i);
    }
  }

  lemma TrimmedFirstPiece(t: Text)
    ensures var text := Trim(Pieces(t)[0]); Pieces(text) == [text]
  {
    hide TokenLen;
    var p := Pieces(t)[0];
    var i := |p| - |TrimLeft(p)|;
    FirstPiece(t);
    TrimLeftIs(p);
    assert t[..i] == p[..i];
    SkipWhite(t, i);
    TrimRightOfFirstPiece(t[i..]);
  }

  lemma TrimRightOfFirstPiece(t: Text)
    ensures var text := TrimRight(Pieces(t)[0]); Pieces(text) == [text]
  {
    hide TokenLen;
    var p := Pieces(t)[0];
    var e := |TrimRight(p)|;
    FirstPiece(t);
    TrimRightIs(p);
    if e < |p| { assert p[e..][0] == t[e]; }
    CutIsOnePiece(t, e);
    assert t[..e] == p[..e];
  }

  lemma StatementsOfOne(text: Text)
    requires text != "" && Trim(text) == text
    ensures Statements([text], 0) == [Statement(text, 0)]
  {
    assert [text][1..] == [];
  }

  /** Which piece a statement came from. */
  lemma {:induction false} StatementIsPiece(pieces: seq<Text>, offset: nat, s: Statement) returns (k: nat)
    requires s in Statements(pieces, offset)
    ensures k < |pieces| && s.text == Trim(pieces[k]) != "" && s.start == offset + Offset(pieces, k)
    decreases |pieces|
  {
    var text, rest := Trim(pieces[0]), Statements(pieces[1..], offset + |pieces[0]| + 1);
    if s in rest {
      var j := StatementIsPiece(pieces[1..], offset + |pieces[0]| + 1, s);
      k := j + 1;
      assert pieces[1..][j] == pieces[k];
      assert Offset(pieces, k) == |pieces[0]| + 1 + Offset(pieces[1..], j);
    } else {
      assert s == Statement(text, offset) && text != "";
      k := 0;
    }
  }

  /** Every statement text splits again into itself and nothing else. */
  lemma SplitIsStable(sql: Text, s: Statement)
    requires s in Split(sql)
    ensures Split(s.text) == [Statement(s.text, 0)]
  {
    var k := StatementIsPiece(Pieces(sql), 0, s);
    var o := PieceAt(sql, k);
    TrimmedFirstPiece(sql[o..]);
    TrimIsStable(Pieces(sql)[k]);
    StatementsOfOne(s.text);
  }

  /** A statement's text is found, behind white space only, at the offset reported for it. */
  lemma StatementIsWhereItSays(sql: Text, s: Statement)
    requires s in Split(sql)
    ensures s.start <= |sql| && s.text != "" && s.text <= TrimLeft(sql[s.start..])
  {
    hide TokenLen;
    var k := StatementIsPiece(Pieces(sql), 0, s);
    var o := PieceAt(sql, k);
    FirstPieceTrimmed(sql[o..]);
  }

  lemma FirstPieceTrimmed(t: Text)
    requires Trim(Pieces(t)[0]) != ""
    ensures Trim(Pieces(t)[0]) <= TrimLeft(t)
  {
    hide TokenLen;
    FirstPiece(t);
    TrimLeftOfLonger(Pieces(t)[0], t);
    TrimRightIs(TrimLeft(Pieces(t)[0]));
  }

  lemma {:induction false} TrimLeftOfLonger(p: Text, t: Text)
    requires p <= t && TrimLeft(p) != ""
    ensures TrimLeft(p) <= TrimLeft(t)
  {
    if IsWhite(p[0]) { TrimLeftOfLonger(p[1..], t[1..]); }
  }

  // ---------- The two scanners agree

  function Semicolons(t: Text): nat {
    if t == "" then 0 else (if t[0] == ';' then 1 else 0) + Semicolons(t[1..])
  }

  /** A semicolon is top level for the splitter exactly when blanking leaves it standing. */
  lemma {:induction false} ScannersAgree(t: Text)
    ensures |Pieces(t)| == Semicolons(Strip(t)) + 1
    decreases |t|
  {
    if t != "" { ScannersAgree(t[TokenLen(t)..]); }
  }

  function StripAll(pieces: seq<Text>): (r: seq<Text>)
    ensures |r| == |pieces|
  {
    if pieces == [] then [] else [Strip(pieces[0])] + StripAll(pieces[1..])
  }

  lemma StripStep(t: Text)
    requires t != ""
    ensures Strip(t) == [Blanked(t)] + Strip(t[TokenLen(t)..])
  {
  }

  lemma StripStepCut(t: Text, e: nat)
    requires Edge(t, e) && 0 < e && TokenLen(t) <= e
    ensures Strip(t[..e]) == [Blanked(t)] + Strip(t[TokenLen(t)..][..e - TokenLen(t)])
  {
    CutToken(t, e);
    CutTail(t, e, TokenLen(t));
    StripStep(t[..e]);
  }

  lemma StripAllGlue(front: Text, pieces: seq<Text>, c: char)
    requires pieces != [] && Strip(front + pieces[0]) == [c] + Strip(pieces[0])
    ensures StripAll(Glue(front, pieces)) == Glue([c], StripAll(pieces))
  {
    assert Glue(front, pieces)[1..] == pieces[1..];
  }

  lemma StripOfSemicolon(t: Text)
    requires t != "" && t[0] == ';'
    ensures TokenLen(t) == 1 && Strip(t) == ";" + Strip(t[1..])
  {
  }

  lemma JoinStripCons(pieces: seq<Text>)
    requires pieces != []
    ensures Join(StripAll([""] + pieces)) == ";" + Join(StripAll(pieces))
  {
    assert ([""] + pieces)[1..] == pieces;
    assert StripAll([""] + pieces)[1..] == StripAll(pieces);
  }

  /** Blanking a script is blanking its pieces one by one. */
  lemma {:induction false} StripPieceByPiece(t: Text)
    ensures Join(StripAll(Pieces(t))) == Strip(t)
    decreases |t|
  {
    hide TokenLen;
    if t != "" {
      var n := TokenLen(t);
      var ps := Pieces(t[n..]);
      StripPieceByPiece(t[n..]);
      if t[0] == ';' {
        StripOfSemicolon(t);
        JoinStripCons(ps);
      } else {
        FirstPiece(t);
        var e := |Pieces(t)[0]|;
        StripStepCut(t, e);
        FirstPiece(t[n..]);
        assert t[..n] + ps[0] == t[..e];
        StripAllGlue(t[..n], ps, Blanked(t));
        JoinGlue([Blanked(t)], StripAll(ps));
      }
    }
  }

  /** Characters of the output with no blank before them stood together in the input. */
  lemma {:induction false} StripKeepsRuns(t: Text, k: nat)
    requires k <= |Strip(t)| && ' ' !in Strip(t)[..k]
    ensures k <= |t| && forall j :: 0 <= j < k ==> t[j] == Strip(t)[j]
    decreases k
  {
    if k > 0 {
      var out := Strip(t);
      assert out[0] in out[..k];
      assert out[1..] == Strip(t[1..]);
      assert forall c :: c in out[1..][..k - 1] ==> c in out[..k];
      StripKeepsRuns(t[1..], k - 1);
    }
  }

  lemma StripOpensNothing(t: Text)
    requires t != ""
    ensures !IsNoise(Strip(t))
  {
    var out := Strip(t);
    if |out| >= 2 && ' ' !in out[..2] { StripKeepsRuns(t, 2); }
    if DollarTag(out).Some? {
      var n := DollarTag(out).value;
      DollarTagShape(out);
      assert ' ' !in out[..n];
      StripKeepsRuns(t, n);
      DollarTagIs(t, n);
    }
  }

  /** Once blanked, nothing is left to blank. */
  lemma {:induction false} StripIsIdempotent(t: Text)
    ensures Strip(Strip(t)) == Strip(t)
    decreases |t|
  {
    if t != "" {
      StripOpensNothing(t);
      var rest := t[TokenLen(t)..];
      StripIsIdempotent(rest);
      assert Strip(t)[1..] == Strip(rest);
    }
  }

  // ---------- What counts as one comment or one dollar-quoted body

  /** The inside of a block comment: characters and whole nested comments. */
  datatype Inside = Done | Char(c: char, rest: Inside) | Nested(inner: Inside, rest: Inside)

  function Written(x: Inside): Text {
    match x
    case Done => ""
    case Char(c, rest) => [c] + Written(rest)
    case Nested(inner, rest) => "/*" + Written(inner) + "*/" + Written(rest)
  }

  /** No two of its plain characters spell an opening or a closing by accident. */
  predicate Unambiguous(x: Inside) {
    match x
    case Done => true
    case Char(c, rest) =>
      var next := (Written(rest) + "*/")[0];
      !(c == '/' && next == '*') && !(c == '*' && next == '/') && Unambiguous(rest)
    case Nested(inner, rest) => Unambiguous(inner) && Unambiguous(rest)
  }

  lemma BlockSteps(c: char, t: Text, depth: nat)
    ensures BlockLen("/*" + t, depth) == 2 + BlockLen(t, depth + 1)
    ensures BlockLen("*/" + t, depth) == 2 + (if depth <= 1 then 0 else BlockLen(t, depth - 1))
    ensures t != "" && !(c == '/' && t[0] == '*') && !(c == '*' && t[0] == '/') ==>
              BlockLen([c] + t, depth) == 1 + BlockLen(t, depth)
  {
    assert ("/*" + t)[2..] == t && ("*/" + t)[2..] == t && ([c] + t)[1..] == t;
  }

  lemma Regroup(a: Text, b: Text, after: Text)
    ensures "/*" + a + "*/" + b + ("*/" + after) == "/*" + (a + ("*/" + (b + ("*/" + after))))
  {
  }

  lemma {:induction false} BlockLenOfWritten(x: Inside, depth: nat, after: Text)
    requires Unambiguous(x) && depth > 0
    ensures BlockLen(Written(x) + ("*/" + after), depth) ==
            |Written(x)| + 2 + (if depth <= 1 then 0 else BlockLen(after, depth - 1))
    decreases x
  {
    hide BlockLen;
    match x
    case Done =>
      BlockSteps(' ', after, depth);
      assert Written(x) == "";
      assert "" + ("*/" + after) == "*/" + after;
    case Char(c, rest) =>
      var t := Written(rest) + ("*/" + after);
      BlockLenOfWritten(rest, depth, after);
      assert t[0] == (Written(rest) + "*/")[0];
      BlockSteps(c, t, depth);
      ConcatAssoc([c], Written(rest), "*/" + after);
    case Nested(inner, rest) =>
      var later := Written(rest) + ("*/" + after);
      BlockLenOfWritten(inner, depth + 1, later);
      BlockLenOfWritten(rest, depth, after);
      BlockSteps(' ', Written(inner) + ("*/" + later), depth);
      Regroup(Written(inner), Written(rest), after);
  }

  /** Comments nest: a comment is one token up to the close that matches its opening. */
  lemma CommentIsOneToken(x: Inside, after: Text)
    requires Unambiguous(x)
    ensures var comment := "/*" + Written(x) + "*/";
            IsNoise(comment + after) && TokenLen(comment + after) == |comment|
  {
    var t := "/*" + Written(x) + "*/" + after;
    BlockLenOfWritten(x, 1, after);
    assert t[2..] == Written(x) + ("*/" + after);
    DollarFirst(t);
  }

  /** A dollar-quoted body is one token up to the first repetition of its tag, whatever it holds. */
  lemma DollarBodyIsOneToken(name: Text, body: Text, after: Text)
    requires |name| + 2 <= TAG_WINDOW && (name != "" ==> !IsDigit(name[0]))
    requires forall k :: 0 <= k < |name| ==> IsTagChar(name[k])
    requires forall k :: 0 <= k < |body| ==> !At(body + ("$" + name + "$"), k, "$" + name + "$")
    ensures var tag := "$" + name + "$";
            var t := tag + body + tag + after;
            IsNoise(t) && TokenLen(t) == |tag + body + tag|
  {
    var tag := "$" + name + "$";
    TagInFront(name, body + tag + after);
    ThroughFirst(tag, body, after);
    assert tag + (body + tag + after) == tag + body + tag + after;
  }

  lemma TagInFront(name: Text, rest: Text)
    requires |name| + 2 <= TAG_WINDOW && (name != "" ==> !IsDigit(name[0]))
    requires forall k :: 0 <= k < |name| ==> IsTagChar(name[k])
    ensures var tag := "$" + name + "$";
            DollarTag(tag + rest) == Some(|tag|) && (tag + rest)[..|tag|] == tag
  {
    DollarTagIs("$" + name + "$" + rest, |name| + 2);
  }

  lemma ThroughFirst(tag: Text, body: Text, after: Text)
    requires forall k :: 0 <= k < |body| ==> !At(body + tag, k, tag)
    ensures ThroughTag(tag + body + tag + after, tag, |tag|) == |tag + body + tag|
  {
    var t, n := tag + body + tag + after, |tag|;
    forall k | n <= k < n + |body| ensures !At(t, k, tag) {
      assert !At(body + tag, k - n, tag);
      assert t[k..k + n] == (body + tag)[k - n..k];
    }
    assert t[n + |body|..n + |body| + n] == tag;
    FirstIndexIs(t, tag, n, n + |body|);
  }

  lemma {:induction false} FirstIndexIs(t: Text, tag: Text, from: nat, at: nat)
    requires from <= at && At(t, at, tag) && forall k :: from <= k < at ==> !At(t, k, tag)
    ensures IndexOf(t, tag, from) == Some(at)
    decreases at - from
  {
    if from < at { FirstIndexIs(t, tag, from + 1, at); }
  }

  // ---------- Printing names and literals

  /** `replace(/q/g, "qq")`. */
  function Doubled(value: Text, quote: char): Text {
    if value == "" then ""
    else (if value[0] == quote then [quote, quote] else [value[0]]) + Doubled(value[1..], quote)
  }

  function Quoted(value: Text, quote: char): Text { [quote] + Doubled(value, quote) + [quote] }

  function QuoteLiteral(value: Text): Text { Quoted(value, '\'') }

  const MAX_IDENTIFIER: nat := 128

  /** None stands for UnsafeIdentifierError. */
  function QuoteIdent(value: Text): Option<Text> {
    if |value| == 0 || |value| > MAX_IDENTIFIER || '\0' in value then None
    else Some(Quoted(value, '"'))
  }

  /** Reading a literal's contents back: a doubled quote is one quote. */
  function Undoubled(body: Text, quote: char): Text {
    if body == "" then ""
    else if body[0] == quote && |body| > 1 then [quote] + Undoubled(body[2..], quote)
    else [body[0]] + Undoubled(body[1..], quote)
  }

  lemma {:induction false} UndoubledDoubled(value: Text, quote: char)
    ensures Undoubled(Doubled(value, quote), quote) == value
  {
    if value != "" {
      var rest := Doubled(value[1..], quote);
      UndoubledDoubled(value[1..], quote);
      if value[0] == quote {
        assert ([quote, quote] + rest)[2..] == rest;
      } else {
        assert ([value[0]] + rest)[1..] == rest;
      }
    }
  }

  /** The scanner stops after the closing quote unless the same quote follows it. */
  lemma {:induction false} QuotedLenOfDoubled(value: Text, quote: char, rest: Text)
    ensures QuotedLen(Doubled(value, quote) + [quote] + rest, quote) == |Doubled(value, quote)| + 1
            <==> !([quote] <= rest)
  {
    var body := Doubled(value, quote);
    var t := body + [quote] + rest;
    if value == "" {
      assert t[1..] == rest;
    } else {
      var later := Doubled(value[1..], quote);
      QuotedLenOfDoubled(value[1..], quote, rest);
      assert t[if value[0] == quote then 2 else 1..] == later + [quote] + rest;
    }
  }

  /**
   * A printed name or literal is read back as one token, from which the printed value can be
   * recovered, if and only if the text behind it does not begin with the same quote.
   */
  lemma PrintedIsOneToken(value: Text, quote: char, rest: Text)
    requires quote == '\'' || quote == '"'
    ensures TokenLen(Quoted(value, quote) + rest) == |Quoted(value, quote)| <==> !([quote] <= rest)
    ensures var printed := Quoted(value, quote);
            Undoubled(printed[1..|printed| - 1], quote) == value
  {
    var printed := Quoted(value, quote);
    var t := printed + rest;
    QuotedLenOfDoubled(value, quote, rest);
    assert t[1..] == Doubled(value, quote) + [quote] + rest;
    UndoubledDoubled(value, quote);
    assert printed[1..|printed| - 1] == Doubled(value, quote);
  }

  /** So no value can carry a semicolon or a keyword out of its quotes. */
  lemma PrintedIsInert(value: Text, quote: char, rest: Text)
    requires (quote == '\'' || quote == '"') && !([quote] <= rest)
    ensures Pieces(Quoted(value, quote) + rest) == Glue(Quoted(value, quote), Pieces(rest))
    ensures Strip(Quoted(value, quote) + rest) == " " + Strip(rest)
  {
    var t := Quoted(value, quote) + rest;
    PrintedIsOneToken(value, quote, rest);
    assert t[..TokenLen(t)] == Quoted(value, quote) && t[TokenLen(t)..] == rest;
  }

  /** Two identifiers print alike only if they are the same identifier. */
  lemma PrintingIsInjective(a: Text, b: Text)
    requires QuoteIdent(a).Some? && QuoteIdent(a) == QuoteIdent(b)
    ensures a == b
  {
    PrintedIsOneToken(a, '"', "");
    PrintedIsOneToken(b, '"', "");
  }

  // ---------- The scanners themselves

  predicate CharAt(sql: Text, i: nat, c: char) { i < |sql| && sql[i] == c }

  method SkipQuoted(sql: Text, from: nat, quote: char) returns (i: nat)
    requires from < |sql|
    ensures i == from + 1 + QuotedLen(sql[from + 1..], quote)
  {
    i := from + 1;
    while i < |sql|
      invariant i <= |sql|
      invariant i + QuotedLen(sql[i..], quote) == from + 1 + QuotedLen(sql[from + 1..], quote)
    {
      if sql[i] == quote {
        if CharAt(sql, i + 1, quote) {
          DropDrop(sql, i, i + 2);
          i := i + 2;
          continue;
        }
        return i + 1;
      }
      DropDrop(sql, i, i + 1);
      i := i + 1;
    }
  }

  predicate OpensAt(sql: Text, i: nat, a: char, b: char) { CharAt(sql, i, a) && CharAt(sql, i + 1, b) }

  lemma BlockStep(sql: Text, i: nat, depth: nat)
    requires i < |sql|
    ensures BlockLen(sql[i..], depth) ==
            if OpensAt(sql, i, '/', '*') then 2 + BlockLen(sql[i + 2..], depth + 1)
            else if !OpensAt(sql, i, '*', '/') then 1 + BlockLen(sql[i + 1..], depth)
            else if depth <= 1 then 2
            else 2 + BlockLen(sql[i + 2..], depth - 1)
  {
    DropDrop(sql, i, i + 1);
    if i + 2 <= |sql| { DropDrop(sql, i, i + 2); }
  }

  method SkipBlockComment(sql: Text, from: nat) returns (i: nat)
    requires OpensAt(sql, from, '/', '*')
    ensures i == from + 2 + BlockLen(sql[from + 2..], 1)
  {
    ghost var end := from + 2 + BlockLen(sql[from + 2..], 1);
    var depth: nat := 0;
    i := from;
    while i < |sql|
      invariant from <= i <= |sql|
      invariant if i == from then depth == 0 else depth > 0 && i + BlockLen(sql[i..], depth) == end
    {
      BlockStep(sql, i, depth);
      if sql[i] == '/' && CharAt(sql, i + 1, '*') {
        depth := depth + 1;
        i := i + 2;
        continue;
      }
      if sql[i] == '*' && CharAt(sql, i + 1, '/') {
        depth := depth - 1;
        i := i + 2;
        if depth == 0 { return; }
        continue;
      }
      i := i + 1;
    }
  }

  function SkipDollarQuoted(sql: Text, from: nat, tag: Text): nat
    requires from + |tag| <= |sql|
  {
    var end := IndexOf(sql, tag, from + |tag|);
    if end.None? then |sql| else end.value + |tag|
  }

  lemma {:induction false} IndexOfIs(t: Text, tag: Text, from: nat)
    requires from <= |t|
    ensures var r := IndexOf(t, tag, from);
            forall k :: from <= k < (if r.Some? then r.value else |t|) ==> !At(t, k, tag)
    ensures IndexOf(t, tag, from).Some? ==> At(t, IndexOf(t, tag, from).value, tag)
    decreases |t| - from
  {
    if !At(t, from, tag) && from < |t| { IndexOfIs(t, tag, from + 1); }
  }

  lemma {:induction false} IndexOfShift(t: Text, tag: Text, from: nat, k: nat)
    requires from + k <= |t|
    ensures IndexOf(t[from..], tag, k) ==
            if IndexOf(t, tag, from + k).None? then None else Some(IndexOf(t, tag, from + k).value - from)
    decreases |t| - k
  {
    if from + k + |tag| <= |t| {
      assert t[from..][k..k + |tag|] == t[from + k..from + k + |tag|];
    }
    assert At(t[from..], k, tag) == At(t, from + k, tag);
    hide At;
    if !At(t, from + k, tag) && from + k < |t| { IndexOfShift(t, tag, from, k + 1); }
  }

  lemma {:induction false} LineIsIndexOf(t: Text, from: nat)
    requires from <= |t|
    ensures from + LineLen(t[from..]) ==
            if IndexOf(t, "\n", from).None? then |t| else IndexOf(t, "\n", from).value
    decreases |t| - from
  {
    if from < |t| {
      assert t[from..from + 1] == [t[from]];
      if t[from] != '\n' {
        LineIsIndexOf(t, from + 1);
        DropDrop(t, from, from + 1);
      }
    }
  }

  lemma QuoteToken(sql: Text, i: nat)
    requires i < |sql| && IsQuote(sql[i])
    ensures IsNoise(sql[i..]) && TokenLen(sql[i..]) == 1 + QuotedLen(sql[i + 1..], sql[i])
  {
    DropDrop(sql, i, i + 1);
  }

  lemma DollarToken(sql: Text, i: nat)
    requires i < |sql| && DollarTag(sql[i..]).Some?
    ensures IsNoise(sql[i..])
    ensures var n := DollarTag(sql[i..]).value;
            i + TokenLen(sql[i..]) == SkipDollarQuoted(sql, i, sql[i..i + n])
  {
    var n := DollarTag(sql[i..]).value;
    assert sql[i..][..n] == sql[i..i + n];
    IndexOfShift(sql, sql[i..i + n], i, n);
  }

  predicate NotQuoted(t: Text) { t != "" && !IsQuote(t[0]) && DollarTag(t).None? }

  lemma DollarFirst(t: Text)
    requires t != "" && t[0] != '$'
    ensures DollarTag(t).None?
  {
  }

  lemma LineToken(sql: Text, i: nat)
    requires i < |sql| && NotQuoted(sql[i..]) && Opens(sql[i..], '-', '-')
    ensures IsNoise(sql[i..])
    ensures i + TokenLen(sql[i..]) ==
            if IndexOf(sql, "\n", i).None? then |sql| else IndexOf(sql, "\n", i).value
  {
    LineIsIndexOf(sql, i);
    DropDrop(sql, i, i + 1);
    DropDrop(sql, i, i + 2);
  }

  lemma BlockToken(sql: Text, i: nat)
    requires i < |sql| && NotQuoted(sql[i..]) && Opens(sql[i..], '/', '*')
    ensures IsNoise(sql[i..]) && TokenLen(sql[i..]) == 2 + BlockLen(sql[i + 2..], 1)
  {
    DropDrop(sql, i, i + 2);
  }

  lemma PlainToken(sql: Text, i: nat)
    requires i < |sql| && NotQuoted(sql[i..])
    requires !Opens(sql[i..], '-', '-') && !Opens(sql[i..], '/', '*')
    ensures !IsNoise(sql[i..]) && TokenLen(sql[i..]) == 1
  {
  }

  /** What is left to find once the scan has reached `i` in the piece that began at `start`. */
  function Unscanned(sql: Text, start: nat, i: nat): seq<Statement>
    requires start <= i <= |sql|
  {
    Statements(Glue(sql[start..i], Pieces(sql[i..])), start)
  }

  lemma ScanToken(sql: Text, start: nat, i: nat, end: nat)
    requires start <= i < |sql| && sql[i] != ';' && end == i + TokenLen(sql[i..])
    ensures Unscanned(sql, start, i) == Unscanned(sql, start, end)
  {
    hide TokenLen;
    var n := end - i;
    var ps := Pieces(sql[end..]);
    DropDrop(sql, i, end);
    assert sql[i..][..n] == sql[i..end] && sql[start..i] + sql[i..end] == sql[start..end];
    assert sql[start..i] + (sql[i..end] + ps[0]) == sql[start..end] + ps[0];
    assert Glue(sql[start..i], Glue(sql[i..end], ps)) == Glue(sql[start..end], ps);
  }

  /** The splitter steps over the newline that ends a comment; the blanker stops in front of it. */
  lemma ScanLineComment(sql: Text, start: nat, i: nat)
    requires start <= i < |sql| && NotQuoted(sql[i..]) && Opens(sql[i..], '-', '-')
    ensures var newline := IndexOf(sql, "\n", i);
            && (newline.Some? ==> newline.value < |sql|)
            && Unscanned(sql, start, i) ==
               Unscanned(sql, start, if newline.None? then |sql| else newline.value + 1)
  {
    hide TokenLen, Unscanned, IndexOf;
    LineToken(sql, i);
    ScanToken(sql, start, i, i + TokenLen(sql[i..]));
    if IndexOf(sql, "\n", i).Some? { ScanNewline(sql, start, i); }
  }

  lemma ScanNewline(sql: Text, start: nat, from: nat)
    requires start <= from <= |sql| && IndexOf(sql, "\n", from).Some?
    ensures var newline := IndexOf(sql, "\n", from).value;
            newline < |sql| && Unscanned(sql, start, newline) == Unscanned(sql, start, newline + 1)
  {
    var newline := IndexOf(sql, "\n", from).value;
    IndexOfIs(sql, "\n", from);
    assert sql[newline..newline + 1][0] == '\n';
    DollarFirst(sql[newline..]);
    PlainToken(sql, newline);
    ScanToken(sql, start, newline, newline + 1);
  }

  function Pushed(sql: Text, statements: seq<Statement>, start: nat, end: nat): seq<Statement>
    requires start <= end <= |sql|
  {
    var text := Trim(sql[start..end]);
    if |text| > 0 then statements + [Statement(text, start)] else statements
  }

  lemma GlueNothing(pieces: seq<Text>)
    requires pieces != []
    ensures Glue("", pieces) == pieces
  {
    assert "" + pieces[0] == pieces[0];
  }

  lemma StatementsOfLast(pieces: seq<Text>, start: nat)
    requires |pieces| == 1
    ensures Statements(pieces, start) ==
            if Trim(pieces[0]) == "" then [] else [Statement(Trim(pieces[0]), start)]
  {
  }

  lemma ScanSemicolon(sql: Text, statements: seq<Statement>, start: nat, i: nat)
    requires start <= i < |sql| && sql[i] == ';'
    ensures statements + Unscanned(sql, start, i) ==
            Pushed(sql, statements, start, i) + Unscanned(sql, i + 1, i + 1)
  {
    var ps := Pieces(sql[i + 1..]);
    DropDrop(sql, i, i + 1);
    assert Pieces(sql[i..]) == [""] + ps;
    var glued := Glue(sql[start..i], [""] + ps);
    assert glued[0] == sql[start..i] && glued[1..] == ps;
    GlueNothing(ps);
    assert sql[i + 1..i + 1] == "";
  }

  lemma ScanEnd(sql: Text, statements: seq<Statement>, start: nat)
    requires start <= |sql|
    ensures statements + Unscanned(sql, start, |sql|) == Pushed(sql, statements, start, |sql|)
  {
    var glued := Glue(sql[start..], [""]);
    assert sql[|sql|..] == "" && sql[start..|sql|] == sql[start..];
    assert Pieces("") == [""];
    assert glued[0] == sql[start..] && glued[1..] == [];
    StatementsOfLast(glued, start);
  }

  lemma ScanStart(sql: Text)
    ensures [] + Unscanned(sql, 0, 0) == Split(sql)
  {
    assert sql[0..0] == "" && sql[0..] == sql;
    GlueNothing(Pieces(sql));
  }

  method SplitStatements(sql: Text) returns (statements: seq<Statement>)
    ensures statements == Split(sql)
  {
    hide TokenLen, IsNoise, DollarTag, IndexOf, QuotedLen, BlockLen, Pieces, Unscanned;
    statements := [];
    var start, i := 0, 0;
    ScanStart(sql);
    while i < |sql|
      invariant start <= i <= |sql|
      invariant Split(sql) == statements + Unscanned(sql, start, i)
    {
      var ch := sql[i];
      if IsQuote(ch) {
        var end := SkipQuoted(sql, i, ch);
        QuoteToken(sql, i);
        ScanToken(sql, start, i, end);
        i := end;
        continue;
      }
      if ch == '$' && DollarTag(sql[i..]).Some? {
        var end := SkipDollarQuoted(sql, i, sql[i..i + DollarTag(sql[i..]).value]);
        DollarToken(sql, i);
        ScanToken(sql, start, i, end);
        i := end;
        continue;
      }
      if ch != '$' { DollarFirst(sql[i..]); }
      if ch == '-' && CharAt(sql, i + 1, '-') {
        var newline := IndexOf(sql, "\n", i);
        LineToken(sql, i);
        ScanLineComment(sql, start, i);
        i := if newline.None? then |sql| else newline.value + 1;
        continue;
      }
      if ch == '/' && CharAt(sql, i + 1, '*') {
        var end := SkipBlockComment(sql, i);
        BlockToken(sql, i);
        ScanToken(sql, start, i, end);
        i := end;
        continue;
      }
      if ch == ';' {
        ScanSemicolon(sql, statements, start, i);
        statements := Pushed(sql, statements, start, i);
        start := i + 1;
        i := i + 1;
        continue;
      }
      PlainToken(sql, i);
      ScanToken(sql, start, i, i + 1);
      i := i + 1;
    }
    ScanEnd(sql, statements, start);
    statements := Pushed(sql, statements, start, |sql|);
  }

  lemma BlankToken(sql: Text, out: Text, i: nat)
    requires i < |sql|
    ensures out + Strip(sql[i..]) == out + [Blanked(sql[i..])] + Strip(sql[i + TokenLen(sql[i..])..])
  {
    StripStep(sql[i..]);
    DropDrop(sql, i, i + TokenLen(sql[i..]));
    ConcatAssoc(out, [Blanked(sql[i..])], Strip(sql[i + TokenLen(sql[i..])..]));
  }

  lemma StripNothing(t: Text)
    requires t == ""
    ensures Strip(t) == ""
  {
  }

  method StripNoise(sql: Text) returns (out: Text)
    ensures out == Strip(sql)
  {
    hide TokenLen, IsNoise, DollarTag, IndexOf, QuotedLen, BlockLen, Strip;
    out := "";
    var i := 0;
    assert sql[0..] == sql && "" + Strip(sql) == Strip(sql);
    while i < |sql|
      invariant i <= |sql|
      invariant Strip(sql) == out + Strip(sql[i..])
    {
      var ch := sql[i];
      BlankToken(sql, out, i);
      if IsQuote(ch) {
        QuoteToken(sql, i);
        out := out + " ";
        i := SkipQuoted(sql, i, ch);
        continue;
      }
      if ch == '$' && DollarTag(sql[i..]).Some? {
        DollarToken(sql, i);
        out := out + " ";
        i := SkipDollarQuoted(sql, i, sql[i..i + DollarTag(sql[i..]).value]);
        continue;
      }
      if ch != '$' { DollarFirst(sql[i..]); }
      if ch == '-' && CharAt(sql, i + 1, '-') {
        LineToken(sql, i);
        var newline := IndexOf(sql, "\n", i);
        out := out + " ";
        i := if newline.None? then |sql| else newline.value;
        continue;
      }
      if ch == '/' && CharAt(sql, i + 1, '*') {
        BlockToken(sql, i);
        out := out + " ";
        i := SkipBlockComment(sql, i);
        continue;
      }
      PlainToken(sql, i);
      out := out + [ch];
      i := i + 1;
    }
    StripNothing(sql[|sql|..]);
  }
}
