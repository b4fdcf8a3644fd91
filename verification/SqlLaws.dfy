/** What the two SQL scanners make of a script written lexeme by lexeme, in literal characters. */
module SqlLaws {
  import opened Bytes
  import opened Strings
  import opened SqlText

  // ---------------------------------------------------------------------------
  // Where a literal or comment begins

  predicate Letter(c: char) { 'a' <= c <= 'z' || 'A' <= c <= 'Z' || c == '_' }

  predicate Digit(c: char) { '0' <= c <= '9' }

  /** A dollar-quote tag's name: an ASCII identifier or nothing. */
  predicate TagName(name: Text) {
    && (forall k :: 0 <= k < |name| ==> Letter(name[k]) || Digit(name[k]))
    && (name != "" ==> !Digit(name[0]))
  }

  predicate StartsTag(t: Text, n: nat) {
    2 <= n <= |t| && n <= 130 && t[0] == '$' && t[n - 1] == '$' && TagName(t[1..n - 1])
  }

  lemma TagIff(t: Text, n: nat)
    ensures DollarTag(t) == Some(n) <==> StartsTag(t, n)
  {
    if DollarTag(t).Some? {
      var k := DollarTag(t).value;
      DollarTagShape(t);
      var name := t[1..k - 1];
      forall j | 0 <= j < |name| ensures Letter(name[j]) || Digit(name[j]) {
        assert name[j] == t[j + 1];
      }
      assert StartsTag(t, k);
    }
    if StartsTag(t, n) {
      assert forall j :: 0 < j < n - 1 ==> t[j] == t[1..n - 1][j - 1];
      DollarTagIs(t, n);
    }
  }

  /** The four things the scanners track, and nothing else. */
  lemma NoiseIff(t: Text)
    requires t != ""
    ensures IsNoise(t) <==>
              || t[0] == '\'' || t[0] == '"'
              || (|t| > 1 && t[0] == '-' && t[1] == '-')
              || (|t| > 1 && t[0] == '/' && t[1] == '*')
              || (exists n :: StartsTag(t, n))
  {
    if DollarTag(t).Some? { TagIff(t, DollarTag(t).value); }
    if n :| StartsTag(t, n) { TagIff(t, n); }
  }

  /** Everything else stands for itself. */
  lemma PlainCharacter(t: Text)
    requires t != "" && t[0] != '\'' && t[0] != '"'
    requires !("--" <= t) && !("/*" <= t) && forall n :: !StartsTag(t, n)
    ensures TokenLen(t) == 1 && Strip(t) == [t[0]] + Strip(t[1..])
    ensures t[0] != ';' ==> Pieces(t) == Glue(t[..1], Pieces(t[1..]))
  {
    NoiseIff(t);
  }

  // ---------------------------------------------------------------------------
  // Scripts

  datatype Lexeme =
    | Plain(c: char)
    | Semicolon
    | Name(value: Text)
    | Literal(value: Text)
    | LineComment(body: Text)
    | BlockComment(inside: Inside)
    | Dollar(name: Text, body: Text)

  function Spell(x: Lexeme): Text {
    match x
    case Plain(c) => [c]
    case Semicolon => ";"
    case Name(value) => "\"" + Doubled(value, '"') + "\""
    case Literal(value) => "'" + Doubled(value, '\'') + "'"
    case LineComment(body) => "--" + body
    case BlockComment(inside) => "/*" + Written(inside) + "*/"
    case Dollar(name, body) => "$" + name + "$" + body + "$" + name + "$"
  }

  function SpellAll(xs: seq<Lexeme>): Text {
    if xs == [] then "" else Spell(xs[0]) + SpellAll(xs[1..])
  }

  /** `x` means what it says when `rest` is the text behind it. */
  ghost predicate Fits(x: Lexeme, rest: Text) {
    match x
    case Plain(c) =>
      && c != '\'' && c != '"' && c != ';'
      && !("--" <= [c] + rest) && !("/*" <= [c] + rest)
      && (forall n :: !StartsTag([c] + rest, n))
    case Semicolon => true
    case Name(_) => !("\"" <= rest)
    case Literal(_) => !("'" <= rest)
    case LineComment(body) => '\n' !in body && (rest != "" ==> rest[0] == '\n')
    case BlockComment(inside) => Unambiguous(inside)
    case Dollar(name, body) =>
      && |name| <= 128 && TagName(name)
      && (forall k :: 0 <= k < |body| ==> !At(body + ("$" + name + "$"), k, "$" + name + "$"))
  }

  ghost predicate Script(xs: seq<Lexeme>) {
    xs == [] || (Fits(xs[0], SpellAll(xs[1..])) && Script(xs[1..]))
  }

  /** What blanking leaves of a script. */
  function Bare(xs: seq<Lexeme>): Text {
    if xs == [] then ""
    else
      var shown := match xs[0]
        case Plain(c) => [c]
        case Semicolon => ";"
        case _ => " ";
      shown + Bare(xs[1..])
  }

  /** A script cut at its semicolons, and only there. */
  function CutUp(xs: seq<Lexeme>): (r: seq<Text>)
    ensures r != []
  {
    if xs == [] then [""]
    else
      var later := CutUp(xs[1..]);
      if xs[0].Semicolon? then [""] + later else [Spell(xs[0]) + later[0]] + later[1..]
  }

  lemma NoiseBlanks(token: Text, rest: Text)
    requires token != "" && token[0] != ';'
    requires IsNoise(token + rest) && TokenLen(token + rest) == |token|
    ensures Strip(token + rest) == " " + Strip(rest)
    ensures Pieces(token + rest) == Glue(token, Pieces(rest))
  {
    hide TokenLen, IsNoise;
    var t := token + rest;
    assert t[..|token|] == token && t[|token|..] == rest;
  }

  lemma {:induction false} LineLenIs(body: Text, rest: Text)
    requires '\n' !in body && (rest != "" ==> rest[0] == '\n')
    ensures LineLen(body + rest) == |body|
  {
    if body == "" {
      assert body + rest == rest;
    } else {
      assert (body + rest)[1..] == body[1..] + rest;
      assert body[0] in body && forall c :: c in body[1..] ==> c in body;
      LineLenIs(body[1..], rest);
    }
  }

  /** A line comment runs up to the newline, which it leaves standing. */
  lemma LineCommentIsOneToken(body: Text, rest: Text)
    requires '\n' !in body && (rest != "" ==> rest[0] == '\n')
    ensures IsNoise("--" + body + rest) && TokenLen("--" + body + rest) == |"--" + body|
  {
    var t := "--" + body + rest;
    LineLenIs(body, rest);
    assert t[2..] == body + rest;
    DollarFirst(t);
  }

  /** No two characters of `t`, the first of `follow` counted, open or close a comment. */
  predicate NoMarks(t: Text, follow: char) {
    forall k {:trigger t[k]} :: 0 <= k < |t| ==>
      var next := if k + 1 < |t| then t[k + 1] else follow;
      !(t[k] == '/' && next == '*') && !(t[k] == '*' && next == '/')
  }

  function Characters(t: Text, rest: Inside): Inside {
    if t == "" then rest else Char(t[0], Characters(t[1..], rest))
  }

  lemma {:induction false} CharactersAre(t: Text, rest: Inside)
    requires Unambiguous(rest) && NoMarks(t, (Written(rest) + "*/")[0])
    ensures Unambiguous(Characters(t, rest)) && Written(Characters(t, rest)) == t + Written(rest)
  {
    if t != "" {
      var later := t[1..];
      assert forall k {:trigger later[k]} :: 0 <= k < |later| ==> later[k] == t[k + 1];
      CharactersAre(later, rest);
      assert (Written(Characters(later, rest)) + "*/")[0] == if later != "" then t[1] else (Written(rest) + "*/")[0];
      assert t == [t[0]] + later;
    }
  }

  /** A comment with nothing in it that looks like one ends at its own close. */
  lemma FlatCommentIsOneToken(body: Text, after: Text)
    requires NoMarks(body, '*')
    ensures var comment := "/*" + body + "*/";
            IsNoise(comment + after) && TokenLen(comment + after) == |comment|
  {
    assert Written(Done) == "" && ("" + "*/")[0] == '*';
    CharactersAre(body, Done);
    assert body + "" == body;
    CommentIsOneToken(Characters(body, Done), after);
  }

  /** A comment in a comment has to be closed first. */
  lemma NestedCommentIsOneToken(front: Text, inner: Text, back: Text, after: Text)
    requires NoMarks(front, '/') && NoMarks(inner, '*') && NoMarks(back, '*')
    ensures var comment := "/*" + (front + ("/*" + inner + "*/" + back)) + "*/";
            IsNoise(comment + after) && TokenLen(comment + after) == |comment|
  {
    assert Written(Done) == "" && ("" + "*/")[0] == '*';
    CharactersAre(inner, Done);
    CharactersAre(back, Done);
    assert inner + "" == inner && back + "" == back;
    var nested := Nested(Characters(inner, Done), Characters(back, Done));
    assert Written(nested) == "/*" + inner + "*/" + back;
    assert (Written(nested) + "*/")[0] == '/';
    CharactersAre(front, nested);
    CommentIsOneToken(Characters(front, nested), after);
  }

  lemma SpelledName(value: Text, rest: Text)
    requires !("\"" <= rest)
    ensures var token := Spell(Name(value)); IsNoise(token + rest) && TokenLen(token + rest) == |token|
  {
    PrintedIsOneToken(value, '"', rest);
    assert Spell(Name(value)) == Quoted(value, '"');
  }

  lemma SpelledLiteral(value: Text, rest: Text)
    requires !("'" <= rest)
    ensures var token := Spell(Literal(value)); IsNoise(token + rest) && TokenLen(token + rest) == |token|
  {
    PrintedIsOneToken(value, '\'', rest);
    assert Spell(Literal(value)) == Quoted(value, '\'');
  }

  lemma SameSpelling(name: Text, body: Text)
    ensures var tag := "$" + name + "$"; Spell(Dollar(name, body)) == tag + body + tag
  {
    assert "$" + name + "$" + body + "$" + name + "$" == ("$" + name + "$") + body + ("$" + name + "$");
  }

  lemma SpelledDollar(name: Text, body: Text, rest: Text)
    requires Fits(Dollar(name, body), rest)
    ensures var token := Spell(Dollar(name, body)); IsNoise(token + rest) && TokenLen(token + rest) == |token|
  {
    hide TokenLen, IsNoise, Spell;
    DollarBodyIsOneToken(name, body, rest);
    SameSpelling(name, body);
  }

  lemma LexemeIsOneToken(x: Lexeme, rest: Text)
    requires Fits(x, rest) && !x.Plain? && !x.Semicolon?
    ensures IsNoise(Spell(x) + rest) && TokenLen(Spell(x) + rest) == |Spell(x)|
    ensures Spell(x) != "" && Spell(x)[0] != ';'
  {
    hide IsNoise, TokenLen, Pieces, Strip;
    match x
    case Name(value) => SpelledName(value, rest);
    case Literal(value) => SpelledLiteral(value, rest);
    case LineComment(body) => LineCommentIsOneToken(body, rest);
    case BlockComment(inside) => CommentIsOneToken(inside, rest);
    case Dollar(name, body) => SpelledDollar(name, body, rest);
  }

  lemma PlainInFront(c: char, rest: Text)
    requires Fits(Plain(c), rest)
    ensures Strip([c] + rest) == [c] + Strip(rest)
    ensures Pieces([c] + rest) == Glue([c], Pieces(rest))
  {
    hide TokenLen;
    assert ([c] + rest)[..1] == [c] && ([c] + rest)[1..] == rest;
    PlainCharacter([c] + rest);
  }

  lemma SemicolonInFront(rest: Text)
    ensures Strip(";" + rest) == ";" + Strip(rest)
    ensures Pieces(";" + rest) == [""] + Pieces(rest)
  {
    StripOfSemicolon(";" + rest);
    assert (";" + rest)[1..] == rest;
  }

  lemma LexemeInFront(x: Lexeme, rest: Text)
    requires Fits(x, rest)
    ensures Strip(Spell(x) + rest) == (match x case Plain(c) => [c] case Semicolon => ";" case _ => " ") + Strip(rest)
    ensures Pieces(Spell(x) + rest) == if x.Semicolon? then [""] + Pieces(rest) else Glue(Spell(x), Pieces(rest))
  {
    hide IsNoise, TokenLen, Pieces, Strip, Fits;
    if x.Plain? {
      PlainInFront(x.c, rest);
    } else if x.Semicolon? {
      SemicolonInFront(rest);
    } else {
      LexemeIsOneToken(x, rest);
      NoiseBlanks(Spell(x), rest);
    }
  }

  /**
   * A script of names, literals, comments, dollar-quoted bodies, semicolons and other characters,
   * in any order: splitting cuts it at its semicolons and nowhere else, and blanking replaces
   * each name, literal, comment and body by one space and keeps everything else.
   */
  lemma {:induction false} ScriptIsUnderstood(xs: seq<Lexeme>)
    requires Script(xs)
    ensures Pieces(SpellAll(xs)) == CutUp(xs)
    ensures Strip(SpellAll(xs)) == Bare(xs)
  {
    hide Pieces, Strip, Fits, Spell;
    if xs == [] {
      assert Pieces("") == [""] && Strip("") == "" by { NothingToScan(); }
    } else {
      ScriptIsUnderstood(xs[1..]);
      LexemeInFront(xs[0], SpellAll(xs[1..]));
    }
  }

  lemma NothingToScan()
    ensures Pieces("") == [""] && Strip("") == ""
  {
  }

  // ---------------------------------------------------------------------------
  // What is never closed

  lemma {:induction false} OpenQuoteTakesAll(value: Text, quote: char)
    ensures QuotedLen(Doubled(value, quote), quote) == |Doubled(value, quote)|
  {
    if value != "" {
      var later := Doubled(value[1..], quote);
      OpenQuoteTakesAll(value[1..], quote);
      var t := Doubled(value, quote);
      assert t[if value[0] == quote then 2 else 1..] == later;
    }
  }

  lemma {:induction false} OpenCommentTakesAll(t: Text, depth: nat)
    requires forall k {:trigger t[k]} :: 0 <= k < |t| - 1 ==> !(t[k] == '*' && t[k + 1] == '/')
    ensures BlockLen(t, depth) == |t|
  {
    if t != "" {
      if Opens(t, '/', '*') { OpenCommentTakesAll(t[2..], depth + 1); } else { OpenCommentTakesAll(t[1..], depth); }
    }
  }

  lemma {:induction false} OpenDollarTakesAll(t: Text, tag: Text, from: nat)
    requires from <= |t| && forall k :: from <= k <= |t| ==> !At(t, k, tag)
    ensures ThroughTag(t, tag, from) == |t|
    decreases |t| - from
  {
    if from < |t| { OpenDollarTakesAll(t, tag, from + 1); }
  }

  lemma AllOfIt(t: Text)
    requires t != "" && t[0] != ';' && IsNoise(t) && TokenLen(t) == |t|
    ensures Pieces(t) == [t] && Strip(t) == " "
  {
    hide TokenLen, IsNoise;
    assert t + "" == t;
    NothingToScan();
    NoiseBlanks(t, "");
    assert Glue(t, [""]) == [t];
  }

  /** A literal, comment or dollar-quoted body that is never closed is the rest of the script. */
  lemma UnclosedQuote(value: Text, quote: char)
    requires quote == '\'' || quote == '"'
    ensures var t := [quote] + Doubled(value, quote); Pieces(t) == [t] && Strip(t) == " "
  {
    var t := [quote] + Doubled(value, quote);
    OpenQuoteTakesAll(value, quote);
    assert t[1..] == Doubled(value, quote);
    hide Pieces, Strip;
    AllOfIt(t);
  }

  lemma UnclosedComment(inside: Text)
    requires forall k {:trigger inside[k]} :: 0 <= k < |inside| - 1 ==> !(inside[k] == '*' && inside[k + 1] == '/')
    ensures Pieces("/*" + inside) == ["/*" + inside] && Strip("/*" + inside) == " "
  {
    var t := "/*" + inside;
    assert t[2..] == inside;
    OpenCommentTakesAll(inside, 1);
    DollarFirst(t);
    hide Pieces, Strip;
    AllOfIt(t);
  }

  lemma UnclosedDollar(t: Text, n: nat)
    requires StartsTag(t, n) && forall k :: n <= k <= |t| ==> !At(t, k, t[..n])
    ensures Pieces(t) == [t] && Strip(t) == " "
  {
    TagIff(t, n);
    OpenDollarTakesAll(t, t[..n], n);
    hide Pieces, Strip;
    AllOfIt(t);
  }

  // ---------------------------------------------------------------------------
  // Printed names and literals

  /** A name prints exactly when it has 1 to 128 characters, none of them NUL. */
  lemma NameIsInert(value: Text, rest: Text)
    requires !("\"" <= rest)
    ensures QuoteIdent(value).Some? <==> 1 <= |value| <= 128 && '\0' !in value
    ensures QuoteIdent(value).Some? ==>
              var name := QuoteIdent(value).value;
              && Pieces(name + rest) == [name + Pieces(rest)[0]] + Pieces(rest)[1..]
              && Strip(name + rest) == " " + Strip(rest)
  {
    PrintedIsInert(value, '"', rest);
  }

  lemma LiteralIsInert(value: Text, rest: Text)
    requires !("'" <= rest)
    ensures var literal := QuoteLiteral(value);
            && Pieces(literal + rest) == [literal + Pieces(rest)[0]] + Pieces(rest)[1..]
            && Strip(literal + rest) == " " + Strip(rest)
  {
    PrintedIsInert(value, '\'', rest);
  }

  // ---------------------------------------------------------------------------
  // Statements

  /** A piece that is not blank is reported, trimmed, at its offset. */
  lemma {:induction false} PieceIsReported(pieces: seq<Text>, offset: nat, k: nat)
    requires k < |pieces| && Trim(pieces[k]) != ""
    ensures Statement(Trim(pieces[k]), offset + Offset(pieces, k)) in Statements(pieces, offset)
  {
    if k > 0 {
      PieceIsReported(pieces[1..], offset + |pieces[0]| + 1, k - 1);
    }
  }

  lemma {:induction false} LaterStatements(pieces: seq<Text>, offset: nat, s: Statement)
    requires s in Statements(pieces, offset)
    ensures s.start >= offset
  {
    var rest := Statements(pieces[1..], offset + |pieces[0]| + 1);
    if s in rest { LaterStatements(pieces[1..], offset + |pieces[0]| + 1, s); }
  }

  lemma {:induction false} StatementsAscend(pieces: seq<Text>, offset: nat, i: nat, j: nat)
    requires i < j < |Statements(pieces, offset)|
    ensures Statements(pieces, offset)[i].start < Statements(pieces, offset)[j].start
  {
    var rest := Statements(pieces[1..], offset + |pieces[0]| + 1);
    if Trim(pieces[0]) == "" {
      StatementsAscend(pieces[1..], offset + |pieces[0]| + 1, i, j);
    } else if i == 0 {
      assert Statements(pieces, offset)[j] == rest[j - 1];
      LaterStatements(pieces[1..], offset + |pieces[0]| + 1, rest[j - 1]);
    } else {
      StatementsAscend(pieces[1..], offset + |pieces[0]| + 1, i - 1, j - 1);
    }
  }

  /** The statements are exactly the pieces that are not blank, trimmed, in script order. */
  lemma StatementsAreThePieces(sql: Text)
    ensures forall k :: 0 <= k < |Pieces(sql)| && Trim(Pieces(sql)[k]) != "" ==>
              Statement(Trim(Pieces(sql)[k]), Offset(Pieces(sql), k)) in Split(sql)
    ensures forall s :: s in Split(sql) ==>
              exists k :: 0 <= k < |Pieces(sql)| && s.text == Trim(Pieces(sql)[k]) != "" && s.start == Offset(Pieces(sql), k)
    ensures forall i, j :: 0 <= i < j < |Split(sql)| ==> Split(sql)[i].start < Split(sql)[j].start
  {
    hide Pieces, Trim, Statements;
    var ps := Pieces(sql);
    forall k | 0 <= k < |ps| && Trim(ps[k]) != "" ensures Statement(Trim(ps[k]), Offset(ps, k)) in Split(sql) {
      PieceIsReported(ps, 0, k);
    }
    forall s | s in Split(sql)
      ensures exists k :: 0 <= k < |ps| && s.text == Trim(ps[k]) != "" && s.start == Offset(ps, k)
    {
      var k := StatementIsPiece(ps, 0, s);
    }
    forall i, j | 0 <= i < j < |Split(sql)| ensures Split(sql)[i].start < Split(sql)[j].start {
      StatementsAscend(ps, 0, i, j);
    }
  }

  /** The white space of ECMAScript: WhiteSpace and LineTerminator, as code points. */
  lemma WhiteSpaceIs(c: char)
    ensures IsWhite(c) <==>
              c as int in {9, 10, 11, 12, 13, 32, 160, 5760, 8192, 8193, 8194, 8195, 8196, 8197, 8198, 8199,
                           8200, 8201, 8202, 8232, 8233, 8239, 8287, 12288, 65279}
  {
  }
}
