/** JavaScript string operations that several components share. */
module Strings {
  import opened Bytes

  type Text = string

  function Min(a: nat, b: nat): nat { if a < b then a else b }

  /** What `String.prototype.trim` removes. */
  predicate IsWhite(c: char) {
    || '\U{9}' <= c <= '\U{D}' || c == ' ' || c == '\U{A0}' || c == '\U{1680}'
    || '\U{2000}' <= c <= '\U{200A}' || c == '\U{2028}' || c == '\U{2029}'
    || c == '\U{202F}' || c == '\U{205F}' || c == '\U{3000}' || c == '\U{FEFF}'
  }

  predicate AllWhite(t: Text) { forall k :: 0 <= k < |t| ==> IsWhite(t[k]) }

  function TrimLeft(t: Text): (r: Text)
    ensures |r| <= |t|
  {
    if t == "" || !IsWhite(t[0]) then t else TrimLeft(t[1..])
  }

  function TrimRight(t: Text): (r: Text)
    ensures |r| <= |t|
  {
    if t == "" || !IsWhite(t[|t| - 1]) then t else TrimRight(t[..|t| - 1])
  }

  function Trim(t: Text): Text { TrimRight(TrimLeft(t)) }

  lemma {:induction false} TrimLeftIs(t: Text)
    ensures var n := |t| - |TrimLeft(t)|;
            TrimLeft(t) == t[n..] && AllWhite(t[..n]) && (n < |t| ==> !IsWhite(t[n]))
  {
    if t != "" && IsWhite(t[0]) { TrimLeftIs(t[1..]); }
  }

  lemma {:induction false} TrimRightIs(t: Text)
    ensures var n := |TrimRight(t)|;
            TrimRight(t) == t[..n] && AllWhite(t[n..]) && (n > 0 ==> !IsWhite(t[n - 1]))
  {
    if t != "" && IsWhite(t[|t| - 1]) { TrimRightIs(t[..|t| - 1]); }
  }

  lemma TrimIsStable(t: Text)
    ensures Trim(Trim(t)) == Trim(t)
  {
    TrimLeftIs(t);
    TrimRightIs(TrimLeft(t));
  }

  predicate At(t: Text, i: nat, tag: Text) { i + |tag| <= |t| && t[i..i + |tag|] == tag }

  /** `split(sep)`. */
  function SplitAt(t: Text, sep: char): (r: seq<Text>)
    ensures r != []
  {
    if t == "" then [""]
    else if t[0] == sep then [""] + SplitAt(t[1..], sep)
    else
      var rest := SplitAt(t[1..], sep);
      [[t[0]] + rest[0]] + rest[1..]
  }

  lemma SplitAtStep(c: char, t: Text, sep: char)
    ensures var rest := SplitAt(t, sep);
            SplitAt([c] + t, sep) == if c == sep then [""] + rest else [[c] + rest[0]] + rest[1..]
  {
    assert ([c] + t)[1..] == t;
  }

  lemma {:induction false} SplitAtAppend(a: Text, b: Text, sep: char)
    ensures SplitAt(a + [sep] + b, sep) == SplitAt(a, sep) + SplitAt(b, sep)
  {
    hide SplitAt;
    if a == "" {
      SplitAtStep(sep, b, sep);
      SplitAtNothing("", sep);
      assert "" + [sep] + b == [sep] + b;
    } else {
      var c, rest := a[0], a[1..];
      SplitAtAppend(rest, b, sep);
      SplitAtStep(c, rest, sep);
      SplitAtStep(c, rest + [sep] + b, sep);
      assert [c] + rest == a && [c] + (rest + [sep] + b) == a + [sep] + b;
      FirstOfBoth(c, SplitAt(rest, sep), SplitAt(b, sep));
    }
  }

  lemma FirstOfBoth(c: char, front: seq<Text>, back: seq<Text>)
    requires front != []
    ensures [""] + (front + back) == ([""] + front) + back
    ensures [[c] + (front + back)[0]] + (front + back)[1..] == ([[c] + front[0]] + front[1..]) + back
  {
    assert (front + back)[1..] == front[1..] + back;
  }

  lemma {:induction false} SplitAtNothing(a: Text, sep: char)
    requires sep !in a
    ensures SplitAt(a, sep) == [a]
  {
    if a != "" {
      assert a[0] in a && forall x :: x in a[1..] ==> x in a;
      SplitAtNothing(a[1..], sep);
      assert [a[0]] + a[1..] == a;
    }
  }

  /** `map((v) => v.trim()).filter(Boolean)`. */
  function TrimmedItems(parts: seq<Text>): seq<Text> {
    if parts == [] then []
    else (if Trim(parts[0]) == "" then [] else [Trim(parts[0])]) + TrimmedItems(parts[1..])
  }

  function Items(value: Text): seq<Text> { TrimmedItems(SplitAt(value, ',')) }

  lemma {:induction false} TrimmedAppend(a: seq<Text>, b: seq<Text>)
    ensures TrimmedItems(a + b) == TrimmedItems(a) + TrimmedItems(b)
  {
    if a == [] {
      assert a + b == b;
    } else {
      hide Trim;
      TrimmedAppend(a[1..], b);
      assert (a + b)[0] == a[0] && (a + b)[1..] == a[1..] + b;
      ConcatAssoc(if Trim(a[0]) == "" then [] else [Trim(a[0])], TrimmedItems(a[1..]), TrimmedItems(b));
    }
  }

  /** Lists are read from left to right, cut at their commas. */
  lemma ItemsOfBoth(a: Text, b: Text)
    ensures Items(a + "," + b) == Items(a) + Items(b)
  {
    SplitAtAppend(a, b, ',');
    TrimmedAppend(SplitAt(a, ','), SplitAt(b, ','));
  }

  lemma TrimmedOne(t: Text)
    ensures TrimmedItems([t]) == if Trim(t) == "" then [] else [Trim(t)]
  {
    assert [t][1..] == [];
  }

  /** What stands between commas counts without its white space, unless it is nothing else. */
  lemma ItemsOfOne(left: Text, item: Text, right: Text)
    requires AllWhite(left) && AllWhite(right) && ',' !in left + item + right
    requires item != "" ==> !IsWhite(item[0]) && !IsWhite(item[|item| - 1])
    ensures Items(left + item + right) == if item == "" then [] else [item]
  {
    var t := left + item + right;
    SplitAtNothing(t, ',');
    TrimmedIs(left, item, right);
    hide Trim;
    TrimmedOne(t);
  }

  lemma TrimmedIs(left: Text, item: Text, right: Text)
    requires AllWhite(left) && AllWhite(right)
    requires item != "" ==> !IsWhite(item[0]) && !IsWhite(item[|item| - 1])
    ensures Trim(left + item + right) == item
  {
    assert left + item + right == left + (item + right);
    TrimLeftOf(left, item + right);
    if item == "" {
      assert item + right == right && right + "" == right;
      TrimLeftOf(right, "");
    } else {
      TrimRightOf(item, right);
    }
  }

  lemma {:induction false} TrimLeftOf(left: Text, rest: Text)
    requires AllWhite(left)
    ensures TrimLeft(left + rest) == TrimLeft(rest)
  {
    if left == "" {
      assert left + rest == rest;
    } else {
      assert (left + rest)[1..] == left[1..] + rest;
      TrimLeftOf(left[1..], rest);
    }
  }

  lemma {:induction false} TrimRightOf(item: Text, right: Text)
    requires item != "" && !IsWhite(item[|item| - 1]) && AllWhite(right)
    ensures TrimRight(item + right) == item
    decreases |right|
  {
    if right == "" {
      assert item + right == item;
    } else {
      var n := |right| - 1;
      assert (item + right)[..|item + right| - 1] == item + right[..n];
      TrimRightOf(item, right[..n]);
    }
  }
}
