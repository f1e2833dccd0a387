/** Text as the program sees it: a sequence of UTF-16 code units. */
module Utf16 {

  newtype CodeUnit = u: int | 0 <= u < 0x1_0000

  type Text = seq<CodeUnit>

  const NEWLINE: CodeUnit := 10
  const RETURN: CodeUnit := 13

  /** A literal of the program's source, unit by unit. */
  function U(s: string): (t: Text)
    ensures |t| == |s|
  {
    seq(|s|, i requires 0 <= i < |s| => (s[i] as int % 0x1_0000) as CodeUnit)
  }

  /** What `trim` and the regular-expression class `\s` call white space. */
  predicate IsSpace(c: CodeUnit) {
    || 9 <= c <= 13
    || c == 32
    || c == 0xA0
    || c == 0x1680
    || 0x2000 <= c <= 0x200A
    || c == 0x2028 || c == 0x2029 || c == 0x202F || c == 0x205F || c == 0x3000 || c == 0xFEFF
  }

  function TrimStart(s: Text): (t: Text)
    ensures |t| <= |s|
    ensures t != [] ==> !IsSpace(t[0])
  {
    if s != [] && IsSpace(s[0]) then TrimStart(s[1..]) else s
  }

  function TrimEnd(s: Text): (t: Text)
    ensures |t| <= |s|
    ensures t <= s
    ensures t != [] ==> !IsSpace(t[|t| - 1])
  {
    if s != [] && IsSpace(s[|s| - 1]) then TrimEnd(s[..|s| - 1]) else s
  }

  function Trim(s: Text): (t: Text)
    ensures |t| <= |s|
    ensures t != [] ==> !IsSpace(t[0]) && !IsSpace(t[|t| - 1])
  {
    TrimEnd(TrimStart(s))
  }

  predicate Blank(s: Text) {
    Trim(s) == []
  }

  function PrependUnit(c: CodeUnit, pieces: seq<Text>): (longer: seq<Text>)
    requires |pieces| > 0
    ensures |longer| > 0
  {
    if c == NEWLINE then [[]] + pieces else [[c] + pieces[0]] + pieces[1..]
  }

  /** `split('\n')`: one piece more than there are newlines. */
  function Split(s: Text): (pieces: seq<Text>)
    ensures |pieces| > 0
  {
    if s == [] then [[]] else PrependUnit(s[0], Split(s[1..]))
  }

  /** Splitting a concatenation: the last piece of the left text runs on into the first piece of the right. */
  function Glue(left: seq<Text>, right: seq<Text>): seq<Text>
    requires |left| > 0 && |right| > 0
  {
    left[..|left| - 1] + [left[|left| - 1] + right[0]] + right[1..]
  }

  lemma ConcatIsAssociative(a: seq<Text>, b: seq<Text>, c: seq<Text>)
    ensures (a + b) + c == a + (b + c)
  {}

  lemma GlueInFront(piece: Text, left: seq<Text>, right: seq<Text>)
    requires |left| > 0 && |right| > 0
    ensures Glue([piece] + left, right) == [piece] + Glue(left, right)
  {
    var joint := [left[|left| - 1] + right[0]];
    assert ([piece] + left)[..|left|] == [piece] + left[..|left| - 1];
    ConcatIsAssociative([piece], left[..|left| - 1], joint);
    ConcatIsAssociative([piece], left[..|left| - 1] + joint, right[1..]);
  }

  lemma PrependGlueOne(c: CodeUnit, piece: Text, right: seq<Text>)
    requires |right| > 0 && c != NEWLINE
    ensures Glue(PrependUnit(c, [piece]), right) == PrependUnit(c, Glue([piece], right))
  {
    assert [c] + (piece + right[0]) == ([c] + piece) + right[0];
  }

  lemma PrependGlue(c: CodeUnit, left: seq<Text>, right: seq<Text>)
    requires |left| > 0 && |right| > 0
    ensures Glue(PrependUnit(c, left), right) == PrependUnit(c, Glue(left, right))
  {
    hide Glue;
    if c == NEWLINE {
      GlueInFront([], left, right);
    } else if |left| == 1 {
      assert left == [left[0]];
      PrependGlueOne(c, left[0], right);
    } else {
      assert left == [left[0]] + left[1..];
      GlueInFront(left[0], left[1..], right);
      GlueInFront([c] + left[0], left[1..], right);
    }
  }

  lemma {:induction false} SplitConcat(a: Text, b: Text)
    ensures Split(a + b) == Glue(Split(a), Split(b))
  {
    if a == [] {
      assert a + b == b;
      assert [] + Split(b)[0] == Split(b)[0];
    } else {
      SplitConcat(a[1..], b);
      assert (a + b)[1..] == a[1..] + b;
      PrependGlue(a[0], Split(a[1..]), Split(b));
    }
  }

  lemma SplitAtNewline(a: Text, b: Text)
    ensures Split(a + [NEWLINE] + b) == Split(a) + Split(b)
  {
    SplitConcat(a, [NEWLINE] + b);
    assert a + [NEWLINE] + b == a + ([NEWLINE] + b);
    assert ([NEWLINE] + b)[1..] == b;
    assert Split([NEWLINE] + b) == [[]] + Split(b);
    var head := Split(a);
    assert head[|head| - 1] + [] == head[|head| - 1];
    assert head[..|head| - 1] + [head[|head| - 1]] == head;
  }

  lemma {:induction false} SplitWithoutNewline(s: Text)
    requires NEWLINE !in s
    ensures Split(s) == [s]
  {
    if s != [] {
      SplitWithoutNewline(s[1..]);
      assert [s[0]] + s[1..] == s;
    }
  }

  lemma {:induction false} PiecesHaveNoNewline(s: Text, k: nat)
    requires k < |Split(s)|
    ensures NEWLINE !in Split(s)[k]
  {
    if s != [] {
      if s[0] == NEWLINE {
        if k > 0 { PiecesHaveNoNewline(s[1..], k - 1); }
      } else {
        PiecesHaveNoNewline(s[1..], k);
      }
    }
  }
}
