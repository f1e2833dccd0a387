/** The routing token of a reviewer's reply, and the findings that must accompany it. */
module Verdicts {
  import opened Wrappers
  import opened Utf16

  datatype Verdict = Fix | Proceed | Complete

  const TAIL_LINES := 10
  const REVIEW_FINDINGS_FLOOR := 200

  // ---- lines ----

  function DropReturn(line: Text): (t: Text)
    ensures |t| <= |line|
  {
    if line != [] && line[|line| - 1] == RETURN then line[..|line| - 1] else line
  }

  function DropReturns(pieces: seq<Text>): (lines: seq<Text>)
    ensures |lines| == |pieces|
  {
    seq(|pieces|, i requires 0 <= i < |pieces| => DropReturn(pieces[i]))
  }

  function LinesOf(pieces: seq<Text>): (lines: seq<Text>)
    requires |pieces| > 0
    ensures |lines| > 0
  {
    DropReturns(pieces[..|pieces| - 1]) + [pieces[|pieces| - 1]]
  }

  /** `split(/\r?\n/)`: every newline ends a line and takes one carriage return with it. */
  function Lines(reply: Text): (lines: seq<Text>)
    ensures |lines| > 0
  {
    LinesOf(Split(reply))
  }

  function KeptOf(line: Text): seq<Text> {
    if Blank(line) then [] else [Trim(line)]
  }

  /** The trimmed lines that are not blank, in order. */
  function NonBlank(lines: seq<Text>): seq<Text> {
    if lines == [] then [] else KeptOf(lines[0]) + NonBlank(lines[1..])
  }

  /** `slice(-10)` */
  function Closing(lines: seq<Text>): seq<Text> {
    if |lines| > TAIL_LINES then lines[|lines| - TAIL_LINES..] else lines
  }

  // ---- one line ----

  function Upper(c: CodeUnit): CodeUnit {
    if 97 <= c <= 122 then c - 32 else c
  }

  /** Case-insensitive test for `word` (upper case) at position `at`. */
  predicate WordAt(line: Text, at: nat, word: Text) {
    && at + |word| <= |line|
    && forall i :: 0 <= i < |word| ==> Upper(line[at + i]) == word[i]
  }

  /** `[\s*_`]`: white space and emphasis marks. */
  predicate IsFiller(c: CodeUnit) {
    IsSpace(c) || c == 42 || c == 95 || c == 96
  }

  function SkipFiller(line: Text, at: nat): (next: nat)
    requires at <= |line|
    ensures at <= next <= |line|
    decreases |line| - at
  {
    if at < |line| && IsFiller(line[at]) then SkipFiller(line, at + 1) else at
  }

  function SkipSpace(line: Text, at: nat): (next: nat)
    requires at <= |line|
    ensures at <= next <= |line|
    decreases |line| - at
  {
    if at < |line| && IsSpace(line[at]) then SkipSpace(line, at + 1) else at
  }

  predicate IsLowerOrDigit(c: CodeUnit) {
    97 <= c <= 122 || 48 <= c <= 57
  }

  predicate IsWordUnit(c: CodeUnit) {
    IsLowerOrDigit(c) || 65 <= c <= 90 || c == 95
  }

  /** The verdict word at a position, with the position after it. */
  function VerdictWord(line: Text, at: nat): Option<(Verdict, nat)> {
    if WordAt(line, at, U("FIX")) then Some((Fix, at + 3))
    else if WordAt(line, at, U("PROCEED")) then Some((Proceed, at + 7))
    else if WordAt(line, at, U("COMPLETE")) then Some((Complete, at + 8))
    else None
  }

  /** The token a trimmed line states: it must sit right after `VERDICT:` and must not run on as
      another word in lower case. */
  function Token(line: Text): Option<Verdict> {
    if !WordAt(line, 0, U("VERDICT:")) then None
    else
      match VerdictWord(line, SkipFiller(line, 8))
      case None => None
      case Some((verdict, after)) =>
        if after < |line| && IsLowerOrDigit(line[after]) then None else Some(verdict)
  }

  /** The rule of the findings filter, which is not `Token`: only white space may follow the colon,
      and the word must end there. */
  predicate IsVerdictLine(line: Text) {
    var t := Trim(line);
    && WordAt(t, 0, U("VERDICT:"))
    && match VerdictWord(t, SkipSpace(t, 8))
       case None => false
       case Some((_, after)) => after >= |t| || !IsWordUnit(t[after])
  }

  // ---- the reply ----

  function Tokens(lines: seq<Text>): set<Verdict> {
    set line | line in lines && Token(line).Some? :: Token(line).value
  }

  lemma TokensSnoc(lines: seq<Text>, line: Text)
    ensures Tokens(lines + [line]) == Tokens(lines) + (if Token(line).Some? then {Token(line).value} else {})
  {
    forall v | v in Tokens(lines) + (if Token(line).Some? then {Token(line).value} else {})
      ensures v in Tokens(lines + [line])
    {
      if v in Tokens(lines) {
        var l :| l in lines && Token(l).Some? && Token(l).value == v;
        assert l in lines + [line];
      } else {
        assert (lines + [line])[|lines|] == line;
      }
    }
  }

  function Agreed(stated: set<Verdict>): Option<Verdict> {
    if stated == {Fix} then Some(Fix)
    else if stated == {Proceed} then Some(Proceed)
    else if stated == {Complete} then Some(Complete)
    else None
  }

  /** The only verdict among the closing lines; none when they state none or disagree. */
  function VerdictOf(reply: Text): Option<Verdict> {
    Agreed(Tokens(Closing(NonBlank(Lines(reply)))))
  }

  /** The loop of the program: collect the tokens line by line, then ask whether they agree. */
  method ParseVerdict(reply: Text) returns (verdict: Option<Verdict>)
    ensures verdict == VerdictOf(reply)
  {
    hide NonBlank, Lines, Closing, Token;
    var tail := Closing(NonBlank(Lines(reply)));
    var found: seq<Verdict> := [];
    for i := 0 to |tail|
      invariant (set v | v in found) == Tokens(tail[..i])
    {
      var token := Token(tail[i]);
      assert tail[..i + 1] == tail[..i] + [tail[i]];
      TokensSnoc(tail[..i], tail[i]);
      ghost var before := set v | v in found;
      if token.Some? {
        found := found + [token.value];
        assert (set v | v in found) == before + {token.value};
      }
    }
    assert tail[..|tail|] == tail;
    var distinct := set v | v in found;
    verdict := Agreed(distinct);
  }

  function Join(lines: seq<Text>): Text {
    if lines == [] then []
    else if |lines| == 1 then lines[0]
    else lines[0] + [NEWLINE] + Join(lines[1..])
  }

  function WithoutVerdictLines(lines: seq<Text>): seq<Text> {
    if lines == [] then []
    else if IsVerdictLine(lines[0]) then WithoutVerdictLines(lines[1..])
    else [lines[0]] + WithoutVerdictLines(lines[1..])
  }

  /** What the reviewer said, its verdict lines removed. */
  function FindingsOf(reply: Text): Text {
    Trim(Join(WithoutVerdictLines(Lines(reply))))
  }

  /** Where the relay may send a reviewer's reply. */
  datatype Route = ToImplementer | ToNextBatch | ToEnd | Unclear

  /** FIX needs no findings; an advancing verdict with too few of them is no verdict at all. */
  function RouteOf(reply: Text): Route {
    match VerdictOf(reply)
    case None => Unclear
    case Some(Fix) => ToImplementer
    case Some(Proceed) => if |FindingsOf(reply)| < REVIEW_FINDINGS_FLOOR then Unclear else ToNextBatch
    case Some(Complete) => if |FindingsOf(reply)| < REVIEW_FINDINGS_FLOOR then Unclear else ToEnd
  }

  // ---- what the reader of a reply may rely on ----

  lemma {:induction false} NonBlankConcat(a: seq<Text>, b: seq<Text>)
    ensures NonBlank(a + b) == NonBlank(a) + NonBlank(b)
  {
    hide KeptOf;
    if a == [] {
      assert a + b == b;
    } else {
      NonBlankConcat(a[1..], b);
      assert (a + b)[1..] == a[1..] + b;
      ConcatIsAssociative(KeptOf(a[0]), NonBlank(a[1..]), NonBlank(b));
    }
  }

  lemma LinesOfConcat(head: seq<Text>, tail: seq<Text>)
    requires |tail| > 0
    ensures LinesOf(head + tail) == DropReturns(head) + LinesOf(tail)
  {
    var last := |tail| - 1;
    assert (head + tail)[..|head| + last] == head + tail[..last];
    assert DropReturns(head + tail[..last]) == DropReturns(head) + DropReturns(tail[..last]);
  }

  /** Text put in front of a reply, on lines of its own, only adds lines in front. */
  lemma LinesInFront(front: Text, reply: Text)
    ensures Lines(front + [NEWLINE] + reply) == DropReturns(Split(front)) + Lines(reply)
  {
    SplitAtNewline(front, reply);
    LinesOfConcat(Split(front), Split(reply));
  }

  /** A discussion of verdicts before the last ten lines cannot route the reply. */
  lemma OnlyTheClosingLinesRoute(front: Text, reply: Text)
    requires |NonBlank(Lines(reply))| >= TAIL_LINES
    ensures VerdictOf(front + [NEWLINE] + reply) == VerdictOf(reply)
  {
    hide NonBlank, Lines, Closing, Tokens, DropReturns, Split;
    LinesInFront(front, reply);
    var added := DropReturns(Split(front));
    NonBlankConcat(added, Lines(reply));
    ClosingIgnoresFront(NonBlank(added), NonBlank(Lines(reply)));
  }

  lemma ClosingIgnoresFront(added: seq<Text>, own: seq<Text>)
    requires |own| >= TAIL_LINES
    ensures Closing(added + own) == Closing(own)
  {}

  lemma ClosingGrows(added: seq<Text>, own: seq<Text>)
    ensures Tokens(Closing(own)) <= Tokens(Closing(added + own))
  {
    var tail, longer := Closing(own), Closing(added + own);
    forall line | line in tail
      ensures line in longer
    {
      var k :| 0 <= k < |tail| && tail[k] == line;
      assert longer[|longer| - |tail| + k] == line;
    }
  }

  lemma AgreementNeverFlips(fewer: set<Verdict>, more: set<Verdict>)
    requires fewer <= more && Agreed(fewer).Some?
    ensures Agreed(more) in {None, Agreed(fewer)}
  {
    assert Agreed(fewer).value in more;
  }

  /** Text in front of a reply may silence its verdict, but never turns it into another one. */
  lemma VerdictNeverFlips(front: Text, reply: Text)
    requires VerdictOf(reply).Some?
    ensures VerdictOf(front + [NEWLINE] + reply) in {None, VerdictOf(reply)}
  {
    LinesInFront(front, reply);
    hide NonBlank, Lines, Closing, Tokens, DropReturns, Split;
    var added := DropReturns(Split(front));
    NonBlankConcat(added, Lines(reply));
    ClosingGrows(NonBlank(added), NonBlank(Lines(reply)));
    AgreementNeverFlips(Tokens(Closing(NonBlank(Lines(reply)))), Tokens(Closing(NonBlank(added) + NonBlank(Lines(reply)))));
  }

  lemma {:induction false} JoinSplit(s: Text)
    ensures Join(Split(s)) == s
  {
    if s != [] {
      JoinSplit(s[1..]);
      var rest := Split(s[1..]);
      if s[0] == NEWLINE {
        assert Split(s)[1..] == rest;
        assert Join(Split(s)) == [] + [NEWLINE] + s[1..];
      } else {
        assert Split(s)[1..] == rest[1..];
      }
      assert [s[0]] + s[1..] == s;
    }
  }

  lemma {:induction false} FilteringShortens(lines: seq<Text>)
    ensures |Join(WithoutVerdictLines(lines))| <= |Join(lines)|
  {
    if lines != [] {
      FilteringShortens(lines[1..]);
    }
  }

  lemma {:induction false} DroppingReturnsShortens(pieces: seq<Text>, last: Text)
    ensures |Join(DropReturns(pieces) + [last])| <= |Join(pieces + [last])|
  {
    if pieces != [] {
      DroppingReturnsShortens(pieces[1..], last);
      assert (DropReturns(pieces) + [last])[1..] == DropReturns(pieces[1..]) + [last];
      assert (pieces + [last])[1..] == pieces[1..] + [last];
    }
  }

  /** Findings are part of the reply. */
  lemma FindingsAreShorter(reply: Text)
    ensures |FindingsOf(reply)| <= |reply|
  {
    hide Split, Join, DropReturns, WithoutVerdictLines, Trim;
    var pieces := Split(reply);
    var last := |pieces| - 1;
    JoinSplit(reply);
    assert pieces[..last] + [pieces[last]] == pieces;
    DroppingReturnsShortens(pieces[..last], pieces[last]);
    FilteringShortens(Lines(reply));
  }

  /** The reply that once advanced an unread batch on 72 characters: below the floor no reply,
      whatever it says, advances a batch or ends the run. */
  lemma ShortReplyNeverAdvances(reply: Text)
    requires |reply| < REVIEW_FINDINGS_FLOOR
    ensures RouteOf(reply) in {ToImplementer, Unclear}
  {
    hide FindingsOf, VerdictOf;
    FindingsAreShorter(reply);
  }

  // ---- replies of each kind exist ----

  const FIX: Text := U("VERDICT:FIX")

  lemma OneLine(line: Text)
    requires line != [] && NEWLINE !in line && !IsSpace(line[0]) && !IsSpace(line[|line| - 1])
    ensures Lines(line) == [line] && NonBlank([line]) == [line] && !Blank(line)
  {
    SplitWithoutNewline(line);
    assert [line][..0] == [] && [line][1..] == [];
    assert TrimStart(line) == line && TrimEnd(line) == line;
  }

  lemma FixUnits()
    ensures FIX == U("VERDICT:") + U("FIX")
    ensures NEWLINE !in FIX && FIX[0] == 86 && FIX[8] == 70 && FIX[10] == 88
  {
    var s, head, word := "VERDICT:FIX", "VERDICT:", "FIX";
    assert s == head + word;
    assert forall i :: 0 <= i < |FIX| ==> FIX[i] == (s[i] as int % 0x1_0000) as CodeUnit;
    assert s[0] as int == 86 && s[8] as int == 70 && s[10] as int == 88;
    assert forall i :: 0 <= i < |s| ==> 58 <= s[i] as int <= 88;
  }

  lemma FixIsAToken()
    ensures Token(FIX) == Some(Fix)
  {
    FixUnits();
    var head, word := U("VERDICT:"), U("FIX");
    assert forall i :: 0 <= i < |head| ==> FIX[i] == head[i];
    assert forall i :: 0 <= i < |word| ==> FIX[8 + i] == word[i];
    UpperCase(head, "VERDICT:");
    UpperCase(word, "FIX");
    assert WordAt(FIX, 0, head) && WordAt(FIX, 8, word);
    assert SkipFiller(FIX, 8) == 8;
  }

  lemma UpperCase(t: Text, s: string)
    requires t == U(s) && forall i :: 0 <= i < |s| ==> s[i] as int < 97
    ensures forall i :: 0 <= i < |t| ==> Upper(t[i]) == t[i]
  {
  }

  lemma OneTokenRoutes(line: Text)
    requires Lines(line) == [line] && NonBlank([line]) == [line] && Token(line) == Some(Fix)
    ensures RouteOf(line) == ToImplementer
  {
    hide Lines, NonBlank, Token;
    TokensSnoc([], line);
    assert [] + [line] == [line];
  }

  lemma FixRoutesToTheImplementer()
    ensures RouteOf(FIX) == ToImplementer && !Blank(FIX)
  {
    FixUnits();
    OneLine(FIX);
    FixIsAToken();
    hide *;
    OneTokenRoutes(FIX);
  }

  /** A reply that says nothing of a verdict. */
  const DONE: Text := U("Done")

  lemma DoneUnits()
    ensures |DONE| == 4 && DONE[0] == 68 && DONE[1] == 111 && DONE[2] == 110 && DONE[3] == 101
  {
    var s := "Done";
    assert forall i :: 0 <= i < |DONE| ==> DONE[i] == (s[i] as int % 0x1_0000) as CodeUnit;
    assert s[0] as int == 68 && s[1] as int == 111 && s[2] as int == 110 && s[3] as int == 101;
  }

  lemma NoTokenPauses(line: Text)
    requires Lines(line) == [line] && NonBlank([line]) == [line] && Token(line) == None
    ensures RouteOf(line) == Unclear
  {
    hide Lines, NonBlank, Token;
    TokensSnoc([], line);
    assert [] + [line] == [line];
  }

  lemma DoneIsUnclear()
    ensures RouteOf(DONE) == Unclear && !Blank(DONE)
  {
    DoneUnits();
    OneLine(DONE);
    assert Token(DONE) == None;
    hide *;
    NoTokenPauses(DONE);
  }
}
