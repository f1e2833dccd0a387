/** What a verdict looks like on a line, and which replies route where, told without the scanner. */
module VerdictForms {
  import opened Utf16
  import opened Verdicts
  import opened Wrappers

  /** `t` is the upper-case `word`, letter by letter in either case. */
  predicate Spells(t: Text, word: string) {
    && |t| == |word|
    && forall i :: 0 <= i < |t| ==>
         t[i] as int == word[i] as int || (65 <= word[i] as int <= 90 && t[i] as int == word[i] as int + 32)
  }

  /** White space, asterisks, underscores and backticks. */
  predicate IsPadding(t: Text) {
    forall i :: 0 <= i < |t| ==> IsSpace(t[i]) || t[i] in {42, 95, 96}
  }

  /** Nothing follows, or something that does not make another word of it. */
  predicate EndsToken(tail: Text) {
    tail == [] || !(97 <= tail[0] <= 122 || 48 <= tail[0] <= 57)
  }

  predicate StatesAs(line: Text, word: string, head: Text, padding: Text, written: Text, tail: Text) {
    && line == head + padding + written + tail
    && Spells(head, "VERDICT:") && IsPadding(padding) && Spells(written, word) && EndsToken(tail)
  }

  /** The line is `VERDICT:`, padding, the word, and an end of it. */
  ghost predicate States(line: Text, word: string) {
    exists head, padding, written, tail :: StatesAs(line, word, head, padding, written, tail)
  }

  function WordOf(v: Verdict): (word: string)
    ensures 3 <= |word| <= 8
  {
    match v
    case Fix => "FIX"
    case Proceed => "PROCEED"
    case Complete => "COMPLETE"
  }

  lemma WordLetters(v: Verdict)
    ensures forall i :: 0 <= i < |WordOf(v)| ==> 65 <= WordOf(v)[i] as int <= 90
    ensures WordOf(v)[0] as int == match v case Fix => 70 case Proceed => 80 case Complete => 67
  {
    var fix, proceed, complete := "FIX", "PROCEED", "COMPLETE";
    assert forall i :: 0 <= i < |fix| ==> 65 <= fix[i] as int <= 90;
    assert forall i :: 0 <= i < |proceed| ==> 65 <= proceed[i] as int <= 90;
    assert forall i :: 0 <= i < |complete| ==> 65 <= complete[i] as int <= 90;
  }

  lemma HeadUnits()
    ensures |U("VERDICT:")| == 8 && forall i :: 0 <= i < 8 ==> 58 <= "VERDICT:"[i] as int <= 90
  {
  }

  lemma WordAtIff(line: Text, at: nat, word: string)
    requires forall i :: 0 <= i < |word| ==> 58 <= word[i] as int <= 90
    ensures WordAt(line, at, U(word)) <==> at + |word| <= |line| && Spells(line[at..at + |word|], word)
  {
    if at + |word| <= |line| {
      var t := line[at..at + |word|];
      forall i | 0 <= i < |word|
        ensures Upper(line[at + i]) == U(word)[i] <==>
                t[i] as int == word[i] as int || (65 <= word[i] as int <= 90 && t[i] as int == word[i] as int + 32)
      {
        assert t[i] == line[at + i];
      }
    }
  }

  lemma {:induction false} SkipFillerSays(line: Text, at: nat)
    requires at <= |line|
    ensures var n := SkipFiller(line, at);
            IsPadding(line[at..n]) && (n < |line| ==> !IsPadding([line[n]]))
    decreases |line| - at
  {
    var n := SkipFiller(line, at);
    if at < |line| && IsFiller(line[at]) {
      SkipFillerSays(line, at + 1);
      assert line[at..n] == [line[at]] + line[at + 1..n];
    } else {
      assert n < |line| ==> [line[n]][0] == line[n];
    }
  }

  lemma {:induction false} SkipFillerOver(line: Text, at: nat, n: nat)
    requires at <= n <= |line| && IsPadding(line[at..n]) && (n < |line| ==> !IsFiller(line[n]))
    ensures SkipFiller(line, at) == n
    decreases n - at
  {
    if at < n {
      assert line[at..n][0] == line[at] && line[at..n][1..] == line[at + 1..n];
      SkipFillerOver(line, at + 1, n);
    }
  }

  lemma VerdictWordIff(line: Text, at: nat, v: Verdict)
    ensures VerdictWord(line, at) == Some((v, at + |WordOf(v)|)) <==> WordAt(line, at, U(WordOf(v)))
    ensures VerdictWord(line, at).Some? ==> exists w :: VerdictWord(line, at) == Some((w, at + |WordOf(w)|))
  {
    forall w: Verdict | w != v
      ensures !WordAt(line, at, U(WordOf(v))) || !WordAt(line, at, U(WordOf(w)))
    {
      WordLetters(v);
      WordLetters(w);
      assert U(WordOf(v))[0] != U(WordOf(w))[0];
    }
    assert WordOf(Fix) == "FIX" && WordOf(Proceed) == "PROCEED" && WordOf(Complete) == "COMPLETE";
    hide U, WordAt;
  }

  lemma Slices(head: Text, middle: Text, written: Text, tail: Text)
    requires |head| == 8 && |written| > 0
    ensures var line, n := head + middle + written + tail, 8 + |middle|;
            && line[0..8] == head && line[8..n] == middle && line[n..n + |written|] == written && line[n + |written|..] == tail
            && line[n] == written[0]
  {
  }

  /** The scanner finds what the form says. */
  lemma StatedIsToken(line: Text, v: Verdict)
    requires States(line, WordOf(v))
    ensures Token(line) == Some(v)
  {
    hide Token, VerdictWord, U, WordAt, WordOf, SkipFiller, IsPadding, EndsToken;
    var head, padding, written, tail :| StatesAs(line, WordOf(v), head, padding, written, tail);
    var n := 8 + |padding|;
    WordLetters(v);
    HeadUnits();
    Slices(head, padding, written, tail);
    WordAtIff(line, 0, "VERDICT:");
    WordAtIff(line, n, WordOf(v));
    SkipFillerOver(line, 8, n);
    VerdictWordIff(line, n, v);
    TokenAt(line, n, v);
  }

  lemma TokenAt(line: Text, n: nat, v: Verdict)
    requires WordAt(line, 0, U("VERDICT:")) && |line| >= 8 && SkipFiller(line, 8) == n
    requires VerdictWord(line, n) == Some((v, n + |WordOf(v)|))
    requires n + |WordOf(v)| <= |line| && EndsToken(line[n + |WordOf(v)|..])
    ensures Token(line) == Some(v)
  {
    hide WordAt, SkipFiller, VerdictWord, WordOf, U;
    var after := n + |WordOf(v)|;
    assert after < |line| ==> line[after..][0] == line[after];
  }

  lemma TokenParts(line: Text, v: Verdict)
    requires Token(line) == Some(v)
    ensures WordAt(line, 0, U("VERDICT:")) && |line| >= 8
    ensures var n := SkipFiller(line, 8);
            && WordAt(line, n, U(WordOf(v))) && n + |WordOf(v)| <= |line|
            && EndsToken(line[n + |WordOf(v)|..])
  {
    hide VerdictWord, SkipFiller, U, WordOf, WordAt;
    WordAtFits(line, 0, "VERDICT:");
    var n := SkipFiller(line, 8);
    VerdictWordIff(line, n, v);
    assert VerdictWord(line, n).Some? && VerdictWord(line, n).value.0 == v;
    WordAtFits(line, n, WordOf(v));
    var after := n + |WordOf(v)|;
    assert after < |line| ==> line[after..][0] == line[after];
  }

  lemma WordAtFits(line: Text, at: nat, word: string)
    requires WordAt(line, at, U(word))
    ensures at + |word| <= |line|
  {
  }

  lemma Pieces(line: Text, n: nat, after: nat)
    requires 8 <= n <= after <= |line|
    ensures line == line[0..8] + line[8..n] + line[n..after] + line[after..]
  {
  }

  /** And nothing else. */
  lemma TokenIsStated(line: Text, v: Verdict)
    requires Token(line) == Some(v)
    ensures States(line, WordOf(v))
  {
    hide Token, WordAt, SkipFiller, U, WordOf, Spells, IsPadding, EndsToken;
    TokenParts(line, v);
    HeadUnits();
    var n := SkipFiller(line, 8);
    var after := n + |WordOf(v)|;
    SkipFillerSays(line, 8);
    WordLetters(v);
    WordAtIff(line, 0, "VERDICT:");
    WordAtIff(line, n, WordOf(v));
    Pieces(line, n, after);
    assert StatesAs(line, WordOf(v), line[0..8], line[8..n], line[n..after], line[after..]);
  }

  lemma TokenForm(line: Text, v: Verdict)
    ensures Token(line) == Some(v) <==> States(line, WordOf(v))
  {
    hide *;
    if Token(line) == Some(v) {
      TokenIsStated(line, v);
    } else if States(line, WordOf(v)) {
      StatedIsToken(line, v);
    }
  }

  /** The token of a line, word by word. */
  lemma TokenIff(line: Text)
    ensures Token(line) == Some(Fix) <==> States(line, "FIX")
    ensures Token(line) == Some(Proceed) <==> States(line, "PROCEED")
    ensures Token(line) == Some(Complete) <==> States(line, "COMPLETE")
  {
    hide Token, States;
    TokenForm(line, Fix);
    TokenForm(line, Proceed);
    TokenForm(line, Complete);
  }

  /** Any padding after the colon and any ending that does not make another word of it: the line states its word. */
  lemma WordsAreTokens(padding: Text, tail: Text)
    requires forall i :: 0 <= i < |padding| ==> IsFiller(padding[i])
    requires tail == [] || !(97 <= tail[0] <= 122 || 48 <= tail[0] <= 57)
    ensures Token(U("VERDICT:") + padding + U("FIX") + tail) == Some(Fix)
    ensures Token(U("VERDICT:") + padding + U("PROCEED") + tail) == Some(Proceed)
    ensures Token(U("VERDICT:") + padding + U("COMPLETE") + tail) == Some(Complete)
  {
    hide Token;
    assert WordOf(Fix) == "FIX" && WordOf(Proceed) == "PROCEED" && WordOf(Complete) == "COMPLETE";
    forall v: Verdict
      ensures Token(U("VERDICT:") + padding + U(WordOf(v)) + tail) == Some(v)
    {
      HeadUnits();
      WordLetters(v);
      UpperSpells("VERDICT:");
      UpperSpells(WordOf(v));
      var line := U("VERDICT:") + padding + U(WordOf(v)) + tail;
      hide U, Spells, WordOf;
      assert StatesAs(line, WordOf(v), U("VERDICT:"), padding, U(WordOf(v)), tail);
      StatedIsToken(line, v);
    }
  }

  lemma UpperSpells(word: string)
    requires forall i :: 0 <= i < |word| ==> 58 <= word[i] as int <= 90
    ensures Spells(U(word), word)
  {
  }

  // ---- the closing lines ----

  /** They are the last ten of the lines that are not blank, or all of them. */
  lemma ClosingAre(lines: seq<Text>)
    ensures |Closing(lines)| == if |lines| < 10 then |lines| else 10
    ensures lines == lines[..|lines| - |Closing(lines)|] + Closing(lines)
  {
  }

  predicate AllSpace(t: Text) {
    forall i :: 0 <= i < |t| ==> IsSpace(t[i])
  }

  lemma {:induction false} TrimStartIs(s: Text)
    ensures exists before :: AllSpace(before) && s == before + TrimStart(s)
  {
    if s != [] && IsSpace(s[0]) {
      TrimStartIs(s[1..]);
      var before :| AllSpace(before) && s[1..] == before + TrimStart(s[1..]);
      assert s == [s[0]] + before + TrimStart(s);
      assert AllSpace([s[0]] + before);
    } else {
      assert AllSpace([]) && s == [] + TrimStart(s);
    }
  }

  lemma {:induction false} TrimEndIs(s: Text)
    ensures exists after :: AllSpace(after) && s == TrimEnd(s) + after
  {
    if s != [] && IsSpace(s[|s| - 1]) {
      TrimEndIs(s[..|s| - 1]);
      var after :| AllSpace(after) && s[..|s| - 1] == TrimEnd(s[..|s| - 1]) + after;
      assert s == TrimEnd(s) + (after + [s[|s| - 1]]);
      assert AllSpace(after + [s[|s| - 1]]);
    } else {
      assert AllSpace([]) && s == TrimEnd(s) + [];
    }
  }

  /** Trimming takes the white space off both ends, and nothing else. */
  lemma TrimIs(s: Text)
    ensures exists before, after :: AllSpace(before) && AllSpace(after) && s == before + Trim(s) + after
    ensures Trim(s) != [] ==> !IsSpace(Trim(s)[0]) && !IsSpace(Trim(s)[|Trim(s)| - 1])
  {
    TrimStartIs(s);
    TrimEndIs(TrimStart(s));
    var before :| AllSpace(before) && s == before + TrimStart(s);
    var after :| AllSpace(after) && TrimStart(s) == TrimEnd(TrimStart(s)) + after;
    hide AllSpace, TrimStart, TrimEnd;
    assert s == before + (Trim(s) + after) == before + Trim(s) + after;
  }

  /** A line is kept, trimmed, exactly when some unit of it is no white space. */
  lemma KeptIff(line: Text)
    ensures KeptOf(line) == if AllSpace(line) then [] else [Trim(line)]
  {
    TrimIs(line);
    var before, after :| AllSpace(before) && AllSpace(after) && line == before + Trim(line) + after;
    hide Trim;
    assert Trim(line) != [] ==> line[|before|] == Trim(line)[0];
    if Trim(line) == [] {
      assert line == before + after;
    }
  }

  /** `line` is `piece` without one carriage return at its end. */
  predicate GivesUpReturn(piece: Text, line: Text) {
    piece == line + [RETURN] || (piece == line && (line != [] ==> line[|line| - 1] != RETURN))
  }

  lemma DropReturnIs(piece: Text)
    ensures GivesUpReturn(piece, DropReturn(piece))
  {
    assert piece != [] ==> piece[..|piece| - 1] + [piece[|piece| - 1]] == piece;
  }

  /** The lines are the text between newlines; each but the last gives up one carriage return at its end. */
  lemma LinesAre(reply: Text)
    ensures Join(Split(reply)) == reply && |Lines(reply)| == |Split(reply)|
    ensures forall k :: 0 <= k < |Split(reply)| ==> NEWLINE !in Split(reply)[k]
    ensures forall k :: 0 <= k < |Lines(reply)| - 1 ==> GivesUpReturn(Split(reply)[k], Lines(reply)[k])
    ensures Lines(reply)[|Lines(reply)| - 1] == Split(reply)[|Split(reply)| - 1]
  {
    var pieces := Split(reply);
    hide Split, Join, DropReturn, GivesUpReturn;
    JoinSplit(reply);
    forall k | 0 <= k < |pieces|
      ensures NEWLINE !in pieces[k]
    {
      PiecesHaveNoNewline(reply, k);
    }
    forall k | 0 <= k < |pieces| - 1
      ensures GivesUpReturn(pieces[k], Lines(reply)[k])
    {
      DropReturnIs(pieces[k]);
    }
  }

  // ---- the verdict and the route ----

  /** Some of the lines state the word, and none states another of the three. */
  ghost predicate Only(lines: seq<Text>, word: string) {
    && (exists line :: line in lines && States(line, word))
    && forall line, other :: line in lines && other in {"FIX", "PROCEED", "COMPLETE"} && other != word ==> !States(line, other)
  }

  lemma FormsAgree()
    ensures forall line, w: Verdict :: Token(line) == Some(w) <==> States(line, WordOf(w))
  {
    hide *;
    forall line, w: Verdict
      ensures Token(line) == Some(w) <==> States(line, WordOf(w))
    {
      TokenForm(line, w);
    }
  }

  lemma OnlyOne(lines: seq<Text>, v: Verdict)
    ensures Tokens(lines) == {v} <==> Only(lines, WordOf(v))
  {
    hide *;
    FormsAgree();
    if Only(lines, WordOf(v)) {
      OnlyIsAll(lines, v);
    }
    if Tokens(lines) == {v} {
      AllIsOnly(lines, v);
    }
  }

  lemma OnlyIsAll(lines: seq<Text>, v: Verdict)
    requires forall line, w: Verdict :: Token(line) == Some(w) <==> States(line, WordOf(w))
    requires Only(lines, WordOf(v))
    ensures Tokens(lines) == {v}
  {
    assert WordOf(Fix) == "FIX" && WordOf(Proceed) == "PROCEED" && WordOf(Complete) == "COMPLETE";
    hide Token, States, WordOf;
    var line :| line in lines && States(line, WordOf(v));
    assert Token(line) == Some(v);
    forall w | w in Tokens(lines)
      ensures w == v
    {
      var other :| other in lines && Token(other).Some? && Token(other).value == w;
      assert States(other, WordOf(w));
    }
  }

  lemma AllIsOnly(lines: seq<Text>, v: Verdict)
    requires forall line, w: Verdict :: Token(line) == Some(w) <==> States(line, WordOf(w))
    requires Tokens(lines) == {v}
    ensures Only(lines, WordOf(v))
  {
    assert WordOf(Fix) == "FIX" && WordOf(Proceed) == "PROCEED" && WordOf(Complete) == "COMPLETE";
    hide Token, States, WordOf;
    assert v in Tokens(lines);
    var line :| line in lines && Token(line).Some? && Token(line).value == v;
    assert States(line, WordOf(v));
    forall other, word | other in lines && word in {"FIX", "PROCEED", "COMPLETE"} && word != WordOf(v)
      ensures !States(other, word)
    {
      forall w: Verdict
        ensures States(other, WordOf(w)) ==> w in Tokens(lines)
      {
        assert Token(other) == Some(w) ==> w in Tokens(lines);
      }
    }
  }

  /** The verdict of a reply, by what its last ten lines that are not blank state. */
  lemma VerdictIff(reply: Text)
    ensures var closing := Closing(NonBlank(Lines(reply)));
            && (VerdictOf(reply) == Some(Fix) <==> Only(closing, "FIX"))
            && (VerdictOf(reply) == Some(Proceed) <==> Only(closing, "PROCEED"))
            && (VerdictOf(reply) == Some(Complete) <==> Only(closing, "COMPLETE"))
  {
    var closing := Closing(NonBlank(Lines(reply)));
    OnlyOne(closing, Fix);
    OnlyOne(closing, Proceed);
    OnlyOne(closing, Complete);
    hide Tokens, Only;
  }

  /** And where it routes: FIX goes back whatever else is said; PROCEED and COMPLETE lead on only with 200 units of
      findings; everything else pauses. */
  lemma RouteIff(reply: Text)
    ensures var closing := Closing(NonBlank(Lines(reply)));
            && (RouteOf(reply) == ToImplementer <==> Only(closing, "FIX"))
            && (RouteOf(reply) == ToNextBatch <==> Only(closing, "PROCEED") && |FindingsOf(reply)| >= 200)
            && (RouteOf(reply) == ToEnd <==> Only(closing, "COMPLETE") && |FindingsOf(reply)| >= 200)
  {
    VerdictIff(reply);
    hide VerdictOf, Only, FindingsOf, Closing, NonBlank, Lines;
  }

  // ---- the findings ----

  predicate EndsWord(tail: Text) {
    tail == [] || !(65 <= tail[0] <= 90 || 97 <= tail[0] <= 122 || 48 <= tail[0] <= 57 || tail[0] == 95)
  }

  predicate NamesAs(line: Text, word: string, head: Text, space: Text, written: Text, tail: Text) {
    && line == head + space + written + tail
    && Spells(head, "VERDICT:") && AllSpace(space) && Spells(written, word) && EndsWord(tail)
  }

  /** A verdict line of the findings filter: only white space stands before the word, and the word ends there. */
  ghost predicate Names(line: Text, word: string) {
    exists head, space, written, tail :: NamesAs(line, word, head, space, written, tail)
  }

  lemma {:induction false} SkipSpaceSays(line: Text, at: nat)
    requires at <= |line|
    ensures AllSpace(line[at..SkipSpace(line, at)])
    decreases |line| - at
  {
    var n := SkipSpace(line, at);
    if at < |line| && IsSpace(line[at]) {
      SkipSpaceSays(line, at + 1);
      assert line[at..n] == [line[at]] + line[at + 1..n];
    }
  }

  lemma {:induction false} SkipSpaceOver(line: Text, at: nat, n: nat)
    requires at <= n <= |line| && AllSpace(line[at..n]) && (n < |line| ==> !IsSpace(line[n]))
    ensures SkipSpace(line, at) == n
    decreases n - at
  {
    if at < n {
      assert line[at..n][0] == line[at] && line[at..n][1..] == line[at + 1..n];
      SkipSpaceOver(line, at + 1, n);
    }
  }

  /** The filter's test of a trimmed line, its scanner put aside. */
  predicate FiltersAt(t: Text, n: nat, v: Verdict) {
    && WordAt(t, 0, U("VERDICT:")) && |t| >= 8 && SkipSpace(t, 8) == n
    && WordAt(t, n, U(WordOf(v))) && n + |WordOf(v)| <= |t|
    && EndsWord(t[n + |WordOf(v)|..])
  }

  lemma FiltersIff(line: Text)
    ensures IsVerdictLine(line) <==> exists n, v :: FiltersAt(Trim(line), n, v)
  {
    var t := Trim(line);
    hide Trim, U, WordOf, WordAt, SkipSpace, VerdictWord;
    if WordAt(t, 0, U("VERDICT:")) {
      WordAtFits(t, 0, "VERDICT:");
      var n := SkipSpace(t, 8);
      forall v: Verdict
        ensures VerdictWord(t, n) == Some((v, n + |WordOf(v)|)) <==> WordAt(t, n, U(WordOf(v)))
        ensures WordAt(t, n, U(WordOf(v))) ==> n + |WordOf(v)| <= |t|
        ensures VerdictWord(t, n).Some? ==> exists w :: VerdictWord(t, n) == Some((w, n + |WordOf(w)|))
        ensures n + |WordOf(v)| < |t| ==> t[n + |WordOf(v)|..][0] == t[n + |WordOf(v)|]
      {
        VerdictWordIff(t, n, v);
        if WordAt(t, n, U(WordOf(v))) {
          WordAtFits(t, n, WordOf(v));
        }
      }
      if IsVerdictLine(line) {
        var w :| VerdictWord(t, n) == Some((w, n + |WordOf(w)|));
        assert FiltersAt(t, n, w);
      }
    }
  }

  lemma FilteredIsNamed(t: Text, n: nat, v: Verdict)
    requires FiltersAt(t, n, v)
    ensures Names(t, WordOf(v))
  {
    hide WordAt, SkipSpace, U, WordOf, Spells, AllSpace, EndsWord;
    HeadUnits();
    var after := n + |WordOf(v)|;
    SkipSpaceSays(t, 8);
    WordLetters(v);
    WordAtIff(t, 0, "VERDICT:");
    WordAtIff(t, n, WordOf(v));
    Pieces(t, n, after);
    assert NamesAs(t, WordOf(v), t[0..8], t[8..n], t[n..after], t[after..]);
  }

  lemma NamedIsFiltered(t: Text, v: Verdict)
    requires Names(t, WordOf(v))
    ensures exists n :: FiltersAt(t, n, v)
  {
    var head, space, written, tail :| NamesAs(t, WordOf(v), head, space, written, tail);
    var n := 8 + |space|;
    WordLetters(v);
    HeadUnits();
    Slices(head, space, written, tail);
    WordAtIff(t, 0, "VERDICT:");
    WordAtIff(t, n, WordOf(v));
    SkipSpaceOver(t, 8, n);
    hide WordAt, SkipSpace, U, WordOf, Spells, AllSpace, EndsWord;
    assert FiltersAt(t, n, v);
  }

  /** The lines the findings leave out. */
  lemma VerdictLineIff(line: Text)
    ensures IsVerdictLine(line) <==> Names(Trim(line), "FIX") || Names(Trim(line), "PROCEED") || Names(Trim(line), "COMPLETE")
  {
    hide IsVerdictLine, Names, FiltersAt;
    assert WordOf(Fix) == "FIX" && WordOf(Proceed) == "PROCEED" && WordOf(Complete) == "COMPLETE";
    FiltersIff(line);
    if IsVerdictLine(line) {
      var n: nat, v :| FiltersAt(Trim(line), n, v);
      FilteredIsNamed(Trim(line), n, v);
    }
    forall v: Verdict | Names(Trim(line), WordOf(v))
      ensures IsVerdictLine(line)
    {
      NamedIsFiltered(Trim(line), v);
    }
  }

  lemma {:induction false} FilterConcat(a: seq<Text>, b: seq<Text>)
    ensures WithoutVerdictLines(a + b) == WithoutVerdictLines(a) + WithoutVerdictLines(b)
  {
    hide IsVerdictLine;
    if a == [] {
      assert a + b == b;
    } else {
      FilterConcat(a[1..], b);
      assert (a + b)[1..] == a[1..] + b;
    }
  }

  lemma FilterOne(line: Text)
    ensures WithoutVerdictLines([line]) == if IsVerdictLine(line) then [] else [line]
  {
    hide IsVerdictLine;
    assert [line][1..] == [];
  }

  /** The findings are the other lines: a verdict line goes wherever it stands, and every other line stays. */
  lemma FilterIs(before: seq<Text>, line: Text, after: seq<Text>)
    ensures WithoutVerdictLines(before + [line] + after) ==
            WithoutVerdictLines(before) + (if IsVerdictLine(line) then [] else [line]) + WithoutVerdictLines(after)
  {
    hide *;
    FilterConcat(before + [line], after);
    FilterConcat(before, [line]);
    FilterOne(line);
  }
}
