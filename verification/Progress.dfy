/** The splitter behind the progress display: a stream of JSON lines arrives in chunks, and an unfinished
    line is carried over to the next chunk. */
module Progress {
  import opened Utf16

  const MAX_CARRY_OVER := 64 * 1024

  /** What reaches the JSON parser of some lines: the trimmed text of those that are not blank. */
  function Handed(lines: seq<Text>): seq<Text> {
    if lines == [] then []
    else Handed(lines[..|lines| - 1]) + if Blank(lines[|lines| - 1]) then [] else [Trim(lines[|lines| - 1])]
  }

  lemma {:induction false} HandedConcat(a: seq<Text>, b: seq<Text>)
    ensures Handed(a + b) == Handed(a) + Handed(b)
  {
    if b == [] {
      assert a + b == a;
    } else {
      assert (a + b)[..|a + b| - 1] == a + b[..|b| - 1];
      HandedConcat(a, b[..|b| - 1]);
    }
  }

  function Last(pieces: seq<Text>): Text
    requires pieces != []
  {
    pieces[|pieces| - 1]
  }

  function Init(pieces: seq<Text>): seq<Text>
    requires pieces != []
  {
    pieces[..|pieces| - 1]
  }

  /** How many lines the parser refuses. */
  function Refused(lines: seq<Text>, parses: Text -> bool): nat {
    if lines == [] then 0
    else Refused(lines[..|lines| - 1], parses) + if parses(lines[|lines| - 1]) then 0 else 1
  }

  /** They are counted one by one, equal lines too. */
  lemma {:induction false} RefusedIs(lines: seq<Text>, parses: Text -> bool, where: set<int>)
    requires forall i :: i in where <==> 0 <= i < |lines| && !parses(lines[i])
    ensures Refused(lines, parses) == |where|
  {
    if lines != [] {
      var n := |lines| - 1;
      assert forall i :: 0 <= i < n ==> lines[..n][i] == lines[i];
      RefusedIs(lines[..n], parses, where - {n});
    } else {
      assert forall i :: i !in where;
    }
  }

  /** What is left to carry, under the cap. */
  function Capped(carry: Text): Text {
    if |carry| > MAX_CARRY_OVER then [] else carry
  }

  // ---- chunks ----

  function Joined(chunks: seq<Text>): Text {
    if chunks == [] then [] else Joined(chunks[..|chunks| - 1]) + chunks[|chunks| - 1]
  }

  /** The carry and the lines handed on after a number of chunks. */
  function Fed(chunks: seq<Text>): (r: (Text, seq<Text>))
    ensures |r.0| <= MAX_CARRY_OVER
  {
    if chunks == [] then ([], [])
    else
      var before := Fed(chunks[..|chunks| - 1]);
      var pieces := Split(before.0 + chunks[|chunks| - 1]);
      (Capped(Last(pieces)), before.1 + Handed(Init(pieces)))
  }

  /** With the flush at the end of the stream. */
  function Closed(chunks: seq<Text>): seq<Text> {
    Fed(chunks).1 + Handed([Fed(chunks).0])
  }

  /** At no chunk boundary is more than the cap of an unfinished line waiting. */
  predicate Fits(chunks: seq<Text>) {
    chunks == [] || (Fits(chunks[..|chunks| - 1]) && |Last(Split(Joined(chunks)))| <= MAX_CARRY_OVER)
  }

  lemma GlueTail(left: seq<Text>, right: seq<Text>)
    requires left != [] && right != []
    ensures Glue(left, right) == Init(left) + Glue([Last(left)], right)
  {
    var joint := [Last(left) + right[0]];
    assert [Last(left)][..0] == [];
    assert Glue([Last(left)], right) == joint + right[1..];
    ConcatIsAssociative(Init(left), joint, right[1..]);
  }

  /** Splitting what is carried with the next chunk continues the split of the whole. */
  lemma SplitGoesOn(stream: Text, chunk: Text)
    ensures Split(stream + chunk) == Init(Split(stream)) + Split(Last(Split(stream)) + chunk)
  {
    var left, right := Split(stream), Split(chunk);
    PiecesHaveNoNewline(stream, |left| - 1);
    SplitWithoutNewline(Last(left));
    hide Split, Glue;
    SplitConcat(stream, chunk);
    SplitConcat(Last(left), chunk);
    GlueTail(left, right);
  }

  lemma {:induction false} FedIsSplit(chunks: seq<Text>)
    requires Fits(chunks)
    ensures Fed(chunks) == (Last(Split(Joined(chunks))), Handed(Init(Split(Joined(chunks)))))
  {
    if chunks != [] {
      var before, chunk := chunks[..|chunks| - 1], chunks[|chunks| - 1];
      FedIsSplit(before);
      SplitGoesOn(Joined(before), chunk);
      var done, rest := Init(Split(Joined(before))), Split(Last(Split(Joined(before))) + chunk);
      assert Init(done + rest) == done + Init(rest) && Last(done + rest) == Last(rest);
      HandedConcat(done, Init(rest));
    } else {
      assert Init(Split([])) == [];
    }
  }

  /** However a stream is cut into chunks, as long as they fit, the lines handed on are its own non-blank
      lines in order. */
  lemma ChunksDoNotMatter(chunks: seq<Text>)
    requires Fits(chunks)
    ensures Closed(chunks) == Handed(Split(Joined(chunks)))
  {
    FedIsSplit(chunks);
    var pieces := Split(Joined(chunks));
    assert pieces == Init(pieces) + [Last(pieces)];
    HandedConcat(Init(pieces), [Last(pieces)]);
  }

  // ---- exactly which streams the cut does not matter to ----

  lemma {:induction false} BlankIff(s: Text)
    ensures Blank(s) <==> forall i :: 0 <= i < |s| ==> IsSpace(s[i])
  {
    TrimStartBlank(s);
    var t := TrimStart(s);
    if t != [] { TrimEndKeeps(t); }
  }

  lemma {:induction false} TrimStartBlank(s: Text)
    ensures TrimStart(s) == [] <==> forall i :: 0 <= i < |s| ==> IsSpace(s[i])
  {
    if s != [] && IsSpace(s[0]) {
      TrimStartBlank(s[1..]);
      assert forall i :: 0 < i < |s| ==> s[i] == s[1..][i - 1];
      assert forall i :: 0 <= i < |s[1..]| ==> s[1..][i] == s[i + 1];
    }
  }

  lemma {:induction false} TrimEndKeeps(s: Text)
    requires s != [] && !IsSpace(s[0])
    ensures TrimEnd(s) != []
  {
    if IsSpace(s[|s| - 1]) {
      TrimEndKeeps(s[..|s| - 1]);
    }
  }

  lemma BlankParts(a: Text, b: Text)
    ensures Blank(a + b) <==> Blank(a) && Blank(b)
  {
    BlankIff(a);
    BlankIff(b);
    BlankIff(a + b);
    assert forall i :: 0 <= i < |a| ==> (a + b)[i] == a[i];
    assert forall i :: 0 <= i < |b| ==> (a + b)[|a| + i] == b[i];
  }

  /** No line with something to parse is longer than the cap. */
  predicate Short(pieces: seq<Text>) {
    forall p :: p in pieces ==> Blank(p) || |p| <= MAX_CARRY_OVER
  }

  /** The carry is the unfinished line, or stands for one that is blank so far and too long to carry. */
  predicate Carries(carry: Text, line: Text) {
    carry == line || (Blank(carry) && Blank(line) && |line| > MAX_CARRY_OVER)
  }

  /** A piece that goes on: the first piece of what follows runs on from it. */
  lemma SplitFrom(line: Text, chunk: Text)
    requires NEWLINE !in line
    ensures Split(line + chunk) == [line + Split(chunk)[0]] + Split(chunk)[1..]
  {
    SplitWithoutNewline(line);
    SplitConcat(line, chunk);
    assert [line][..0] == [];
  }

  lemma ShortParts(done: seq<Text>, rest: seq<Text>)
    requires Short(done + rest)
    ensures Short(done) && Short(rest)
  {
    hide Blank;
    assert forall p :: p in done || p in rest ==> p in done + rest;
  }

  lemma ShortSnoc(done: seq<Text>, line: Text)
    requires Short(done) && (Blank(line) || |line| <= MAX_CARRY_OVER)
    ensures Short(done + [line])
  {
    hide Blank;
  }

  /** A prefix of a short line is short. */
  lemma ShortPrefix(line: Text, more: Text)
    requires Blank(line + more) || |line + more| <= MAX_CARRY_OVER
    ensures Blank(line) || |line| <= MAX_CARRY_OVER
  {
    BlankParts(line, more);
    hide Blank;
  }

  lemma ShortBefore(stream: Text, chunk: Text)
    requires Short(Split(stream + chunk))
    ensures Short(Split(stream)) && Short(Split(Last(Split(stream)) + chunk))
  {
    hide Split, Blank, Short;
    var pieces := Split(stream);
    var line, rest := Last(pieces), Split(Last(pieces) + chunk);
    SplitGoesOn(stream, chunk);
    PiecesHaveNoNewline(stream, |pieces| - 1);
    SplitFrom(line, chunk);
    ShortParts(Init(pieces), rest);
    FirstIsShort(rest);
    ShortPrefix(line, Split(chunk)[0]);
    ShortSnoc(Init(pieces), line);
    assert pieces == Init(pieces) + [line];
  }

  lemma FirstIsShort(pieces: seq<Text>)
    requires pieces != [] && Short(pieces)
    ensures Blank(pieces[0]) || |pieces[0]| <= MAX_CARRY_OVER
    ensures Blank(Last(pieces)) || |Last(pieces)| <= MAX_CARRY_OVER
  {
    hide Blank;
    assert pieces[0] in pieces && Last(pieces) in pieces;
  }

  lemma HandedPrepend(p: Text, q: seq<Text>)
    ensures Handed([p] + q) == (if Blank(p) then [] else [Trim(p)]) + Handed(q)
  {
    HandedConcat([p], q);
    HandedOne(p);
  }

  lemma HandedLast(pieces: seq<Text>)
    requires pieces != []
    ensures Handed(pieces) == Handed(Init(pieces)) + Handed([Last(pieces)])
  {
    assert pieces == Init(pieces) + [Last(pieces)];
    hide Handed;
    HandedConcat(Init(pieces), [Last(pieces)]);
  }

  /** Two blank first pieces are as good as one. */
  lemma SameButFirst(held: Text, whole: Text, tail: seq<Text>)
    requires tail != [] && (held == whole || (Blank(held) && Blank(whole)))
    ensures Handed(Init([held] + tail)) == Handed(Init([whole] + tail))
    ensures Last([held] + tail) == Last([whole] + tail) == Last(tail)
  {
    hide Blank, Handed;
    assert Init([held] + tail) == [held] + Init(tail) && Init([whole] + tail) == [whole] + Init(tail);
    HandedPrepend(held, Init(tail));
    HandedPrepend(whole, Init(tail));
  }

  lemma CappedCarries(held: Text, line: Text)
    requires Blank(line) || |line| <= MAX_CARRY_OVER
    requires Carries(held, line)
    ensures Carries(Capped(held), line)
  {
    assert Blank([]);
    hide Blank;
  }

  lemma HeldCarries(carry: Text, line: Text, more: Text)
    requires Carries(carry, line) && (Blank(line + more) || |line + more| <= MAX_CARRY_OVER)
    ensures Carries(carry + more, line + more)
    ensures carry + more == line + more || (Blank(carry + more) && Blank(line + more))
  {
    BlankParts(carry, more);
    BlankParts(line, more);
    hide Blank;
  }

  /** A chunk after a carry that stands for the line does what it does after the line. */
  lemma CarryGoesOn(carry: Text, line: Text, chunk: Text)
    requires Carries(carry, line) && NEWLINE !in carry && NEWLINE !in line && Short(Split(line + chunk))
    ensures Handed(Init(Split(carry + chunk))) == Handed(Init(Split(line + chunk)))
    ensures Carries(Capped(Last(Split(carry + chunk))), Last(Split(line + chunk)))
  {
    SplitFrom(carry, chunk);
    SplitFrom(line, chunk);
    var first, tail := Split(chunk)[0], Split(chunk)[1..];
    FirstIsShort(Split(line + chunk));
    hide Split, Blank, Handed, Short, Carries, Capped;
    HeldCarries(carry, line, first);
    if tail == [] {
      assert [carry + first] + tail == [carry + first] && [line + first] + tail == [line + first];
      CappedCarries(carry + first, line + first);
    } else {
      SameButFirst(carry + first, line + first, tail);
      CarriesItself(Last(tail));
      CappedCarries(Last(tail), Last(tail));
    }
  }

  lemma CarriesItself(line: Text)
    ensures Carries(line, line)
  {}

  lemma CarryHasNoNewline(chunks: seq<Text>)
    ensures NEWLINE !in Fed(chunks).0
  {
    if chunks != [] {
      var data := Fed(chunks[..|chunks| - 1]).0 + chunks[|chunks| - 1];
      PiecesHaveNoNewline(data, |Split(data)| - 1);
    }
  }

  /** The pieces handed on so far and those of one more chunk. */
  lemma HandedOn(done: seq<Text>, rest: seq<Text>)
    requires rest != []
    ensures Handed(Init(done + rest)) == Handed(done) + Handed(Init(rest)) && Last(done + rest) == Last(rest)
  {
    hide Handed;
    assert Init(done + rest) == done + Init(rest);
    HandedConcat(done, Init(rest));
  }

  /** What is fed stands for the pieces of what has arrived. */
  predicate StandsFor(fed: (Text, seq<Text>), pieces: seq<Text>)
    requires pieces != []
  {
    fed.1 == Handed(Init(pieces)) && Carries(fed.0, Last(pieces))
  }

  lemma FedOnce(chunks: seq<Text>, chunk: Text)
    requires StandsFor(Fed(chunks), Split(Joined(chunks)))
    requires Short(Split(Last(Split(Joined(chunks))) + chunk))
    ensures StandsFor(Fed(chunks + [chunk]), Split(Joined(chunks) + chunk))
  {
    hide Split, Handed, Carries, Short, Fed, Capped;
    var pieces := Split(Joined(chunks));
    CarryHasNoNewline(chunks);
    PiecesHaveNoNewline(Joined(chunks), |pieces| - 1);
    CarryGoesOn(Fed(chunks).0, Last(pieces), chunk);
    SplitGoesOn(Joined(chunks), chunk);
    HandedOn(Init(pieces), Split(Last(pieces) + chunk));
    FedOne(chunks, chunk);
  }

  lemma FedNothing()
    ensures StandsFor(Fed([]), Split(Joined([])))
  {
    assert Split([]) == [[]] && Init([[]]) == [];
  }

  lemma JoinedOne(chunks: seq<Text>)
    requires chunks != []
    ensures Joined(chunks) == Joined(chunks[..|chunks| - 1]) + chunks[|chunks| - 1]
  {}

  lemma {:induction false} FedCarries(chunks: seq<Text>)
    requires Short(Split(Joined(chunks)))
    ensures StandsFor(Fed(chunks), Split(Joined(chunks)))
  {
    hide *;
    if chunks == [] {
      FedNothing();
    } else {
      var before, chunk := chunks[..|chunks| - 1], chunks[|chunks| - 1];
      JoinedOne(chunks);
      ShortBefore(Joined(before), chunk);
      FedCarries(before);
      FedOnce(before, chunk);
      assert before + [chunk] == chunks;
    }
  }

  lemma ShortStreamsClose(chunks: seq<Text>)
    requires Short(Split(Joined(chunks)))
    ensures Closed(chunks) == Handed(Split(Joined(chunks)))
  {
    FedCarries(chunks);
    HandedLast(Split(Joined(chunks)));
    HandedOne(Last(Split(Joined(chunks))));
    HandedOne(Fed(chunks).0);
    hide Split, Handed, Blank, Fed, Joined, Short;
  }

  /** A stream can be cut right after any of its lines. */
  lemma {:induction false} CutAfter(s: Text, i: nat) returns (a: Text, b: Text)
    requires i < |Split(s)|
    ensures s == a + b && Split(a) == Split(s)[..i + 1] && Split(b) == [[]] + Split(s)[i + 1..]
  {
    if s == [] {
      a, b := [], [];
    } else if s[0] == NEWLINE && i == 0 {
      a, b := [], s;
    } else {
      var c, j := s[0], if s[0] == NEWLINE then i - 1 else i;
      var rest;
      rest, b := CutAfter(s[1..], j);
      a := [c] + rest;
      assert a[1..] == rest;
      assert s == [c] + s[1..];
      PrependCut(c, Split(s[1..]), j);
    }
  }

  lemma PrependCut(c: CodeUnit, pieces: seq<Text>, j: nat)
    requires j < |pieces|
    ensures var i := if c == NEWLINE then j + 1 else j;
            && PrependUnit(c, pieces)[..i + 1] == PrependUnit(c, pieces[..j + 1])
            && PrependUnit(c, pieces)[i + 1..] == pieces[j + 1..]
  {}

  /** What is left of the pieces of the last chunk, the carry perhaps dropped. */
  lemma ClosingDropsAtMost(pieces: seq<Text>)
    requires pieces != []
    ensures |Handed(Init(pieces))| + |Handed([Capped(Last(pieces))])| <= |Handed(pieces)|
  {
    HandedLast(pieces);
    HandedOne(Last(pieces));
    HandedOne([]);
    hide Handed;
  }

  lemma HandedAround(pieces: seq<Text>, i: nat)
    requires i < |pieces|
    ensures |Handed(pieces)| == |Handed(pieces[..i])| + (if Blank(pieces[i]) then 0 else 1) + |Handed(pieces[i + 1..])|
  {
    hide Handed, Blank;
    assert pieces == pieces[..i] + ([pieces[i]] + pieces[i + 1..]);
    HandedConcat(pieces[..i], [pieces[i]] + pieces[i + 1..]);
    HandedPrepend(pieces[i], pieces[i + 1..]);
  }

  /** A chunk that ends in an over-long unfinished line, and the rest. */
  lemma ClosedAfterLong(a: Text, b: Text)
    requires |Last(Split(a))| > MAX_CARRY_OVER
    ensures Joined([a, b]) == a + b
    ensures |Closed([a, b])| <= |Handed(Init(Split(a)))| + |Handed(Split(b))|
  {
    TwoChunks(a, b);
    assert [] + b == b;
    hide Split, Handed;
    ClosingDropsAtMost(Split(b));
  }

  /** A line with something to parse that is longer than the cap is lost when the stream is cut before its
      newline. */
  lemma LongLinesDependOnChunks(s: Text, i: nat) returns (chunks: seq<Text>)
    requires i < |Split(s)| && !Blank(Split(s)[i]) && |Split(s)[i]| > MAX_CARRY_OVER
    ensures Joined(chunks) == s && |Closed(chunks)| < |Handed(Split(s))|
  {
    hide Split, Blank, Handed, Closed;
    var a, b := CutAfter(s, i);
    var pieces := Split(s);
    chunks := [a, b];
    assert Last(pieces[..i + 1]) == pieces[i] && Init(pieces[..i + 1]) == pieces[..i];
    ClosedAfterLong(a, b);
    HandedAround(pieces, i);
    HandedPrepend([], pieces[i + 1..]);
    EmptyIsBlank();
  }

  lemma EmptyIsBlank()
    ensures Blank([])
  {}

  /** Exactly which streams are handed on the same however they are cut: those whose lines fit the carry, blank
      ones aside. */
  lemma ChunksDoNotMatterIff(s: Text)
    ensures (forall chunks :: Joined(chunks) == s ==> Closed(chunks) == Handed(Split(s))) <==>
            forall p :: p in Split(s) ==> |p| <= 65_536 || forall i :: 0 <= i < |p| ==> IsSpace(p[i])
  {
    forall p | p in Split(s)
      ensures Blank(p) <==> forall i :: 0 <= i < |p| ==> IsSpace(p[i])
    {
      BlankIff(p);
    }
    hide Blank, Split, Joined, Closed, Handed;
    if Short(Split(s)) {
      forall chunks | Joined(chunks) == s
        ensures Closed(chunks) == Handed(Split(s))
      {
        ShortStreamsClose(chunks);
      }
    } else {
      var i :| 0 <= i < |Split(s)| && !Blank(Split(s)[i]) && |Split(s)[i]| > MAX_CARRY_OVER;
      var chunks := LongLinesDependOnChunks(s, i);
    }
  }

  lemma HandedOne(line: Text)
    ensures Handed([line]) == if Blank(line) then [] else [Trim(line)]
  {
    assert [line][..0] == [];
  }

  lemma OneChunk(a: Text)
    ensures Joined([a]) == a && Fed([a]) == (Capped(Last(Split(a))), [] + Handed(Init(Split(a))))
  {
    assert [a][..0] == [] && [] + a == a;
  }

  lemma TwoChunks(a: Text, b: Text)
    ensures Joined([a, b]) == a + b
    ensures var carry := Capped(Last(Split(a)));
            Fed([a, b]) == (Capped(Last(Split(carry + b))), Handed(Init(Split(a))) + Handed(Init(Split(carry + b))))
  {
    assert [a, b][..1] == [a];
    OneChunk(a);
    assert [] + Handed(Init(Split(a))) == Handed(Init(Split(a)));
  }

  // ---- the callbacks ----

  /** The closure's variables. `handed` is what has been given to the JSON parser. */
  class Splitter {
    const parses: Text -> bool
    var carryOver: Text
    var droppedEvents: nat
    var handed: seq<Text>
    ghost var chunks: seq<Text>

    ghost predicate Valid()
      reads this
    {
      (carryOver, handed) == Fed(chunks)
    }

    constructor (parses: Text -> bool)
      ensures Valid() && this.parses == parses && chunks == [] && handed == [] && droppedEvents == 0
    {
      this.parses := parses;
      carryOver, droppedEvents, handed, chunks := [], 0, [], [];
    }

    method ParseLine(line: Text)
      modifies this`handed, this`droppedEvents
      ensures handed == old(handed) + Handed([line])
      ensures droppedEvents == old(droppedEvents) + Refused(Handed([line]), parses)
    {
      HandedOne(line);
      var trimmed := Trim(line);
      if trimmed != [] {
        assert [trimmed][..0] == [];
        handed := handed + [trimmed];
        if !parses(trimmed) {
          droppedEvents := droppedEvents + 1;
        }
      }
    }

    method OnProgress(chunk: Text)
      requires Valid()
      modifies this
      ensures Valid() && chunks == old(chunks) + [chunk]
      ensures var pieces := Split(old(carryOver) + chunk);
              && handed == old(handed) + Handed(Init(pieces)) && carryOver == Capped(Last(pieces))
              && droppedEvents == old(droppedEvents) + Refused(Handed(Init(pieces)), parses)
                                  + if |Last(pieces)| > MAX_CARRY_OVER then 1 else 0
    {
      FedOne(chunks, chunk);
      hide Split, Handed, Refused, Fed;
      var data := carryOver + chunk;
      var pieces := Split(data);
      var lines := pieces[..|pieces| - 1];
      carryOver := pieces[|pieces| - 1];
      if |carryOver| > MAX_CARRY_OVER {
        carryOver := [];
        droppedEvents := droppedEvents + 1;
      }
      ParseLines(lines);
      chunks := chunks + [chunk];
    }

    method ParseLines(lines: seq<Text>)
      modifies this`handed, this`droppedEvents
      ensures handed == old(handed) + Handed(lines)
      ensures droppedEvents == old(droppedEvents) + Refused(Handed(lines), parses)
    {
      assert Handed([]) == [] && Refused([], parses) == 0;
      hide Handed, Refused;
      for i := 0 to |lines|
        invariant handed == old(handed) + Handed(lines[..i])
        invariant droppedEvents == old(droppedEvents) + Refused(Handed(lines[..i]), parses)
      {
        OneMore(lines, i, parses);
        ParseLine(lines[i]);
      }
      assert lines[..|lines|] == lines;
    }

    /** The end of the stream: an unterminated last line is still a line. */
    method OnClose() returns (reported: nat)
      requires Valid()
      modifies this
      ensures handed == Closed(chunks) && chunks == old(chunks) && droppedEvents == 0
      ensures reported == old(droppedEvents) + Refused(Handed([old(carryOver)]), parses)
      ensures Fits(chunks) ==> handed == Handed(Split(Joined(chunks)))
    {
      if Fits(chunks) {
        ChunksDoNotMatter(chunks);
      }
      HandedOne(carryOver);
      if Trim(carryOver) != [] {
        ParseLine(carryOver);
        carryOver := [];
      }
      reported := droppedEvents;
      droppedEvents := 0;
    }
  }

  lemma FedOne(chunks: seq<Text>, chunk: Text)
    ensures var pieces := Split(Fed(chunks).0 + chunk);
            Fed(chunks + [chunk]) == (Capped(Last(pieces)), Fed(chunks).1 + Handed(Init(pieces)))
  {
    assert (chunks + [chunk])[..|chunks|] == chunks;
  }

  lemma OneMore(lines: seq<Text>, i: nat, parses: Text -> bool)
    requires i < |lines|
    ensures Handed(lines[..i + 1]) == Handed(lines[..i]) + Handed([lines[i]])
    ensures Refused(Handed(lines[..i + 1]), parses) ==
            Refused(Handed(lines[..i]), parses) + Refused(Handed([lines[i]]), parses)
  {
    assert lines[..i + 1] == lines[..i] + [lines[i]];
    HandedConcat(lines[..i], [lines[i]]);
    RefusedConcat(Handed(lines[..i]), Handed([lines[i]]), parses);
  }

  lemma {:induction false} RefusedConcat(a: seq<Text>, b: seq<Text>, parses: Text -> bool)
    ensures Refused(a + b, parses) == Refused(a, parses) + Refused(b, parses)
  {
    if b == [] {
      assert a + b == a;
    } else {
      assert (a + b)[..|a + b| - 1] == a + b[..|b| - 1];
      RefusedConcat(a, b[..|b| - 1], parses);
    }
  }
}
