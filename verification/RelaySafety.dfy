/** What every run of the relay keeps, whatever the models reply, wherever the worker dies and
    however often it is resumed. */
module RelaySafety {
  import opened Wrappers
  import opened Utf16
  import P = Preface
  import V = Verdicts
  import opened RelayProtocol

  // ---- the crash-free conversation ----

  function Turns(x: seq<Event>): (w: seq<Event>)
    ensures forall e :: e in w ==> e.entry.Response?
  {
    if x == [] then []
    else
      var front := Turns(x[..|x| - 1]);
      if x[|x| - 1].entry.Response? then front + [x[|x| - 1]] else front
  }

  /** The crash-free automaton: may a turn of `role` in `batch` and `cycle` come after `before`? */
  predicate MayFollow(su: Setup, before: Option<Event>, role: Role, batch: nat, cycle: nat) {
    match before
    case None => role == Opener(su, batch) && batch == su.startBatch && cycle == 1
    case Some(a) =>
      && a.entry.Response?
      && if batch == a.batch + 1 then
           && role == Opener(su, batch) && cycle == 1
           && (a.entry.role == Implementer || V.RouteOf(a.entry.text) in {V.ToImplementer, V.ToNextBatch})
         else
           && batch == a.batch
           && (match (a.entry.role, role)
               case (Implementer, Implementer) => false
               case (Implementer, Reviewer) => cycle == a.cycle
               case (Reviewer, Implementer) => V.RouteOf(a.entry.text) == V.ToImplementer && cycle >= a.cycle
               case (Reviewer, Reviewer) => V.RouteOf(a.entry.text) == V.Unclear && cycle == a.cycle)
  }

  predicate IsWord(su: Setup, w: seq<Event>) {
    forall i :: 0 <= i < |w| ==>
      w[i].entry.Response? && MayFollow(su, LastOf(w[..i]), w[i].entry.role, w[i].batch, w[i].cycle)
  }

  /** The text of a prompt under a number of notes. */
  function Rendered(su: Setup, prefaces: nat, body: Body): Text {
    P.Copies(prefaces, su.preface) + su.prose(body)
  }

  /** Every prompt ever sent says what it is for, under at most one note. */
  predicate Said(su: Setup, text: Text, body: Body) {
    text == Rendered(su, 0, body) || text == Rendered(su, 1, body)
  }

  lemma ProseIsRendered(su: Setup, body: Body)
    ensures Rendered(su, 0, body) == su.prose(body)
  {
    assert P.Copies(0, su.preface) == [];
  }

  /** A re-send puts exactly one note in front, whatever was in front before. */
  lemma ResentIsRendered(su: Setup, text: Text, body: Body)
    requires ValidSetup(su) && Said(su, text, body)
    ensures P.Once(text, su.preface) == Rendered(su, 1, body)
  {
    assert !(su.preface <= su.prose(body));
    P.OnceOverCopies(0, su.preface, su.prose(body));
    P.OnceOverCopies(1, su.preface, su.prose(body));
    hide P.Once, P.Copies;
  }

  /** What a prompt carries, given the exchanges before it. */
  predicate Carries(su: Setup, before: seq<Event>, e: Event)
    requires e.entry.Prompt?
  {
    match LastOf(before)
    case None => e.entry.text == su.prose(e.entry.body) && e.entry.body == OpeningBody(su, e.batch, false)
    case Some(last) =>
      match last.entry
      case Prompt(role, sent, body, _) =>
        PromptFor(e, role, last.batch, last.cycle) && e.entry.text == P.Once(sent, su.preface) && e.entry.body == body
      case Response(role, reply) =>
        if e.batch == last.batch + 1 then
          e.entry.text == su.prose(e.entry.body) && e.entry.body == OpeningBody(su, e.batch, true)
        else if role == Implementer then
          e.entry.text == su.prose(e.entry.body) && e.entry.body == ReviewSummary(e.batch, reply)
        else if e.entry.role == Implementer then
          e.entry.text == su.prose(e.entry.body) && e.entry.body in {ApplyFixes(e.batch, reply), ApplyFinal(e.batch, reply)}
        else
          |before| >= 2 && var asked := before[|before| - 2].entry;
          asked.Prompt? && e.entry.text == asked.text && e.entry.body == asked.body
      case _ => false
  }

  /** One exchange: a response answers the prompt right before it; a prompt carries what it must. */
  predicate Exchanged(su: Setup, x: seq<Event>, i: nat)
    requires i < |x|
  {
    var e := x[i];
    match e.entry
    case Response(role, _) => i > 0 && PromptFor(x[i - 1], role, e.batch, e.cycle)
    case Prompt(_, text, body, _) => Said(su, text, body) && Carries(su, x[..i], e)
    case _ => false
  }

  predicate AllExchanged(su: Setup, x: seq<Event>) {
    forall i :: 0 <= i < |x| ==> Exchanged(su, x, i)
  }

  /** What the end of the conversation leaves open; `asked` is the last reviewer prompt of the log. */
  predicate OpenEnd(su: Setup, x: seq<Event>, asked: Option<Event>) {
    x == [] ||
    var last := x[|x| - 1];
    && IsExchange(last)
    && (last.entry.Prompt? ==> MayFollow(su, LastOf(Turns(x)), last.entry.role, last.batch, last.cycle))
    && (last.entry.Response? ==> LastOf(Turns(x)) == Some(last))
    && (last.entry.role == Reviewer ==>
          if last.entry.Prompt? then asked == Some(last) else |x| >= 2 && asked == Some(x[|x| - 2]))
  }

  /** The grammar of the exchanges. */
  predicate Conversed(su: Setup, log: seq<Event>) {
    var x := Exchanges(log);
    AllExchanged(su, x) && IsWord(su, Turns(x)) && OpenEnd(su, x, LastReviewerPrompt(log))
  }

  // ---- where the row stands ----

  /** The row against the last exchange and the last decision. */
  predicate Anchored(su: Setup, d: Durable) {
    var row := d.row;
    && 1 <= row.cycle <= row.maxCycles
    && (match LastExchange(d.log)
        case None => row.batch == su.startBatch && row.cycle == 1 && !DecisionIsLast(d.log)
        case Some(last) =>
          && 1 <= last.cycle <= row.maxCycles
          && if last.batch == row.batch then
               last.cycle <= row.cycle && (Reviewed(d, V.ToImplementer) || last.cycle == row.cycle)
             else
               && last.batch + 1 == row.batch && row.cycle == 1 && last.entry.Response?
               && (last.entry.role == Implementer || V.RouteOf(last.entry.text) in {V.ToImplementer, V.ToNextBatch}))
    && (DecisionIsLast(d.log) ==>
          && LastDecision(d.log).Some? && LastExchange(d.log).Some?
          && var last := LastExchange(d.log).value;
          && last.entry.Response? && last.entry.role == Reviewer && V.RouteOf(last.entry.text) == V.ToImplementer
          && LastDecision(d.log).value.batch == last.batch
          && (last.batch == row.batch ==> row.cycle == row.maxCycles))
    && (row.status == PausedCycleCap ==> Reviewed(d, V.ToImplementer) && row.cycle == row.maxCycles)
    && (row.status == PausedUnclearVerdict ==> Reviewed(d, V.Unclear))
  }

  // ---- the counters ----

  ghost predicate Counted(su: Setup, d: Durable) {
    && d.row.maxCycles == su.maxCycles + Continues(Decisions(d.log))
    && forall b: nat {:trigger FixRounds(su.preface, d.log, b)} :: FixRounds(su.preface, d.log, b) <= FixRoundBound(d, b)
  }

  function FixRoundBound(d: Durable, b: nat): int {
    match LastExchange(d.log)
    case None => 0
    case Some(last) =>
      if b > last.batch then 0 else if b == last.batch then last.cycle - 1 else d.row.maxCycles - 1
  }

  // ---- interruptions ----

  ghost predicate Limited(su: Setup, log: seq<Event>) {
    forall role, b: nat, c: nat {:trigger Interrupted(log, role, b, c)} {:trigger InterruptedStored(log, role, b, c)} ::
      && InterruptedStored(log, role, b, c) <= Interrupted(log, role, b, c)
      && (Interrupted(log, role, b, c) > 0 ==>
            LastExchange(log).Some? && PromptFor(LastExchange(log).value, role, b, c))
      && (su.freshSessionAfterInterrupts > 0 ==>
            InterruptedStored(log, role, b, c) <= su.freshSessionAfterInterrupts)
  }

  ghost predicate Inv(su: Setup, d: Durable) {
    Anchored(su, d) && Conversed(su, d.log) && Counted(su, d) && Limited(su, d.log)
  }

  // ---- every write keeps it ----

  lemma InitialInv(su: Setup)
    requires ValidSetup(su)
    ensures Inv(su, Initial(su))
  {}

  /** Notes and decisions leave the exchanges alone. */
  lemma SilentEventKeeps(su: Setup, log: seq<Event>, e: Event)
    requires !IsExchange(e)
    ensures Exchanges(log + [e]) == Exchanges(log)
    ensures Conversed(su, log) ==> Conversed(su, log + [e])
    ensures Limited(su, log) ==> Limited(su, log + [e])
    ensures forall b: nat {:trigger FixRounds(su.preface, log + [e], b)} :: FixRounds(su.preface, log + [e], b) == FixRounds(su.preface, log, b)
  {
    Appended(log, e);
    forall role, b: nat, c: nat
      ensures Interrupted(log + [e], role, b, c) == Interrupted(log, role, b, c)
      ensures InterruptedStored(log + [e], role, b, c) == InterruptedStored(log, role, b, c)
    {
      AppendedCounts(log, e, role, b, c);
    }
    forall b: nat
      ensures FixRounds(su.preface, log + [e], b) == FixRounds(su.preface, log, b)
    {
      AppendedFixRounds(su.preface, log, e, b);
    }
  }

  lemma NoteAnchors(su: Setup, d: Durable, d': Durable)
    requires Anchored(su, d) && Noted(d, d')
    ensures Anchored(su, d')
  {
    Appended(d.log, Stamp(d.row, Note));
    hide V.RouteOf;
  }

  lemma NoteCounts(su: Setup, d: Durable, d': Durable)
    requires Counted(su, d) && Noted(d, d')
    ensures Counted(su, d')
  {
    var e := Stamp(d.row, Note);
    Appended(d.log, e);
    forall b: nat
      ensures FixRounds(su.preface, d'.log, b) <= FixRoundBound(d', b)
    {
      AppendedFixRounds(su.preface, d.log, e, b);
      assert FixRounds(su.preface, d.log, b) <= FixRoundBound(d, b);
    }
  }

  lemma NoteKeeps(su: Setup, d: Durable, d': Durable)
    requires Inv(su, d) && Noted(d, d')
    ensures Inv(su, d')
  {
    NoteAnchors(su, d, d');
    NoteCounts(su, d, d');
    hide Anchored, Counted, Conversed, Limited;
    SilentEventKeeps(su, d.log, Stamp(d.row, Note));
  }

  lemma DecisionAnchors(su: Setup, d: Durable, decision: Decision)
    requires Anchored(su, d) && d.row.status == PausedCycleCap
    ensures Anchored(su, Decide(d, decision))
  {
    Appended(d.log, Stamp(d.row, Decided(decision)));
  }

  lemma DecisionCounts(su: Setup, d: Durable, decision: Decision)
    requires Counted(su, d) && d.row.status == PausedCycleCap
    ensures Counted(su, Decide(d, decision))
  {
    var e := Stamp(d.row, Decided(decision));
    Appended(d.log, e);
    assert (Decisions(d.log) + [e])[..|Decisions(d.log)|] == Decisions(d.log);
    forall b: nat
      ensures FixRounds(su.preface, d.log + [e], b) <= FixRoundBound(Decide(d, decision), b)
    {
      AppendedFixRounds(su.preface, d.log, e, b);
      assert FixRounds(su.preface, d.log, b) <= FixRoundBound(d, b);
    }
  }

  lemma DecideKeeps(su: Setup, d: Durable, decision: Decision)
    requires Inv(su, d) && d.row.status == PausedCycleCap
    ensures Inv(su, Decide(d, decision))
  {
    DecisionAnchors(su, d, decision);
    DecisionCounts(su, d, decision);
    hide Anchored, Counted, Conversed, Limited;
    SilentEventKeeps(su, d.log, Stamp(d.row, Decided(decision)));
  }

  lemma DecisionKeeps(su: Setup, d: Durable, d': Durable)
    requires Inv(su, d) && DecidedStep(d, d')
    ensures Inv(su, d')
  {
    hide Inv, Decide;
    DecideKeeps(su, d, Continue);
    DecideKeeps(su, d, Accept);
    DecideKeeps(su, d, Proceed);
  }

  lemma RowWriteAnchors(su: Setup, d: Durable, d': Durable)
    requires Anchored(su, d)
    requires Activated(d, d') || Seated(d, d') || Recycled(d, d') || Advanced(su, d, d') || Settled(su, d, d') || Intended(d, d')
    ensures Anchored(su, d') && d'.log == d.log && d'.row.maxCycles == d.row.maxCycles
  {}

  lemma RowWriteKeeps(su: Setup, d: Durable, d': Durable)
    requires Inv(su, d)
    requires Activated(d, d') || Seated(d, d') || Recycled(d, d') || Advanced(su, d, d') || Settled(su, d, d') || Intended(d, d')
    ensures Inv(su, d')
  {
    RowWriteAnchors(su, d, d');
    hide Anchored, Conversed, Limited, Activated, Seated, Recycled, Advanced, Settled, Intended;
  }

  // a prompt

  lemma AllExchangedSnoc(su: Setup, x: seq<Event>, e: Event)
    requires AllExchanged(su, x)
    requires Exchanged(su, x + [e], |x|)
    ensures AllExchanged(su, x + [e])
  {
    var y := x + [e];
    forall i | 0 <= i < |y|
      ensures Exchanged(su, y, i)
    {
      if i < |x| {
        assert Exchanged(su, x, i);
        assert y[..i] == x[..i];
      }
    }
  }

  lemma TurnsSnoc(x: seq<Event>, e: Event)
    ensures Turns(x + [e]) == if e.entry.Response? then Turns(x) + [e] else Turns(x)
  {
    assert (x + [e])[..|x|] == x;
  }

  lemma WordSnoc(su: Setup, w: seq<Event>, e: Event)
    requires IsWord(su, w) && e.entry.Response?
    requires MayFollow(su, LastOf(w), e.entry.role, e.batch, e.cycle)
    ensures IsWord(su, w + [e])
  {
    var v := w + [e];
    forall i | 0 <= i < |v|
      ensures v[i].entry.Response? && MayFollow(su, LastOf(v[..i]), v[i].entry.role, v[i].batch, v[i].cycle)
    {
      assert v[..i] == w[..i];
      if i == |w| { assert w[..i] == w; }
    }
  }

  /** What may be sent says what it is for. */
  lemma AllowedPromptSays(su: Setup, d: Durable, e: Event)
    requires ValidSetup(su) && Conversed(su, d.log)
    requires e.entry.Prompt? && PromptAllowed(su, d, e.entry.role, e.entry.text, e.entry.body)
    ensures Said(su, e.entry.text, e.entry.body)
  {
    var x := Exchanges(d.log);
    if e.entry.text == su.prose(e.entry.body) {
      ProseIsRendered(su, e.entry.body);
    } else {
      RepeatsAPrompt(su, d, e);
      LastPromptsSay(su, x);
      hide Rendered, P.Once, Exchanged, PromptAllowed;
      if x[|x| - 1].entry.Prompt? {
        ResentIsRendered(su, x[|x| - 1].entry.text, e.entry.body);
      }
    }
  }

  /** What is not fresh prose is the last prompt once more, or the last reviewer prompt as it was. */
  lemma RepeatsAPrompt(su: Setup, d: Durable, e: Event)
    requires Conversed(su, d.log)
    requires e.entry.Prompt? && PromptAllowed(su, d, e.entry.role, e.entry.text, e.entry.body)
    requires e.entry.text != su.prose(e.entry.body)
    ensures var x := Exchanges(d.log);
            && |x| > 0
            && (x[|x| - 1].entry.Prompt? ==>
                  e.entry.body == x[|x| - 1].entry.body && e.entry.text == P.Once(x[|x| - 1].entry.text, su.preface))
            && (!x[|x| - 1].entry.Prompt? ==>
                  |x| >= 2 && x[|x| - 2].entry.Prompt? && e.entry.body == x[|x| - 2].entry.body
                  && e.entry.text == x[|x| - 2].entry.text)
  {
    AskedBeforeReply(su, d.log);
    hide Conversed, P.Once, V.RouteOf, Exchanges, LastReviewerPrompt, FixAllowed, JustDecided, Opener, OpeningBody;
  }

  /** A reviewer reply answers the last reviewer prompt. */
  lemma AskedBeforeReply(su: Setup, log: seq<Event>)
    requires Conversed(su, log)
    ensures var x := Exchanges(log);
            |x| > 0 && x[|x| - 1].entry.Response? && x[|x| - 1].entry.role == Reviewer ==>
              |x| >= 2 && LastReviewerPrompt(log) == Some(x[|x| - 2])
  {
    hide AllExchanged, IsWord, Turns, MayFollow;
  }

  lemma LastPromptsSay(su: Setup, x: seq<Event>)
    requires AllExchanged(su, x) && |x| > 0
    ensures x[|x| - 1].entry.Prompt? ==> Said(su, x[|x| - 1].entry.text, x[|x| - 1].entry.body)
    ensures |x| >= 2 && x[|x| - 2].entry.Prompt? ==> Said(su, x[|x| - 2].entry.text, x[|x| - 2].entry.body)
  {
    assert Exchanged(su, x, |x| - 1);
    if |x| >= 2 { assert Exchanged(su, x, |x| - 2); }
    hide Said, Carries;
  }

  /** An allowed prompt is one the automaton allows and carries what it must. */
  lemma AllowedPromptFits(su: Setup, d: Durable, e: Event)
    requires Anchored(su, d) && Conversed(su, d.log)
    requires e.entry.Prompt? && e == Stamp(d.row, e.entry)
    requires PromptAllowed(su, d, e.entry.role, e.entry.text, e.entry.body)
    ensures Carries(su, Exchanges(d.log), e)
    ensures MayFollow(su, LastOf(Turns(Exchanges(d.log))), e.entry.role, e.batch, e.cycle)
  {
    var x := Exchanges(d.log);
    hide Said, P.Once;
    if x != [] {
      assert Exchanged(su, x, |x| - 1);
      if |x| >= 2 { assert Exchanged(su, x, |x| - 2); }
    }
  }

  lemma PromptConverses(su: Setup, d: Durable, d': Durable)
    requires ValidSetup(su) && Anchored(su, d) && Conversed(su, d.log) && Prompted(su, d, d')
    ensures Conversed(su, d'.log)
  {
    var e := d'.log[|d.log|];
    var x := Exchanges(d.log);
    AllowedPromptSays(su, d, e);
    AllowedPromptFits(su, d, e);
    Appended(d.log, e);
    assert (x + [e])[..|x|] == x;
    AllExchangedSnoc(su, x, e);
    TurnsSnoc(x, e);
  }

  lemma PromptLimits(su: Setup, d: Durable, d': Durable)
    requires Anchored(su, d) && Limited(su, d.log) && Prompted(su, d, d')
    ensures Limited(su, d'.log)
  {
    var e := d'.log[|d.log|];
    Appended(d.log, e);
    forall role, b: nat, c: nat
      ensures InterruptedStored(d'.log, role, b, c) <= Interrupted(d'.log, role, b, c)
      ensures Interrupted(d'.log, role, b, c) > 0 ==> PromptFor(e, role, b, c)
      ensures su.freshSessionAfterInterrupts > 0 ==> InterruptedStored(d'.log, role, b, c) <= su.freshSessionAfterInterrupts
    {
      AppendedCounts(d.log, e, role, b, c);
      assert InterruptedStored(d.log, role, b, c) <= Interrupted(d.log, role, b, c);
    }
  }

  /** A fresh fix prompt is sent in a later cycle than the review it answers. */
  lemma PromptCountsIn(su: Setup, d: Durable, d': Durable, b: nat)
    requires Anchored(su, d) && Prompted(su, d, d')
    requires LastExchange(d'.log) == Some(d'.log[|d.log|])
    ensures FixRoundBound(d, b) + (if OpensFixRound(su.preface, d'.log[|d.log|], b) then 1 else 0) <= FixRoundBound(d', b)
  {}

  lemma PromptCounts(su: Setup, d: Durable, d': Durable)
    requires Anchored(su, d) && Counted(su, d) && Prompted(su, d, d')
    ensures Counted(su, d')
  {
    var e := d'.log[|d.log|];
    Appended(d.log, e);
    forall b: nat
      ensures FixRounds(su.preface, d'.log, b) <= FixRoundBound(d', b)
    {
      AppendedFixRounds(su.preface, d.log, e, b);
      PromptCountsIn(su, d, d', b);
    }
  }

  lemma PromptAnchors(su: Setup, d: Durable, d': Durable)
    requires Anchored(su, d) && Prompted(su, d, d')
    ensures Anchored(su, d')
  {
    Appended(d.log, d'.log[|d.log|]);
  }

  lemma PromptKeeps(su: Setup, d: Durable, d': Durable)
    requires ValidSetup(su) && Inv(su, d) && Prompted(su, d, d')
    ensures Inv(su, d')
  {
    PromptConverses(su, d, d');
    PromptLimits(su, d, d');
    PromptCounts(su, d, d');
    PromptAnchors(su, d, d');
  }

  // a response

  lemma ResponseConverses(su: Setup, d: Durable, d': Durable)
    requires Conversed(su, d.log) && Responded(d, d')
    ensures Conversed(su, d'.log)
  {
    var e := d'.log[|d.log|];
    var x := Exchanges(d.log);
    Appended(d.log, e);
    AllExchangedSnoc(su, x, e);
    TurnsSnoc(x, e);
    WordSnoc(su, Turns(x), e);
    var y := x + [e];
    assert y[|y| - 2] == x[|x| - 1];
  }

  lemma ResponseKeeps(su: Setup, d: Durable, d': Durable)
    requires Inv(su, d) && Responded(d, d')
    ensures Inv(su, d')
  {
    var e := d'.log[|d.log|];
    Appended(d.log, e);
    ResponseConverses(su, d, d');
    forall role, b: nat, c: nat
      ensures InterruptedStored(d'.log, role, b, c) == 0
      ensures Interrupted(d'.log, role, b, c) == 0
    {
      AppendedCounts(d.log, e, role, b, c);
    }
    forall b: nat
      ensures FixRounds(su.preface, d'.log, b) <= FixRoundBound(d', b)
    {
      AppendedFixRounds(su.preface, d.log, e, b);
    }
  }

  lemma NextKeepsInv(su: Setup, d: Durable, d': Durable)
    requires ValidSetup(su) && Inv(su, d) && Next(su, d, d')
    ensures Inv(su, d')
  {
    if Noted(d, d') {
      NoteKeeps(su, d, d');
    } else if Prompted(su, d, d') {
      PromptKeeps(su, d, d');
    } else if Responded(d, d') {
      ResponseKeeps(su, d, d');
    } else if DecidedStep(d, d') {
      DecisionKeeps(su, d, d');
    } else {
      RowWriteKeeps(su, d, d');
    }
  }

  /** A step that was just answered has no interruption behind it. */
  lemma AnsweredStepIsFresh(su: Setup, d: Durable, role: Role, into: Option<string>)
    requires Limited(su, d.log)
    requires LastExchange(d.log).Some? ==> LastExchange(d.log).value.entry.Response?
    ensures SessionAllowed(su, d, role, into)
  {
    assert Interrupted(d.log, role, d.row.batch, d.row.cycle) == 0;
  }
}
