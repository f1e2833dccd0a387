/** What an operator's decision at a cap pause leads to: the window between the decision and its call, and
    exactly when a decision is safe. */
module RelayDecisions {
  import opened Wrappers
  import opened Utf16
  import V = Verdicts
  import opened RelayProtocol
  import opened RelaySafety
  import opened RelayTheorems

  // ---- the window between the decision and its call ----

  /** A decision whose worker dies at once: the resumed loop finds the old review, at the cap again. */
  lemma CapSettlesAgain(su: Setup, d: Durable, decision: Decision) returns (again: Durable)
    requires Anchored(su, d) && d.row.status == PausedCycleCap
    ensures Linked(su, [d, Decide(d, decision), again])
    ensures again == Decide(d, decision).(row := Decide(d, decision).row.(status := PausedCycleCap))
    ensures Exchanges(again.log) == Exchanges(d.log)
  {
    hide *;
    var decided := Decide(d, decision);
    again := decided.(row := decided.row.(status := PausedCycleCap));
    CapHolds(su, d, decision);
    DecidesNext(su, d, decision);
    SettlesNext(su, decided, PausedCycleCap);
    LinksThree(su, d, decided, again);
  }

  lemma LinksThree(su: Setup, a: Durable, b: Durable, c: Durable)
    requires Next(su, a, b) && Next(su, b, c)
    ensures Linked(su, [a, b, c])
  {
    hide Next;
  }

  lemma DecidesNext(su: Setup, d: Durable, decision: Decision)
    requires d.row.status == PausedCycleCap
    ensures Next(su, d, Decide(d, decision))
  {
    hide Decide, Noted, Prompted, Responded, Activated, Seated, Recycled, Advanced, Settled, Intended;
    assert DecidedStep(d, Decide(d, decision));
  }

  lemma SettlesNext(su: Setup, d: Durable, status: Status)
    requires d.row.status == Active && SettleAllowed(su, d, status, d.row.advanceAfterResponse)
    ensures Next(su, d, d.(row := d.row.(status := status)))
  {
    hide SettleAllowed, Noted, Prompted, Responded, Activated, Seated, Recycled, Advanced, DecidedStep, Intended;
    assert Settled(su, d, d.(row := d.row.(status := status)));
  }

  lemma CapHolds(su: Setup, d: Durable, decision: Decision)
    requires Anchored(su, d) && d.row.status == PausedCycleCap
    ensures SettleAllowed(su, Decide(d, decision), PausedCycleCap, Decide(d, decision).row.advanceAfterResponse)
    ensures Exchanges(Decide(d, decision).log) == Exchanges(d.log)
    ensures Decide(d, decision).row.status == Active
  {
    Appended(d.log, Stamp(d.row, Decided(decision)));
    hide V.RouteOf;
  }

  /** After `accept` it is there with the advance still pending, from every cap pause. */
  lemma AcceptWindowReopens(su: Setup, d: Durable) returns (again: Durable)
    requires Inv(su, d) && d.row.status == PausedCycleCap
    ensures Linked(su, [d, Decide(d, Accept), again])
    ensures again.row == d.row.(advanceAfterResponse := true) && again.row.status == PausedCycleCap
    ensures Exchanges(again.log) == Exchanges(d.log)
  {
    again := CapSettlesAgain(su, d, Accept);
  }

  /** After `continue` the granted cycle is spent without a call: cap and cycle rose together, and nothing
      was sent. */
  lemma GrantIsLost(su: Setup, d: Durable) returns (again: Durable)
    requires Inv(su, d) && d.row.status == PausedCycleCap
    ensures Linked(su, [d, Decide(d, Continue), again])
    ensures again.row == d.row.(maxCycles := d.row.maxCycles + 1, cycle := d.row.cycle + 1)
    ensures again.row.status == PausedCycleCap && Exchanges(again.log) == Exchanges(d.log)
  {
    again := CapSettlesAgain(su, d, Continue);
  }

  // ---- stretches of run ----

  lemma LinkSnoc(su: Setup, t: seq<Durable>, d: Durable)
    requires |t| > 0 && Linked(su, t) && Next(su, t[|t| - 1], d)
    ensures Linked(su, t + [d])
    ensures |t| > 1 && CleanFrom(t, 1) && t[|t| - 1].row.status != PausedCycleCap ==> CleanFrom(t + [d], 1)
  {
    hide Next;
    var longer := t + [d];
    forall i | 0 < i < |longer|
      ensures Next(su, longer[i - 1], longer[i])
    {
      if i < |t| { assert Next(su, t[i - 1], t[i]); }
    }
    if |t| > 1 && CleanFrom(t, 1) && t[|t| - 1].row.status != PausedCycleCap {
      forall i | 1 < i < |longer|
        ensures CleanDecision(longer[i - 1], longer[i])
      {
        if i < |t| { assert CleanDecision(t[i - 1], t[i]); }
      }
    }
  }

  /** A stretch of a run that starts with a decision and takes no unclean one afterwards. */
  ghost predicate After(su: Setup, d: Durable, decision: Decision, t: seq<Durable>) {
    |t| > 1 && t[0] == d && t[1] == Decide(d, decision) && Linked(su, t) && CleanFrom(t, 1)
  }

  lemma Decides(su: Setup, d: Durable, decision: Decision) returns (t: seq<Durable>)
    requires d.row.status == PausedCycleCap
    ensures After(su, d, decision, t) && t[|t| - 1] == Decide(d, decision)
  {
    assert DecidedStep(d, Decide(d, decision));
    t := [d] + [Decide(d, decision)];
    LinkSnoc(su, [d], Decide(d, decision));
  }

  lemma GoesOn(su: Setup, d: Durable, decision: Decision, t: seq<Durable>, next: Durable) returns (longer: seq<Durable>)
    requires After(su, d, decision, t) && t[|t| - 1].row.status != PausedCycleCap && Next(su, t[|t| - 1], next)
    ensures After(su, d, decision, longer) && longer == t + [next]
  {
    longer := t + [next];
    LinkSnoc(su, t, next);
  }

  /** What a stretch shows wrong at its end. */
  ghost predicate Unjustified(su: Setup, d: Durable, decision: Decision) {
    exists t :: After(su, d, decision, t) && !Justified(su, t[|t| - 2], t[|t| - 1])
  }

  /** Whatever follows the decision, unclean decisions aside, is justified. */
  ghost predicate SafeToDecide(su: Setup, d: Durable, decision: Decision) {
    forall t, i :: After(su, d, decision, t) && 0 < i < |t| ==> Justified(su, t[i - 1], t[i])
  }

  // ---- what a call adds ----

  predicate MayAsk(su: Setup, d: Durable, role: Role, body: Body) {
    d.row.status == Active && PromptAllowed(su, d, role, su.prose(body), body)
  }

  /** Where a call leaves the run. */
  predicate Replied(d: Durable, before: Durable, role: Role, reply: Text) {
    && d.row == before.row && d.intent == before.intent
    && LastExchange(d.log) == Some(Stamp(before.row, Response(role, reply)))
    && LastDecision(d.log) == LastDecision(before.log) && !DecisionIsLast(d.log)
  }

  lemma FreshAfterReply(su: Setup, d: Durable, role: Role)
    requires Inv(su, d)
    requires LastExchange(d.log).Some? ==> LastExchange(d.log).value.entry.Response?
    ensures SessionAllowed(su, d, role, SlotOf(d.row, role).session)
  {
    AnsweredStepIsFresh(su, d, role, SlotOf(d.row, role).session);
    hide Anchored, Conversed, Counted;
  }

  lemma Sends(su: Setup, d: Durable, role: Role, text: Text, body: Body) returns (d': Durable)
    requires d.row.status == Active && PromptAllowed(su, d, role, text, body)
    requires SessionAllowed(su, d, role, SlotOf(d.row, role).session)
    ensures d' == d.(log := d.log + [Stamp(d.row, Prompt(role, text, body, SlotOf(d.row, role).session))])
    ensures Next(su, d, d')
  {
    d' := d.(log := d.log + [Stamp(d.row, Prompt(role, text, body, SlotOf(d.row, role).session))]);
    hide PromptAllowed, SessionAllowed;
    assert Prompted(su, d, d');
  }

  lemma AskedReads(d: Durable, role: Role, text: Text, body: Body, into: Option<string>)
    ensures var asked := d.log + [Stamp(d.row, Prompt(role, text, body, into))];
            && LastExchange(asked).Some? && PromptFor(LastExchange(asked).value, role, d.row.batch, d.row.cycle)
            && LastDecision(asked) == LastDecision(d.log)
  {
    Appended(d.log, Stamp(d.row, Prompt(role, text, body, into)));
    hide Exchanges, Decisions;
  }

  lemma Asks(su: Setup, d: Durable, role: Role, body: Body) returns (asked: Durable)
    requires ValidSetup(su) && Inv(su, d) && MayAsk(su, d, role, body)
    requires LastExchange(d.log).Some? ==> LastExchange(d.log).value.entry.Response?
    ensures Next(su, d, asked) && Inv(su, asked) && asked.row == d.row && asked.intent == d.intent
    ensures LastExchange(asked.log).Some? && PromptFor(LastExchange(asked.log).value, role, d.row.batch, d.row.cycle)
    ensures LastDecision(asked.log) == LastDecision(d.log)
  {
    assert d.row.status == Active && PromptAllowed(su, d, role, su.prose(body), body);
    hide *;
    FreshAfterReply(su, d, role);
    asked := Sends(su, d, role, su.prose(body), body);
    AskedReads(d, role, su.prose(body), body, SlotOf(d.row, role).session);
    NextKeepsInv(su, d, asked);
  }

  lemma Answers(su: Setup, d: Durable, asked: Durable, role: Role, reply: Text) returns (answered: Durable)
    requires ValidSetup(su) && Inv(su, asked) && asked.row == d.row && asked.intent == d.intent && d.row.status == Active
    requires LastExchange(asked.log).Some? && PromptFor(LastExchange(asked.log).value, role, d.row.batch, d.row.cycle)
    requires LastDecision(asked.log) == LastDecision(d.log) && !Blank(reply)
    ensures Next(su, asked, answered) && Inv(su, answered) && Replied(answered, d, role, reply)
  {
    var response := Stamp(d.row, Response(role, reply));
    answered := asked.(log := asked.log + [response]);
    Appended(asked.log, response);
    hide Inv, Exchanges, Decisions, Blank;
    assert Responded(asked, answered);
    NextKeepsInv(su, asked, answered);
  }

  /** A prompt into the stored session and its answer, added to a stretch. */
  lemma Call(su: Setup, d: Durable, decision: Decision, t: seq<Durable>, role: Role, body: Body, reply: Text)
    returns (longer: seq<Durable>)
    requires ValidSetup(su) && After(su, d, decision, t) && Inv(su, t[|t| - 1]) && MayAsk(su, t[|t| - 1], role, body)
    requires LastExchange(t[|t| - 1].log).Some? ==> LastExchange(t[|t| - 1].log).value.entry.Response?
    requires !Blank(reply)
    ensures After(su, d, decision, longer) && Inv(su, longer[|longer| - 1])
    ensures Replied(longer[|longer| - 1], t[|t| - 1], role, reply)
  {
    var last := t[|t| - 1];
    assert last.row.status == Active;
    hide Next, After, Inv, PromptAllowed, LastExchange, LastDecision, DecisionIsLast, Blank;
    var asked := Asks(su, last, role, body);
    var answered := Answers(su, last, asked, role, reply);
    longer := GoesOn(su, d, decision, t, asked);
    longer := GoesOn(su, d, decision, longer, answered);
  }

  lemma DecidedInv(su: Setup, d: Durable, decision: Decision)
    requires ValidSetup(su) && Inv(su, d) && d.row.status == PausedCycleCap
    ensures Inv(su, Decide(d, decision))
  {
    assert DecidedStep(d, Decide(d, decision));
    hide Inv, DecidedStep;
    NextKeepsInv(su, d, Decide(d, decision));
  }

  // ---- the safe side ----

  lemma AcceptIsBacked(su: Setup, d: Durable)
    requires Anchored(su, d) && d.row.status == PausedCycleCap
    ensures Backed(Decide(d, Accept))
  {
    Appended(d.log, Stamp(d.row, Decided(Accept)));
    hide V.RouteOf;
  }

  /** Whether the batch after `batch` cannot be left but by its own review: there is none, or the reviewer
      opens it and no fix round is left to it. */
  predicate NoReplyLeaves(su: Setup, batch: nat, maxCycles: nat) {
    batch >= su.totalBatches || (Opener(su, batch + 1) == Reviewer && maxCycles == 1)
  }

  /** `proceed` was chosen over a pending advance and is not carried out yet. */
  predicate Held(su: Setup, d: Durable) {
    && d.row.advanceAfterResponse && JustDecided(d, Proceed) && LastDecision(d.log).value.batch == d.row.batch
    && Reviewed(d, V.ToImplementer) && d.row.cycle == d.row.maxCycles
    && NoReplyLeaves(su, d.row.batch, d.row.maxCycles)
  }

  /** The advance is still pending in a batch that only the reviewer speaks in. */
  predicate Unbuilt(su: Setup, d: Durable) {
    && d.row.advanceAfterResponse && d.row.maxCycles == 1 && Opener(su, d.row.batch) == Reviewer
    && !JustDecided(d, Accept)
    && LastExchange(d.log).Some?
    && (LastExchange(d.log).value.batch == d.row.batch ==> ByReviewer(LastExchange(d.log).value))
  }

  predicate ByReviewer(e: Event) {
    IsExchange(e) && e.entry.role == Reviewer
  }

  ghost predicate Safe(su: Setup, d: Durable) {
    Backed(d) || Held(su, d) || Unbuilt(su, d)
  }

  lemma HeldLogStep(su: Setup, d: Durable, d': Durable)
    requires Anchored(su, d) && Held(su, d)
    requires Noted(d, d') || Prompted(su, d, d') || Responded(d, d')
    ensures Held(su, d')
  {
    Appended(d.log, d'.log[|d.log|]);
  }

  lemma HeldRowStep(su: Setup, d: Durable, d': Durable)
    requires Anchored(su, d) && Held(su, d)
    requires Activated(d, d') || Seated(d, d') || Recycled(d, d') || Advanced(su, d, d') || Settled(su, d, d') || Intended(d, d')
    ensures Held(su, d') || Unbuilt(su, d')
  {
    assert d'.log == d.log;
    hide V.RouteOf;
  }

  lemma UnbuiltLogStep(su: Setup, d: Durable, d': Durable)
    requires Anchored(su, d) && Unbuilt(su, d)
    requires Noted(d, d') || Prompted(su, d, d') || Responded(d, d')
    ensures Unbuilt(su, d')
  {
    Appended(d.log, d'.log[|d.log|]);
    hide V.RouteOf;
  }

  lemma UnbuiltRowStep(su: Setup, d: Durable, d': Durable)
    requires Anchored(su, d) && Unbuilt(su, d)
    requires Activated(d, d') || Seated(d, d') || Recycled(d, d') || Advanced(su, d, d') || Settled(su, d, d') || Intended(d, d')
    ensures Unbuilt(su, d')
  {
    assert d'.log == d.log;
    hide V.RouteOf;
  }

  lemma CleanDecisionOnPending(su: Setup, d: Durable, d': Durable)
    requires Anchored(su, d) && d.row.advanceAfterResponse && DecidedStep(d, d') && CleanDecision(d, d')
    ensures Backed(d')
  {
    hide Backed, Anchored, Decide;
    AcceptIsBacked(su, d);
  }

  lemma SafeStepKeeps(su: Setup, d: Durable, d': Durable)
    requires Inv(su, d) && Safe(su, d) && Next(su, d, d') && CleanDecision(d, d')
    ensures Safe(su, d')
  {
    if Backed(d) {
      hide Backed, Held, Unbuilt, CleanDecision, Next, Inv;
      CleanStepKeepsBacked(su, d, d');
    } else {
      assert d.row.advanceAfterResponse;
      hide Backed, Held, Unbuilt, CleanDecision, Anchored, Conversed, Counted, Limited;
      hide Noted, Prompted, Responded, Activated, Seated, Recycled, Advanced, Settled, DecidedStep, Intended;
      if DecidedStep(d, d') {
        CleanDecisionOnPending(su, d, d');
      } else if Noted(d, d') || Prompted(su, d, d') || Responded(d, d') {
        if Held(su, d) { HeldLogStep(su, d, d'); } else { UnbuiltLogStep(su, d, d'); }
      } else {
        if Held(su, d) { HeldRowStep(su, d, d'); } else { UnbuiltRowStep(su, d, d'); }
      }
    }
  }

  lemma SafeAdvanceHasEvidence(su: Setup, d: Durable, pendingAfter: bool)
    requires Anchored(su, d) && Safe(su, d) && AdvanceAllowed(d, pendingAfter)
    ensures Evidence(d)
  {
    if Backed(d) { BackedAdvanceHasEvidence(su, d, pendingAfter); }
    hide V.RouteOf;
  }

  lemma SafeStepIsJustified(su: Setup, d: Durable, d': Durable)
    requires Inv(su, d) && Safe(su, d) && Next(su, d, d')
    ensures Justified(su, d, d')
  {
    hide Safe, Evidence;
    if d'.row.batch != d.row.batch {
      LeavingIsAdvancing(su, d, d');
      hide Next, Reviewed;
      SafeAdvanceHasEvidence(su, d, d'.row.advanceAfterResponse);
    } else if d'.row.status == Complete && d.row.status != Complete {
      CompletingIsSettling(su, d, d');
      hide Next, Reviewed;
      if !Reviewed(d, V.ToEnd) {
        SafeAdvanceHasEvidence(su, d, d'.row.advanceAfterResponse);
      }
    }
  }

  lemma {:induction false} StaysSafe(su: Setup, t: seq<Durable>, i: nat)
    requires ValidSetup(su) && 0 < i < |t| && Inv(su, t[0]) && Linked(su, t) && CleanFrom(t, 1) && Safe(su, t[1])
    ensures Safe(su, t[i])
  {
    hide Next, CleanDecision, Inv, Safe;
    if i > 1 {
      StaysSafe(su, t, i - 1);
      LinkedInv(su, t, i - 1);
      assert Next(su, t[i - 1], t[i]) && CleanDecision(t[i - 1], t[i]);
      SafeStepKeeps(su, t[i - 1], t[i]);
    }
  }

  lemma DecisionJustified(su: Setup, d: Durable, decision: Decision)
    ensures Justified(su, d, Decide(d, decision))
  {}

  lemma SafeFromHereOn(su: Setup, d: Durable, decision: Decision)
    requires ValidSetup(su) && Inv(su, d) && d.row.status == PausedCycleCap && Safe(su, Decide(d, decision))
    ensures SafeToDecide(su, d, decision)
  {
    DecisionJustified(su, d, decision);
    hide Safe, Inv, Decide, Justified, Next;
    forall t, i | After(su, d, decision, t) && 0 < i < |t|
      ensures Justified(su, t[i - 1], t[i])
    {
      assert Next(su, t[i - 1], t[i]);
      if i > 1 {
        StaysSafe(su, t, i - 1);
        LinkedInv(su, t, i - 1);
        SafeStepIsJustified(su, t[i - 1], t[i]);
      }
    }
  }

  lemma SafeDecision(su: Setup, d: Durable, decision: Decision)
    requires Anchored(su, d) && d.row.status == PausedCycleCap
    requires decision == Accept || !d.row.advanceAfterResponse
             || (decision == Proceed && NoReplyLeaves(su, d.row.batch, d.row.maxCycles))
    ensures Safe(su, Decide(d, decision))
  {
    if decision == Accept {
      AcceptIsBacked(su, d);
    } else if !d.row.advanceAfterResponse {
      DecisionKeepsBacked(su, d, decision);
    } else {
      ProceedIsHeld(su, d);
    }
  }

  lemma ProceedIsHeld(su: Setup, d: Durable)
    requires Anchored(su, d) && d.row.status == PausedCycleCap && d.row.advanceAfterResponse
    requires NoReplyLeaves(su, d.row.batch, d.row.maxCycles)
    ensures Held(su, Decide(d, Proceed))
  {
    CapShows(su, d);
    ProceedSettles(su, d);
    hide V.RouteOf, Anchored, AdvanceAllowed, JustDecided, LastDecision, LastExchange;
  }

  // ---- the other side ----

  /** An implementer reply with an advance pending leaves the batch, whatever was decided last. */
  lemma PendingLeavesTheBatch(su: Setup, d: Durable, decision: Decision, t: seq<Durable>)
    requires After(su, d, decision, t)
    requires var last := t[|t| - 1];
             && last.row.status == Active && Implemented(last) && last.row.advanceAfterResponse
             && !DecisionIsLast(last.log) && LastDecision(last.log).Some?
             && (LastDecision(last.log).value.entry != Decided(Accept) || LastDecision(last.log).value.batch != last.row.batch)
    ensures Unjustified(su, d, decision)
  {
    var last := t[|t| - 1];
    var left := LeavesUnjustified(su, last);
    hide Next, After, Justified, Implemented, DecisionIsLast, LastDecision;
    var longer := GoesOn(su, d, decision, t, left);
    assert longer[|longer| - 2] == last && longer[|longer| - 1] == left;
  }

  lemma LeavesUnjustified(su: Setup, d: Durable) returns (left: Durable)
    requires d.row.status == Active && Implemented(d) && d.row.advanceAfterResponse
    requires !DecisionIsLast(d.log) && LastDecision(d.log).Some?
    requires LastDecision(d.log).value.entry != Decided(Accept) || LastDecision(d.log).value.batch != d.row.batch
    ensures Next(su, d, left) && !Justified(su, d, left)
  {
    if d.row.batch < su.totalBatches {
      left := d.(row := d.row.(batch := d.row.batch + 1, cycle := 1, advanceAfterResponse := false));
      assert Advanced(su, d, left);
    } else {
      left := d.(row := d.row.(status := Complete, advanceAfterResponse := false));
      assert Settled(su, d, left);
    }
    assert !Evidence(d);
  }

  lemma ContinueReads(d: Durable)
    ensures var decided := Decide(d, Continue);
            && LastDecision(decided.log) == Some(Stamp(d.row, Decided(Continue))) && JustDecided(decided, Continue)
            && LastExchange(decided.log) == LastExchange(d.log)
            && decided.row.status == Active && decided.row.batch == d.row.batch && decided.row.cycle == d.row.cycle + 1
  {
    Appended(d.log, Stamp(d.row, Decided(Continue)));
    hide Exchanges, Decisions;
  }

  lemma ContinueMayAsk(su: Setup, d: Durable) returns (body: Body)
    requires Anchored(su, d) && d.row.status == PausedCycleCap
    ensures MayAsk(su, Decide(d, Continue), Implementer, body)
    ensures LastExchange(d.log).Some? && LastExchange(d.log).value.entry.Response?
    ensures body == ApplyFixes(d.row.batch, LastExchange(d.log).value.entry.text)
    ensures LastDecision(Decide(d, Continue).log) == Some(Stamp(d.row, Decided(Continue)))
    ensures LastExchange(Decide(d, Continue).log).Some? && LastExchange(Decide(d, Continue).log).value.entry.Response?
  {
    ContinueReads(d);
    CapShows(su, d);
    assert LastExchange(d.log).value.cycle <= d.row.cycle;
    body := ApplyFixes(d.row.batch, LastExchange(d.log).value.entry.text);
    hide V.RouteOf, Anchored, LastExchange, LastDecision, JustDecided, Decide;
  }

  lemma AcceptMayAsk(su: Setup, d: Durable)
    requires Anchored(su, d) && d.row.status == PausedCycleCap
    ensures LastExchange(d.log).Some? && LastExchange(d.log).value.entry.Response?
    ensures MayAsk(su, Decide(d, Accept), Implementer, ApplyFinal(d.row.batch, LastExchange(d.log).value.entry.text))
  {
    AcceptReads(d);
    CapShows(su, d);
    hide V.RouteOf, Anchored, LastExchange, LastDecision, JustDecided, Decide;
  }

  lemma AcceptReads(d: Durable)
    ensures var decided := Decide(d, Accept);
            && JustDecided(decided, Accept) && LastExchange(decided.log) == LastExchange(d.log)
            && decided.row == d.row.(status := Active, advanceAfterResponse := true)
  {
    Appended(d.log, Stamp(d.row, Decided(Accept)));
    hide Exchanges, Decisions;
  }

  /** `continue` over a pending advance: the first reply to the granted cycle leaves the batch. */
  lemma PendingContinueAdvancesUnreviewed(su: Setup, d: Durable)
    requires ValidSetup(su) && Inv(su, d) && d.row.status == PausedCycleCap && d.row.advanceAfterResponse
    ensures Unjustified(su, d, Continue)
  {
    var body := ContinueMayAsk(su, d);
    V.DoneIsUnclear();
    DecidedInv(su, d, Continue);
    hide Blank, Inv, MayAsk, After, Unjustified, LastDecision, DecisionIsLast, LastExchange;
    var t := Decides(su, d, Continue);
    t := Call(su, d, Continue, t, Implementer, body, V.DONE);
    PendingLeavesTheBatch(su, d, Continue, t);
  }

  lemma ProceedSettles(su: Setup, d: Durable)
    requires Anchored(su, d) && d.row.status == PausedCycleCap
    ensures var decided := Decide(d, Proceed);
            && AdvanceAllowed(decided, d.row.advanceAfterResponse)
            && LastDecision(decided.log) == Some(Stamp(d.row, Decided(Proceed))) && JustDecided(decided, Proceed)
            && LastExchange(decided.log) == LastExchange(d.log)
  {
    Appended(d.log, Stamp(d.row, Decided(Proceed)));
    hide V.RouteOf, Reviewed, Implemented;
  }

  lemma CapShows(su: Setup, d: Durable)
    requires Anchored(su, d) && d.row.status == PausedCycleCap
    ensures d.row.cycle == d.row.maxCycles && Reviewed(d, V.ToImplementer)
    ensures LastExchange(d.log).Some? && LastExchange(d.log).value.batch == d.row.batch
    ensures LastExchange(d.log).value.entry.Response?
  {
    hide V.RouteOf;
  }

  lemma AdvancedIsNext(su: Setup, d: Durable, d': Durable)
    requires Advanced(su, d, d')
    ensures Next(su, d, d')
  {
    hide Noted, Prompted, Responded, Activated, Seated, Recycled, Advanced, Settled, DecidedStep, Intended;
  }

  lemma AdvancesKeepingThePending(su: Setup, d: Durable) returns (next: Durable)
    requires d.row.status == Active && d.row.batch < su.totalBatches && AdvanceAllowed(d, d.row.advanceAfterResponse)
    ensures next == d.(row := d.row.(batch := d.row.batch + 1, cycle := 1)) && Next(su, d, next)
  {
    hide AdvanceAllowed, Next;
    next := d.(row := d.row.(batch := d.row.batch + 1, cycle := 1));
    assert next.row.advanceAfterResponse == d.row.advanceAfterResponse;
    AdvancedIsNext(su, d, next);
  }

  lemma NewBatchMayOpen(su: Setup, d: Durable)
    requires d.row.status == Active && LastExchange(d.log).Some? && LastExchange(d.log).value.batch < d.row.batch
    ensures MayAsk(su, d, Opener(su, d.row.batch), OpeningBody(su, d.row.batch, true))
  {
    hide LastExchange, Opener, OpeningBody;
  }

  /** The batch after the capped one, entered by `proceed`. */
  predicate Entered(d: Durable, next: Durable) {
    && next.row == d.row.(status := Active, batch := d.row.batch + 1, cycle := 1)
    && LastDecision(next.log) == Some(Stamp(d.row, Decided(Proceed)))
    && LastExchange(next.log) == LastExchange(d.log)
  }

  lemma ProceedAdvances(su: Setup, d: Durable) returns (next: Durable)
    requires Anchored(su, d) && d.row.status == PausedCycleCap && d.row.batch < su.totalBatches
    ensures Next(su, Decide(d, Proceed), next) && Entered(d, next)
  {
    var decided := Decide(d, Proceed);
    ProceedSettles(su, d);
    assert decided.row == d.row.(status := Active);
    hide V.RouteOf, Anchored, AdvanceAllowed, JustDecided, LastExchange, LastDecision, Next, Decide;
    next := AdvancesKeepingThePending(su, decided);
  }

  lemma ProceedEnters(su: Setup, d: Durable) returns (t: seq<Durable>)
    requires ValidSetup(su) && Inv(su, d) && d.row.status == PausedCycleCap && d.row.batch < su.totalBatches
    ensures After(su, d, Proceed, t) && Inv(su, t[|t| - 1]) && Entered(d, t[|t| - 1])
  {
    var next := ProceedAdvances(su, d);
    assert Decide(d, Proceed).row.status == Active;
    hide Inv, After, Next, Decide, Entered;
    DecidedInv(su, d, Proceed);
    t := Decides(su, d, Proceed);
    NextKeepsInv(su, t[|t| - 1], next);
    t := GoesOn(su, d, Proceed, t, next);
  }

  /** The next batch opens after `proceed` and its opener answers. */
  lemma ProceedOpens(su: Setup, d: Durable, reply: Text) returns (t: seq<Durable>)
    requires ValidSetup(su) && Inv(su, d) && d.row.status == PausedCycleCap && d.row.batch < su.totalBatches
    requires !Blank(reply)
    ensures After(su, d, Proceed, t) && Inv(su, t[|t| - 1])
    ensures var last := t[|t| - 1];
            && last.row == d.row.(status := Active, batch := d.row.batch + 1, cycle := 1)
            && LastExchange(last.log) == Some(Stamp(last.row, Response(Opener(su, last.row.batch), reply)))
            && LastDecision(last.log) == Some(Stamp(d.row, Decided(Proceed))) && !DecisionIsLast(last.log)
  {
    CapShows(su, d);
    hide Inv, MayAsk, After, LastDecision, DecisionIsLast, LastExchange, Reviewed, Opener, OpeningBody;
    t := ProceedEnters(su, d);
    var next := t[|t| - 1];
    NewBatchMayOpen(su, next);
    t := Call(su, d, Proceed, t, Opener(su, next.row.batch), OpeningBody(su, next.row.batch, true), reply);
  }

  /** A reviewer that opens the batch sends it back for fixes, and the fixes are made. */
  lemma FixesAreMade(su: Setup, d: Durable, t: seq<Durable>, reply: Text) returns (longer: seq<Durable>)
    requires ValidSetup(su) && After(su, d, Proceed, t) && Inv(su, t[|t| - 1]) && !Blank(reply)
    requires var last := t[|t| - 1];
             && last.row.status == Active && last.row.cycle == 1 && last.row.maxCycles >= 2
             && LastExchange(last.log) == Some(Stamp(last.row, Response(Reviewer, V.FIX)))
             && LastDecision(last.log).Some? && !DecisionIsLast(last.log)
    ensures After(su, d, Proceed, longer)
    ensures var last := longer[|longer| - 1];
            && last.row == t[|t| - 1].row.(cycle := 2)
            && LastExchange(last.log) == Some(Stamp(last.row, Response(Implementer, reply)))
            && LastDecision(last.log) == LastDecision(t[|t| - 1].log) && !DecisionIsLast(last.log)
  {
    var last := t[|t| - 1];
    var next := last.(row := last.row.(cycle := 2));
    FixMayFollow(su, last, next);
    hide Inv, MayAsk, After, LastDecision, DecisionIsLast, LastExchange, Next;
    NextKeepsInv(su, last, next);
    longer := GoesOn(su, d, Proceed, t, next);
    longer := Call(su, d, Proceed, longer, Implementer, ApplyFixes(next.row.batch, V.FIX), reply);
  }

  lemma FixMayFollow(su: Setup, d: Durable, next: Durable)
    requires d.row.status == Active && d.row.cycle == 1 && d.row.maxCycles >= 2
    requires LastExchange(d.log) == Some(Stamp(d.row, Response(Reviewer, V.FIX))) && !DecisionIsLast(d.log)
    requires next == d.(row := d.row.(cycle := 2))
    ensures Next(su, d, next) && MayAsk(su, next, Implementer, ApplyFixes(next.row.batch, V.FIX))
  {
    V.FixRoutesToTheImplementer();
    hide V.RouteOf, DecisionIsLast, LastExchange;
    assert Recycled(d, next);
  }

  /** `proceed` over a pending advance carries it into the next batch, where the first implementer reply
      closes that batch with no review of it: at once when the implementer opens the batch, after the first
      fix round when the reviewer does. */
  lemma PendingProceedSkipsAReview(su: Setup, d: Durable)
    requires ValidSetup(su) && Inv(su, d) && d.row.status == PausedCycleCap && d.row.advanceAfterResponse
    requires !NoReplyLeaves(su, d.row.batch, d.row.maxCycles)
    ensures Unjustified(su, d, Proceed)
  {
    MaxCyclesPositive(su, d);
    V.DoneIsUnclear();
    V.FixRoutesToTheImplementer();
    hide Blank, V.RouteOf, Inv, After, Unjustified, LastDecision, DecisionIsLast, LastExchange, Implemented;
    if Opener(su, d.row.batch + 1) == Implementer {
      var t := ProceedOpens(su, d, V.DONE);
      IsImplemented(t[|t| - 1], V.DONE);
      PendingLeavesTheBatch(su, d, Proceed, t);
    } else {
      var t := ProceedOpens(su, d, V.FIX);
      t := FixesAreMade(su, d, t, V.DONE);
      IsImplemented(t[|t| - 1], V.DONE);
      PendingLeavesTheBatch(su, d, Proceed, t);
    }
  }

  lemma IsImplemented(d: Durable, reply: Text)
    requires LastExchange(d.log) == Some(Stamp(d.row, Response(Implementer, reply)))
    ensures Implemented(d)
  {}

  lemma MaxCyclesPositive(su: Setup, d: Durable)
    requires Inv(su, d)
    ensures d.row.maxCycles >= 1
  {}

  // ---- exactly when a decision is safe ----

  /** What the operator can check on the row before deciding. */
  predicate MayDecide(su: Setup, row: Row, decision: Decision) {
    || decision == Accept
    || !row.advanceAfterResponse
    || (decision == Proceed && NoReplyLeaves(su, row.batch, row.maxCycles))
  }

  /** Exactly when a decision at a cap pause is safe for every later run without an unclean decision. */
  lemma DecisionIsSafeIff(su: Setup, d: Durable, decision: Decision)
    requires ValidSetup(su) && Inv(su, d) && d.row.status == PausedCycleCap
    ensures SafeToDecide(su, d, decision) <==> MayDecide(su, d.row, decision)
  {
    if MayDecide(su, d.row, decision) {
      SafeDecision(su, d, decision);
      hide Safe, SafeToDecide;
      SafeFromHereOn(su, d, decision);
    } else {
      hide Inv, NoReplyLeaves, Justified, After;
      if decision == Continue {
        PendingContinueAdvancesUnreviewed(su, d);
      } else {
        PendingProceedSkipsAReview(su, d);
      }
      var t :| After(su, d, decision, t) && !Justified(su, t[|t| - 2], t[|t| - 1]);
      NotEmpty(su, d, decision, t);
      assert !Justified(su, t[|t| - 1 - 1], t[|t| - 1]);
    }
  }

  lemma NotEmpty(su: Setup, d: Durable, decision: Decision, t: seq<Durable>)
    requires After(su, d, decision, t)
    ensures |t| > 1
  {}

  lemma ContinueIsSafeIff(su: Setup, d: Durable)
    requires ValidSetup(su) && Inv(su, d) && d.row.status == PausedCycleCap
    ensures SafeToDecide(su, d, Continue) <==> !d.row.advanceAfterResponse
  {
    DecisionIsSafeIff(su, d, Continue);
    hide SafeToDecide;
  }

  lemma ProceedIsSafeIff(su: Setup, d: Durable)
    requires ValidSetup(su) && Inv(su, d) && d.row.status == PausedCycleCap
    ensures SafeToDecide(su, d, Proceed) <==>
            || !d.row.advanceAfterResponse
            || d.row.batch >= su.totalBatches
            || (Opener(su, d.row.batch + 1) == Reviewer && d.row.maxCycles == 1)
  {
    DecisionIsSafeIff(su, d, Proceed);
    hide SafeToDecide;
  }
}
