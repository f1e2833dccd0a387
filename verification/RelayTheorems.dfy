/** Theorems over whole runs of the relay. */
module RelayTheorems {
  import opened Wrappers
  import opened Utf16
  import P = Preface
  import V = Verdicts
  import opened RelayProtocol
  import opened RelaySafety

  // ---- invariants along a run ----

  lemma {:induction false} LinkedInv(su: Setup, t: seq<Durable>, i: nat)
    requires ValidSetup(su) && |t| > 0 && Inv(su, t[0]) && Linked(su, t) && i < |t|
    ensures Inv(su, t[i])
  {
    hide Next, Inv;
    if i > 0 {
      LinkedInv(su, t, i - 1);
      assert Next(su, t[i - 1], t[i]);
      NextKeepsInv(su, t[i - 1], t[i]);
    }
  }

  lemma RunInv(su: Setup, t: seq<Durable>, i: nat)
    requires IsRun(su, t) && i < |t|
    ensures Inv(su, t[i])
  {
    InitialInv(su);
    LinkedInv(su, t, i);
  }

  lemma RunStep(su: Setup, t: seq<Durable>, i: nat)
    requires IsRun(su, t) && 0 < i < |t|
    ensures Inv(su, t[i - 1]) && Next(su, t[i - 1], t[i])
  {
    hide Inv, Next, ValidSetup;
    RunInv(su, t, i - 1);
  }

  lemma NextGrows(su: Setup, d: Durable, d': Durable)
    requires Next(su, d, d')
    ensures d.log <= d'.log && d.row.batch <= d'.row.batch && d.row.maxCycles <= d'.row.maxCycles
  {
    hide PromptAllowed, SessionAllowed, AdvanceAllowed, SettleAllowed, Reviewed, LastExchange;
  }

  /** The log is append-only and the batch never goes back, over any stretch of any run. */
  lemma {:induction false} RunsOnlyGrow(su: Setup, t: seq<Durable>, i: nat, j: nat)
    requires IsRun(su, t) && i <= j < |t|
    ensures t[i].log <= t[j].log
    ensures t[i].row.batch <= t[j].row.batch
    ensures t[i].row.maxCycles <= t[j].row.maxCycles
  {
    hide *;
    if i < j {
      RunsOnlyGrow(su, t, i, j - 1);
      RunStep(su, t, j);
      NextGrows(su, t[j - 1], t[j]);
    }
  }

  // ---- the conversation ----

  predicate OpensNextBatch(log: seq<Event>, p: nat)
    requires p < |log|
  {
    log[p].entry.Prompt? && LastExchange(log[..p]).Some? && LastExchange(log[..p]).value.batch < log[p].batch
  }

  /** The prompt opens a batch that an implementer reply left: it spends the `accept` behind that. */
  predicate Spends(log: seq<Event>, p: nat)
    requires p < |log|
  {
    OpensNextBatch(log, p) && FromImplementer(LastExchange(log[..p]))
  }

  predicate FromImplementer(last: Option<Event>) {
    last.Some? && last.value.entry.Response? && last.value.entry.role == Implementer
  }

  /** There is an `accept` that no departure has spent. */
  ghost predicate Unspent(log: seq<Event>) {
    exists k :: 0 <= k < |log| && UnspentAt(log, k)
  }

  ghost predicate UnspentAt(log: seq<Event>, k: nat)
    requires k < |log|
  {
    log[k].entry == Decided(Accept) && forall q :: k < q < |log| ==> !Spends(log, q)
  }

  /** Why the batch of the last exchange may be left: its review said so, an `accept` not spent before closes
      it with the implementer's reply, or a `proceed` is the last word. */
  ghost predicate LeftByDecision(log: seq<Event>) {
    match LastExchange(log)
    case Some(Event(_, _, Response(Implementer, _))) => Unspent(log)
    case Some(Event(_, _, Response(Reviewer, review))) =>
      || V.RouteOf(review) == V.ToNextBatch
      || (V.RouteOf(review) == V.ToImplementer && ProceedIsLast(log))
    case _ => false
  }

  predicate ProceedIsLast(log: seq<Event>) {
    DecisionIsLast(log) && LastDecision(log).Some? && LastDecision(log).value.entry == Decided(Proceed)
  }

  ghost predicate Departures(log: seq<Event>) {
    forall p :: 0 <= p < |log| && OpensNextBatch(log, p) ==> LeftByDecision(log[..p])
  }

  ghost predicate Departing(d: Durable) {
    && (d.row.advanceAfterResponse ==> Unspent(d.log))
    && (LastExchange(d.log).Some? && LastExchange(d.log).value.batch < d.row.batch ==>
          LeftByDecision(d.log) && (FromImplementer(LastExchange(d.log)) ==> !d.row.advanceAfterResponse))
    && Departures(d.log)
  }

  lemma SpendsBefore(log: seq<Event>, e: Event, q: nat)
    requires q < |log|
    ensures Spends(log + [e], q) == Spends(log, q)
  {
    assert (log + [e])[..q] == log[..q];
    hide LastExchange;
  }

  lemma UnspentSnoc(log: seq<Event>, e: Event)
    requires !Spends(log + [e], |log|)
    ensures Unspent(log) || e.entry == Decided(Accept) ==> Unspent(log + [e])
  {
    hide Spends;
    var longer := log + [e];
    if Unspent(log) {
      var k :| 0 <= k < |log| && UnspentAt(log, k);
      forall q | k < q < |longer|
        ensures !Spends(longer, q)
      {
        if q < |log| { SpendsBefore(log, e, q); }
      }
      assert UnspentAt(longer, k);
    } else if e.entry == Decided(Accept) {
      assert UnspentAt(longer, |log|);
    }
  }

  lemma SpendsNow(log: seq<Event>, e: Event)
    ensures Spends(log + [e], |log|) <==>
            e.entry.Prompt? && FromImplementer(LastExchange(log)) && LastExchange(log).value.batch < e.batch
  {
    assert (log + [e])[..|log|] == log;
    hide LastExchange;
  }

  lemma DeparturesSnoc(log: seq<Event>, e: Event)
    requires Departures(log)
    requires e.entry.Prompt? && LastExchange(log).Some? && LastExchange(log).value.batch < e.batch ==> LeftByDecision(log)
    ensures Departures(log + [e])
  {
    hide LeftByDecision, LastExchange;
    var longer := log + [e];
    forall p | 0 <= p < |longer| && OpensNextBatch(longer, p)
      ensures LeftByDecision(longer[..p])
    {
      assert longer[..p] == log[..p];
      if p < |log| { assert OpensNextBatch(log, p); } else { assert log[..p] == log; }
    }
  }

  lemma LogStepDeparts(su: Setup, d: Durable, d': Durable)
    requires Departing(d) && (Noted(d, d') || Prompted(su, d, d') || Responded(d, d'))
    ensures Departing(d')
  {
    var e := d'.log[|d.log|];
    Appended(d.log, e);
    DeparturesSnoc(d.log, e);
    SpendsNow(d.log, e);
    if !Spends(d.log + [e], |d.log|) { UnspentSnoc(d.log, e); }
    hide Departures, Unspent, Spends, PromptAllowed, SessionAllowed, V.RouteOf, Blank;
  }

  lemma DecisionDeparts(su: Setup, d: Durable, decision: Decision)
    requires Anchored(su, d) && Departing(d) && d.row.status == PausedCycleCap
    ensures Departing(Decide(d, decision))
  {
    var e := Stamp(d.row, Decided(decision));
    Appended(d.log, e);
    DeparturesSnoc(d.log, e);
    SpendsNow(d.log, e);
    UnspentSnoc(d.log, e);
    hide Departures, Unspent, Spends, V.RouteOf;
  }

  lemma AdvanceDeparts(su: Setup, d: Durable, d': Durable)
    requires Anchored(su, d) && Departing(d) && Advanced(su, d, d')
    ensures Departing(d')
  {
    hide Departures, Unspent, V.RouteOf;
  }

  lemma RowStepDeparts(su: Setup, d: Durable, d': Durable)
    requires Departing(d)
    requires Activated(d, d') || Seated(d, d') || Recycled(d, d') || Settled(su, d, d') || Intended(d, d')
    ensures Departing(d')
  {
    hide Departures, Unspent, LeftByDecision, LastExchange, Reviewed, Implemented, DecisionIsLast, LastDecision;
  }

  lemma NextDeparts(su: Setup, d: Durable, d': Durable)
    requires Inv(su, d) && Departing(d) && Next(su, d, d')
    ensures Departing(d')
  {
    hide Departing, Anchored, Conversed, Counted, Limited, Decide;
    hide Noted, Prompted, Responded, Activated, Seated, Recycled, Advanced, Settled, Intended;
    if Noted(d, d') || Prompted(su, d, d') || Responded(d, d') {
      LogStepDeparts(su, d, d');
    } else if DecidedStep(d, d') {
      var decision :| d' == Decide(d, decision);
      DecisionDeparts(su, d, decision);
    } else if Advanced(su, d, d') {
      AdvanceDeparts(su, d, d');
    } else {
      RowStepDeparts(su, d, d');
    }
  }

  lemma RunStarts(su: Setup, t: seq<Durable>)
    requires IsRun(su, t)
    ensures |t| > 0 && t[0] == Initial(su)
  {
    hide Linked, ValidSetup, Next;
  }

  lemma StartDeparts(su: Setup)
    ensures Departing(Initial(su))
  {
    hide LeftByDecision;
  }

  lemma {:induction false} RunDeparts(su: Setup, t: seq<Durable>, i: nat)
    requires IsRun(su, t) && i < |t|
    ensures Departing(t[i])
  {
    hide *;
    if i == 0 {
      RunStarts(su, t);
      StartDeparts(su);
    } else {
      RunDeparts(su, t, i - 1);
      RunStep(su, t, i);
      NextDeparts(su, t[i - 1], t[i]);
    }
  }

  /** Crash recovery refines the crash-free loop: every response directly follows the prompt it
      answers, every prompt carries what it must, the answered turns alone are a word of the
      crash-free automaton, and a prompt opens the next batch only after a review, an `accept` or a
      `proceed` that leaves the batch before. */
  lemma CrashesRefineTheLoop(su: Setup, t: seq<Durable>, i: nat)
    requires IsRun(su, t) && i < |t|
    ensures Spoken(su, Exchanges(t[i].log))
    ensures IsWord(su, Turns(Exchanges(t[i].log)))
    ensures Departures(t[i].log)
  {
    RunInv(su, t, i);
    RunDeparts(su, t, i);
    hide IsRun, Departures, LeftByDecision;
    GrammarIsSpoken(su, Exchanges(t[i].log));
  }

  predicate Spoken(su: Setup, x: seq<Event>) {
    && (forall k :: 0 <= k < |x| && x[k].entry.Response? ==>
          k > 0 && PromptFor(x[k - 1], x[k].entry.role, x[k].batch, x[k].cycle))
    && (forall k :: 0 <= k < |x| && x[k].entry.Prompt? ==> Carries(su, x[..k], x[k]))
  }

  lemma GrammarIsSpoken(su: Setup, x: seq<Event>)
    requires AllExchanged(su, x)
    ensures Spoken(su, x)
  {
    forall k | 0 <= k < |x| && x[k].entry.Response?
      ensures k > 0 && PromptFor(x[k - 1], x[k].entry.role, x[k].batch, x[k].cycle)
    {
      assert Exchanged(su, x, k);
    }
    forall k | 0 <= k < |x| && x[k].entry.Prompt?
      ensures Carries(su, x[..k], x[k])
    {
      assert Exchanged(su, x, k);
    }
  }

  /** Every step of the conversation stays in its batch or opens the next one; none is skipped. */
  lemma NoBatchIsSkipped(su: Setup, t: seq<Durable>, i: nat, k: nat)
    requires IsRun(su, t) && i < |t|
    requires 0 < k < |Turns(Exchanges(t[i].log))|
    ensures var w := Turns(Exchanges(t[i].log));
            w[k].batch == w[k - 1].batch || w[k].batch == w[k - 1].batch + 1
  {
    RunInv(su, t, i);
    var w := Turns(Exchanges(t[i].log));
    assert LastOf(w[..k]) == Some(w[k - 1]);
  }

  /** What completes a run: the reviewer's COMPLETE, or, at the last batch, what would advance it. */
  predicate Earned(su: Setup, d: Durable) {
    || Reviewed(d, V.ToEnd)
    || (d.row.batch >= su.totalBatches && (Reviewed(d, V.ToNextBatch) || Implemented(d) || ProceedIsLast(d.log)))
  }

  lemma CompletingEarns(su: Setup, d: Durable, d': Durable)
    requires Next(su, d, d') && d'.row.status == Complete
    requires d.row.status == Complete ==> Earned(su, d)
    ensures Earned(su, d')
  {
    hide PromptAllowed, SessionAllowed, V.RouteOf;
  }

  /** Whatever happened before, a run is complete only on such an exchange or decision in its last batch or at its end. */
  lemma {:induction false} CompletionIsEarned(su: Setup, t: seq<Durable>, i: nat)
    requires IsRun(su, t) && i < |t| && t[i].row.status == Complete
    ensures Earned(su, t[i])
  {
    hide *;
    RunStarts(su, t);
    assert Initial(su).row.status == Active by { StartsActive(su); }
    if i > 0 {
      RunStep(su, t, i);
      if t[i - 1].row.status == Complete {
        CompletionIsEarned(su, t, i - 1);
      }
      CompletingEarns(su, t[i - 1], t[i]);
    }
  }

  lemma StartsActive(su: Setup)
    ensures Initial(su).row.status == Active
  {}

  /** An exchange that is the first of its batch opens it. */
  predicate OpensAt(su: Setup, x: seq<Event>, k: nat)
    requires k < |x|
  {
    k == 0 || x[k - 1].batch < x[k].batch ==>
      && x[k].entry.Prompt?
      && if su.reviewFrom.Some? && x[k].batch >= su.reviewFrom.value
         then x[k].entry.role == Reviewer && x[k].entry.body == ReviewOnly(x[k].batch)
         else x[k].entry.role == Implementer && x[k].entry.body == ImplementBatch(x[k].batch, k > 0)
  }

  predicate AllOpen(su: Setup, x: seq<Event>) {
    forall k :: 0 <= k < |x| ==> OpensAt(su, x, k)
  }

  lemma OneMoreOpens(su: Setup, x: seq<Event>, e: Event)
    requires AllOpen(su, x) && OpensAt(su, x + [e], |x|)
    ensures AllOpen(su, x + [e])
  {
    forall k | 0 <= k < |x|
      ensures OpensAt(su, x + [e], k)
    {
      assert OpensAt(su, x, k);
    }
  }

  lemma PromptOpens(su: Setup, d: Durable, d': Durable)
    requires Prompted(su, d, d')
    ensures |d'.log| == |d.log| + 1
    ensures var x, e := Exchanges(d.log), d'.log[|d.log|];
            Exchanges(d'.log) == x + [e] && OpensAt(su, x + [e], |x|)
  {
    Appended(d.log, d'.log[|d.log|]);
    hide Exchanges, SessionAllowed, V.RouteOf, FixAllowed, JustDecided, LastReviewerPrompt, P.Once;
  }

  lemma ResponseOpens(su: Setup, d: Durable, d': Durable)
    requires Responded(d, d')
    ensures |d'.log| == |d.log| + 1
    ensures var x, e := Exchanges(d.log), d'.log[|d.log|];
            Exchanges(d'.log) == x + [e] && OpensAt(su, x + [e], |x|)
  {
    Appended(d.log, d'.log[|d.log|]);
    hide Exchanges, Blank;
  }

  lemma SilentStep(su: Setup, d: Durable, d': Durable)
    requires Next(su, d, d') && !Prompted(su, d, d') && !Responded(d, d')
    ensures Exchanges(d'.log) == Exchanges(d.log)
  {
    hide Prompted, Responded, Reviewed, AdvanceAllowed, SettleAllowed;
    if Noted(d, d') {
      Appended(d.log, Stamp(d.row, Note));
    } else if DecidedStep(d, d') {
      var decision :| d' == Decide(d, decision);
      Appended(d.log, Stamp(d.row, Decided(decision)));
    }
  }

  lemma NextOpens(su: Setup, d: Durable, d': Durable)
    requires Next(su, d, d') && AllOpen(su, Exchanges(d.log))
    ensures AllOpen(su, Exchanges(d'.log))
  {
    hide *;
    if Prompted(su, d, d') {
      PromptOpens(su, d, d');
      OneMoreOpens(su, Exchanges(d.log), d'.log[|d.log|]);
    } else if Responded(d, d') {
      ResponseOpens(su, d, d');
      OneMoreOpens(su, Exchanges(d.log), d'.log[|d.log|]);
    } else {
      SilentStep(su, d, d');
    }
  }

  lemma {:induction false} RunOpens(su: Setup, t: seq<Durable>, i: nat)
    requires IsRun(su, t) && i < |t|
    ensures AllOpen(su, Exchanges(t[i].log))
  {
    hide *;
    if i == 0 {
      RunStarts(su, t);
      NothingOpens(su);
    } else {
      RunOpens(su, t, i - 1);
      RunStep(su, t, i);
      NextOpens(su, t[i - 1], t[i]);
    }
  }

  lemma NothingOpens(su: Setup)
    ensures AllOpen(su, Exchanges(Initial(su).log))
  {
  }

  /** The first exchange of a batch is its opening prompt: to the reviewer, to review only, from the batch on whose work
      already exists, and to the implementer before it and in a run without such a batch. */
  lemma BatchesOpenRight(su: Setup, t: seq<Durable>, i: nat, k: nat)
    requires IsRun(su, t) && i < |t| && k < |Exchanges(t[i].log)|
    requires k == 0 || Exchanges(t[i].log)[k - 1].batch < Exchanges(t[i].log)[k].batch
    ensures var e := Exchanges(t[i].log)[k];
            && e.entry.Prompt?
            && if su.reviewFrom.Some? && e.batch >= su.reviewFrom.value
               then e.entry.role == Reviewer && e.entry.body == ReviewOnly(e.batch)
               else e.entry.role == Implementer && e.entry.body == ImplementBatch(e.batch, k > 0)
  {
    hide IsRun, Exchanges;
    RunOpens(su, t, i);
    assert OpensAt(su, Exchanges(t[i].log), k);
  }

  /** However often a prompt is interrupted, what is re-sent is one note and the text first meant. */
  lemma {:induction false} ResendsKeepTheBody(su: Setup, t: seq<Durable>, i: nat, first: nat, last: nat)
    requires IsRun(su, t) && i < |t|
    requires first <= last < |Exchanges(t[i].log)|
    requires forall k :: first <= k <= last ==> Exchanges(t[i].log)[k].entry.Prompt?
    ensures var x := Exchanges(t[i].log);
            && x[last].entry.body == x[first].entry.body
            && PromptFor(x[last], x[first].entry.role, x[first].batch, x[first].cycle)
            && Said(su, x[last].entry.text, x[first].entry.body)
            && (first < last ==> x[last].entry.text == su.preface + su.prose(x[first].entry.body))
  {
    hide Inv, Exchanged, PromptFor, IsRun, Said;
    PromptsAreExchanged(su, t, i, last);
    var x := Exchanges(t[i].log);
    if first < last {
      ResendsKeepTheBody(su, t, i, first, last - 1);
      ResendStep(su, x, last);
    } else {
      FirstStep(su, x, last);
    }
  }

  lemma PromptsAreExchanged(su: Setup, t: seq<Durable>, i: nat, k: nat)
    requires IsRun(su, t) && i < |t| && k < |Exchanges(t[i].log)|
    ensures Exchanged(su, Exchanges(t[i].log), k) && ValidSetup(su)
  {
    RunInv(su, t, i);
    hide Exchanged, Exchanges;
  }

  lemma FirstStep(su: Setup, x: seq<Event>, k: nat)
    requires k < |x| && Exchanged(su, x, k) && x[k].entry.Prompt?
    ensures Said(su, x[k].entry.text, x[k].entry.body) && PromptFor(x[k], x[k].entry.role, x[k].batch, x[k].cycle)
  {}

  lemma ResendStep(su: Setup, x: seq<Event>, k: nat)
    requires ValidSetup(su)
    requires 0 < k < |x| && Exchanged(su, x, k) && x[k].entry.Prompt? && x[k - 1].entry.Prompt?
    requires Said(su, x[k - 1].entry.text, x[k - 1].entry.body)
    ensures x[k].entry.body == x[k - 1].entry.body && x[k].entry.text == su.preface + su.prose(x[k].entry.body)
    ensures Said(su, x[k].entry.text, x[k].entry.body)
    ensures forall role, b, c :: PromptFor(x[k - 1], role, b, c) ==> PromptFor(x[k], role, b, c)
  {
    assert LastOf(x[..k]) == Some(x[k - 1]);
    ResentIsRendered(su, x[k - 1].entry.text, x[k - 1].entry.body);
    assert P.Copies(1, su.preface) == su.preface + P.Copies(0, su.preface) == su.preface;
  }

  /** A step is never asked more than k times in a row of a stored session. */
  lemma SessionsAreRetired(su: Setup, t: seq<Durable>, i: nat, role: Role, batch: nat, cycle: nat)
    requires IsRun(su, t) && i < |t| && su.freshSessionAfterInterrupts > 0
    ensures InterruptedStored(t[i].log, role, batch, cycle) <= su.freshSessionAfterInterrupts
  {
    RunInv(su, t, i);
  }

  // ---- the cycle ledger ----

  /** The ledger of a run: the cap counts the operator's grants, cycles stay below it, fix rounds of
      any batch below that, and a cap pause means what it says. */
  lemma CycleLedger(su: Setup, t: seq<Durable>, i: nat, batch: nat)
    requires IsRun(su, t) && i < |t|
    ensures var d := t[i];
            && 1 <= d.row.cycle <= d.row.maxCycles
            && d.row.maxCycles == su.maxCycles + Continues(Decisions(d.log))
            && FixRounds(su.preface, d.log, batch) <= d.row.maxCycles - 1
            && (d.row.status == PausedCycleCap ==> d.row.cycle == d.row.maxCycles && Reviewed(d, V.ToImplementer))
  {
    RunInv(su, t, i);
    assert FixRounds(su.preface, t[i].log, batch) <= FixRoundBound(t[i], batch);
  }

  /** Under one and the same parser a reply that paused the run never becomes routable. */
  lemma UnclearStaysUnclear(su: Setup, t: seq<Durable>, i: nat)
    requires IsRun(su, t) && i < |t| && t[i].row.status == PausedUnclearVerdict
    ensures Reviewed(t[i], V.Unclear)
  {
    RunInv(su, t, i);
  }

  lemma CompleteAbsorbs(su: Setup, d: Durable, d': Durable)
    requires Next(su, d, d') && d.row.status == Complete
    ensures d'.row == d.row && d'.log == d.log
  {
    hide PromptAllowed, SessionAllowed, AdvanceAllowed, SettleAllowed, Reviewed, LastExchange, Decide;
  }

  /** COMPLETE is final: only the operator's cell can still change. */
  lemma {:induction false} CompleteIsAbsorbing(su: Setup, t: seq<Durable>, i: nat, j: nat)
    requires IsRun(su, t) && i <= j < |t| && t[i].row.status == Complete
    ensures t[j].row == t[i].row && t[j].log == t[i].log
  {
    hide *;
    if i < j {
      CompleteIsAbsorbing(su, t, i, j - 1);
      RunStep(su, t, j);
      CompleteAbsorbs(su, t[j - 1], t[j]);
    }
  }

  // ---- justified advances ----

  /** Logged evidence that the current batch may be left. */
  predicate Evidence(d: Durable) {
    var decision := LastDecision(d.log);
    || Reviewed(d, V.ToNextBatch)
    || (&& decision.Some? && decision.value.batch == d.row.batch && decision.value.entry == Decided(Accept)
        && !DecisionIsLast(d.log) && Implemented(d))
    || (&& decision.Some? && decision.value.batch == d.row.batch && decision.value.entry == Decided(Proceed)
        && DecisionIsLast(d.log))
  }

  predicate Justified(su: Setup, d: Durable, d': Durable) {
    && (d'.row.batch != d.row.batch ==> d'.row.batch == d.row.batch + 1 && Evidence(d))
    && (d'.row.status == Complete && d.row.status != Complete ==>
          Reviewed(d, V.ToEnd) || (d.row.batch >= su.totalBatches && Evidence(d)))
  }

  /** A decision the operator may take without surprise: no advance is still pending from an
      earlier `accept`. The status command shows neither, but the row does. */
  predicate CleanDecision(d: Durable, d': Durable) {
    d.row.status == PausedCycleCap && d.row.advanceAfterResponse ==>
      d' != Decide(d, Continue) && d' != Decide(d, Proceed)
  }

  predicate CleanFrom(t: seq<Durable>, from: nat) {
    forall i :: from < i < |t| ==> CleanDecision(t[i - 1], t[i])
  }

  /** A pending advance is backed by the last decision and by nothing a reviewer said since. */
  predicate Backed(d: Durable) {
    d.row.advanceAfterResponse ==>
      && LastDecision(d.log).Some?
      && LastDecision(d.log).value.entry == Decided(Accept)
      && LastDecision(d.log).value.batch == d.row.batch
      && d.row.cycle == d.row.maxCycles
      && LastExchange(d.log).Some?
      && LastExchange(d.log).value.batch == d.row.batch
      && (Reviewed(d, V.ToImplementer) || Implementing(LastExchange(d.log).value))
  }

  predicate Implementing(e: Event) {
    IsExchange(e) && e.entry.role == Implementer
  }

  lemma LogStepKeepsBacked(su: Setup, d: Durable, d': Durable)
    requires Anchored(su, d) && Backed(d)
    requires Noted(d, d') || Prompted(su, d, d') || Responded(d, d')
    ensures Backed(d')
  {
    Appended(d.log, d'.log[|d.log|]);
  }

  lemma DecisionKeepsBacked(su: Setup, d: Durable, decision: Decision)
    requires Anchored(su, d) && Backed(d) && d.row.status == PausedCycleCap
    requires d.row.advanceAfterResponse ==> decision == Accept
    ensures Backed(Decide(d, decision))
  {
    Appended(d.log, Stamp(d.row, Decided(decision)));
  }

  lemma CleanDecisionKeepsBacked(su: Setup, d: Durable, d': Durable)
    requires Anchored(su, d) && Backed(d) && DecidedStep(d, d') && CleanDecision(d, d')
    ensures Backed(d')
  {
    hide Backed, Anchored, Decide;
    if d.row.advanceAfterResponse {
      DecisionKeepsBacked(su, d, Accept);
    } else {
      var decision :| d' == Decide(d, decision);
      DecisionKeepsBacked(su, d, decision);
    }
  }

  lemma RowStepKeepsBacked(su: Setup, d: Durable, d': Durable)
    requires Anchored(su, d) && Backed(d)
    requires Activated(d, d') || Seated(d, d') || Recycled(d, d') || Advanced(su, d, d') || Settled(su, d, d') || Intended(d, d')
    ensures Backed(d')
  {
    assert d'.log == d.log;
  }

  lemma CleanStepKeepsBacked(su: Setup, d: Durable, d': Durable)
    requires Inv(su, d) && Backed(d) && Next(su, d, d') && CleanDecision(d, d')
    ensures Backed(d')
  {
    hide Backed, CleanDecision, Anchored, Conversed, Counted, Limited;
    hide Noted, Prompted, Responded, Activated, Seated, Recycled, Advanced, Settled, DecidedStep, Intended;
    if Noted(d, d') || Prompted(su, d, d') || Responded(d, d') {
      LogStepKeepsBacked(su, d, d');
    } else if DecidedStep(d, d') {
      CleanDecisionKeepsBacked(su, d, d');
    } else {
      RowStepKeepsBacked(su, d, d');
    }
  }

  lemma BackedAdvanceHasEvidence(su: Setup, d: Durable, pendingAfter: bool)
    requires Anchored(su, d) && Backed(d) && AdvanceAllowed(d, pendingAfter)
    ensures Evidence(d)
  {}

  lemma LeavingIsAdvancing(su: Setup, d: Durable, d': Durable)
    requires Next(su, d, d') && d'.row.batch != d.row.batch
    ensures Advanced(su, d, d')
  {
    hide PromptAllowed, SessionAllowed, AdvanceAllowed, SettleAllowed, Reviewed, LastExchange;
  }

  lemma CompletingIsSettling(su: Setup, d: Durable, d': Durable)
    requires Next(su, d, d') && d'.row.status == Complete && d.row.status != Complete
    ensures Settled(su, d, d')
  {
    hide PromptAllowed, SessionAllowed, AdvanceAllowed, SettleAllowed, Reviewed, LastExchange;
  }

  lemma BackedStepIsJustified(su: Setup, d: Durable, d': Durable)
    requires Inv(su, d) && Backed(d) && Next(su, d, d')
    ensures Justified(su, d, d')
  {
    if d'.row.batch != d.row.batch {
      LeavingIsAdvancing(su, d, d');
      hide Next, Reviewed;
      BackedAdvanceHasEvidence(su, d, d'.row.advanceAfterResponse);
    } else if d'.row.status == Complete && d.row.status != Complete {
      CompletingIsSettling(su, d, d');
      hide Next, Reviewed;
      if !Reviewed(d, V.ToEnd) {
        BackedAdvanceHasEvidence(su, d, d'.row.advanceAfterResponse);
      }
    }
  }

  lemma {:induction false} CleanRunIsBacked(su: Setup, t: seq<Durable>, from: nat, i: nat)
    requires ValidSetup(su) && |t| > 0 && Inv(su, t[0]) && Linked(su, t) && CleanFrom(t, from)
    requires from <= i < |t| && Backed(t[from])
    ensures Backed(t[i])
  {
    hide Next, CleanDecision, Inv, Backed;
    if i > from {
      CleanRunIsBacked(su, t, from, i - 1);
      LinkedInv(su, t, i - 1);
      assert Next(su, t[i - 1], t[i]) && CleanDecision(t[i - 1], t[i]);
      CleanStepKeepsBacked(su, t[i - 1], t[i]);
    }
  }

  lemma RunIsBacked(su: Setup, t: seq<Durable>, i: nat)
    requires IsRun(su, t) && CleanFrom(t, 0) && i < |t|
    ensures Backed(t[i])
  {
    hide Next, Inv, Linked, CleanFrom;
    InitialInv(su);
    CleanRunIsBacked(su, t, 0, i);
  }

  /** With clean decisions, every advance of every run is by one and justified by the log, and so is
      every completion: crashes, failures and resumes anywhere do not matter. */
  lemma AdvancesAreJustified(su: Setup, t: seq<Durable>, i: nat)
    requires IsRun(su, t) && CleanFrom(t, 0) && 0 < i < |t|
    ensures Justified(su, t[i - 1], t[i])
  {
    RunIsBacked(su, t, i - 1);
    hide *;
    RunStep(su, t, i);
    BackedStepIsJustified(su, t[i - 1], t[i]);
  }
}
