/** How much one stored session may be asked of one step, over a whole run. */
module RelaySessions {
  import opened Wrappers
  import opened Utf16
  import V = Verdicts
  import P = Preface
  import opened RelayProtocol
  import opened RelaySafety
  import RelayDecisions
  import opened RelayReach
  import opened RelayTheorems

  /** Prompts of one step sent into stored sessions, answered or not. */
  function StoredPrompts(log: seq<Event>, role: Role, batch: nat, cycle: nat): nat {
    if log == [] then 0
    else
      var e := log[|log| - 1];
      StoredPrompts(log[..|log| - 1], role, batch, cycle)
      + (if PromptFor(e, role, batch, cycle) && e.entry.into.Some? then 1 else 0)
  }

  function Answers(log: seq<Event>, role: Role, batch: nat, cycle: nat): nat {
    if log == [] then 0
    else
      Answers(log[..|log| - 1], role, batch, cycle)
      + (if ResponseFor(log[|log| - 1], role, batch, cycle) then 1 else 0)
  }

  lemma NextLog(su: Setup, d: Durable, d': Durable)
    requires Next(su, d, d')
    ensures d'.log == d.log || (|d'.log| == |d.log| + 1 && d'.log == d.log + [d'.log[|d.log|]])
  {
    hide PromptAllowed, SessionAllowed, AdvanceAllowed, SettleAllowed, Reviewed, LastExchange;
  }

  predicate WithinStreaks(su: Setup, log: seq<Event>, role: Role, batch: nat, cycle: nat) {
    StoredPrompts(log, role, batch, cycle) <=
    su.freshSessionAfterInterrupts * Answers(log, role, batch, cycle) + InterruptedStored(log, role, batch, cycle)
  }

  lemma CountsGrow(log: seq<Event>, e: Event, role: Role, batch: nat, cycle: nat)
    ensures StoredPrompts(log + [e], role, batch, cycle) ==
            StoredPrompts(log, role, batch, cycle)
            + (if PromptFor(e, role, batch, cycle) && e.entry.into.Some? then 1 else 0)
    ensures Answers(log + [e], role, batch, cycle) ==
            Answers(log, role, batch, cycle) + (if ResponseFor(e, role, batch, cycle) then 1 else 0)
  {
    assert (log + [e])[..|log|] == log;
  }

  lemma OneMoreTimes(k: nat, n: nat)
    ensures k * (n + 1) == k * n + k
  {
  }

  lemma EventKeepsWithin(su: Setup, log: seq<Event>, e: Event, role: Role, batch: nat, cycle: nat)
    requires WithinStreaks(su, log, role, batch, cycle)
    requires InterruptedStored(log, role, batch, cycle) <= su.freshSessionAfterInterrupts
    ensures WithinStreaks(su, log + [e], role, batch, cycle)
  {
    AppendedCounts(log, e, role, batch, cycle);
    CountsGrow(log, e, role, batch, cycle);
    OneMoreTimes(su.freshSessionAfterInterrupts, Answers(log, role, batch, cycle));
    hide StoredPrompts, Answers, InterruptedStored, Interrupted;
  }

  /** Over a whole run a step asks stored sessions at most k times for each of its answers, and k times
      more. */
  lemma {:induction false} StoredPromptsBound(su: Setup, t: seq<Durable>, i: nat, role: Role, batch: nat, cycle: nat)
    requires IsRun(su, t) && i < |t| && su.freshSessionAfterInterrupts > 0
    ensures WithinStreaks(su, t[i].log, role, batch, cycle)
    ensures InterruptedStored(t[i].log, role, batch, cycle) <= su.freshSessionAfterInterrupts
  {
    hide Next, Inv, ValidSetup, Linked, Interrupted, InterruptedStored;
    if i > 0 {
      StoredPromptsBound(su, t, i - 1, role, batch, cycle);
      RunStep(su, t, i);
      NextLog(su, t[i - 1], t[i]);
      hide WithinStreaks, IsRun;
      if t[i].log != t[i - 1].log {
        EventKeepsWithin(su, t[i - 1].log, t[i].log[|t[i - 1].log|], role, batch, cycle);
      }
    }
    SessionsAreRetired(su, t, i, role, batch, cycle);
  }

  // ---- the lifetime of a session ----

  /** Prompts of one step into one session that were never answered. */
  function Unanswered(x: seq<Event>, role: Role, batch: nat, cycle: nat, session: string): nat {
    if x == [] then 0
    else
      var e := x[|x| - 1];
      if e.entry.Response? then if |x| > 1 then Unanswered(x[..|x| - 2], role, batch, cycle, session) else 0
      else Unanswered(x[..|x| - 1], role, batch, cycle, session) + (if AskedInto(e, role, batch, cycle, session) then 1 else 0)
  }

  predicate AskedInto(e: Event, role: Role, batch: nat, cycle: nat, session: string) {
    PromptFor(e, role, batch, cycle) && e.entry.into == Some(session)
  }

  lemma UnansweredGrows(x: seq<Event>, e: Event, role: Role, batch: nat, cycle: nat, session: string)
    requires !e.entry.Response?
    ensures Unanswered(x + [e], role, batch, cycle, session) ==
            Unanswered(x, role, batch, cycle, session) + (if AskedInto(e, role, batch, cycle, session) then 1 else 0)
  {
    assert (x + [e])[..|x|] == x;
  }

  lemma UnansweredAnswered(x: seq<Event>, e: Event, role: Role, batch: nat, cycle: nat, session: string)
    requires x != [] && x[|x| - 1].entry.Prompt? && e.entry.Response?
    ensures Unanswered(x, role, batch, cycle, session) ==
            Unanswered(x + [e], role, batch, cycle, session)
            + (if AskedInto(x[|x| - 1], role, batch, cycle, session) then 1 else 0)
  {
    assert (x + [e])[..|x + [e]| - 2] == x[..|x| - 1];
  }

  predicate Stored(d: Durable, role: Role, session: string) {
    SlotOf(d.row, role).session == Some(session)
  }

  /** A session that was given up does not come back: vendors do not issue an id twice. */
  ghost predicate NoneReturns(t: seq<Durable>) {
    forall role, session, i, j, k :: 0 <= i < j < k < |t| && Stored(t[i], role, session) && !Stored(t[j], role, session)
                                     ==> !Stored(t[k], role, session)
  }

  function Left(d: Durable, role: Role, batch: nat, cycle: nat, session: string): nat {
    Unanswered(Exchanges(d.log), role, batch, cycle, session)
  }

  /** Over its whole lifetime a session is left at most `most` prompts of any one step unanswered. */
  ghost predicate LifetimeBound(su: Setup, most: nat) {
    forall t: seq<Durable>, i, role, batch: nat, cycle: nat, session ::
      IsRun(su, t) && NoneReturns(t) && 0 <= i < |t|
      ==> Left(t[i], role, batch, cycle, session) <= most
  }

  // ---- k = 1 ----

  ghost predicate Seen(t: seq<Durable>, i: nat, role: Role, session: string)
    requires i < |t|
  {
    exists j :: 0 <= j <= i && Stored(t[j], role, session)
  }

  ghost predicate GivenUp(t: seq<Durable>, i: nat, role: Role, session: string)
    requires i < |t|
  {
    exists j, k :: 0 <= j < k <= i && Stored(t[j], role, session) && !Stored(t[k], role, session)
  }

  /** One prompt of the step stands unanswered in the session at most, and once the conversation has gone on
      the session is gone. */
  ghost predicate OnlyOnce(t: seq<Durable>, i: nat, role: Role, batch: nat, cycle: nat, session: string)
    requires i < |t|
  {
    var x := Exchanges(t[i].log);
    Unanswered(x, role, batch, cycle, session) > 0 ==>
      && Unanswered(x, role, batch, cycle, session) == 1
      && Seen(t, i, role, session)
      && (AskedInto(x[|x| - 1], role, batch, cycle, session) || GivenUp(t, i, role, session))
  }

  lemma SeenStays(t: seq<Durable>, i: nat, role: Role, session: string)
    requires i + 1 < |t|
    ensures Seen(t, i, role, session) ==> Seen(t, i + 1, role, session)
    ensures GivenUp(t, i, role, session) ==> GivenUp(t, i + 1, role, session)
    ensures Stored(t[i], role, session) ==> Seen(t, i + 1, role, session)
    ensures Seen(t, i, role, session) && !Stored(t[i], role, session) ==> GivenUp(t, i + 1, role, session)
    ensures NoneReturns(t) && GivenUp(t, i, role, session) ==> !Stored(t[i], role, session)
  {
    if GivenUp(t, i, role, session) {
      var j, k :| 0 <= j < k <= i && Stored(t[j], role, session) && !Stored(t[k], role, session);
    }
    if Seen(t, i, role, session) && !Stored(t[i], role, session) {
      var j :| 0 <= j <= i && Stored(t[j], role, session);
      assert j < i;
    }
  }

  /** A prompt that stands last counts as an interruption of its step. */
  lemma {:induction false} StandingPromptInterrupts(log: seq<Event>, role: Role, batch: nat, cycle: nat)
    requires LastExchange(log).Some? && PromptFor(LastExchange(log).value, role, batch, cycle)
    ensures Interrupted(log, role, batch, cycle) > 0
  {
    if !IsExchange(log[|log| - 1]) {
      StandingPromptInterrupts(log[..|log| - 1], role, batch, cycle);
    }
  }

  /** What a prompt is sent after: a prompt of the same step, or no standing prompt. */
  lemma PromptRepeatsTheStep(su: Setup, d: Durable, d': Durable)
    requires Anchored(su, d) && Prompted(su, d, d')
    requires LastExchange(d.log).Some? && LastExchange(d.log).value.entry.Prompt?
    ensures var last := LastExchange(d.log).value; PromptFor(d'.log[|d.log|], last.entry.role, last.batch, last.cycle)
  {
    hide V.RouteOf, Exchanges;
  }

  /** A session is asked only when the step has no standing prompt in it. */
  lemma AskedSessionIsFree(su: Setup, t: seq<Durable>, i: nat, role: Role, batch: nat, cycle: nat, session: string)
    requires i + 1 < |t| && NoneReturns(t) && Prompted(su, t[i], t[i + 1])
    requires su.freshSessionAfterInterrupts == 1 && OnlyOnce(t, i, role, batch, cycle, session)
    requires AskedInto(t[i + 1].log[|t[i].log|], role, batch, cycle, session)
    ensures Stored(t[i], role, session)
    ensures Unanswered(Exchanges(t[i].log), role, batch, cycle, session) == 0
  {
    var x := Exchanges(t[i].log);
    SeenStays(t, i, role, session);
    hide Seen, GivenUp, NoneReturns, Unanswered, Exchanges, PromptAllowed;
    if Unanswered(x, role, batch, cycle, session) > 0 && AskedInto(x[|x| - 1], role, batch, cycle, session) {
      StandingPromptInterrupts(t[i].log, role, batch, cycle);
    }
  }

  lemma PromptOnlyOnce(su: Setup, t: seq<Durable>, i: nat, role: Role, batch: nat, cycle: nat, session: string)
    requires i + 1 < |t| && NoneReturns(t) && Inv(su, t[i]) && Prompted(su, t[i], t[i + 1])
    requires su.freshSessionAfterInterrupts == 1 && OnlyOnce(t, i, role, batch, cycle, session)
    ensures OnlyOnce(t, i + 1, role, batch, cycle, session)
  {
    var e := t[i + 1].log[|t[i].log|];
    var x := Exchanges(t[i].log);
    SeenStays(t, i, role, session);
    Appended(t[i].log, e);
    UnansweredGrows(x, e, role, batch, cycle, session);
    hide Seen, GivenUp, NoneReturns, Unanswered, Exchanges, PromptAllowed, Conversed, Counted, Limited;
    if AskedInto(e, role, batch, cycle, session) {
      AskedSessionIsFree(su, t, i, role, batch, cycle, session);
    } else if Unanswered(x, role, batch, cycle, session) > 0 && AskedInto(x[|x| - 1], role, batch, cycle, session) {
      PromptRepeatsTheStep(su, t[i], t[i + 1]);
    }
  }

  lemma AnswerOnlyOnce(su: Setup, t: seq<Durable>, i: nat, role: Role, batch: nat, cycle: nat, session: string)
    requires i + 1 < |t| && Responded(t[i], t[i + 1]) && OnlyOnce(t, i, role, batch, cycle, session)
    ensures OnlyOnce(t, i + 1, role, batch, cycle, session)
  {
    var e := t[i + 1].log[|t[i].log|];
    SeenStays(t, i, role, session);
    Appended(t[i].log, e);
    UnansweredAnswered(Exchanges(t[i].log), e, role, batch, cycle, session);
  }

  /** Any other write leaves the exchanges alone. */
  lemma OtherwiseSilent(su: Setup, d: Durable, d': Durable)
    requires Next(su, d, d') && !Prompted(su, d, d') && !Responded(d, d')
    ensures Exchanges(d'.log) == Exchanges(d.log)
  {
    NextLog(su, d, d');
    if d'.log != d.log {
      Appended(d.log, d'.log[|d.log|]);
    }
    hide PromptAllowed, SessionAllowed, AdvanceAllowed, SettleAllowed, Reviewed, LastExchange;
  }

  lemma {:induction false} AskedOnlyOnce(su: Setup, t: seq<Durable>, i: nat, role: Role, batch: nat, cycle: nat, session: string)
    requires IsRun(su, t) && NoneReturns(t) && i < |t| && su.freshSessionAfterInterrupts == 1
    ensures OnlyOnce(t, i, role, batch, cycle, session)
  {
    hide Inv, Next, ValidSetup, NoneReturns, Seen, GivenUp, Linked;
    if i == 0 {
      assert Exchanges(t[0].log) == [];
    } else {
      hide *;
      AskedOnlyOnce(su, t, i - 1, role, batch, cycle, session);
      RunStep(su, t, i);
      StaysOnlyOnce(su, t, i - 1, role, batch, cycle, session);
    }
  }

  lemma StaysOnlyOnce(su: Setup, t: seq<Durable>, i: nat, role: Role, batch: nat, cycle: nat, session: string)
    requires i + 1 < |t| && NoneReturns(t) && Inv(su, t[i]) && Next(su, t[i], t[i + 1])
    requires su.freshSessionAfterInterrupts == 1 && OnlyOnce(t, i, role, batch, cycle, session)
    ensures OnlyOnce(t, i + 1, role, batch, cycle, session)
  {
    hide Next, Inv, NoneReturns, Prompted, Responded, Exchanges, Seen, GivenUp, Stored, Unanswered;
    if Prompted(su, t[i], t[i + 1]) {
      PromptOnlyOnce(su, t, i, role, batch, cycle, session);
    } else if Responded(t[i], t[i + 1]) {
      AnswerOnlyOnce(su, t, i, role, batch, cycle, session);
    } else {
      OtherwiseSilent(su, t[i], t[i + 1]);
      SeenStays(t, i, role, session);
    }
  }

  // ---- any other k ----

  /** The reviewer's slot takes one session and keeps it; the implementer's stays empty. */
  ghost predicate OneSession(t: seq<Durable>, session: string) {
    && (forall i :: 0 <= i < |t| ==> t[i].row.implementer.session == None && t[i].row.reviewer.session in {None, Some(session)})
    && (forall i, j :: 0 <= i <= j < |t| && Stored(t[i], Reviewer, session) ==> Stored(t[j], Reviewer, session))
  }

  ghost predicate Tamely(su: Setup, d: Durable, session: string) {
    exists t :: IsRun(su, t) && t[|t| - 1] == d && OneSession(t, session)
  }

  lemma TamelyInv(su: Setup, d: Durable, session: string)
    requires Tamely(su, d, session)
    ensures ValidSetup(su) && Inv(su, d)
  {
    var t :| IsRun(su, t) && t[|t| - 1] == d && OneSession(t, session);
    RunInv(su, t, |t| - 1);
  }

  lemma TamelyNext(su: Setup, d: Durable, d': Durable, session: string)
    requires Tamely(su, d, session) && Next(su, d, d')
    requires d'.row.implementer == d.row.implementer
    requires d'.row.reviewer.session == d.row.reviewer.session || d'.row.reviewer.session == Some(session)
    ensures Tamely(su, d', session)
  {
    hide Next;
    var t :| IsRun(su, t) && t[|t| - 1] == d && OneSession(t, session);
    ExtendRun(su, t, d');
    hide IsRun;
    var longer := t + [d'];
    assert OneSession(longer, session);
    assert longer[|longer| - 1] == d';
  }

  lemma TamelyInitial(su: Setup, session: string)
    requires ValidSetup(su)
    ensures Tamely(su, Initial(su), session)
  {
    var t := [Initial(su)];
    assert IsRun(su, t) && t[|t| - 1] == Initial(su) && OneSession(t, session);
  }

  /** The first step of the reviewer stands before its next call. */
  predicate AtReview(su: Setup, d: Durable) {
    d.row.status == Active && d.row.batch == su.startBatch && d.row.cycle == 1 && !d.row.advanceAfterResponse
  }

  function Lost(su: Setup, d: Durable, session: string): nat {
    Left(d, Reviewer, su.startBatch, 1, session)
  }

  /** It was asked `asked` times since its last answer. */
  predicate Asking(su: Setup, d: Durable, asked: nat) {
    && AtReview(su, d)
    && LastExchange(d.log).Some? && PromptFor(LastExchange(d.log).value, Reviewer, su.startBatch, 1)
    && Interrupted(d.log, Reviewer, su.startBatch, 1) == asked
  }

  /** It has answered without a verdict. */
  predicate Unclear(su: Setup, d: Durable) {
    && AtReview(su, d) && Reviewed(d, V.Unclear)
    && LastExchange(d.log).Some? && LastExchange(d.log).value.entry.Response?
    && LastReviewerPrompt(d.log).Some? && LastReviewerPrompt(d.log).value.entry.Prompt?
  }

  lemma PromptReads(su: Setup, d: Durable, e: Event, session: string)
    requires PromptFor(e, Reviewer, su.startBatch, 1)
    ensures LastExchange(d.log + [e]) == Some(e)
    ensures Interrupted(d.log + [e], Reviewer, su.startBatch, 1) == Interrupted(d.log, Reviewer, su.startBatch, 1) + 1
    ensures Lost(su, d.(log := d.log + [e]), session) == Lost(su, d, session) + (if e.entry.into == Some(session) then 1 else 0)
  {
    Appended(d.log, e);
    AppendedCounts(d.log, e, Reviewer, su.startBatch, 1);
    UnansweredGrows(Exchanges(d.log), e, Reviewer, su.startBatch, 1, session);
    hide Unanswered, Interrupted, Exchanges;
  }

  /** A prompt into the session, from the step that stands before its next call. */
  lemma SentReads(su: Setup, d: Durable, d': Durable, session: string, text: Text, body: Body)
    requires AtReview(su, d) && d' == d.(log := d.log + [Stamp(d.row, Prompt(Reviewer, text, body, Some(session)))])
    ensures Asking(su, d', Interrupted(d.log, Reviewer, su.startBatch, 1) + 1) && d'.row == d.row
    ensures Lost(su, d', session) == Lost(su, d, session) + 1
  {
    PromptReads(su, d, Stamp(d.row, Prompt(Reviewer, text, body, Some(session))), session);
    hide Interrupted, Lost, LastExchange;
  }

  lemma SendsTamely(su: Setup, d: Durable, session: string, text: Text, body: Body) returns (d': Durable)
    requires Tamely(su, d, session) && AtReview(su, d) && Stored(d, Reviewer, session)
    requires PromptAllowed(su, d, Reviewer, text, body) && SessionAllowed(su, d, Reviewer, Some(session))
    ensures Tamely(su, d', session) && d'.row == d.row
    ensures Asking(su, d', Interrupted(d.log, Reviewer, su.startBatch, 1) + 1)
    ensures Lost(su, d', session) == Lost(su, d, session) + 1
  {
    hide Tamely, PromptAllowed, SessionAllowed, Next, Interrupted, Lost, Asking;
    d' := RelayDecisions.Sends(su, d, Reviewer, text, body);
    SentReads(su, d, d', session, text, body);
    TamelyNext(su, d, d', session);
  }

  /** The call is interrupted and made again, into the stored session. */
  lemma AskAgain(su: Setup, d: Durable, session: string, asked: nat) returns (d': Durable)
    requires Tamely(su, d, session) && Asking(su, d, asked) && Stored(d, Reviewer, session)
    requires su.freshSessionAfterInterrupts == 0 || asked < su.freshSessionAfterInterrupts
    ensures Tamely(su, d', session) && Asking(su, d', asked + 1) && d'.row == d.row
    ensures Lost(su, d', session) == Lost(su, d, session) + 1
  {
    var last := LastExchange(d.log).value.entry;
    hide Tamely, LastExchange, Interrupted, Lost, P.Once, V.RouteOf;
    d' := SendsTamely(su, d, session, P.Once(last.text, su.preface), last.body);
  }

  /** A reply that cannot be routed. */
  lemma Answer(su: Setup, d: Durable, session: string, asked: nat) returns (d': Durable)
    requires Tamely(su, d, session) && Asking(su, d, asked)
    ensures Tamely(su, d', session) && Unclear(su, d') && d'.row == d.row
    ensures Lost(su, d', session) + 1 >= Lost(su, d, session)
  {
    var e := Stamp(d.row, Response(Reviewer, V.DONE));
    d' := d.(log := d.log + [e]);
    UnclearReply(su, d, d', session);
    Appended(d.log, e);
    UnansweredAnswered(Exchanges(d.log), e, Reviewer, su.startBatch, 1, session);
    hide Tamely, V.RouteOf, Unanswered, Exchanges, LastReviewerPrompt, Unclear, Interrupted, Reviewed;
  }

  lemma UnclearReply(su: Setup, d: Durable, d': Durable, session: string)
    requires Tamely(su, d, session) && AtReview(su, d)
    requires LastExchange(d.log).Some? && PromptFor(LastExchange(d.log).value, Reviewer, su.startBatch, 1)
    requires d' == d.(log := d.log + [Stamp(d.row, Response(Reviewer, V.DONE))])
    ensures Tamely(su, d', session) && Unclear(su, d')
  {
    hide Tamely, Inv, ValidSetup, LastReviewerPrompt, LastExchange, Unclear, Next;
    TamelyInv(su, d, session);
    AskedOfTheReviewer(su, d);
    DoneReads(su, d, d');
    DoneAnswers(su, d, d');
    TamelyNext(su, d, d', session);
  }

  lemma DoneReads(su: Setup, d: Durable, d': Durable)
    requires AtReview(su, d) && LastExchange(d.log).Some? && LastExchange(d.log).value.entry.Prompt?
    requires LastReviewerPrompt(d.log) == LastExchange(d.log)
    requires d' == d.(log := d.log + [Stamp(d.row, Response(Reviewer, V.DONE))])
    ensures Unclear(su, d')
  {
    Appended(d.log, Stamp(d.row, Response(Reviewer, V.DONE)));
    V.DoneIsUnclear();
    hide V.RouteOf, Exchanges, LastReviewerPrompt, Blank;
  }

  lemma DoneAnswers(su: Setup, d: Durable, d': Durable)
    requires AtReview(su, d)
    requires LastExchange(d.log).Some? && PromptFor(LastExchange(d.log).value, Reviewer, su.startBatch, 1)
    requires d' == d.(log := d.log + [Stamp(d.row, Response(Reviewer, V.DONE))])
    ensures Next(su, d, d')
  {
    V.DoneIsUnclear();
    hide V.RouteOf, LastExchange, Blank, Noted, Prompted, Activated, Seated, Recycled, Advanced, Settled, DecidedStep, Intended;
    assert Responded(d, d');
  }

  lemma AskedOfTheReviewer(su: Setup, d: Durable)
    requires Inv(su, d) && LastExchange(d.log).Some? && LastExchange(d.log).value.entry.Prompt?
    requires LastExchange(d.log).value.entry.role == Reviewer
    ensures LastReviewerPrompt(d.log) == LastExchange(d.log)
  {}

  /** The pause and its resume, and the same review asked for once more. */
  lemma AskAfresh(su: Setup, d: Durable, session: string) returns (d': Durable)
    requires Tamely(su, d, session) && Unclear(su, d) && Stored(d, Reviewer, session)
    ensures Tamely(su, d', session) && Asking(su, d', 1) && d'.row == d.row
    ensures Lost(su, d', session) == Lost(su, d, session) + 1
  {
    hide *;
    var again := PauseAndResume(su, d, session);
    var text, body := ReAskReads(su, again, session);
    d' := SendsTamely(su, again, session, text, body);
  }

  lemma ReAskReads(su: Setup, d: Durable, session: string) returns (text: Text, body: Body)
    requires Tamely(su, d, session) && Unclear(su, d)
    ensures AtReview(su, d) && PromptAllowed(su, d, Reviewer, text, body)
    ensures SessionAllowed(su, d, Reviewer, Some(session))
    ensures Interrupted(d.log, Reviewer, su.startBatch, 1) == 0
  {
    TamelyInv(su, d, session);
    MayAskAfresh(su, d);
    NothingInterrupted(su, d);
    var original := LastReviewerPrompt(d.log).value.entry;
    text, body := original.text, original.body;
    hide PromptAllowed, Interrupted, Inv, Tamely;
  }

  lemma MayAskAfresh(su: Setup, d: Durable)
    requires Unclear(su, d)
    ensures var original := LastReviewerPrompt(d.log).value.entry; PromptAllowed(su, d, Reviewer, original.text, original.body)
  {
    hide V.RouteOf;
  }

  lemma NothingInterrupted(su: Setup, d: Durable)
    requires Inv(su, d) && LastExchange(d.log).Some? && LastExchange(d.log).value.entry.Response?
    ensures Interrupted(d.log, Reviewer, su.startBatch, 1) == 0
  {
    assert Limited(su, d.log);
  }

  lemma PauseAndResume(su: Setup, d: Durable, session: string) returns (again: Durable)
    requires Tamely(su, d, session) && Unclear(su, d)
    ensures again == d && Tamely(su, again, session)
  {
    var paused := d.(row := d.row.(status := PausedUnclearVerdict));
    again := paused.(row := paused.row.(status := Active));
    PausesAndResumes(su, d, paused);
    hide Tamely, Next, Unclear;
    TamelyNext(su, d, paused, session);
    TamelyNext(su, paused, again, session);
  }

  lemma PausesAndResumes(su: Setup, d: Durable, paused: Durable)
    requires Unclear(su, d) && paused == d.(row := d.row.(status := PausedUnclearVerdict))
    ensures Next(su, d, paused) && Next(su, paused, d)
  {
    hide V.RouteOf;
    assert Settled(su, d, paused);
    assert Activated(paused, d);
  }

  /** The answering session is stored. */
  lemma Seat(su: Setup, d: Durable, session: string) returns (d': Durable)
    requires Tamely(su, d, session) && Unclear(su, d)
    ensures Tamely(su, d', session) && Unclear(su, d') && Stored(d', Reviewer, session)
  {
    d' := d.(row := d.row.(reviewer := Slot(Some(session), None)));
    hide Tamely, V.RouteOf;
    assert Seated(d, d');
    TamelyNext(su, d, d', session);
  }

  lemma TamelyAsked(su: Setup, d: Durable, session: string, role: Role, body: Body) returns (d': Durable)
    requires Tamely(su, d, session) && RelayDecisions.MayAsk(su, d, role, body)
    requires LastExchange(d.log).Some? ==> LastExchange(d.log).value.entry.Response?
    ensures Tamely(su, d', session) && d'.row == d.row && d'.intent == d.intent
    ensures LastExchange(d'.log).Some? && PromptFor(LastExchange(d'.log).value, role, d.row.batch, d.row.cycle)
    ensures LastDecision(d'.log) == LastDecision(d.log)
  {
    TamelyInv(su, d, session);
    hide Tamely, Inv, ValidSetup, Next, RelayDecisions.MayAsk, LastExchange, LastDecision;
    d' := RelayDecisions.Asks(su, d, role, body);
    TamelyNext(su, d, d', session);
  }

  lemma TamelyAnswered(su: Setup, d: Durable, asked: Durable, session: string) returns (d': Durable)
    requires Tamely(su, asked, session) && asked.row == d.row && asked.intent == d.intent && d.row.status == Active
    requires LastExchange(asked.log).Some? && PromptFor(LastExchange(asked.log).value, Implementer, d.row.batch, d.row.cycle)
    requires LastDecision(asked.log) == LastDecision(d.log)
    ensures Tamely(su, d', session) && d'.row == d.row
    ensures LastExchange(d'.log) == Some(Stamp(d.row, Response(Implementer, V.DONE)))
  {
    TamelyInv(su, asked, session);
    V.DoneIsUnclear();
    hide Tamely, Inv, ValidSetup, Next, V.RouteOf, Blank, LastExchange, LastDecision, DecisionIsLast;
    d' := RelayDecisions.Answers(su, d, asked, Implementer, V.DONE);
    TamelyNext(su, asked, d', session);
  }

  lemma OpeningMayBeAsked(su: Setup)
    ensures RelayDecisions.MayAsk(su, Initial(su), Opener(su, su.startBatch), OpeningBody(su, su.startBatch, false))
    ensures AtReview(su, Initial(su)) && LastExchange(Initial(su).log) == None
  {}

  lemma SummaryMayBeReviewed(su: Setup, d: Durable, summary: Text)
    requires AtReview(su, d) && LastExchange(d.log) == Some(Stamp(d.row, Response(Implementer, summary)))
    ensures RelayDecisions.MayAsk(su, d, Reviewer, ReviewSummary(su.startBatch, summary))
  {
    hide LastExchange;
  }

  /** The implementer, when it opens the first batch, answers with a word. */
  lemma ReviewMayOpen(su: Setup, session: string) returns (d: Durable, body: Body)
    requires ValidSetup(su)
    ensures Tamely(su, d, session) && AtReview(su, d) && RelayDecisions.MayAsk(su, d, Reviewer, body)
    ensures LastExchange(d.log).Some? ==> LastExchange(d.log).value.entry.Response?
  {
    hide Tamely, ValidSetup, RelayDecisions.MayAsk, LastExchange, LastDecision, OpeningBody;
    TamelyInitial(su, session);
    OpeningMayBeAsked(su);
    d := Initial(su);
    body := OpeningBody(su, su.startBatch, false);
    if Opener(su, su.startBatch) == Implementer {
      var asked := TamelyAsked(su, d, session, Implementer, body);
      d := TamelyAnswered(su, d, asked, session);
      body := ReviewSummary(su.startBatch, V.DONE);
      SummaryMayBeReviewed(su, d, V.DONE);
    }
  }

  /** The first review of a run, asked for and answered by the session without a verdict. */
  lemma FirstReply(su: Setup, session: string) returns (d: Durable)
    requires ValidSetup(su)
    ensures Tamely(su, d, session) && Unclear(su, d) && Stored(d, Reviewer, session)
  {
    hide Tamely, ValidSetup, RelayDecisions.MayAsk, LastExchange, Interrupted;
    var before, body := ReviewMayOpen(su, session);
    d := TamelyAsked(su, before, session, Reviewer, body);
    d := Answer(su, d, session, Interrupted(d.log, Reviewer, su.startBatch, 1));
    d := Seat(su, d, session);
  }

  /** The review is asked for once more, interrupted, asked for again, and answered without a verdict. */
  lemma OneMoreStreak(su: Setup, d: Durable, session: string) returns (d': Durable)
    requires Tamely(su, d, session) && Unclear(su, d) && Stored(d, Reviewer, session)
    requires su.freshSessionAfterInterrupts != 1
    ensures Tamely(su, d', session) && Unclear(su, d') && Stored(d', Reviewer, session)
    ensures Lost(su, d', session) >= Lost(su, d, session) + 1
  {
    hide Tamely, Unclear, Asking, Lost;
    var asked := AskAfresh(su, d, session);
    var again := AskAgain(su, asked, session, 1);
    d' := Answer(su, again, session, 2);
  }

  /** A reply that pauses the run ends a streak, so streaks add up: unless the threshold is 1, from every setup
      and for every n, one session is left n prompts of one step unanswered. */
  lemma {:induction false} StreaksAddUp(su: Setup, session: string, n: nat) returns (d: Durable)
    requires ValidSetup(su) && su.freshSessionAfterInterrupts != 1
    ensures Tamely(su, d, session) && Unclear(su, d) && Stored(d, Reviewer, session)
    ensures Lost(su, d, session) >= n
    decreases n
  {
    hide *;
    if n == 0 {
      d := FirstReply(su, session);
    } else {
      d := StreaksAddUp(su, session, n - 1);
      d := OneMoreStreak(su, d, session);
    }
  }

  lemma OneIsABound(su: Setup)
    requires su.freshSessionAfterInterrupts == 1
    ensures LifetimeBound(su, 1)
  {
    hide IsRun, NoneReturns, Left;
    forall t: seq<Durable>, i, role, batch: nat, cycle: nat, session | IsRun(su, t) && NoneReturns(t) && 0 <= i < |t|
      ensures Left(t[i], role, batch, cycle, session) <= 1
    {
      LeftAtMostOnce(su, t, i, role, batch, cycle, session);
    }
  }

  lemma NoBound(su: Setup, most: nat)
    requires ValidSetup(su) && su.freshSessionAfterInterrupts != 1
    ensures !LifetimeBound(su, most)
  {
    hide IsRun, NoneReturns, ValidSetup, Left, Tamely, Unclear;
    var d := StreaksAddUp(su, "", most + 1);
    var t := TamelyRun(su, d, "");
    assert t[|t| - 1] == d;
  }

  /** Exactly which thresholds bound the lifetime of a session at all: 1, the default, which bounds it by 1. */
  lemma LifetimeBoundIff(su: Setup)
    requires ValidSetup(su)
    ensures (exists most: nat :: LifetimeBound(su, most)) <==> su.freshSessionAfterInterrupts == 1
    ensures su.freshSessionAfterInterrupts == 1 ==> LifetimeBound(su, 1)
  {
    hide LifetimeBound, ValidSetup;
    if su.freshSessionAfterInterrupts == 1 {
      OneIsABound(su);
    } else {
      forall most: nat
        ensures !LifetimeBound(su, most)
      {
        NoBound(su, most);
      }
    }
  }

  lemma LeftAtMostOnce(su: Setup, t: seq<Durable>, i: nat, role: Role, batch: nat, cycle: nat, session: string)
    requires IsRun(su, t) && NoneReturns(t) && i < |t| && su.freshSessionAfterInterrupts == 1
    ensures Left(t[i], role, batch, cycle, session) <= 1
  {
    AskedOnlyOnce(su, t, i, role, batch, cycle, session);
    hide IsRun, NoneReturns, Seen, GivenUp;
  }

  lemma TamelyRun(su: Setup, d: Durable, session: string) returns (t: seq<Durable>)
    requires Tamely(su, d, session)
    ensures IsRun(su, t) && NoneReturns(t) && |t| > 0 && t[|t| - 1] == d
  {
    t :| IsRun(su, t) && t[|t| - 1] == d && OneSession(t, session);
    hide IsRun;
  }
}
