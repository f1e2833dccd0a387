/** The relay's durable state and every durable write a worker may make to it.

    One counters row, one append-only log, one pause-intent cell. A `Next` step is a single durable
    write, so a crash between any two writes leaves a state that is itself reached by a run, and
    whatever holds of all runs holds of all runs with crashes and resumes anywhere. */
module RelayProtocol {
  import opened Wrappers
  import opened Utf16
  import P = Preface
  import V = Verdicts

  datatype Role = Implementer | Reviewer

  datatype Status = Active | PausedCycleCap | PausedUnclearVerdict | Stopped | Complete

  datatype Decision = Continue | Accept | Proceed

  datatype PauseIntent = NextBoundary | BatchEnd

  /** What a prompt asks for, and what it carries. */
  datatype Body =
    | ImplementBatch(n: nat, afterAccept: bool)
    | ReviewSummary(n: nat, summary: Text)
    | ReviewOnly(n: nat)
    | ApplyFixes(n: nat, review: Text)
    | ApplyFinal(n: nat, review: Text)

  /** A logged event. Of a prompt the log table keeps the text. `body`, what the text was made for, and
      `into`, the stored session it was sent into, are recorded here to say what the text carries and to
      state the session bounds. */
  datatype Entry =
    | Prompt(role: Role, text: Text, body: Body, into: Option<string>)
    | Response(role: Role, text: Text)
    | Note
    | Decided(decision: Decision)

  datatype Event = Event(batch: nat, cycle: nat, entry: Entry)

  /** A stored vendor session with the adapter kind that created it. */
  datatype Slot = Slot(session: Option<string>, kind: Option<string>)

  datatype Row = Row(
    maxCycles: nat, batch: nat, cycle: nat, status: Status, advanceAfterResponse: bool,
    implementer: Slot, reviewer: Slot)

  datatype Durable = Durable(row: Row, log: seq<Event>, intent: Option<PauseIntent>)

  /** What is fixed for a run: the numbers it was started with, the retry settings, the note in front of
      a re-sent prompt, and the prose of the prompts. */
  datatype Setup = Setup(
    startBatch: nat, totalBatches: nat, maxCycles: nat, reviewFrom: Option<nat>,
    freshSessionAfterInterrupts: nat, retryAttempts: nat, preface: P.Mark, prose: Body -> Text)

  /** No prompt template starts with the note. */
  ghost predicate ValidSetup(su: Setup) {
    && su.startBatch >= 1 && su.totalBatches >= 1 && su.maxCycles >= 1
    && forall body :: !(su.preface <= su.prose(body))
  }

  // ---- reading the log ----

  predicate IsExchange(e: Event) {
    e.entry.Prompt? || e.entry.Response?
  }

  /** All prompts and responses, in order. */
  function Exchanges(log: seq<Event>): (x: seq<Event>)
    ensures forall e :: e in x ==> IsExchange(e)
  {
    if log == [] then []
    else
      var front := Exchanges(log[..|log| - 1]);
      var e := log[|log| - 1];
      if IsExchange(e) then front + [e] else front
  }

  function LastOf(x: seq<Event>): Option<Event> {
    if x == [] then None else Some(x[|x| - 1])
  }

  function LastExchange(log: seq<Event>): Option<Event> {
    LastOf(Exchanges(log))
  }

  function Decisions(log: seq<Event>): (x: seq<Event>)
    ensures forall e :: e in x ==> e.entry.Decided?
  {
    if log == [] then []
    else
      var front := Decisions(log[..|log| - 1]);
      var e := log[|log| - 1];
      if e.entry.Decided? then front + [e] else front
  }

  function LastDecision(log: seq<Event>): Option<Event> {
    LastOf(Decisions(log))
  }

  /** Whether a decision was logged after the last exchange. */
  predicate DecisionIsLast(log: seq<Event>) {
    log != [] &&
    var e := log[|log| - 1];
    e.entry.Decided? || (e.entry.Note? && DecisionIsLast(log[..|log| - 1]))
  }

  function LastReviewerPrompt(log: seq<Event>): Option<Event> {
    if log == [] then None
    else
      var e := log[|log| - 1];
      if e.entry.Prompt? && e.entry.role == Reviewer then Some(e)
      else LastReviewerPrompt(log[..|log| - 1])
  }

  predicate PromptFor(e: Event, role: Role, batch: nat, cycle: nat) {
    e.entry.Prompt? && e.entry.role == role && e.batch == batch && e.cycle == cycle
  }

  predicate ResponseFor(e: Event, role: Role, batch: nat, cycle: nat) {
    e.entry.Response? && e.entry.role == role && e.batch == batch && e.cycle == cycle
  }

  /** Prompts of one step since that step was last answered. */
  function Interrupted(log: seq<Event>, role: Role, batch: nat, cycle: nat): nat {
    if log == [] then 0
    else
      var e := log[|log| - 1];
      if ResponseFor(e, role, batch, cycle) then 0
      else Interrupted(log[..|log| - 1], role, batch, cycle)
           + (if PromptFor(e, role, batch, cycle) then 1 else 0)
  }

  /** Of those, the ones sent into a stored session. */
  function InterruptedStored(log: seq<Event>, role: Role, batch: nat, cycle: nat): nat {
    if log == [] then 0
    else
      var e := log[|log| - 1];
      if ResponseFor(e, role, batch, cycle) then 0
      else InterruptedStored(log[..|log| - 1], role, batch, cycle)
           + (if PromptFor(e, role, batch, cycle) && e.entry.into.Some? then 1 else 0)
  }

  /** A fix prompt to the implementer that is not a re-send. */
  predicate OpensFixRound(mark: P.Mark, e: Event, batch: nat) {
    && e.batch == batch
    && e.entry.Prompt? && e.entry.role == Implementer && e.entry.body.ApplyFixes? && !(mark <= e.entry.text)
  }

  /** Fix rounds started in a batch. */
  function FixRounds(mark: P.Mark, log: seq<Event>, batch: nat): nat {
    if log == [] then 0
    else
      var e := log[|log| - 1];
      FixRounds(mark, log[..|log| - 1], batch)
      + (if OpensFixRound(mark, e, batch) then 1 else 0)
  }

  function Continues(decisions: seq<Event>): nat
    requires forall e :: e in decisions ==> e.entry.Decided?
  {
    if decisions == [] then 0
    else Continues(decisions[..|decisions| - 1])
         + (if decisions[|decisions| - 1].entry.decision == Continue then 1 else 0)
  }

  /** What one more event does to every reading of the log. */
  lemma Appended(log: seq<Event>, e: Event)
    ensures Exchanges(log + [e]) == if IsExchange(e) then Exchanges(log) + [e] else Exchanges(log)
    ensures Decisions(log + [e]) == if e.entry.Decided? then Decisions(log) + [e] else Decisions(log)
    ensures DecisionIsLast(log + [e]) <==> e.entry.Decided? || (e.entry.Note? && DecisionIsLast(log))
    ensures LastReviewerPrompt(log + [e]) ==
            if e.entry.Prompt? && e.entry.role == Reviewer then Some(e) else LastReviewerPrompt(log)
  {
    assert (log + [e])[..|log|] == log;
  }

  lemma AppendedCounts(log: seq<Event>, e: Event, role: Role, batch: nat, cycle: nat)
    ensures Interrupted(log + [e], role, batch, cycle) ==
            if ResponseFor(e, role, batch, cycle) then 0
            else Interrupted(log, role, batch, cycle) + (if PromptFor(e, role, batch, cycle) then 1 else 0)
    ensures InterruptedStored(log + [e], role, batch, cycle) ==
            if ResponseFor(e, role, batch, cycle) then 0
            else InterruptedStored(log, role, batch, cycle)
                 + (if PromptFor(e, role, batch, cycle) && e.entry.into.Some? then 1 else 0)
  {
    assert (log + [e])[..|log|] == log;
  }

  lemma AppendedFixRounds(mark: P.Mark, log: seq<Event>, e: Event, batch: nat)
    ensures FixRounds(mark, log + [e], batch) ==
            FixRounds(mark, log, batch)
            + (if OpensFixRound(mark, e, batch) then 1 else 0)
  {
    assert (log + [e])[..|log|] == log;
  }

  // ---- the wiring: what the last exchange allows ----

  /** Who opens a batch: the reviewer when its work already exists on the branch. */
  function Opener(su: Setup, batch: nat): Role {
    if su.reviewFrom.Some? && batch >= su.reviewFrom.value then Reviewer else Implementer
  }

  function OpeningBody(su: Setup, batch: nat, afterAccept: bool): Body {
    if Opener(su, batch) == Reviewer then ReviewOnly(batch) else ImplementBatch(batch, afterAccept)
  }

  function SlotOf(row: Row, role: Role): Slot {
    if role == Implementer then row.implementer else row.reviewer
  }

  /** A reviewer reply to the row's current batch. */
  predicate Reviewed(d: Durable, route: V.Route) {
    match LastExchange(d.log)
    case Some(Event(b, _, Response(Reviewer, text))) => b == d.row.batch && V.RouteOf(text) == route
    case _ => false
  }

  /** An implementer reply to the row's current batch. */
  predicate Implemented(d: Durable) {
    match LastExchange(d.log)
    case Some(Event(b, _, Response(Implementer, _))) => b == d.row.batch
    case _ => false
  }

  /** The last decision, when nothing was exchanged since. */
  predicate JustDecided(d: Durable, decision: Decision) {
    DecisionIsLast(d.log) && LastDecision(d.log).Some? && LastDecision(d.log).value.entry == Decided(decision)
  }

  /** A fix round after a review: counted in a cycle of its own, and not in place of the call or advance
      another decision stands for. */
  predicate FixAllowed(d: Durable, reviewedIn: nat) {
    reviewedIn < d.row.cycle && (DecisionIsLast(d.log) ==> JustDecided(d, Continue))
  }

  /** The prompts the last exchange allows. */
  predicate PromptAllowed(su: Setup, d: Durable, role: Role, text: Text, body: Body) {
    var batch := d.row.batch;
    match LastExchange(d.log)
    case None =>
      role == Opener(su, batch) && body == OpeningBody(su, batch, false) && text == su.prose(body)
    case Some(last) =>
      if last.batch < batch then
        role == Opener(su, batch) && body == OpeningBody(su, batch, true) && text == su.prose(body)
      else
        match last.entry
        case Prompt(asked, sent, before, _) => role == asked && body == before && text == P.Once(sent, su.preface)
        case Response(Implementer, summary) =>
          !d.row.advanceAfterResponse && role == Reviewer && body == ReviewSummary(batch, summary) && text == su.prose(body)
        case Response(Reviewer, review) =>
          (match V.RouteOf(review)
           case ToImplementer =>
             && role == Implementer && text == su.prose(body)
             && (|| (body == ApplyFixes(batch, review) && FixAllowed(d, last.cycle))
                 || (body == ApplyFinal(batch, review) && d.row.advanceAfterResponse && JustDecided(d, Accept)))
           case Unclear =>
             var original := LastReviewerPrompt(d.log);
             && role == Reviewer && original.Some? && original.value.entry.Prompt?
             && text == original.value.entry.text && body == original.value.entry.body
           case _ => false)
        case _ => false
  }

  /** With a threshold k, a stored session is used again only below k interruptions of the step. */
  predicate SessionAllowed(su: Setup, d: Durable, role: Role, into: Option<string>) {
    su.freshSessionAfterInterrupts > 0 && into.Some? ==>
      Interrupted(d.log, role, d.row.batch, d.row.cycle) < su.freshSessionAfterInterrupts
  }

  /** The three ways the code reaches `advanceBatch`; the second clears the pending advance. */
  predicate AdvanceAllowed(d: Durable, pendingAfter: bool) {
    || (Reviewed(d, V.ToNextBatch) && pendingAfter == d.row.advanceAfterResponse)
    || (Implemented(d) && d.row.advanceAfterResponse && !pendingAfter)
    || (&& DecisionIsLast(d.log) && LastDecision(d.log).Some?
        && LastDecision(d.log).value.entry == Decided(Proceed) && LastDecision(d.log).value.batch == d.row.batch
        && pendingAfter == d.row.advanceAfterResponse)
  }

  /** Settling an active run. */
  predicate SettleAllowed(su: Setup, d: Durable, status: Status, pendingAfter: bool) {
    match status
    case Active => false
    case Stopped => pendingAfter == d.row.advanceAfterResponse
    case PausedUnclearVerdict => Reviewed(d, V.Unclear) && pendingAfter == d.row.advanceAfterResponse
    case PausedCycleCap =>
      Reviewed(d, V.ToImplementer) && d.row.cycle >= d.row.maxCycles && pendingAfter == d.row.advanceAfterResponse
    case Complete =>
      || (Reviewed(d, V.ToEnd) && pendingAfter == d.row.advanceAfterResponse)
      || (AdvanceAllowed(d, pendingAfter) && d.row.batch >= su.totalBatches)
  }

  // ---- the durable writes ----

  function Stamp(row: Row, entry: Entry): Event {
    Event(row.batch, row.cycle, entry)
  }

  predicate Noted(d: Durable, d': Durable) {
    d.row.status == Active && d' == d.(log := d.log + [Stamp(d.row, Note)])
  }

  predicate Prompted(su: Setup, d: Durable, d': Durable) {
    && d.row.status == Active
    && |d'.log| == |d.log| + 1
    && var e := d'.log[|d.log|];
    && d' == d.(log := d.log + [e])
    && e.entry.Prompt?
    && e == Stamp(d.row, e.entry)
    && PromptAllowed(su, d, e.entry.role, e.entry.text, e.entry.body)
    && e.entry.into == SlotOf(d.row, e.entry.role).session
    && SessionAllowed(su, d, e.entry.role, e.entry.into)
  }

  /** A blank reply is a failed call and is never logged. */
  predicate Responded(d: Durable, d': Durable) {
    && d.row.status == Active
    && |d'.log| == |d.log| + 1
    && var e := d'.log[|d.log|];
    && d' == d.(log := d.log + [e])
    && e.entry.Response? && !Blank(e.entry.text)
    && e == Stamp(d.row, e.entry)
    && var last := LastExchange(d.log);
    && last.Some? && PromptFor(last.value, e.entry.role, e.batch, e.cycle)
  }

  predicate Activated(d: Durable, d': Durable) {
    && d.row.status !in {Complete, PausedCycleCap}
    && d' == d.(row := d.row.(status := Active))
  }

  predicate Seated(d: Durable, d': Durable) {
    && d.row.status == Active
    && d' == d.(row := d.row.(implementer := d'.row.implementer, reviewer := d'.row.reviewer))
  }

  predicate Recycled(d: Durable, d': Durable) {
    && d.row.status == Active
    && Reviewed(d, V.ToImplementer) && d.row.cycle < d.row.maxCycles
    && d' == d.(row := d.row.(cycle := d.row.cycle + 1))
  }

  predicate Advanced(su: Setup, d: Durable, d': Durable) {
    && d.row.status == Active
    && d.row.batch < su.totalBatches
    && AdvanceAllowed(d, d'.row.advanceAfterResponse)
    && d' == d.(row := d.row.(batch := d.row.batch + 1, cycle := 1,
                              advanceAfterResponse := d'.row.advanceAfterResponse))
  }

  predicate Settled(su: Setup, d: Durable, d': Durable) {
    && d.row.status == Active
    && SettleAllowed(su, d, d'.row.status, d'.row.advanceAfterResponse)
    && d' == d.(row := d.row.(status := d'.row.status, advanceAfterResponse := d'.row.advanceAfterResponse))
  }

  /** The decision transaction: the event and the row in one write. */
  function Decide(d: Durable, decision: Decision): Durable {
    var row := d.row.(status := Active);
    Durable(
      match decision
      case Continue => row.(maxCycles := row.maxCycles + 1, cycle := row.cycle + 1)
      case Accept => row.(advanceAfterResponse := true)
      case Proceed => row,
      d.log + [Stamp(d.row, Decided(decision))],
      d.intent)
  }

  predicate DecidedStep(d: Durable, d': Durable) {
    && d.row.status == PausedCycleCap
    && (d' == Decide(d, Continue) || d' == Decide(d, Accept) || d' == Decide(d, Proceed))
  }

  /** The operator's cell: written and cleared without touching row or log. */
  predicate Intended(d: Durable, d': Durable) {
    d' == d.(intent := d'.intent)
  }

  predicate Next(su: Setup, d: Durable, d': Durable) {
    || Noted(d, d')
    || Prompted(su, d, d')
    || Responded(d, d')
    || Activated(d, d')
    || Seated(d, d')
    || Recycled(d, d')
    || Advanced(su, d, d')
    || Settled(su, d, d')
    || DecidedStep(d, d')
    || Intended(d, d')
  }

  function Initial(su: Setup): Durable {
    var nobody := Slot(None, None);
    Durable(Row(su.maxCycles, su.startBatch, 1, Active, false, nobody, nobody), [], None)
  }

  // ---- runs ----

  predicate Linked(su: Setup, t: seq<Durable>) {
    forall i :: 0 < i < |t| ==> Next(su, t[i - 1], t[i])
  }

  /** A run from the first write on, crashes and resumes included. */
  ghost predicate IsRun(su: Setup, t: seq<Durable>) {
    ValidSetup(su) && |t| > 0 && t[0] == Initial(su) && Linked(su, t)
  }

  lemma ExtendRun(su: Setup, t: seq<Durable>, d: Durable)
    requires IsRun(su, t) && Next(su, t[|t| - 1], d)
    ensures IsRun(su, t + [d])
  {
    var longer := t + [d];
    forall i | 0 < i < |longer|
      ensures Next(su, longer[i - 1], longer[i])
    {
      if i < |t| { assert Next(su, t[i - 1], t[i]); }
    }
  }

  /** Killing the worker after any write leaves a run: no write is needed to make the state good. */
  lemma CrashAnywhere(su: Setup, t: seq<Durable>, k: nat)
    requires IsRun(su, t) && 0 < k <= |t|
    ensures IsRun(su, t[..k])
  {
    forall i | 0 < i < k
      ensures Next(su, t[..k][i - 1], t[..k][i])
    {
      assert Next(su, t[i - 1], t[i]);
    }
  }
}
