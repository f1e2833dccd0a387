/** The worker that drives a run: the loop of the relay, statement by statement.

    `row`, `log` and `intent` are the durable columns; `run` is the worker's copy of the row. Every
    durable write goes through one of the small methods at the top, each of which extends `trace` by
    one `Next` step; a worker killed between two writes leaves `trace` as it stands, and `Restore`
    starts the next worker from there. */
module RelayWorker {
  import opened Wrappers
  import opened Utf16
  import P = Preface
  import V = Verdicts
  import opened RelayProtocol
  import opened RelaySafety
  import opened RelayTheorems
  import RelayDecisions

  datatype CallOutcome = Answered(text: Text, session: Option<string>) | Failed(resumeRefused: bool)

  /** A blank answer is a failed call. */
  predicate Replies(outcome: CallOutcome) {
    outcome.Answered? && !Blank(outcome.text)
  }

  /** How many of the first `n` calls fail. */
  function Failures(outcomes: nat -> CallOutcome, n: nat): nat {
    if n == 0 then 0 else Failures(outcomes, n - 1) + if Replies(outcomes(n - 1)) then 0 else 1
  }

  lemma {:induction false} AllReply(outcomes: nat -> CallOutcome, n: nat, m: nat)
    requires n <= m && forall k: nat :: n <= k < m ==> Replies(outcomes(k))
    ensures Failures(outcomes, m) == Failures(outcomes, n)
  {
    hide Replies;
    if n < m { AllReply(outcomes, n, m - 1); }
  }

  datatype StepOutcome = KeepGoing | Settled | Threw

  /** Two logs that read the same to everything that decides the next step. */
  predicate SameTalk(log: seq<Event>, log': seq<Event>) {
    && Exchanges(log') == Exchanges(log)
    && LastReviewerPrompt(log') == LastReviewerPrompt(log)
    && Decisions(log') == Decisions(log)
    && DecisionIsLast(log') == DecisionIsLast(log)
  }

  predicate SameCounters(row: Row, row': Row) {
    row' == row.(implementer := row'.implementer, reviewer := row'.reviewer)
  }

  // ---- the real bound on calls ----

  function Left(most: nat, spent: nat): nat {
    if spent <= most then most - spent else 0
  }

  /** Answered calls still possible in the batch the row is in. */
  function BudgetInBatch(su: Setup, row: Row, last: Option<Event>): nat {
    var rounds := 2 * Left(row.maxCycles, row.cycle);
    if last.None? || last.value.batch < row.batch then
      rounds + (if Opener(su, row.batch) == Implementer then 2 else 1)
    else
      match last.value.entry
      case Prompt(Implementer, _, _, _) => rounds + 2
      case Prompt(Reviewer, _, _, _) => rounds + 1
      case Response(Implementer, _) => rounds + 1
      case _ => rounds
  }

  /** Answered calls still possible at all. */
  function Budget(su: Setup, row: Row, last: Option<Event>): nat {
    2 * row.maxCycles * Left(su.totalBatches, row.batch) + BudgetInBatch(su, row, last)
  }

  /** An advance spends no call: it only leaves a settled batch. */
  function Phase(row: Row, last: Option<Event>): nat {
    if last.Some? && last.value.batch >= row.batch then 1 else 0
  }

  lemma InBatchAtMost(su: Setup, d: Durable)
    requires Anchored(su, d)
    ensures BudgetInBatch(su, d.row, LastExchange(d.log)) <= 2 * d.row.maxCycles
  {}

  lemma OneMoreBatch(m: nat, k: nat)
    ensures 2 * m * k + 2 * m == 2 * m * (k + 1)
  {}

  lemma BudgetAtMost(su: Setup, d: Durable)
    requires Anchored(su, d)
    ensures BudgetOf(su, d) <= CallBound(d.row.maxCycles, su.totalBatches - d.row.batch + 1)
  {
    InBatchAtMost(su, d);
    assert Left(su.totalBatches, d.row.batch) + 1 == Most(1, su.totalBatches - d.row.batch + 1);
    hide Anchored, BudgetInBatch, Left, Most, LastExchange;
    var m, k := d.row.maxCycles, Left(su.totalBatches, d.row.batch);
    OneMoreBatch(m, k);
    assert BudgetOf(su, d) == 2 * m * k + BudgetInBatch(su, d.row, LastExchange(d.log));
  }

  /** Opening the next batch never buys more calls than were left. */
  lemma AdvanceKeepsBudget(su: Setup, row: Row, row': Row, last: Option<Event>)
    requires row.batch < su.totalBatches && row.maxCycles >= 1
    requires row'.batch == row.batch + 1 && row'.cycle == 1 && row'.maxCycles == row.maxCycles
    requires last.Some? && last.value.batch == row.batch
    ensures Budget(su, row', last) <= Budget(su, row, last)
    ensures Phase(row', last) < Phase(row, last)
  {
    var m, k := row.maxCycles, Left(su.totalBatches, row.batch);
    assert k == Left(su.totalBatches, row'.batch) + 1;
    assert 2 * m * k == 2 * m * (k - 1) + 2 * m;
  }

  // ---- guards survive what does not concern them ----

  lemma PromptStaysAllowed(su: Setup, d: Durable, d': Durable, role: Role, text: Text, body: Body)
    requires PromptAllowed(su, d, role, text, body)
    requires SameTalk(d.log, d'.log) && SameCounters(d.row, d'.row)
    ensures PromptAllowed(su, d', role, text, body)
  {
    hide Exchanges, Decisions, LastReviewerPrompt, DecisionIsLast, V.RouteOf, P.Once, Opener, OpeningBody;
  }

  lemma AdvanceStaysAllowed(d: Durable, d': Durable, pendingAfter: bool)
    requires AdvanceAllowed(d, pendingAfter)
    requires SameTalk(d.log, d'.log) && SameCounters(d.row, d'.row)
    ensures AdvanceAllowed(d', pendingAfter)
  {}

  lemma SettleStaysAllowed(su: Setup, d: Durable, d': Durable, status: Status, pendingAfter: bool)
    requires SettleAllowed(su, d, status, pendingAfter)
    requires SameTalk(d.log, d'.log) && SameCounters(d.row, d'.row)
    ensures SettleAllowed(su, d', status, pendingAfter)
  {
    if AdvanceAllowed(d, pendingAfter) { AdvanceStaysAllowed(d, d', pendingAfter); }
  }

  lemma SessionStaysAllowed(su: Setup, d: Durable, d': Durable, role: Role, into: Option<string>)
    requires SessionAllowed(su, d, role, into) && d'.row == d.row && d'.log == d.log
    ensures SessionAllowed(su, d', role, into)
  {
    hide Interrupted;
  }

  lemma TalkReads(log: seq<Event>, log': seq<Event>)
    requires SameTalk(log, log')
    ensures Exchanges(log') == Exchanges(log) && Decisions(log') == Decisions(log)
  {}

  lemma SameLast(log: seq<Event>, log': seq<Event>)
    requires Exchanges(log') == Exchanges(log)
    ensures LastExchange(log') == LastExchange(log)
  {}

  lemma NoteIsSilent(log: seq<Event>, e: Event)
    requires e.entry.Note?
    ensures SameTalk(log, log + [e])
  {
    Appended(log, e);
  }

  class Relay {
    const su: Setup
    const kinds: (string, string)
    /** What the models do: the outcome of each call of this worker. */
    const outcomes: nat -> CallOutcome

    var row: Row
    var log: seq<Event>
    var intent: Option<PauseIntent>

    var run: Row

    ghost var trace: seq<Durable>
    /** The calls so far. */
    var answered: nat
    var failed: nat
    /** Prompts sent while NEXT_BOUNDARY stands in the cell. */
    ghost var late: nat
    /** The batch the run was in when the cell was last written, and the prompts of any other batch that were
        sent while BATCH_END stands in it. */
    ghost var askedIn: nat
    ghost var overrun: nat
    /** A new batch is written and the cell not yet read. */
    ghost var moving: bool
    /** Operator writes to the cell so far. */
    ghost var meddled: nat
    /** Stop signals that were honoured. */
    ghost var signals: nat
    /** The batches a stopped run was made active in again. */
    ghost var revived: seq<nat>

    ghost function Now(): Durable
      reads this`row, this`log, this`intent
    {
      Durable(row, log, intent)
    }

    ghost predicate Valid()
      reads this`row, this`log, this`intent, this`trace, this`late, this`askedIn, this`overrun, this`moving
      reads this`answered, this`failed
    {
      && IsRun(su, trace) && trace[|trace| - 1] == Now()
      && Inv(su, Now())
      && late <= 1 && (intent != Some(NextBoundary) ==> late == 0)
      && overrun == 0 && (intent == Some(BatchEnd) && !moving ==> row.batch == askedIn)
      && failed == Failures(outcomes, answered + failed)
    }

    constructor Start(su: Setup, kinds: (string, string), outcomes: nat -> CallOutcome)
      requires ValidSetup(su)
      ensures Valid() && !moving && Now() == Initial(su) && run == row && this.su == su && this.kinds == kinds
      ensures this.outcomes == outcomes
    {
      var d := Initial(su);
      InitialInv(su);
      this.su, this.kinds, this.outcomes := su, kinds, outcomes;
      row, log, intent, run := d.row, d.log, d.intent, d.row;
      trace, answered, failed, late, meddled, signals, revived := [d], 0, 0, 0, 0, 0, [];
      askedIn, overrun, moving := d.row.batch, 0, false;
    }

    /** A worker started on whatever an earlier one left behind. */
    constructor Restore(su: Setup, kinds: (string, string), outcomes: nat -> CallOutcome, d: Durable, ghost t: seq<Durable>)
      requires IsRun(su, t) && t[|t| - 1] == d
      ensures Valid() && !moving && Now() == d && run == row && trace == t && this.su == su && this.kinds == kinds
      ensures this.outcomes == outcomes
    {
      this.su, this.kinds, this.outcomes := su, kinds, outcomes;
      row, log, intent, run := d.row, d.log, d.intent, d.row;
      trace, answered, failed, late, meddled, signals, revived := t, 0, 0, 0, 0, 0, [];
      askedIn, overrun, moving := d.row.batch, 0, false;
      new;
      RunInv(su, t, |t| - 1);
    }

    // ---- durable writes ----

    ghost method Record(before: Durable)
      requires IsRun(su, trace) && trace[|trace| - 1] == before && Inv(su, before)
      requires Next(su, before, Now())
      modifies this`trace
      ensures IsRun(su, trace) && trace == old(trace) + [Now()] && Inv(su, Now())
    {
      hide Next, Inv;
      ExtendRun(su, trace, Now());
      NextKeepsInv(su, before, Now());
      trace := trace + [Now()];
    }

    method AppendNote()
      requires Valid() && row.status == Active && run.batch == row.batch && run.cycle == row.cycle
      modifies this`log, this`trace
      ensures Valid() && log == old(log) + [Stamp(run, Note)] && SameTalk(old(log), log)
    {
      hide IsRun, Inv, Prompted, Responded, Activated, Seated, Recycled, Advanced, RelayProtocol.Settled, DecidedStep, Intended;
      ghost var before := Now();
      NoteIsSilent(log, Stamp(run, Note));
      log := log + [Event(run.batch, run.cycle, Note)];
      assert Noted(before, Now());
      Record(before);
    }

    method AppendPrompt(entry: Entry)
      requires !moving && Valid() && row.status == Active && run.batch == row.batch && run.cycle == row.cycle
      requires entry.Prompt? && PromptAllowed(su, Now(), entry.role, entry.text, entry.body)
      requires SessionAllowed(su, Now(), entry.role, entry.into) && entry.into == SlotOf(row, entry.role).session
      requires late == 0
      modifies this`log, this`trace, this`late, this`overrun
      ensures Valid() && log == old(log) + [Stamp(run, entry)]
      ensures Exchanges(log) == Exchanges(old(log)) + [Stamp(run, entry)] && Decisions(log) == Decisions(old(log))
    {
      hide IsRun, Inv, Noted, Responded, Activated, Seated, Recycled, Advanced, RelayProtocol.Settled, DecidedStep, Intended, PromptAllowed, SessionAllowed;
      ghost var before := Now();
      Appended(log, Stamp(run, entry));
      log := log + [Event(run.batch, run.cycle, entry)];
      if intent == Some(NextBoundary) { late := late + 1; }
      overrun := overrun + if intent == Some(BatchEnd) && row.batch != askedIn then 1 else 0;
      assert Prompted(su, before, Now());
      Record(before);
    }

    method AppendResponse(role: Role, text: Text)
      requires Valid() && row.status == Active && run.batch == row.batch && run.cycle == row.cycle
      requires LastExchange(log).Some? && PromptFor(LastExchange(log).value, role, row.batch, row.cycle)
      requires !Blank(text)
      modifies this`log, this`trace
      ensures Valid() && log == old(log) + [Stamp(run, Response(role, text))]
      ensures Exchanges(log) == Exchanges(old(log)) + [Stamp(run, Response(role, text))]
      ensures Decisions(log) == Decisions(old(log)) && !DecisionIsLast(log)
    {
      hide IsRun, Inv, Noted, Prompted, Activated, Seated, Recycled, Advanced, RelayProtocol.Settled, DecidedStep, Intended, Blank;
      hide Exchanges, Decisions, DecisionIsLast;
      ghost var before := Now();
      Appended(log, Stamp(run, Response(role, text)));
      log := log + [Event(run.batch, run.cycle, Response(role, text))];
      assert Responded(before, Now());
      Record(before);
    }

    ghost predicate MayWrite(copy: Row)
      reads this`row, this`log, this`intent
    {
      var d' := Now().(row := copy);
      || Activated(Now(), d') || Seated(Now(), d') || Recycled(Now(), d')
      || Advanced(su, Now(), d') || RelayProtocol.Settled(su, Now(), d')
    }

    /** `updateRun`: the worker's copy becomes the row; the operator's cell is not part of it. */
    method UpdateRun()
      requires Valid() && MayWrite(run) && (moving || run.batch == row.batch)
      modifies this`row, this`trace
      ensures Valid() && row == run
    {
      hide IsRun, Inv, Noted, Prompted, Responded, Activated, Seated, Recycled, Advanced, RelayProtocol.Settled, DecidedStep, Intended;
      ghost var before := Now();
      row := run;
      assert Next(su, before, Now());
      Record(before);
    }

    method WriteIntent(value: Option<PauseIntent>)
      requires Valid()
      modifies this`intent, this`trace, this`late, this`askedIn
      ensures Valid() && intent == value
      ensures value != Some(NextBoundary) || old(intent) != value ==> late == 0
      ensures value == old(intent) ==> late == old(late)
    {
      hide IsRun, Inv, Noted, Prompted, Responded, Activated, Seated, Recycled, Advanced, RelayProtocol.Settled, DecidedStep;
      ghost var before := Now();
      if value != intent { late := 0; }
      intent, askedIn := value, row.batch;
      assert Intended(before, Now());
      Record(before);
    }

    /** The operator may write the cell at any moment; these are the moments that matter. */
    method Operator()
      requires Valid()
      modifies this`intent, this`trace, this`late, this`overrun, this`meddled, this`askedIn
      ensures meddled >= old(meddled)
      ensures Valid() && late <= old(late)
      ensures meddled == old(meddled) ==> intent == old(intent) && late == old(late)
    {
      hide Valid;
      var pauses: bool := *;
      var afterBatch: bool := *;
      if pauses {
        WriteIntent(Some(if afterBatch then BatchEnd else NextBoundary));
        meddled := meddled + 1;
      }
    }

    // ---- one call ----

    function CurrentKind(role: Role): string {
      if role == Implementer then kinds.0 else kinds.1
    }

    /** Any number of notes while a call is in flight. */
    method IdleNotes()
      requires Valid() && row.status == Active && run == row
      modifies this`log, this`trace
      ensures Valid() && SameTalk(old(log), log)
      ensures Exchanges(log) == Exchanges(old(log)) && Decisions(log) == Decisions(old(log))
    {
      hide Valid;
      var many: nat := *;
      while many > 0
        invariant Valid() && SameTalk(old(log), log)
      {
        AppendNote();
        many := many - 1;
      }
    }

    method ClearRoleSession(role: Role)
      requires Valid() && row.status == Active && run == row
      modifies this`row, this`run, this`trace
      ensures Valid() && run == row && SameCounters(old(row), row) && SlotOf(row, role) == Slot(None, None)
    {
      hide Inv;
      var nobody := Slot(None, None);
      if role == Implementer {
        run := run.(implementer := nobody);
      } else {
        run := run.(reviewer := nobody);
      }
      assert Seated(Now(), Now().(row := run));
      UpdateRun();
    }

    /** No retry resumes a conversation that already failed this step often enough. */
    method RetireSessionAfterInterrupts(role: Role)
      requires Valid() && row.status == Active && run == row
      modifies this`row, this`run, this`log, this`trace
      ensures Valid() && run == row && SameCounters(old(row), row) && SameTalk(old(log), log)
      ensures SessionAllowed(su, Now(), role, SlotOf(run, role).session)
      ensures if su.freshSessionAfterInterrupts > 0 && SlotOf(old(row), role).session.Some?
                 && Interrupted(old(log), role, old(row).batch, old(row).cycle) >= su.freshSessionAfterInterrupts
              then SlotOf(row, role) == Slot(None, None)
              else row == old(row) && log == old(log)
    {
      hide Valid;
      var threshold := su.freshSessionAfterInterrupts;
      if threshold == 0 { return; }
      var sessionId := SlotOf(run, role).session;
      if sessionId.None? { return; }
      var failures := Interrupted(log, role, run.batch, run.cycle);
      if failures < threshold { return; }
      ClearRoleSession(role);
      AppendNote();
    }

    /** A session another adapter kind created. */
    static predicate Foreign(slot: Slot, kind: string) {
      slot.session.Some? && slot.kind.Some? && slot.kind.value != kind
    }

    /** A session created by another adapter kind is not resumed. */
    method UsableSession(role: Role) returns (sessionId: Option<string>)
      requires Valid() && row.status == Active && run == row
      requires SessionAllowed(su, Now(), role, SlotOf(run, role).session)
      modifies this`row, this`run, this`log, this`trace
      ensures Valid() && run == row && SameCounters(old(row), row) && SameTalk(old(log), log)
      ensures sessionId == SlotOf(row, role).session
      ensures sessionId == if Foreign(SlotOf(old(row), role), CurrentKind(role)) then None else SlotOf(old(row), role).session
      ensures var slot := if role == Implementer then old(row).implementer else old(row).reviewer;
              var kind := if role == Implementer then kinds.0 else kinds.1;
              sessionId == if slot.session.Some? && slot.kind.Some? && slot.kind.value != kind then None else slot.session
      ensures SessionAllowed(su, Now(), role, sessionId)
    {
      hide Valid;
      sessionId := SlotOf(run, role).session;
      if Foreign(SlotOf(run, role), CurrentKind(role)) {
        AppendNote();
        ClearRoleSession(role);
        sessionId := None;
      }
    }

    /** One model call: the prompt is logged before it is sent, the response when it arrives.
        A refused, failed or empty call leaves the prompt unanswered. */
    method CallRole(role: Role, text: Text, body: Body) returns (reply: Option<Text>, ghost into: Option<string>)
      requires !moving && Valid() && row.status == Active && run == row && late == 0
      requires PromptAllowed(su, Now(), role, text, body)
      requires SessionAllowed(su, Now(), role, SlotOf(run, role).session)
      modifies this`row, this`run, this`log, this`intent, this`trace
      modifies this`answered, this`failed, this`late, this`overrun, this`meddled, this`askedIn
      ensures meddled >= old(meddled) && (meddled == old(meddled) ==> intent == old(intent))
      ensures Valid() && run == row && SameCounters(old(row), row)
      ensures Decisions(log) == Decisions(old(log))
      ensures Exchanges(log) == Exchanges(old(log)) + [Stamp(old(row), Prompt(role, text, body, into))]
              + (if reply.Some? then [Stamp(old(row), Response(role, reply.value))] else [])
      ensures reply.Some? ==> !Blank(reply.value) && answered == old(answered) + 1 && failed == old(failed)
      ensures reply.None? ==> answered == old(answered) && failed == old(failed) + 1
      ensures var outcome := outcomes(old(answered) + old(failed));
              reply == if outcome.Answered? && !Blank(outcome.text) then Some(outcome.text) else None
      ensures into == if Foreign(SlotOf(old(row), role), CurrentKind(role)) then None else SlotOf(old(row), role).session
      ensures exists slot: Slot :: slot.session == into
                             && SlotOf(row, role) == SeatAfter(outcomes(old(answered) + old(failed)), slot, into, CurrentKind(role))
    {
      hide Valid, PromptAllowed, SessionAllowed, SlotOf, SeatAfter, Foreign, Exchanges, Decisions;
      var sessionId := UsableSession(role);
      into := sessionId;
      Send(role, text, body, sessionId, old(Now()));
      hide SameTalk;
      ghost var slot := SlotOf(row, role);
      reply := Receive(role, sessionId);
    }

    method Receive(role: Role, sessionId: Option<string>) returns (reply: Option<Text>)
      requires Valid() && row.status == Active && run == row
      requires LastExchange(log).Some? && PromptFor(LastExchange(log).value, role, row.batch, row.cycle)
      modifies this`row, this`run, this`log, this`intent, this`trace
      modifies this`answered, this`failed, this`late, this`overrun, this`meddled, this`askedIn
      ensures meddled >= old(meddled) && (meddled == old(meddled) ==> intent == old(intent))
      ensures Valid() && run == row && SameCounters(old(row), row)
      ensures Decisions(log) == Decisions(old(log))
      ensures Exchanges(log) == Exchanges(old(log))
              + (if reply.Some? then [Stamp(old(row), Response(role, reply.value))] else [])
      ensures reply.Some? ==> !Blank(reply.value) && answered == old(answered) + 1 && failed == old(failed)
      ensures reply.None? ==> answered == old(answered) && failed == old(failed) + 1
      ensures var outcome := outcomes(old(answered) + old(failed));
              && reply == (if outcome.Answered? && !Blank(outcome.text) then Some(outcome.text) else None)
              && SlotOf(row, role) == SeatAfter(outcome, SlotOf(old(row), role), sessionId, CurrentKind(role))
    {
      hide Valid, SlotOf, Blank, SameTalk, LastExchange, Exchanges, Decisions;
      ghost var before := log;
      Operator();
      IdleNotes();
      SameLast(before, log);
      var outcome := outcomes(answered + failed);
      if !outcome.Answered? || Blank(outcome.text) {
        CountFailed();
        Unanswered(role, outcome, sessionId);
        return None;
      }
      AppendResponse(role, outcome.text);
      Seat(role, if outcome.session.Some? then outcome.session else sessionId);
      CountAnswered();
      return Some(outcome.text);
    }

    /** The session a role is left with by a call that was sent into `sessionId`: the one that answered, none after a
        refused resume, and otherwise the one it had. */
    static function SeatAfter(outcome: CallOutcome, slot: Slot, sessionId: Option<string>, kind: string): Slot {
      if outcome.Answered? && !Blank(outcome.text) then
        var session := if outcome.session.Some? then outcome.session else sessionId;
        Slot(session, if session.None? then None else Some(kind))
      else if outcome.Failed? && outcome.resumeRefused && sessionId.Some? then Slot(None, None)
      else slot
    }

    method CountFailed()
      requires Valid() && !Replies(outcomes(answered + failed))
      modifies this`failed
      ensures Valid() && failed == old(failed) + 1
    {
      hide IsRun, Inv, Replies;
      failed := failed + 1;
    }

    method CountAnswered()
      requires Valid() && Replies(outcomes(answered + failed))
      modifies this`answered
      ensures Valid() && answered == old(answered) + 1
    {
      hide IsRun, Inv, Replies;
      answered := answered + 1;
    }

    /** A refused resume clears the stored session, so that the next attempt starts fresh. */
    method Unanswered(role: Role, outcome: CallOutcome, sessionId: Option<string>)
      requires Valid() && row.status == Active && run == row
      modifies this`row, this`run, this`log, this`trace
      ensures Valid() && run == row && SameCounters(old(row), row)
      ensures Exchanges(log) == Exchanges(old(log)) && Decisions(log) == Decisions(old(log))
      ensures SlotOf(row, role) == if outcome.Failed? && outcome.resumeRefused && sessionId.Some? then Slot(None, None)
                                   else SlotOf(old(row), role)
    {
      hide Valid;
      if outcome.Failed? && outcome.resumeRefused && sessionId.Some? {
        ClearRoleSession(role);
        AppendNote();
      }
    }

    method Send(role: Role, text: Text, body: Body, into: Option<string>, ghost before: Durable)
      requires !moving && Valid() && row.status == Active && run == row && late == 0
      requires PromptAllowed(su, before, role, text, body)
      requires SameTalk(before.log, log) && SameCounters(before.row, row)
      requires SessionAllowed(su, Now(), role, into) && into == SlotOf(row, role).session
      modifies this`log, this`intent, this`trace, this`late, this`overrun, this`meddled, this`askedIn
      ensures meddled >= old(meddled) && (meddled == old(meddled) ==> intent == old(intent))
      ensures Valid() && log == old(log) + [Stamp(old(row), Prompt(role, text, body, into))]
      ensures Exchanges(log) == Exchanges(before.log) + [Stamp(old(row), Prompt(role, text, body, into))]
      ensures Decisions(log) == Decisions(before.log)
    {
      hide Valid, PromptAllowed, SessionAllowed, SameCounters, Exchanges, Decisions;
      Operator();
      PromptStaysAllowed(su, before, Now(), role, text, body);
      SessionStaysAllowed(su, old(Now()), Now(), role, into);
      TalkReads(before.log, log);
      hide SameTalk;
      AppendPrompt(Prompt(role, text, body, into));
    }

    /** The session a call answered in becomes the role's stored session. */
    method Seat(role: Role, session: Option<string>)
      requires Valid() && row.status == Active && run == row
      modifies this`row, this`run, this`trace
      ensures Valid() && run == row && SameCounters(old(row), row)
      ensures SlotOf(row, role) == Slot(session, if session.None? then None else Some(CurrentKind(role)))
      ensures role == Implementer && session.Some? ==> row.implementer == Slot(session, Some(kinds.0))
      ensures role == Reviewer && session.Some? ==> row.reviewer == Slot(session, Some(kinds.1))
    {
      hide Inv;
      var slot := Slot(session, if session.None? then None else Some(CurrentKind(role)));
      if role == Implementer {
        run := run.(implementer := slot);
      } else {
        run := run.(reviewer := slot);
      }
      assert Seated(Now(), Now().(row := run));
      UpdateRun();
    }

    // ---- the loop ----

    /** Settles an active run: the note first, then the row. */
    method Pause(status: Status)
      requires Valid() && row.status == Active
      requires run == row.(advanceAfterResponse := run.advanceAfterResponse)
      requires SettleAllowed(su, Now(), status, run.advanceAfterResponse)
      modifies this`row, this`run, this`log, this`trace
      ensures Valid() && run == row
      ensures row == old(row).(status := status, advanceAfterResponse := old(run.advanceAfterResponse))
      ensures SameTalk(old(log), log)
    {
      hide Valid, SettleAllowed;
      ghost var before := Now();
      run := run.(status := status);
      AppendNote();
      SettleStaysAllowed(su, before, Now(), status, run.advanceAfterResponse);
      assert status != Active by { SettlingLeavesActive(su, before, status, run.advanceAfterResponse); }
      assert RelayProtocol.Settled(su, Now(), Now().(row := run));
      UpdateRun();
    }

    /** Leaves the batch: completes the run on the last one, otherwise moves to the next and stops
        there if the operator asked for that. `seen` is what the pause cell held when it was read. */
    method AdvanceBatch() returns (go: bool, ghost seen: Option<PauseIntent>)
      requires !moving && Valid() && row.status == Active
      requires run == row.(advanceAfterResponse := run.advanceAfterResponse)
      requires AdvanceAllowed(Now(), run.advanceAfterResponse)
      modifies this`moving, this`row, this`run, this`log, this`intent, this`trace, this`late, this`overrun, this`meddled, this`askedIn
      ensures !moving
      ensures meddled >= old(meddled)
      ensures Valid() && run == row
      ensures SameTalk(old(log), log)
      ensures row.advanceAfterResponse == old(run.advanceAfterResponse)
      ensures old(row.batch) >= su.totalBatches ==>
                !go && row == old(row).(status := Complete, advanceAfterResponse := row.advanceAfterResponse)
      ensures old(row.batch) < su.totalBatches ==>
                && row == old(row).(batch := old(row.batch) + 1, cycle := 1, advanceAfterResponse := row.advanceAfterResponse,
                                    status := if go then Active else Stopped)
                && (go <==> seen != Some(BatchEnd))
                && (!go ==> intent == None)
      ensures meddled == old(meddled) ==> seen == old(intent)
      ensures old(row.batch) >= su.totalBatches || go ==> intent == seen
      ensures late <= old(late)
    {
      hide Valid, AdvanceAllowed;
      seen := intent;
      if run.batch >= su.totalBatches {
        assert SettleAllowed(su, Now(), Complete, run.advanceAfterResponse);
        Pause(Complete);
        return false, seen;
      }
      MoveOn();
      Operator();
      seen := intent;
      if intent == Some(BatchEnd) {
        WriteIntent(None);
        Reads();
        Pause(Stopped);
        return false, seen;
      }
      Reads();
      return true, seen;
    }

    ghost method Departs()
      requires Valid()
      modifies this`moving
      ensures Valid() && moving
    {
      hide IsRun, Inv;
      moving := true;
    }

    /** The cell was read after the advance. */
    ghost method Reads()
      requires Valid() && intent != Some(BatchEnd)
      modifies this`moving
      ensures Valid() && !moving
    {
      hide IsRun, Inv;
      moving := false;
    }

    method MoveOn()
      requires Valid() && row.status == Active && row.batch < su.totalBatches
      requires run == row.(advanceAfterResponse := run.advanceAfterResponse)
      requires AdvanceAllowed(Now(), run.advanceAfterResponse)
      modifies this`moving, this`row, this`run, this`log, this`trace
      ensures moving && Valid() && run == row && SameTalk(old(log), log)
      ensures row == old(row).(batch := old(row.batch) + 1, cycle := 1, advanceAfterResponse := old(run.advanceAfterResponse))
    {
      hide Valid, AdvanceAllowed;
      Departs();
      run := run.(batch := run.batch + 1, cycle := 1);
      assert Advanced(su, Now(), Now().(row := run));
      UpdateRun();
      AppendNote();
    }

    ghost function Here(): Mark
      reads this`row, this`log, this`intent, this`answered, this`failed, this`meddled
    {
      Mark(Now(), answered, failed, meddled)
    }

    /** A batch opens at the implementer, or at the reviewer when its work is already there. */
    method OpenBatch(afterAccept: bool) returns (outcome: StepOutcome)
      requires !moving && Valid() && row.status == Active && run == row && late == 0
      requires var last := LastExchange(log);
               if afterAccept then last.Some? && last.value.batch < row.batch else last.None?
      modifies this`row, this`run, this`log, this`intent, this`trace
      modifies this`answered, this`failed, this`late, this`overrun, this`meddled, this`askedIn
      ensures Heeded(old(Here()), Here())
      ensures Valid() && run == row && outcome != StepOutcome.Settled && Stepped(su, old(Here()), Here(), outcome)
      ensures var body := OpeningBody(su, old(row.batch), afterAccept);
              Asked(old(log), log, old(row), Opener(su, old(row.batch)), su.prose(body), body)
    {
      ghost var before := Here();
      OpeningAllowed(afterAccept);
      hide Valid, PromptAllowed, SessionAllowed, BudgetOf, Price, Stepped, Heeded, Asked, Exchanges, Decisions;
      var role := if su.reviewFrom.Some? && run.batch >= su.reviewFrom.value then Reviewer else Implementer;
      var body := if role == Reviewer then ReviewOnly(run.batch) else ImplementBatch(run.batch, afterAccept);
      var reply, into := CallRole(role, su.prose(body), body);
      CallSteps(su, before, before.d.row, Here(), Prompt(role, su.prose(body), body, into), reply);
      CallHeeds(before, Here());
      CallAsks(before, before.d.row, Here(), Prompt(role, su.prose(body), body, into), reply);
      outcome := if reply.Some? then KeepGoing else Threw;
    }

    lemma OpeningAllowed(afterAccept: bool)
      requires Valid()
      requires var last := LastExchange(log);
               if afterAccept then last.Some? && last.value.batch < row.batch else last.None?
      ensures var role, body := Opener(su, row.batch), OpeningBody(su, row.batch, afterAccept);
              && PromptAllowed(su, Now(), role, su.prose(body), body)
              && SessionAllowed(su, Now(), role, SlotOf(row, role).session)
              && BudgetOf(su, Now()) >= 2 * row.maxCycles * Left(su.totalBatches, row.batch) + Price(row, role)
    {
      hide IsRun;
      OpeningIsFresh(su, Now(), Opener(su, row.batch), SlotOf(row, Opener(su, row.batch)).session);
      hide Inv, SessionAllowed;
    }

    /** A prompt with no reply: re-sent with one preface, in a fresh session if need be. */
    method ResendInterrupted(asked: Role, sent: Text, body: Body) returns (outcome: StepOutcome)
      requires !moving && Valid() && row.status == Active && run == row && late == 0
      requires LastExchange(log).Some? && LastExchange(log).value.batch == row.batch
      requires LastExchange(log).value.entry.Prompt? && LastExchange(log).value.entry.text == sent
      requires LastExchange(log).value.entry.role == asked && LastExchange(log).value.entry.body == body
      modifies this`row, this`run, this`log, this`intent, this`trace
      modifies this`answered, this`failed, this`late, this`overrun, this`meddled, this`askedIn
      ensures Valid() && run == row && outcome != StepOutcome.Settled && Stepped(su, old(Here()), Here(), outcome)
      ensures Heeded(old(Here()), Here())
      ensures Asked(old(log), log, old(row), asked, P.Once(sent, su.preface), body)
    {
      ghost var before := Here();
      var text := P.Resend(sent, su.preface);
      ResendAllowed(asked, text, body);
      hide Valid, PromptAllowed, SessionAllowed, BudgetOf, Price, Stepped, Heeded, Asked, P.Once, Exchanges, Decisions;
      RetireSessionAfterInterrupts(asked);
      PromptStaysAllowed(su, before.d, Now(), asked, text, body);
      ghost var middle := row;
      hide SlotOf;
      var reply, into := CallRole(asked, text, body);
      PriceIsSame(before.d.row, middle, asked);
      CallSteps(su, before, middle, Here(), Prompt(asked, text, body, into), reply);
      CallHeeds(before, Here());
      CallAsks(before, middle, Here(), Prompt(asked, text, body, into), reply);
      outcome := if reply.Some? then KeepGoing else Threw;
    }

    lemma ResendAllowed(asked: Role, text: Text, body: Body)
      requires LastExchange(log).Some? && LastExchange(log).value.batch == row.batch
      requires var last := LastExchange(log).value.entry;
               last.Prompt? && last.role == asked && last.body == body && text == P.Once(last.text, su.preface)
      ensures PromptAllowed(su, Now(), asked, text, body)
      ensures BudgetOf(su, Now()) >= 2 * row.maxCycles * Left(su.totalBatches, row.batch) + Price(row, asked)
    {
      hide P.Once;
    }

    /** An implementer reply: the pending advance, or the reviewer. */
    method AfterImplementer(summary: Text) returns (outcome: StepOutcome)
      requires !moving && Valid() && row.status == Active && run == row && late == 0
      requires LastExchange(log).Some? && LastExchange(log).value.batch == row.batch
      requires LastExchange(log).value.entry == Response(Implementer, summary)
      modifies this`moving, this`row, this`run, this`log, this`intent, this`trace
      modifies this`answered, this`failed, this`late, this`overrun, this`meddled, this`askedIn
      ensures !moving
      ensures Heeded(old(Here()), Here())
      ensures Valid() && run == row && Stepped(su, old(Here()), Here(), outcome)
    {
      ghost var before := Here();
      if run.advanceAfterResponse {
        ReplyCloses();
        hide Valid, AdvanceAllowed, Stepped, Heeded;
        run := run.(advanceAfterResponse := false);
        outcome := Leave(before);
        return;
      }
      outcome := ToReviewer(summary);
    }

    /** The summary goes to the reviewer. */
    method ToReviewer(summary: Text) returns (outcome: StepOutcome)
      requires !moving && Valid() && row.status == Active && run == row && late == 0
      requires LastExchange(log).Some? && LastExchange(log).value.batch == row.batch
      requires LastExchange(log).value.entry == Response(Implementer, summary) && !row.advanceAfterResponse
      modifies this`row, this`run, this`log, this`intent, this`trace
      modifies this`answered, this`failed, this`late, this`overrun, this`meddled, this`askedIn
      ensures Valid() && run == row && Stepped(su, old(Here()), Here(), outcome)
      ensures Heeded(old(Here()), Here())
    {
      ghost var before := Here();
      var body := ReviewSummary(run.batch, summary);
      ReviewAllowed(summary);
      hide Valid, PromptAllowed, SessionAllowed, BudgetOf, Price, Stepped, Heeded;
      var reply, into := CallRole(Reviewer, su.prose(body), body);
      CallSteps(su, before, before.d.row, Here(), Prompt(Reviewer, su.prose(body), body, into), reply);
      CallHeeds(before, Here());
      outcome := if reply.Some? then KeepGoing else Threw;
    }

    lemma ReplyCloses()
      requires Valid() && LastExchange(log).Some? && LastExchange(log).value.batch == row.batch
      requires LastExchange(log).value.entry.Response? && LastExchange(log).value.entry.role == Implementer
      requires row.advanceAfterResponse
      ensures AdvanceAllowed(Now(), false) && 1 <= row.cycle <= row.maxCycles
    {
      hide IsRun;
    }

    lemma ReviewAllowed(summary: Text)
      requires Valid() && LastExchange(log).Some? && LastExchange(log).value.batch == row.batch
      requires LastExchange(log).value.entry == Response(Implementer, summary) && !row.advanceAfterResponse
      ensures var body := ReviewSummary(row.batch, summary); PromptAllowed(su, Now(), Reviewer, su.prose(body), body)
      ensures SessionAllowed(su, Now(), Reviewer, SlotOf(row, Reviewer).session)
      ensures BudgetOf(su, Now()) >= 2 * row.maxCycles * Left(su.totalBatches, row.batch) + Price(row, Reviewer)
    {
      hide IsRun;
      AnsweredStepIsFresh(su, Now(), Reviewer, SlotOf(row, Reviewer).session);
      hide Inv, SessionAllowed;
    }

    /** `return advanceBatch(...)`, as a step. */
    method Leave(ghost before: Mark) returns (outcome: StepOutcome)
      requires !moving && Valid() && row.status == Active && before == Here()
      requires run == row.(advanceAfterResponse := run.advanceAfterResponse)
      requires AdvanceAllowed(Now(), run.advanceAfterResponse)
      requires LastExchange(log).Some? && LastExchange(log).value.batch == row.batch
      requires 1 <= row.cycle <= row.maxCycles
      requires late == 0
      modifies this`moving, this`row, this`run, this`log, this`intent, this`trace, this`late, this`overrun, this`meddled, this`askedIn
      ensures !moving
      ensures Heeded(before, Here())
      ensures Valid() && run == row && Stepped(su, before, Here(), outcome)
      ensures outcome.Settled? ==> row.status == (if old(row.batch) >= su.totalBatches then Complete else Stopped)
    {
      hide Valid, AdvanceAllowed;
      var go, seen := AdvanceBatch();
      outcome := if go then KeepGoing else StepOutcome.Settled;
      LeavingSteps(su, before, Here(), outcome);
      LeavingHeeds(su, before, Here(), seen);
    }

    /** A pause decided from the reviewer's reply, as a step. */
    method Hold(status: Status) returns (outcome: StepOutcome)
      requires Valid() && row.status == Active && run == row
      requires status in {PausedCycleCap, PausedUnclearVerdict, Complete}
      requires SettleAllowed(su, Now(), status, run.advanceAfterResponse)
      modifies this`row, this`run, this`log, this`trace
      ensures Valid() && run == row && outcome.Settled? && Stepped(su, old(Here()), Here(), outcome)
      ensures Heeded(old(Here()), Here())
      ensures row == old(row).(status := status)
    {
      ghost var before := Here();
      hide Valid, SettleAllowed;
      Pause(status);
      outcome := StepOutcome.Settled;
      assert Exchanges(log)[..|Exchanges(before.d.log)|] == Exchanges(before.d.log);
    }

    /** The next fix cycle: counted first, then sent. */
    method StartFixCycle(review: Text) returns (outcome: StepOutcome)
      requires !moving && Valid() && row.status == Active && run == row && late == 0
      requires Reviewed(Now(), V.ToImplementer) && row.cycle < row.maxCycles
      requires LastExchange(log).Some? && LastExchange(log).value.batch == row.batch
      requires LastExchange(log).value.entry == Response(Reviewer, review)
      modifies this`row, this`run, this`log, this`intent, this`trace
      modifies this`answered, this`failed, this`late, this`overrun, this`meddled, this`askedIn
      ensures Heeded(old(Here()), Here())
      ensures Valid() && run == row && !outcome.Settled? && Stepped(su, old(Here()), Here(), outcome)
      ensures row.cycle == old(row.cycle) + 1
    {
      hide Valid, PromptAllowed, SessionAllowed, Reviewed, BudgetOf, Price, Stepped;
      ghost var before := Here();
      ghost var middle := row.(cycle := row.cycle + 1);
      AllowedFix(review);
      Recycle();
      var body := ApplyFixes(run.batch, review);
      var reply, into := CallRole(Implementer, su.prose(body), body);
      CallSteps(su, before, middle, Here(), Prompt(Implementer, su.prose(body), body, into), reply);
      CallHeeds(before, Here());
      outcome := if reply.Some? then KeepGoing else Threw;
    }

    lemma AllowedFix(review: Text)
      requires Valid() && Reviewed(Now(), V.ToImplementer) && row.cycle < row.maxCycles
      requires LastExchange(log).Some? && LastExchange(log).value.entry == Response(Reviewer, review)
      ensures var d' := Now().(row := row.(cycle := row.cycle + 1));
              && PromptAllowed(su, d', Implementer, su.prose(ApplyFixes(row.batch, review)), ApplyFixes(row.batch, review))
              && SessionAllowed(su, d', Implementer, SlotOf(row, Implementer).session)
      ensures BudgetOf(su, Now()) ==
              2 * row.maxCycles * Left(su.totalBatches, row.batch) + Price(row.(cycle := row.cycle + 1), Implementer)
    {
      hide IsRun;
      FixIsAllowed(su, Now(), review, SlotOf(row, Implementer).session);
      FixBudget(su, Now());
    }

    method Recycle()
      requires Valid() && row.status == Active && run == row
      requires Reviewed(Now(), V.ToImplementer) && row.cycle < row.maxCycles
      modifies this`row, this`run, this`trace
      ensures Valid() && run == row && row == old(row).(cycle := old(row.cycle) + 1)
    {
      hide Valid, Reviewed;
      run := run.(cycle := run.cycle + 1);
      assert Recycled(Now(), Now().(row := run));
      UpdateRun();
    }

    /** An advancing verdict with findings enough. */
    method Accepted(verdict: V.Verdict) returns (outcome: StepOutcome)
      requires !moving && Valid() && row.status == Active && run == row && late == 0
      requires LastExchange(log).Some? && LastExchange(log).value.batch == row.batch
      requires 1 <= row.cycle <= row.maxCycles
      requires (verdict == V.Complete && Reviewed(Now(), V.ToEnd)) || (verdict == V.Proceed && Reviewed(Now(), V.ToNextBatch))
      modifies this`moving, this`row, this`run, this`log, this`intent, this`trace, this`late, this`overrun, this`meddled, this`askedIn
      ensures !moving
      ensures Heeded(old(Here()), Here())
      ensures Valid() && run == row && Stepped(su, old(Here()), Here(), outcome)
      ensures verdict == V.Complete ==> outcome.Settled? && row.status == Complete
      ensures verdict == V.Proceed && outcome.Settled? ==> row.status in {Complete, Stopped}
    {
      hide Valid, Stepped, SettleAllowed, AdvanceAllowed;
      ReviewAllows(su, Now());
      hide Reviewed;
      if verdict == V.Complete {
        outcome := Hold(Complete);
      } else {
        outcome := Leave(Here());
      }
    }

    /** The log-only warning about a review far below this reviewer's own length. */
    method EarlyWarning(ghost route: V.Route)
      requires Valid() && row.status == Active && run == row && Reviewed(Now(), route)
      modifies this`log, this`trace
      ensures Valid() && Reviewed(Now(), route)
      ensures Exchanges(log) == Exchanges(old(log)) && Decisions(log) == Decisions(old(log))
    {
      hide Valid;
      IdleNotes();
    }

    lemma Routed()
      requires Valid() && LastExchange(log).Some? && LastExchange(log).value.batch == row.batch
      requires LastExchange(log).value.entry.Response? && LastExchange(log).value.entry.role == Reviewer
      ensures Reviewed(Now(), V.RouteOf(LastExchange(log).value.entry.text))
      ensures 1 <= row.cycle <= row.maxCycles
    {
      ReviewIsRouted(su, Now());
    }

    /** PROCEED or COMPLETE: accepted only with findings attached. */
    method AfterAdvancingVerdict(verdict: V.Verdict, text: Text) returns (outcome: StepOutcome)
      requires !moving && Valid() && row.status == Active && run == row && late == 0
      requires LastExchange(log).Some? && LastExchange(log).value.batch == row.batch
      requires 1 <= row.cycle <= row.maxCycles
      requires verdict != V.Fix && V.VerdictOf(text) == Some(verdict) && Reviewed(Now(), V.RouteOf(text))
      modifies this`moving, this`row, this`run, this`log, this`intent, this`trace, this`late, this`overrun, this`meddled, this`askedIn
      ensures !moving
      ensures Heeded(old(Here()), Here())
      ensures Valid() && run == row && Stepped(su, old(Here()), Here(), outcome)
      ensures outcome.Settled? ==> row.status in RestingStatuses(V.RouteOf(text))
    {
      hide Valid, Stepped, Reviewed, SettleAllowed, V.FindingsOf, V.VerdictOf;
      ReviewAllows(su, Now());
      var findings := V.FindingsOf(text);
      if |findings| < V.REVIEW_FINDINGS_FLOOR {
        outcome := Hold(PausedUnclearVerdict);
        return;
      }
      ghost var before := Here();
      EarlyWarning(V.RouteOf(text));
      ghost var noted := Here();
      outcome := Accepted(verdict);
      SteppedFromNotes(su, before, noted, Here(), outcome);
      HeededFrom(before, noted, Here());
    }

    /** A reviewer reply: the only routing decision in the system. */
    method AfterReviewer(text: Text) returns (outcome: StepOutcome)
      requires !moving && Valid() && row.status == Active && run == row && late == 0
      requires LastExchange(log).Some? && LastExchange(log).value.batch == row.batch
      requires LastExchange(log).value.entry == Response(Reviewer, text)
      modifies this`moving, this`row, this`run, this`log, this`intent, this`trace
      modifies this`answered, this`failed, this`late, this`overrun, this`meddled, this`askedIn
      ensures !moving
      ensures Heeded(old(Here()), Here())
      ensures Valid() && run == row && Stepped(su, old(Here()), Here(), outcome)
      ensures outcome.Settled? ==> row.status in RestingStatuses(V.RouteOf(text))
    {
      hide Valid, Reviewed, Stepped, SettleAllowed, V.FindingsOf, V.VerdictOf;
      Routed();
      ReviewAllows(su, Now());
      var verdict := V.ParseVerdict(text);
      if verdict.None? {
        outcome := Hold(PausedUnclearVerdict);
        return;
      }
      if verdict.value != V.Fix {
        outcome := AfterAdvancingVerdict(verdict.value, text);
        return;
      }
      if run.cycle >= run.maxCycles {
        outcome := Hold(PausedCycleCap);
        return;
      }
      outcome := StartFixCycle(text);
    }

    /** One step: look at the last logged exchange and do the single thing it implies. */
    method Step() returns (outcome: StepOutcome)
      requires !moving && Valid() && row.status == Active && run == row && late == 0
      requires LastExchange(log).Some? ==> LastExchange(log).value.batch >= row.batch
      modifies this`moving, this`row, this`run, this`log, this`intent, this`trace
      modifies this`answered, this`failed, this`late, this`overrun, this`meddled, this`askedIn
      ensures !moving
      ensures Heeded(old(Here()), Here())
      ensures Valid() && run == row && Stepped(su, old(Here()), Here(), outcome)
    {
      LastIsCurrent(su, Now());
      hide Valid, Stepped;
      var last := LastExchange(log);
      if last.None? {
        outcome := OpenBatch(false);
        return;
      }
      match last.value.entry
      case Prompt(role, sent, body, _) =>
        outcome := ResendInterrupted(role, sent, body);
      case Response(Implementer, text) =>
        outcome := AfterImplementer(text);
      case Response(Reviewer, text) =>
        outcome := AfterReviewer(text);
    }

    /** The boundary between calls, where an operator's stop is honoured, and one step. */
    method Pass() returns (outcome: StepOutcome)
      requires !moving && Valid() && run == row && row.status == Active
      modifies this`moving, this`row, this`run, this`log, this`intent, this`trace, this`signals
      modifies this`answered, this`failed, this`late, this`overrun, this`meddled, this`askedIn
      ensures !moving
      ensures Heeded(old(Here()), Here())
      ensures Valid() && run == row && Passed(su, old(Here()), Here(), outcome)
      ensures meddled == old(meddled) && old(intent) == Some(NextBoundary) ==>
                outcome.Settled? && StoppedAtOnce(old(Now()), Now())
      ensures signals >= old(signals) && (signals == old(signals) ==> Unforced(old(Here()), Here()))
      ensures signals > old(signals) ==> outcome.Settled? && StoppedAtOnce(old(Now()), Now())
    {
      hide Valid, Stepped, Passed, Exchanges, Decisions;
      ghost var top := Here();
      var stopRequested: bool := *;
      if stopRequested {
        signals := signals + 1;
        Stop();
        return StepOutcome.Settled;
      }
      Operator();
      ghost var middle := Here();
      if intent == Some(NextBoundary) {
        WriteIntent(None);
        ghost var cleared := Here();
        Stop();
        outcome := StepOutcome.Settled;
        IntentIsFree(su, top, cleared, Here(), outcome);
        return;
      }
      NotLate();
      outcome := Turn();
      IntentIsFree(su, top, middle, Here(), outcome);
      HeededFrom(top, middle, Here());
      UnforcedFrom(top, middle, Here());
    }

    /** A new batch's first prompt, or whatever the last exchange implies. */
    method Turn() returns (outcome: StepOutcome)
      requires !moving && Valid() && run == row && row.status == Active && late == 0
      modifies this`moving, this`row, this`run, this`log, this`intent, this`trace
      modifies this`answered, this`failed, this`late, this`overrun, this`meddled, this`askedIn
      ensures !moving
      ensures Heeded(old(Here()), Here()) && Unforced(old(Here()), Here())
      ensures Valid() && run == row && Passed(su, old(Here()), Here(), outcome)
    {
      hide Valid, Stepped;
      var last := LastExchange(log);
      if last.Some? && last.value.batch < run.batch {
        outcome := OpenBatch(true);
      } else {
        outcome := Step();
      }
      hide Passed, BudgetOf, Unforced;
      SteppingPasses(su, old(Here()), Here(), outcome);
    }

    /** One pass of the loop. It ends settled, or with the one call that failed. */
    method RunLoopOnce() returns (settled: bool)
      requires !moving && Valid() && run == row && row.status !in {Complete, PausedCycleCap}
      modifies this`moving, this`row, this`run, this`log, this`intent, this`trace, this`revived, this`signals
      modifies this`answered, this`failed, this`late, this`overrun, this`meddled, this`askedIn
      ensures !moving
      ensures Heeded(old(Here()), Here()) && meddled >= old(meddled)
      ensures signals >= old(signals) && (signals == old(signals) ==> Unforced(old(Here()), Here()))
      ensures meddled == old(meddled) && old(intent) == Some(NextBoundary) ==> settled && StoppedAtOnce(old(Now()), Now())
      ensures Valid() && run == row
      ensures settled <==> row.status != Active
      ensures Spent(su, old(Here()), Here(), if settled then 0 else 1)
      ensures revived == old(revived) + Revived(old(row))
    {
      hide Valid;
      Activate();
      var outcome := KeepGoing;
      hide BudgetOf, Phase, Heeded, Spent, Unforced;
      ghost var start := Here();
      ActivationIsFree(su, old(Here()), start);
      while outcome.KeepGoing?
        invariant !moving && Valid() && run == row
        invariant row.status == Active <==> !outcome.Settled?
        invariant Heeded(start, Here()) && meddled >= start.meddled
        invariant signals >= old(signals) && (signals == old(signals) ==> Unforced(start, Here()))
        invariant revived == old(revived) + Revived(old(row))
        invariant meddled == start.meddled && start.d.intent == Some(NextBoundary) ==>
                    if outcome.KeepGoing? then Now() == start.d else outcome.Settled? && StoppedAtOnce(start.d, Now())
        invariant Spent(su, start, Here(), if outcome.Threw? then 1 else 0)
        decreases outcome.KeepGoing?, BudgetOf(su, Now()), Phase(row, LastExchange(log))
      {
        ghost var top := Here();
        outcome := Pass();
        HeededLater(start, top, Here());
        if signals == old(signals) { UnforcedLater(start, top, Here()); }
        PassedAdds(su, start, top, Here(), outcome);
      }
      settled := outcome.Settled?;
      ActivatedFrom(su, old(Here()), start, Here(), if settled then 0 else 1);
      ActivatedUnforced(old(Here()), start, Here());
    }

    /** The retry loop. A worker makes no more answered calls than the budget the run had, and no
        more failed ones than it may retry. An operator's pause that nobody overwrites ends it: at once, or
        at the end of the batch. */
    method RunLoop()
      requires !moving && Valid() && run == row && row.status !in {Complete, PausedCycleCap}
      modifies this`moving, this`row, this`run, this`log, this`intent, this`trace, this`revived, this`signals
      modifies this`answered, this`failed, this`late, this`overrun, this`meddled, this`askedIn
      ensures !moving
      ensures Valid() && run == row && row.status != Active
      ensures Talked(old(Here()), Here())
      ensures row.status != Stopped ==> Rested(su, Now()) && failed - old(failed) < Most(1, su.retryAttempts)
      ensures failed - old(failed) == Failures(outcomes, answered + failed) - Failures(outcomes, old(answered) + old(failed))
      ensures signals >= old(signals)
      ensures signals == old(signals) && meddled == old(meddled) && old(intent) != Some(NextBoundary) && row.status == Stopped ==>
                || failed - old(failed) == Most(1, su.retryAttempts)
                || (old(intent) == Some(BatchEnd) && StoppedAtNext(old(row.batch), Now()))
      ensures Decisions(log) == Decisions(old(log))
      ensures answered - old(answered) <= CallBound(old(row.maxCycles), su.totalBatches - old(row.batch) + 1)
      ensures failed - old(failed) <= Most(1, su.retryAttempts)
      ensures Heeded(old(Here()), Here())
      ensures meddled == old(meddled) && old(intent) == Some(NextBoundary) ==> StoppedAtOnce(old(Now()), Now())
      ensures meddled == old(meddled) && old(intent) == Some(BatchEnd) ==>
                row.batch == old(row.batch) || StoppedAtNext(old(row.batch), Now())
      ensures revived == old(revived) + Revived(old(row))
    {
      hide Valid, BudgetOf, Heeded, CallBound, StoppedAtOnce, StoppedAtNext, Revived, Talked, Rested, LoopEnds;
      hide Exchanges, Decisions, Failures;
      Tally();
      WithinBudget();
      ghost var unsignalled := Attempts();
      LoopEndsMeans(su, old(Here()), Here(), unsignalled);
      RestsWithEvidence();
      Tally();
    }

    /** The attempts themselves, one pass of the loop each. */
    method Attempts() returns (ghost unsignalled: bool)
      requires !moving && Valid() && run == row && row.status !in {Complete, PausedCycleCap}
      modifies this`moving, this`row, this`run, this`log, this`intent, this`trace, this`revived, this`signals
      modifies this`answered, this`failed, this`late, this`overrun, this`meddled, this`askedIn
      ensures !moving && Valid() && run == row && row.status != Active
      ensures signals >= old(signals) && unsignalled == (signals == old(signals))
      ensures LoopEnds(su, old(Here()), Here(), unsignalled)
      ensures revived == old(revived) + Revived(old(row))
    {
      hide Valid, Spent, BudgetOf, Heeded, StoppedAtOnce, SameTalk, Revived, Unforced, LoopEnds, Retrying;
      hide Passed, Exchanges, Decisions;
      ghost var start := Here();
      NothingTried(su, start);
      var attemptsLeft: int := su.retryAttempts;
      while true
        invariant !moving && Valid() && run == row && signals >= old(signals)
        invariant Retrying(su, start, Here(), attemptsLeft)
        invariant if attemptsLeft == su.retryAttempts then Here() == start && revived == old(revived)
                  else row.status == Active && revived == old(revived) + Revived(old(row))
        decreases attemptsLeft
      {
        ghost var top := Here();
        ActiveRevivesNothing(row);
        var settled := RunLoopOnce();
        Tried(su, start, top, Here(), attemptsLeft, settled, signals == old(signals));
        if settled {
          unsignalled := signals == old(signals);
          return;
        }
        attemptsLeft := attemptsLeft - 1;
        ghost var noted := Here();
        var stopRequested: bool := *;
        if attemptsLeft <= 0 || stopRequested {
          signals := signals + if stopRequested then 1 else 0;
          Stop();
          unsignalled := signals == old(signals);
          GivenUpMeans(su, start, noted, Here(), attemptsLeft, unsignalled);
          return;
        }
        AppendNote();
        TriesAgain(su, start, noted, Here(), attemptsLeft);
        run := row;
      }
    }

    /** The failed calls are those whose outcome was no reply. */
    lemma Tally()
      requires Valid()
      ensures failed == Failures(outcomes, answered + failed)
    {
      hide IsRun, Inv, Failures;
    }

    lemma RestsWithEvidence()
      requires Valid()
      ensures row.status !in {Active, Stopped} ==> Rested(su, Now())
    {
      RunStarts(su, trace);
      hide IsRun, Conversed, Counted, Limited, Earned, Reviewed;
      if row.status == Complete {
        CompletionIsEarned(su, trace, |trace| - 1);
      }
    }

    lemma WithinBudget()
      requires Valid()
      ensures BudgetOf(su, Now()) <= CallBound(row.maxCycles, su.totalBatches - row.batch + 1)
    {
      hide IsRun, BudgetOf, Most, CallBound, Anchored, Conversed, Counted, Limited;
      BudgetAtMost(su, Now());
    }

    /** The decision transaction: event and row in one durable write. */
    method Transact(decision: Decision)
      requires Valid() && run == row && row.status == PausedCycleCap
      modifies this`row, this`run, this`log, this`trace
      ensures Valid() && run == row && Now() == Decide(old(Now()), decision)
      ensures Exchanges(log) == Exchanges(old(log))
    {
      DecisionIsSilent(Now(), decision);
      hide IsRun, Inv, Noted, Prompted, Responded, Activated, Seated, Recycled, Advanced, RelayProtocol.Settled, Intended;
      hide Exchanges, Decisions;
      ghost var before := Now();
      log := log + [Event(run.batch, run.cycle, Decided(decision))];
      run := run.(status := Active);
      match decision {
        case Continue => run := run.(maxCycles := run.maxCycles + 1, cycle := run.cycle + 1);
        case Accept => run := run.(advanceAfterResponse := true);
        case Proceed =>
      }
      row := run;
      assert Now() == Decide(before, decision);
      assert DecidedStep(before, Now());
      Record(before);
    }

    lemma AllowedAfter(decision: Decision)
      requires Valid() && row.status == PausedCycleCap
      ensures DecisionAllowed(su, Now(), decision)
      ensures SessionAllowed(su, Decide(Now(), decision), Implementer, SlotOf(row, Implementer).session)
      ensures Decisions(Decide(Now(), decision).log) == Decisions(log) + [Stamp(row, Decided(decision))]
    {
      hide IsRun;
      DecisionAllows(su, Now(), decision, SlotOf(row, Implementer).session);
    }

    /** `continue` and `accept`: the decision, then one more implementer call with the last review. */
    method DecideAndCall(decision: Decision) returns (threw: bool)
      requires !moving && Valid() && run == row && row.status == PausedCycleCap && late == 0 && decision != Proceed
      modifies this`row, this`run, this`log, this`intent, this`trace
      modifies this`answered, this`failed, this`late, this`overrun, this`meddled, this`askedIn
      ensures meddled >= old(meddled) && (meddled == old(meddled) ==> intent == old(intent))
      ensures Valid() && run == row && row.status == Active
      ensures Decisions(log) == Decisions(old(log)) + [Stamp(old(row), Decided(decision))]
      ensures failed == old(failed) + (if threw then 1 else 0) && answered == old(answered) + (if threw then 0 else 1)
      ensures row.batch == old(row.batch)
      ensures row.maxCycles == old(row.maxCycles) + (if decision == Continue then 1 else 0)
      ensures Talked(old(Here()), Here()) && AsksFirst(su, old(Now()), Some(decision), log)
    {
      hide Valid, PromptAllowed, SessionAllowed, AdvanceAllowed, Exchanges, Decisions, Talked, Asked;
      AllowedAfter(decision);
      var review := LastExchange(log).value.entry.text;
      Transact(decision);
      var body := if decision == Continue then ApplyFixes(run.batch, review) else ApplyFinal(run.batch, review);
      ghost var decided := row;
      var reply, into := CallRole(Implementer, su.prose(body), body);
      CallTalks(old(Here()), Here(), decided, Prompt(Implementer, su.prose(body), body, into), reply);
      CallAsks(old(Here()), old(row).(cycle := decided.cycle), Here(), Prompt(Implementer, su.prose(body), body, into), reply);
      threw := reply.None?;
    }

    /** `proceed`: the decision, then the advance as it stands. `stopped`: the advance honoured BATCH_END. */
    method DecideAndAdvance() returns (ghost stopped: bool)
      requires !moving && Valid() && run == row && row.status == PausedCycleCap
      modifies this`moving, this`row, this`run, this`log, this`intent, this`trace, this`late, this`overrun, this`meddled, this`askedIn
      ensures !moving
      ensures meddled >= old(meddled) && (meddled == old(meddled) ==> intent == old(intent) || intent == None)
      ensures Valid() && run == row && row.status in {Active, Stopped, Complete}
      ensures Decisions(log) == Decisions(old(log)) + [Stamp(old(row), Decided(Proceed))]
      ensures old(row.batch) >= su.totalBatches ==> row.status == Complete && row.batch == old(row.batch)
      ensures old(row.batch) < su.totalBatches ==> row.status != Complete && row.batch == old(row.batch) + 1
      ensures row.maxCycles == old(row.maxCycles)
      ensures stopped <==> row.status == Stopped
      ensures stopped ==> intent == None && (meddled == old(meddled) ==> old(intent) == Some(BatchEnd))
      ensures Exchanges(log) == Exchanges(old(log))
    {
      hide Valid, PromptAllowed, SessionAllowed, AdvanceAllowed, Exchanges, Decisions;
      AllowedAfter(Proceed);
      Transact(Proceed);
      stopped := AdvanceAsIs();
    }

    method AdvanceAsIs() returns (ghost stopped: bool)
      requires !moving && Valid() && run == row && row.status == Active
      requires AdvanceAllowed(Now(), row.advanceAfterResponse)
      modifies this`moving, this`row, this`run, this`log, this`intent, this`trace, this`late, this`overrun, this`meddled, this`askedIn
      ensures !moving
      ensures meddled >= old(meddled) && (meddled == old(meddled) ==> intent == old(intent) || intent == None)
      ensures Valid() && run == row && Decisions(log) == Decisions(old(log))
      ensures row.status in {Active, Stopped, Complete}
      ensures old(row.batch) >= su.totalBatches ==> row.status == Complete && row.batch == old(row.batch)
      ensures old(row.batch) < su.totalBatches ==> row.status != Complete && row.batch == old(row.batch) + 1
      ensures row.maxCycles == old(row.maxCycles)
      ensures stopped <==> row.status == Stopped
      ensures stopped ==> intent == None && (meddled == old(meddled) ==> old(intent) == Some(BatchEnd))
      ensures Exchanges(log) == Exchanges(old(log))
    {
      hide Valid, AdvanceAllowed, Exchanges, Decisions, SameTalk;
      ghost var decided := Now();
      AppendNote();
      TalkReads(decided.log, log);
      AdvanceStaysAllowed(decided, Now(), run.advanceAfterResponse);
      ghost var noted := log;
      var go, seen := AdvanceBatch();
      TalkReads(noted, log);
      stopped := row.status == Stopped;
    }

    /** An unclear verdict: the stored reply is read once more, and only if it still does not route
        is the full review prompt sent again. The program also guards against a missing prompt. */
    method ReAsk() returns (threw: bool)
      requires !moving && Valid() && run == row && row.status == PausedUnclearVerdict && late == 0
      modifies this`row, this`run, this`log, this`intent, this`trace, this`revived
      modifies this`answered, this`failed, this`late, this`overrun, this`meddled, this`askedIn
      ensures meddled >= old(meddled) && (meddled == old(meddled) ==> intent == old(intent))
      ensures Valid() && run == row && row.status == Active
      ensures Decisions(log) == Decisions(old(log))
      ensures failed == old(failed) + (if threw then 1 else 0) && answered <= old(answered) + 1
      ensures revived == old(revived)
      ensures row.batch == old(row.batch) && row.maxCycles == old(row.maxCycles)
      ensures Unroutable(LastExchange(old(log))) ==> answered + failed == old(answered) + old(failed) + 1
      ensures Talked(old(Here()), Here()) && AsksFirst(su, old(Now()), None, log)
    {
      hide Valid, PromptAllowed, SessionAllowed, V.VerdictOf, V.FindingsOf, Exchanges, Decisions, Talked, Asked;
      TalkedNothing(Here());
      AsksAgain();
      var last := LastExchange(log);
      threw := false;
      if last.Some? && last.value.entry.Response? {
        var verdict := V.ParseVerdict(last.value.entry.text);
        var findings := V.FindingsOf(last.value.entry.text);
        Activate();
        if verdict.Some? && (verdict.value == V.Fix || |findings| >= V.REVIEW_FINDINGS_FLOOR) {
          AppendNote();
          SilenceTalks(old(Here()), Here());
        } else {
          var original := LastReviewerPrompt(log).value.entry;
          ghost var active := Now();
          AppendNote();
          ghost var noted := Here();
          SilenceTalks(old(Here()), noted);
          threw := AskAgain(original, active);
          AskedSince(old(log), noted.d.log, log, old(row), noted.d.row, original);
          TalkedFurther(old(Here()), noted, Here());
        }
      }
    }

    /** A reply that does not route as it stands. */
    static predicate Unroutable(last: Option<Event>) {
      last.Some? && last.value.entry.Response? && V.RouteOf(last.value.entry.text) == V.Unclear
    }

    lemma AsksAgain()
      requires Valid() && row.status == PausedUnclearVerdict
      ensures LastExchange(log).Some? && LastExchange(log).value.entry.Response?
      ensures var original := LastReviewerPrompt(log);
              && original.Some? && original.value.entry.Prompt?
              && PromptAllowed(su, Durable(row.(status := Active), log, intent), Reviewer,
                               original.value.entry.text, original.value.entry.body)
    {
      UnclearAsksAgain(su, Now());
    }

    lemma FreshAfterReply(role: Role, into: Option<string>)
      requires Valid() && LastExchange(log).Some? && LastExchange(log).value.entry.Response?
      ensures SessionAllowed(su, Now(), role, into)
    {
      AnsweredStepIsFresh(su, Now(), role, into);
    }

    method AskAgain(original: Entry, ghost before: Durable) returns (threw: bool)
      requires !moving && Valid() && run == row && row.status == Active && late == 0
      requires original.Prompt? && PromptAllowed(su, before, Reviewer, original.text, original.body)
      requires SameTalk(before.log, log) && SameCounters(before.row, row)
      requires LastExchange(log).Some? && LastExchange(log).value.entry.Response?
      modifies this`row, this`run, this`log, this`intent, this`trace
      modifies this`answered, this`failed, this`late, this`overrun, this`meddled, this`askedIn
      ensures meddled >= old(meddled) && (meddled == old(meddled) ==> intent == old(intent))
      ensures Valid() && run == row && SameCounters(old(row), row)
      ensures Decisions(log) == Decisions(old(log))
      ensures failed == old(failed) + (if threw then 1 else 0)
      ensures answered == old(answered) + (if threw then 0 else 1)
      ensures Talked(old(Here()), Here()) && Asked(old(log), log, old(row), Reviewer, original.text, original.body)
    {
      FreshAfterReply(Reviewer, SlotOf(row, Reviewer).session);
      PromptStaysAllowed(su, before, Now(), Reviewer, original.text, original.body);
      hide Valid, PromptAllowed, SessionAllowed;
      ghost var at := row;
      var reply, into := CallRole(Reviewer, original.text, original.body);
      CallTalks(old(Here()), Here(), at, Prompt(Reviewer, original.text, original.body, into), reply);
      CallAsks(old(Here()), at, Here(), Prompt(Reviewer, original.text, original.body, into), reply);
      threw := reply.None?;
    }

    method Activate()
      requires Valid() && run == row && row.status !in {Complete, PausedCycleCap}
      modifies this`row, this`run, this`trace, this`revived
      ensures Valid() && run == row && row == old(row).(status := Active)
      ensures revived == old(revived) + Revived(old(row))
    {
      hide Valid;
      revived := revived + Revived(row);
      run := run.(status := Active);
      assert Activated(Now(), Now().(row := run));
      UpdateRun();
    }

    /** `relay resume`: the one entry point after any stop or crash. It starts from the durable state
        alone; the claim clears the operator's cell. A BATCH_END that the advance of `proceed` itself honours,
        `stopped`, does not end the command: the run is made active again in the batch it stopped before. */
    method Resume(decision: Option<Decision>) returns (refused: bool, ghost stopped: bool)
      requires !moving && Valid()
      modifies this`moving, this`row, this`run, this`log, this`intent, this`trace, this`revived, this`signals
      modifies this`answered, this`failed, this`late, this`overrun, this`meddled, this`askedIn
      ensures !moving
      ensures Valid() && run == row
      ensures refused <==> old(row.status) == PausedCycleCap && decision.None?
      ensures refused || old(row.status) == Complete ==> row == old(row) && log == old(log)
      ensures !refused ==> row.status != Active
      ensures Decisions(log) == Decisions(old(log))
              + (if old(row.status) == PausedCycleCap && decision.Some? then [Stamp(old(row), Decided(decision.value))] else [])
      ensures failed - old(failed) <= Most(1, su.retryAttempts)
      ensures answered - old(answered) <=
              1 + CallBound(old(row.maxCycles) + Granted(old(row), decision), su.totalBatches - old(row.batch) + 1)
      ensures meddled == old(meddled) && old(row.status) != Complete ==> intent == None && !stopped
      ensures stopped ==> old(row.status) == PausedCycleCap && decision == Some(Proceed) && old(row.batch) < su.totalBatches
      ensures revived == old(revived) + if stopped then [old(row.batch) + 1] else Revived(old(row))
      ensures Talked(old(Here()), Here())
      ensures !refused ==> AsksFirst(su, old(Now()), decision, log)
      ensures row.status !in {Active, Stopped} ==> Rested(su, Now())
      ensures signals >= old(signals)
      ensures !refused && signals == old(signals) && meddled == old(meddled) && row.status == Stopped ==>
                || failed - old(failed) == Most(1, su.retryAttempts)
                || (failed - old(failed) == 1 && old(row.status) in {PausedCycleCap, PausedUnclearVerdict})
    {
      hide Valid, Most, CallBound, Exchanges, Decisions, Talked, Rested, Granted, AsksFirst;
      TalkedNothing(Here());
      RestsWithEvidence();
      BoundGrows(row.maxCycles + Granted(row, decision), su.totalBatches - row.batch + 1, su.totalBatches - row.batch + 1);
      OneAtLeast(su.retryAttempts);
      refused, stopped := false, false;
      run := row;
      if run.status == Complete {
        CompleteAsksNothing(su, Now(), decision);
        return;
      }
      WriteIntent(None);
      if run.status == PausedCycleCap && decision.None? {
        RestsWithEvidence();
        SilenceTalks(old(Here()), Here());
        return true, false;
      }
      ghost var claimed := Here();
      SilenceTalks(old(Here()), claimed);
      var threw: bool;
      threw, stopped := TakeUp(decision);
      BoundGrows(old(row.maxCycles) + Granted(old(row), decision), su.totalBatches - row.batch + 1, su.totalBatches - old(row.batch) + 1);
      ghost var taken := Here();
      TalkedFurther(old(Here()), claimed, taken);
      GoOn(threw);
      TalkedFurther(old(Here()), taken, Here());
      AsksFirstStill(su, old(Now()), claimed.d, taken, Here(), decision);
    }

    /** A failed call stops the worker; otherwise the loop takes over, unless the run is complete. */
    method GoOn(threw: bool)
      requires !moving && Valid() && run == row && row.status != PausedCycleCap && (threw ==> row.status == Active)
      modifies this`moving, this`row, this`run, this`log, this`intent, this`trace, this`revived, this`signals
      modifies this`answered, this`failed, this`late, this`overrun, this`meddled, this`askedIn
      ensures !moving
      ensures Talked(old(Here()), Here())
      ensures row.status != Stopped ==> Rested(su, Now())
      ensures signals >= old(signals)
      ensures signals == old(signals) && meddled == old(meddled) && old(intent) == None && row.status == Stopped ==>
                threw || failed - old(failed) == Most(1, su.retryAttempts)
      ensures threw ==> failed == old(failed)
      ensures Valid() && run == row && row.status != Active && Decisions(log) == Decisions(old(log))
      ensures answered - old(answered) <= CallBound(old(row.maxCycles), su.totalBatches - old(row.batch) + 1)
      ensures failed - old(failed) <= if threw then 0 else Most(1, su.retryAttempts)
      ensures meddled >= old(meddled) && (meddled == old(meddled) && old(intent) == None ==> intent == None)
      ensures revived == old(revived) + Revived(old(row))
    {
      hide Valid, Heeded, Most, CallBound, Rested, Talked;
      TalkedNothing(Here());
      BoundGrows(row.maxCycles, su.totalBatches - row.batch + 1, su.totalBatches - row.batch + 1);
      OneAtLeast(su.retryAttempts);
      if threw {
        ghost var top := Here();
        Stop();
        TalkedOn(top, top, Here());
        return;
      }
      run := row;
      RestsWithEvidence();
      if run.status != Complete {
        ghost var top := Here();
        RunLoop();
        EmptyCellStays(top, Here());
      }
    }

    /** What the status and the decision ask for before the loop goes on. */
    method TakeUp(decision: Option<Decision>) returns (threw: bool, ghost stopped: bool)
      requires !moving && Valid() && run == row && intent == None && row.status != Complete
      requires row.status == PausedCycleCap ==> decision.Some?
      modifies this`moving, this`row, this`run, this`log, this`intent, this`trace, this`revived
      modifies this`answered, this`failed, this`late, this`overrun, this`meddled, this`askedIn
      ensures !moving
      ensures Valid() && run == row && meddled >= old(meddled) && (meddled == old(meddled) ==> intent == None && !stopped)
      ensures Decisions(log) == Decisions(old(log))
              + (if old(row.status) == PausedCycleCap then [Stamp(old(row), Decided(decision.value))] else [])
      ensures failed == old(failed) + (if threw then 1 else 0) && answered <= old(answered) + 1
      ensures row.maxCycles == old(row.maxCycles) + Granted(old(row), decision) && row.batch >= old(row.batch)
      ensures stopped ==> old(row.status) == PausedCycleCap && decision == Some(Proceed) && old(row.batch) < su.totalBatches
      ensures stopped ==> !threw && row.status == Stopped && row.batch == old(row.batch) + 1
      ensures threw ==> row.status == Active
      ensures row.status != PausedCycleCap
      ensures !stopped && row.status == Stopped ==> row == old(row)
      ensures revived == old(revived)
      ensures old(row.status) == Stopped ==> row == old(row) && !threw
      ensures threw ==> old(row.status) in {PausedCycleCap, PausedUnclearVerdict}
      ensures Talked(old(Here()), Here()) && AsksFirst(su, old(Now()), decision, log)
    {
      hide Valid, Exchanges, Decisions, Talked, Asked;
      TalkedNothing(Here());
      NotLate();
      threw, stopped := false, false;
      if run.status == PausedCycleCap {
        if decision.value == Proceed {
          stopped := DecideAndAdvance();
          SilenceTalks(old(Here()), Here());
        } else {
          threw := DecideAndCall(decision.value);
        }
      } else if run.status == PausedUnclearVerdict {
        threw := ReAsk();
      }
    }

    /** The review cycle `continue` grants. */
    static function Granted(row: Row, decision: Option<Decision>): nat {
      if row.status == PausedCycleCap && decision == Some(Continue) then 1 else 0
    }

    lemma NotLate()
      requires Valid() && intent != Some(NextBoundary)
      ensures late == 0
    {}

    /** Stops between calls, at an operator's wish or after a failure. */
    method Stop()
      requires Valid() && run == row && row.status == Active
      modifies this`row, this`run, this`log, this`trace
      ensures Valid() && run == row && row == old(row).(status := Stopped)
      ensures Exchanges(log) == Exchanges(old(log)) && Decisions(log) == Decisions(old(log))
      ensures Passed(su, old(Here()), Here(), StepOutcome.Settled) && Heeded(old(Here()), Here())
    {
      hide Valid;
      assert SettleAllowed(su, Now(), Stopped, run.advanceAfterResponse);
      Pause(Stopped);
    }
  }

  /** What the operator's cell does to the loop between `a` and `b`. Unless it is written meanwhile, it keeps
      its value up to a stop, and BATCH_END lets the run leave its batch only to stop at the next, which is
      not opened. */
  predicate Heeded(a: Mark, b: Mark) {
    && b.meddled >= a.meddled
    && (b.meddled == a.meddled ==>
          && (b.d.intent == a.d.intent || (b.d.intent == None && b.d.row.status != Active))
          && (a.d.intent == Some(BatchEnd) && b.d.row.batch != a.d.row.batch ==> StoppedAtNext(a.d.row.batch, b.d)))
  }

  /** Between `a` and `b`, without a signal: a cell that nobody writes and that does not ask for the next boundary stops
      the run only as BATCH_END, in another batch. */
  predicate Unforced(a: Mark, b: Mark) {
    b.meddled == a.meddled && a.d.intent != Some(NextBoundary) && b.d.row.status == Stopped ==>
      a.d.intent == Some(BatchEnd) && b.d.row.batch != a.d.row.batch
  }

  lemma UnforcedLater(a: Mark, b: Mark, c: Mark)
    requires Heeded(a, b) && (b.d.row.status == Active || b == a) && Unforced(b, c) && c.meddled >= b.meddled
    ensures Unforced(a, c)
  {}

  lemma UnforcedFrom(a: Mark, b: Mark, c: Mark)
    requires Unforced(b, c) && c.meddled >= b.meddled >= a.meddled
    requires b.d.row.batch == a.d.row.batch && (b.meddled == a.meddled ==> b.d.intent == a.d.intent)
    ensures Unforced(a, c)
  {}

  /** After the pass from `top`, the last of those since `start`. */
  lemma StoppedMeans(start: Mark, top: Mark, b: Mark)
    requires Unforced(top, b) && Heeded(start, b) && b.meddled >= top.meddled
    requires top == start || (Heeded(start, top) && top.d.row.status == Active)
    ensures b.meddled == start.meddled && start.d.intent != Some(NextBoundary) && b.d.row.status == Stopped ==>
              start.d.intent == Some(BatchEnd) && StoppedAtNext(start.d.row.batch, b.d)
  {
    hide *;
    if top != start { UnforcedLater(start, top, b); }
    UnforcedMeans(start, b);
  }

  /** What the retry loop leaves. */
  predicate LoopEnds(su: Setup, a: Mark, b: Mark, unsignalled: bool) {
    && Talked(a, b) && Heeded(a, b) && Decisions(b.d.log) == Decisions(a.d.log)
    && b.answered - a.answered <= BudgetOf(su, a.d) && b.failed - a.failed <= Most(1, su.retryAttempts)
    && (b.d.row.status != Stopped ==> b.failed - a.failed < Most(1, su.retryAttempts))
    && (b.meddled == a.meddled && a.d.intent == Some(NextBoundary) ==> StoppedAtOnce(a.d, b.d))
    && (b.meddled == a.meddled && a.d.intent == Some(BatchEnd) ==>
          b.d.row.batch == a.d.row.batch || StoppedAtNext(a.d.row.batch, b.d))
    && (unsignalled && b.meddled == a.meddled && a.d.intent != Some(NextBoundary) && b.d.row.status == Stopped ==>
          || b.failed - a.failed == Most(1, su.retryAttempts)
          || (a.d.intent == Some(BatchEnd) && StoppedAtNext(a.d.row.batch, b.d)))
  }

  lemma LoopEndsMeans(su: Setup, a: Mark, b: Mark, unsignalled: bool)
    requires LoopEnds(su, a, b, unsignalled)
    ensures Talked(a, b) && Heeded(a, b) && Decisions(b.d.log) == Decisions(a.d.log)
    ensures b.answered - a.answered <= BudgetOf(su, a.d) && b.failed - a.failed <= Most(1, su.retryAttempts)
    ensures b.d.row.status != Stopped ==> b.failed - a.failed < Most(1, su.retryAttempts)
    ensures b.meddled == a.meddled && a.d.intent == Some(NextBoundary) ==> StoppedAtOnce(a.d, b.d)
    ensures b.meddled == a.meddled && a.d.intent == Some(BatchEnd) ==>
              b.d.row.batch == a.d.row.batch || StoppedAtNext(a.d.row.batch, b.d)
    ensures unsignalled && b.meddled == a.meddled && a.d.intent != Some(NextBoundary) && b.d.row.status == Stopped ==>
              || b.failed - a.failed == Most(1, su.retryAttempts)
              || (a.d.intent == Some(BatchEnd) && StoppedAtNext(a.d.row.batch, b.d))
  {
    hide Talked, Heeded, Decisions, BudgetOf, Most, StoppedAtOnce, StoppedAtNext;
  }

  /** So many attempts are left, and the others failed; `b` is where the next one starts. */
  predicate Retrying(su: Setup, start: Mark, b: Mark, attemptsLeft: int) {
    && attemptsLeft <= su.retryAttempts && (attemptsLeft >= 1 || attemptsLeft == su.retryAttempts)
    && Failing(su, start, b, attemptsLeft)
  }

  /** Before its note, the last attempt may just have failed. */
  predicate Failing(su: Setup, start: Mark, b: Mark, attemptsLeft: int) {
    && attemptsLeft <= su.retryAttempts
    && Spent(su, start, b, su.retryAttempts - attemptsLeft) && b.meddled >= start.meddled
    && (if attemptsLeft == su.retryAttempts then b == start
        else b.d.row.status == Active && Heeded(start, b) && (b.meddled == start.meddled ==> start.d.intent != Some(NextBoundary)))
  }

  lemma NothingTried(su: Setup, start: Mark)
    ensures Retrying(su, start, start, su.retryAttempts)
  {
    SpentNothing(su, start);
    hide Spent;
  }

  lemma OneMoreFailure(su: Setup, attemptsLeft: int)
    requires attemptsLeft <= su.retryAttempts && (attemptsLeft >= 1 || attemptsLeft == su.retryAttempts)
    ensures su.retryAttempts - attemptsLeft < Most(1, su.retryAttempts)
    ensures su.retryAttempts - attemptsLeft + 1 <= Most(1, su.retryAttempts)
    ensures attemptsLeft - 1 <= 0 ==> su.retryAttempts - attemptsLeft + 1 == Most(1, su.retryAttempts)
  {}

  /** One more attempt: it settles, or it is one more that failed. */
  lemma Tried(su: Setup, start: Mark, top: Mark, b: Mark, attemptsLeft: int, settled: bool, unsignalled: bool)
    requires Retrying(su, start, top, attemptsLeft)
    requires Spent(su, top, b, if settled then 0 else 1) && Heeded(top, b) && b.meddled >= top.meddled
    requires b.meddled == top.meddled && top.d.intent == Some(NextBoundary) ==> settled && StoppedAtOnce(top.d, b.d)
    requires settled <==> b.d.row.status != Active
    requires unsignalled ==> Unforced(top, b)
    ensures if settled then LoopEnds(su, start, b, unsignalled)
            else && Failing(su, start, b, attemptsLeft - 1)
                 && su.retryAttempts - (attemptsLeft - 1) <= Most(1, su.retryAttempts)
                 && (attemptsLeft - 1 <= 0 ==> su.retryAttempts - (attemptsLeft - 1) == Most(1, su.retryAttempts))
  {
    hide Spent, Heeded, StoppedAtOnce, Unforced, LoopEnds, Most;
    OneMoreFailure(su, attemptsLeft);
    SpentAdds(su, start, top, b, su.retryAttempts - attemptsLeft, if settled then 0 else 1);
    if top != start { HeededLater(start, top, b); }
    if settled {
      SettledMeans(su, start, top, b, su.retryAttempts - attemptsLeft, unsignalled);
    }
  }

  /** After the note of a failure. */
  lemma TriesAgain(su: Setup, start: Mark, noted: Mark, b: Mark, attemptsLeft: int)
    requires Failing(su, start, noted, attemptsLeft) && 0 < attemptsLeft < su.retryAttempts
    requires b.d.row == noted.d.row && b.d.intent == noted.d.intent && SameTalk(noted.d.log, b.d.log)
    requires b.answered == noted.answered && b.failed == noted.failed && b.meddled == noted.meddled
    ensures Retrying(su, start, b, attemptsLeft)
  {
    hide Spent, Heeded, SameTalk;
    SpentThroughNote(su, start, noted, b, su.retryAttempts - attemptsLeft);
    HeededThroughNote(start, noted, b);
  }

  /** When a pass settles. */
  lemma SettledMeans(su: Setup, start: Mark, top: Mark, b: Mark, failures: nat, unsignalled: bool)
    requires Spent(su, start, b, failures) && Heeded(start, b) && b.meddled >= top.meddled
    requires top == start || (&& Heeded(start, top) && top.d.row.status == Active && top.meddled >= start.meddled
                              && (top.meddled == start.meddled ==> start.d.intent != Some(NextBoundary)))
    requires b.meddled == top.meddled && top.d.intent == Some(NextBoundary) ==> StoppedAtOnce(top.d, b.d)
    requires unsignalled ==> Unforced(top, b)
    requires failures < Most(1, su.retryAttempts)
    ensures LoopEnds(su, start, b, unsignalled)
  {
    SpentMeans(su, start, b, failures);
    HeededMeans(start, b);
    if unsignalled { StoppedMeans(start, top, b); }
    hide Talked, Heeded, Decisions, BudgetOf, Most, StoppedAtOnce, StoppedAtNext, Spent, Unforced;
  }

  /** When it gives up. */
  lemma GivenUpMeans(su: Setup, start: Mark, noted: Mark, b: Mark, attemptsLeft: int, unsignalled: bool)
    requires Failing(su, start, noted, attemptsLeft) && attemptsLeft < su.retryAttempts
    requires Heeded(noted, b) && Exchanges(b.d.log) == Exchanges(noted.d.log) && Decisions(b.d.log) == Decisions(noted.d.log)
    requires b.answered == noted.answered && b.failed == noted.failed && b.meddled == noted.meddled
    requires b.d.row.status == Stopped && su.retryAttempts - attemptsLeft <= Most(1, su.retryAttempts)
    requires unsignalled ==> su.retryAttempts - attemptsLeft == Most(1, su.retryAttempts)
    ensures LoopEnds(su, start, b, unsignalled)
  {
    hide Talked, Heeded, Decisions, Exchanges, BudgetOf, Most, StoppedAtOnce, StoppedAtNext, Spent;
    SpentMeans(su, start, noted, su.retryAttempts - attemptsLeft);
    HeededLater(start, noted, b);
    HeededMeans(start, b);
    TalkedOn(start, noted, b);
  }

  lemma UnforcedMeans(a: Mark, b: Mark)
    requires Unforced(a, b) && Heeded(a, b)
    ensures b.meddled == a.meddled && a.d.intent != Some(NextBoundary) && b.d.row.status == Stopped ==>
              a.d.intent == Some(BatchEnd) && StoppedAtNext(a.d.row.batch, b.d)
  {}

  /** Where a run rests by itself, and the last exchange that brought it there. */
  predicate Rested(su: Setup, d: Durable) {
    match d.row.status
    case PausedCycleCap => Reviewed(d, V.ToImplementer) && d.row.cycle == d.row.maxCycles
    case PausedUnclearVerdict => Reviewed(d, V.Unclear)
    case Complete => Earned(su, d)
    case _ => false
  }

  predicate StoppedAtNext(batch: nat, d: Durable) {
    && d.row.batch == batch + 1 && d.row.status == Stopped && d.intent == None
    && LastExchange(d.log).Some? && LastExchange(d.log).value.batch == batch
  }

  predicate StoppedAtOnce(before: Durable, d: Durable) {
    d.row == before.row.(status := Stopped) && Exchanges(d.log) == Exchanges(before.log)
  }

  /** What making a run active adds to the record of revivals. */
  function Revived(row: Row): seq<nat> {
    if row.status == Stopped then [row.batch] else []
  }

  lemma ActiveRevivesNothing(row: Row)
    ensures row.status == Active ==> Revived(row) == []
  {}

  lemma CallHeeds(a: Mark, b: Mark)
    requires b.meddled >= a.meddled && (b.meddled == a.meddled ==> b.d.intent == a.d.intent)
    requires b.d.row.batch == a.d.row.batch
    ensures Heeded(a, b)
  {}

  lemma PriceIsSame(row: Row, row': Row, role: Role)
    requires SameCounters(row, row')
    ensures Price(row', role) == Price(row, role)
  {}

  lemma CallAsks(a: Mark, at: Row, b: Mark, prompt: Entry, reply: Option<Text>)
    requires prompt.Prompt?
    requires Exchanges(b.d.log) == Exchanges(a.d.log) + [Stamp(at, prompt)]
             + (if reply.Some? then [Stamp(at, Response(prompt.role, reply.value))] else [])
    ensures Asked(a.d.log, b.d.log, at, prompt.role, prompt.text, prompt.body)
  {
    var x, y := Exchanges(a.d.log), Exchanges(b.d.log);
    assert y[..|x|] == x;
  }

  lemma LeavingHeeds(su: Setup, a: Mark, b: Mark, seen: Option<PauseIntent>)
    requires b.meddled >= a.meddled && (b.meddled == a.meddled ==> seen == a.d.intent)
    requires LastExchange(a.d.log).Some? && LastExchange(a.d.log).value.batch == a.d.row.batch
    requires Exchanges(b.d.log) == Exchanges(a.d.log)
    requires b.d.row.batch == a.d.row.batch ==> b.d.intent == seen
    requires b.d.row.batch != a.d.row.batch ==>
               && b.d.row.batch == a.d.row.batch + 1
               && (if seen == Some(BatchEnd) then b.d.row.status == Stopped && b.d.intent == None else b.d.intent == seen)
    ensures Heeded(a, b)
  {}

  lemma HeededFrom(a: Mark, middle: Mark, b: Mark)
    requires Heeded(middle, b) && middle.meddled >= a.meddled
    requires middle.d.row.batch == a.d.row.batch && (middle.meddled == a.meddled ==> middle.d.intent == a.d.intent)
    ensures Heeded(a, b)
  {}

  lemma HeededLater(a: Mark, b: Mark, c: Mark)
    requires Heeded(a, b) && Heeded(b, c) && b.d.row.status == Active
    ensures Heeded(a, c) && c.meddled >= b.meddled >= a.meddled
  {}

  lemma HeededThroughNote(a: Mark, b: Mark, c: Mark)
    requires Heeded(a, b) && b.d.row.status == Active
    requires c.d.row == b.d.row && c.d.intent == b.d.intent && c.meddled == b.meddled
    ensures Heeded(a, c)
  {}

  lemma HeededMeans(a: Mark, b: Mark)
    requires Heeded(a, b)
    ensures b.meddled == a.meddled && a.d.intent == Some(BatchEnd) ==>
              b.d.row.batch == a.d.row.batch || StoppedAtNext(a.d.row.batch, b.d)
  {}

  lemma ActivationIsFree(su: Setup, a: Mark, b: Mark)
    requires b == a.(d := a.d.(row := a.d.row.(status := Active)))
    ensures Spent(su, b, b, 0) && Heeded(b, b) && Unforced(b, b)
  {}

  lemma ActivatedFrom(su: Setup, a: Mark, b: Mark, c: Mark, failures: nat)
    requires b == a.(d := a.d.(row := a.d.row.(status := Active)))
    requires Spent(su, b, c, failures) && Heeded(b, c)
    ensures Spent(su, a, c, failures) && Heeded(a, c)
  {}

  lemma ActivatedUnforced(a: Mark, b: Mark, c: Mark)
    requires b == a.(d := a.d.(row := a.d.row.(status := Active)))
    ensures Unforced(b, c) ==> Unforced(a, c)
  {}

  lemma PassedAdds(su: Setup, a: Mark, b: Mark, c: Mark, outcome: StepOutcome)
    requires Spent(su, a, b, 0) && Passed(su, b, c, outcome)
    ensures Spent(su, a, c, if outcome.Threw? then 1 else 0)
    ensures c.d.row.status == Active <==> !outcome.Settled?
    ensures outcome.KeepGoing? ==>
              || BudgetOf(su, c.d) < BudgetOf(su, b.d)
              || (&& BudgetOf(su, c.d) == BudgetOf(su, b.d)
                  && Phase(c.d.row, LastExchange(c.d.log)) < Phase(b.d.row, LastExchange(b.d.log)))
  {}

  /** One prompt was sent, first of what was exchanged since. */
  predicate Asked(log: seq<Event>, log': seq<Event>, at: Row, role: Role, text: Text, body: Body) {
    var x, y := Exchanges(log), Exchanges(log');
    && |y| > |x| && y[..|x|] == x
    && y[|x|].batch == at.batch && y[|x|].cycle == at.cycle
    && y[|x|].entry.Prompt? && y[|x|].entry.role == role && y[|x|].entry.text == text && y[|x|].entry.body == body
  }

  /** What was exchanged since `a` is what the calls since `a` left in the log: two events for each that was
      answered, one for each that failed. */
  predicate Talked(a: Mark, b: Mark) {
    && b.answered >= a.answered && b.failed >= a.failed
    && Exchanges(a.d.log) <= Exchanges(b.d.log)
    && |Exchanges(b.d.log)| == |Exchanges(a.d.log)| + 2 * (b.answered - a.answered) + (b.failed - a.failed)
  }

  /** The calls spent since `a`: never more than the budget that was left there. */
  predicate Spent(su: Setup, a: Mark, b: Mark, failures: nat) {
    && Talked(a, b)
    && b.d.row.maxCycles == a.d.row.maxCycles
    && Decisions(b.d.log) == Decisions(a.d.log)
    && b.answered >= a.answered
    && b.answered + BudgetOf(su, b.d) <= a.answered + BudgetOf(su, a.d)
    && b.failed == a.failed + failures
  }

  /** One pass: what it spends, and that the loop it belongs to ends. */
  predicate Passed(su: Setup, a: Mark, b: Mark, outcome: StepOutcome) {
    && Spent(su, a, b, if outcome.Threw? then 1 else 0)
    && (b.d.row.status == Active <==> !outcome.Settled?)
    && (outcome.KeepGoing? ==>
          || BudgetOf(su, b.d) < BudgetOf(su, a.d)
          || (&& BudgetOf(su, b.d) == BudgetOf(su, a.d)
              && Phase(b.d.row, LastExchange(b.d.log)) < Phase(a.d.row, LastExchange(a.d.log))))
  }

  lemma SteppingPasses(su: Setup, a: Mark, b: Mark, outcome: StepOutcome)
    requires Stepped(su, a, b, outcome)
    ensures Passed(su, a, b, outcome) && Unforced(a, b)
  {}

  lemma IntentIsFree(su: Setup, top: Mark, middle: Mark, b: Mark, outcome: StepOutcome)
    requires middle == top.(d := top.d.(intent := middle.d.intent), meddled := middle.meddled)
    requires Passed(su, middle, b, outcome)
    ensures Passed(su, top, b, outcome)
  {}

  lemma LastIsCurrent(su: Setup, d: Durable)
    requires Inv(su, d)
    requires LastExchange(d.log).Some? ==> LastExchange(d.log).value.batch >= d.row.batch
    ensures LastExchange(d.log).Some? ==> LastExchange(d.log).value.batch == d.row.batch && IsExchange(LastExchange(d.log).value)
  {}

  // ---- what one step of the loop amounts to ----

  datatype Mark = Mark(d: Durable, answered: nat, failed: nat, meddled: nat)

  function BudgetOf(su: Setup, d: Durable): nat {
    Budget(su, d.row, LastExchange(d.log))
  }

  /** Each outcome of a step, with the calls it spent and the exchanges it added. */
  predicate Stepped(su: Setup, a: Mark, b: Mark, outcome: StepOutcome) {
    && b.d.row.maxCycles == a.d.row.maxCycles
    && Decisions(b.d.log) == Decisions(a.d.log)
    && b.answered >= a.answered
    && b.answered + BudgetOf(su, b.d) <= a.answered + BudgetOf(su, a.d)
    && |Exchanges(b.d.log)| >= |Exchanges(a.d.log)|
    && Exchanges(b.d.log)[..|Exchanges(a.d.log)|] == Exchanges(a.d.log)
    && var added := |Exchanges(b.d.log)| - |Exchanges(a.d.log)|;
    match outcome
    case KeepGoing =>
      && b.d.row.status == Active && b.failed == a.failed
      && (|| (b.answered == a.answered + 1 && added == 2)
          || (b.answered == a.answered && added == 0 && b.d.row.batch == a.d.row.batch + 1
              && Phase(b.d.row, LastExchange(b.d.log)) < Phase(a.d.row, LastExchange(a.d.log))))
    case Threw =>
      b.d.row.status == Active && b.answered == a.answered && b.failed == a.failed + 1 && added == 1
    case Settled =>
      && b.answered == a.answered && b.failed == a.failed && added == 0
      && b.d.row.status != Active
      && (b.d.row.status == Stopped ==>
            && b.d.row.batch == a.d.row.batch + 1 && b.d.intent == None
            && (b.meddled == a.meddled ==> a.d.intent == Some(BatchEnd)))
  }

  function RestingStatuses(route: V.Route): set<Status> {
    match route
    case Unclear => {PausedUnclearVerdict}
    case ToEnd => {Complete}
    case ToImplementer => {PausedCycleCap}
    case ToNextBatch => {Complete, Stopped}
  }

  lemma ReviewIsRouted(su: Setup, d: Durable)
    requires Inv(su, d)
    requires LastExchange(d.log).Some? && LastExchange(d.log).value.batch == d.row.batch
    requires LastExchange(d.log).value.entry.Response? && LastExchange(d.log).value.entry.role == Reviewer
    ensures Reviewed(d, V.RouteOf(LastExchange(d.log).value.entry.text))
    ensures 1 <= d.row.cycle <= d.row.maxCycles
  {}

  lemma ReviewAllows(su: Setup, d: Durable)
    ensures Reviewed(d, V.ToEnd) ==> SettleAllowed(su, d, Complete, d.row.advanceAfterResponse)
    ensures Reviewed(d, V.ToNextBatch) ==> AdvanceAllowed(d, d.row.advanceAfterResponse)
    ensures Reviewed(d, V.Unclear) ==> SettleAllowed(su, d, PausedUnclearVerdict, d.row.advanceAfterResponse)
    ensures Reviewed(d, V.ToImplementer) && d.row.cycle >= d.row.maxCycles ==>
              SettleAllowed(su, d, PausedCycleCap, d.row.advanceAfterResponse)
  {}

  lemma FixIsAllowed(su: Setup, d: Durable, review: Text, into: Option<string>)
    requires Inv(su, d) && Reviewed(d, V.ToImplementer) && d.row.cycle < d.row.maxCycles
    requires LastExchange(d.log).value.entry == Response(Reviewer, review)
    ensures var d' := d.(row := d.row.(cycle := d.row.cycle + 1));
            PromptAllowed(su, d', Implementer, su.prose(ApplyFixes(d.row.batch, review)), ApplyFixes(d.row.batch, review)) && SessionAllowed(su, d', Implementer, into)
  {
    AnsweredStepIsFresh(su, d.(row := d.row.(cycle := d.row.cycle + 1)), Implementer, into);
  }

  /** The calls of the next cycle are part of what the review leaves. */
  lemma FixBudget(su: Setup, d: Durable)
    requires Reviewed(d, V.ToImplementer) && d.row.cycle < d.row.maxCycles
    ensures BudgetOf(su, d) ==
            2 * d.row.maxCycles * Left(su.totalBatches, d.row.batch) + Price(d.row.(cycle := d.row.cycle + 1), Implementer)
  {}

  lemma SteppedFromNotes(su: Setup, a: Mark, noted: Mark, b: Mark, outcome: StepOutcome)
    requires Stepped(su, noted, b, outcome)
    requires noted.d.row == a.d.row && noted.answered == a.answered && noted.failed == a.failed
    requires noted.meddled == a.meddled && noted.d.intent == a.d.intent
    requires Exchanges(noted.d.log) == Exchanges(a.d.log) && Decisions(noted.d.log) == Decisions(a.d.log)
    ensures Stepped(su, a, b, outcome)
  {}

  lemma OpeningIsFresh(su: Setup, d: Durable, role: Role, into: Option<string>)
    requires Inv(su, d)
    requires LastExchange(d.log).Some? ==> LastExchange(d.log).value.batch < d.row.batch
    ensures SessionAllowed(su, d, role, into)
    ensures LastExchange(d.log).Some? ==> LastExchange(d.log).value.entry.Response?
  {
    AnsweredStepIsFresh(su, d, role, into);
  }

  /** Budget a call is paid from. */
  function Price(row: Row, role: Role): nat {
    2 * Left(row.maxCycles, row.cycle) + (if role == Implementer then 2 else 1)
  }

  /** A call made with the counters of `at` is paid from the budget before the step. */
  lemma CallSteps(su: Setup, a: Mark, at: Row, b: Mark, prompt: Entry, reply: Option<Text>)
    requires prompt.Prompt?
    requires at.maxCycles == a.d.row.maxCycles && at.batch == a.d.row.batch && at.status == Active
    requires BudgetOf(su, a.d) >= 2 * at.maxCycles * Left(su.totalBatches, at.batch) + Price(at, prompt.role)
    requires SameCounters(at, b.d.row)
    requires Decisions(b.d.log) == Decisions(a.d.log)
    requires Exchanges(b.d.log) == Exchanges(a.d.log) + [Stamp(at, prompt)]
             + (if reply.Some? then [Stamp(at, Response(prompt.role, reply.value))] else [])
    requires reply.Some? ==> b.answered == a.answered + 1 && b.failed == a.failed
    requires reply.None? ==> b.answered == a.answered && b.failed == a.failed + 1
    ensures Stepped(su, a, b, if reply.Some? then KeepGoing else Threw)
  {
    var x, y := Exchanges(a.d.log), Exchanges(b.d.log);
    assert y[..|x|] == x;
  }

  lemma LeavingSteps(su: Setup, a: Mark, b: Mark, outcome: StepOutcome)
    requires a.d.row.maxCycles >= 1
    requires LastExchange(a.d.log).Some? && LastExchange(a.d.log).value.batch == a.d.row.batch
    requires Exchanges(b.d.log) == Exchanges(a.d.log) && Decisions(b.d.log) == Decisions(a.d.log)
    requires b.answered == a.answered && b.failed == a.failed
    requires outcome.KeepGoing? || outcome.Settled?
    requires a.d.row.batch >= su.totalBatches ==>
               outcome.Settled? && b.d.row == a.d.row.(status := Complete, advanceAfterResponse := b.d.row.advanceAfterResponse)
    requires a.d.row.batch < su.totalBatches ==>
               && b.d.row == a.d.row.(batch := a.d.row.batch + 1, cycle := 1, advanceAfterResponse := b.d.row.advanceAfterResponse,
                                      status := if outcome.KeepGoing? then Active else Stopped)
               && (outcome.Settled? ==> b.d.intent == None && (b.meddled == a.meddled ==> a.d.intent == Some(BatchEnd)))
    ensures Stepped(su, a, b, outcome)
  {
    if a.d.row.batch < su.totalBatches {
      AdvanceKeepsBudget(su, a.d.row, b.d.row, LastExchange(a.d.log));
    }
  }

  lemma EmptyCellStays(a: Mark, b: Mark)
    requires Heeded(a, b)
    ensures b.meddled >= a.meddled && (b.meddled == a.meddled && a.d.intent == None ==> b.d.intent == None)
  {}

  lemma BoundGrows(cycles: nat, few: int, many: int)
    requires few <= many
    ensures 0 <= CallBound(cycles, few) <= CallBound(cycles, many)
  {
    var a, b := Most(1, few), Most(1, many);
    assert 0 <= a <= b;
    hide Most;
    TimesGrows(2 * cycles, a, b);
  }

  lemma OneAtLeast(n: int)
    ensures Most(1, n) >= 1
  {}

  lemma TimesGrows(n: nat, a: nat, b: nat)
    requires a <= b
    ensures 0 <= n * a <= n * b
  {}

  /** Two calls for each review cycle of each batch, and of one batch at least. */
  function CallBound(maxCycles: nat, batches: int): int {
    2 * maxCycles * Most(1, batches)
  }

  function Most(a: int, b: int): int {
    if a >= b then a else b
  }

  lemma TalkedNothing(a: Mark)
    ensures Talked(a, a)
  {}

  lemma TalkedOn(a: Mark, b: Mark, c: Mark)
    requires Talked(a, b) && Exchanges(c.d.log) == Exchanges(b.d.log) && c.answered == b.answered && c.failed == b.failed
    ensures Talked(a, c)
  {}

  lemma SpentNothing(su: Setup, a: Mark)
    ensures Spent(su, a, a, 0)
  {}

  lemma SpentAdds(su: Setup, a: Mark, b: Mark, c: Mark, before: nat, after: nat)
    requires Spent(su, a, b, before) && Spent(su, b, c, after)
    ensures Spent(su, a, c, before + after)
  {}

  lemma SpentThroughNote(su: Setup, a: Mark, b: Mark, c: Mark, failures: nat)
    requires Spent(su, a, b, failures)
    requires c.d.row == b.d.row && c.answered == b.answered && c.failed == b.failed && SameTalk(b.d.log, c.d.log)
    ensures Spent(su, a, c, failures)
  {}

  lemma SpentMeans(su: Setup, a: Mark, b: Mark, failures: nat)
    requires Spent(su, a, b, failures)
    ensures b.answered - a.answered <= BudgetOf(su, a.d)
    ensures b.failed == a.failed + failures && Talked(a, b)
    ensures Decisions(b.d.log) == Decisions(a.d.log)
  {}

  /** What a resume asks first: after `continue` and `accept` the implementer, with the last review, and at an unclear
      pause the reviewer, with the prompt it was sent before. */
  predicate AsksFirst(su: Setup, d: Durable, decision: Option<Decision>, log: seq<Event>) {
    match d.row.status
    case PausedCycleCap =>
      decision == Some(Continue) || decision == Some(Accept) ==>
        && LastExchange(d.log).Some? && LastExchange(d.log).value.entry.Response?
        && var review := LastExchange(d.log).value.entry.text;
        && var body := if decision == Some(Continue) then ApplyFixes(d.row.batch, review) else ApplyFinal(d.row.batch, review);
        && var cycle := if decision == Some(Continue) then d.row.cycle + 1 else d.row.cycle;
        Asked(d.log, log, d.row.(cycle := cycle), Implementer, su.prose(body), body)
    case PausedUnclearVerdict =>
      Relay.Unroutable(LastExchange(d.log)) ==>
        && LastReviewerPrompt(d.log).Some? && LastReviewerPrompt(d.log).value.entry.Prompt?
        && var original := LastReviewerPrompt(d.log).value.entry;
        Asked(d.log, log, d.row, Reviewer, original.text, original.body)
    case _ => true
  }

  lemma CompleteAsksNothing(su: Setup, d: Durable, decision: Option<Decision>)
    requires d.row.status == Complete
    ensures AsksFirst(su, d, decision, d.log)
  {}

  lemma AskedSince(log: seq<Event>, log1: seq<Event>, log': seq<Event>, at: Row, at1: Row, prompt: Entry)
    requires prompt.Prompt? && Exchanges(log1) == Exchanges(log) && at1.batch == at.batch && at1.cycle == at.cycle
    requires Asked(log1, log', at1, Reviewer, prompt.text, prompt.body)
    ensures Asked(log, log', at, Reviewer, prompt.text, prompt.body)
  {}

  lemma AskedStill(log: seq<Event>, log1: seq<Event>, log': seq<Event>, at: Row, role: Role, text: Text, body: Body)
    requires Asked(log, log1, at, role, text, body) && Exchanges(log1) <= Exchanges(log')
    ensures Asked(log, log', at, role, text, body)
  {}

  lemma AsksFirstStill(su: Setup, d: Durable, d1: Durable, b: Mark, c: Mark, decision: Option<Decision>)
    requires d1.row == d.row && d1.log == d.log && AsksFirst(su, d1, decision, b.d.log) && Talked(b, c)
    ensures AsksFirst(su, d, decision, c.d.log)
  {
    forall at, role, text, body | Asked(d.log, b.d.log, at, role, text, body)
      ensures Asked(d.log, c.d.log, at, role, text, body)
    {
      AskedStill(d.log, b.d.log, c.d.log, at, role, text, body);
    }
    hide Asked, Exchanges, LastExchange, LastReviewerPrompt, Relay.Unroutable;
  }

  lemma DecisionIsSilent(d: Durable, decision: Decision)
    ensures Exchanges(Decide(d, decision).log) == Exchanges(d.log)
  {
    Appended(d.log, Stamp(d.row, Decided(decision)));
  }

  lemma CallTalks(a: Mark, b: Mark, at: Row, prompt: Entry, reply: Option<Text>)
    requires prompt.Prompt?
    requires Exchanges(b.d.log) == Exchanges(a.d.log) + [Stamp(at, prompt)]
             + (if reply.Some? then [Stamp(at, Response(prompt.role, reply.value))] else [])
    requires b.answered == a.answered + (if reply.Some? then 1 else 0) && b.failed == a.failed + (if reply.Some? then 0 else 1)
    ensures Talked(a, b)
  {}

  lemma SilenceTalks(a: Mark, b: Mark)
    requires Exchanges(b.d.log) == Exchanges(a.d.log) && b.answered == a.answered && b.failed == a.failed
    ensures Talked(a, b)
  {}

  lemma TalkedFurther(a: Mark, b: Mark, c: Mark)
    requires Talked(a, b) && Talked(b, c)
    ensures Talked(a, c)
  {}

  /** The call, or the advance, a decision stands for. */
  predicate DecisionAllowed(su: Setup, d: Durable, decision: Decision) {
    var review := LastExchange(d.log);
    && review.Some? && review.value.entry.Response?
    && match decision
       case Continue =>
         var body := ApplyFixes(d.row.batch, review.value.entry.text);
         PromptAllowed(su, Decide(d, decision), Implementer, su.prose(body), body)
       case Accept =>
         var body := ApplyFinal(d.row.batch, review.value.entry.text);
         PromptAllowed(su, Decide(d, decision), Implementer, su.prose(body), body)
       case Proceed => AdvanceAllowed(Decide(d, decision), d.row.advanceAfterResponse)
  }

  lemma DecisionAllows(su: Setup, d: Durable, decision: Decision, into: Option<string>)
    requires Inv(su, d) && d.row.status == PausedCycleCap
    ensures DecisionAllowed(su, d, decision)
    ensures SessionAllowed(su, Decide(d, decision), Implementer, into)
    ensures Decisions(Decide(d, decision).log) == Decisions(d.log) + [Stamp(d.row, Decided(decision))]
  {
    DecisionIsFresh(su, d, decision, into);
    RelayDecisions.CapShows(su, d);
    match decision {
      case Continue => var body := RelayDecisions.ContinueMayAsk(su, d);
      case Accept => RelayDecisions.AcceptMayAsk(su, d);
      case Proceed => RelayDecisions.ProceedSettles(su, d);
    }
    hide Anchored, Conversed, Counted, Limited, Decide, PromptAllowed, AdvanceAllowed, LastExchange, Decisions, SessionAllowed;
  }

  lemma DecisionIsFresh(su: Setup, d: Durable, decision: Decision, into: Option<string>)
    requires Inv(su, d) && d.row.status == PausedCycleCap
    ensures SessionAllowed(su, Decide(d, decision), Implementer, into)
    ensures Decisions(Decide(d, decision).log) == Decisions(d.log) + [Stamp(d.row, Decided(decision))]
  {
    var e := Stamp(d.row, Decided(decision));
    Appended(d.log, e);
    SilentEventKeeps(su, d.log, e);
    RelayDecisions.CapShows(su, d);
    hide Anchored, Conversed, Counted, Limited, SessionAllowed, Reviewed;
    AnsweredStepIsFresh(su, Decide(d, decision), Implementer, into);
  }

  /** At an unclear pause the full review prompt may be sent again, into the stored session. */
  lemma UnclearAsksAgain(su: Setup, d: Durable)
    requires Inv(su, d) && d.row.status == PausedUnclearVerdict
    ensures LastExchange(d.log).Some? && LastExchange(d.log).value.entry.Response?
    ensures var original := LastReviewerPrompt(d.log);
            && original.Some? && original.value.entry.Prompt?
            && PromptAllowed(su, d.(row := d.row.(status := Active)), Reviewer, original.value.entry.text, original.value.entry.body)
  {
    var x := Exchanges(d.log);
    assert Exchanged(su, x, |x| - 1);
  }

  lemma SettlingLeavesActive(su: Setup, d: Durable, status: Status, pendingAfter: bool)
    requires SettleAllowed(su, d, status, pendingAfter)
    ensures status != Active
  {}

  // ---- a stop that does not last ----

  function WithNote(d: Durable): Durable {
    d.(log := d.log + [Stamp(d.row, Note)])
  }

  lemma NoteGoes(su: Setup, d: Durable)
    requires d.row.status == Active
    ensures Next(su, d, WithNote(d)) && SameTalk(d.log, WithNote(d).log)
  {
    NoteIsSilent(d.log, Stamp(d.row, Note));
    assert Noted(d, WithNote(d));
  }

  lemma CellGoes(su: Setup, d: Durable, value: Option<PauseIntent>)
    ensures Next(su, d, d.(intent := value))
  {
    assert Intended(d, d.(intent := value));
  }

  lemma StopGoes(su: Setup, d: Durable)
    requires d.row.status == Active
    ensures var stopped := d.(row := d.row.(status := Stopped)); Next(su, d, stopped) && Next(su, stopped, d)
  {
    var stopped := d.(row := d.row.(status := Stopped));
    hide LastExchange, AdvanceAllowed, Reviewed, PromptAllowed, SessionAllowed;
    assert RelayProtocol.Settled(su, d, stopped);
    assert Activated(stopped, d);
  }

  /** The transaction of `proceed`, its note, and the advance with its note. */
  lemma ProceedMoves(su: Setup, d: Durable) returns (noted: Durable, advanced: Durable)
    requires Inv(su, d) && d.row.status == PausedCycleCap && d.row.batch < su.totalBatches
    ensures Next(su, d, Decide(d, Proceed)) && Next(su, Decide(d, Proceed), noted) && Next(su, noted, advanced)
    ensures advanced.row == d.row.(status := Active, batch := d.row.batch + 1, cycle := 1) && advanced.intent == d.intent
    ensures Inv(su, noted) || !ValidSetup(su)
    ensures LastExchange(advanced.log).Some? && LastExchange(advanced.log).value.batch == d.row.batch
    ensures LastExchange(advanced.log).value.entry.Response?
  {
    var decided := Decide(d, Proceed);
    assert decided.row == d.row.(status := Active) && decided.intent == d.intent;
    assert DecidedStep(d, decided);
    RelayDecisions.CapShows(su, d);
    RelayDecisions.ProceedSettles(su, d);
    NoteGoes(su, decided);
    noted := WithNote(decided);
    AdvanceStaysAllowed(decided, noted, d.row.advanceAfterResponse);
    hide Next, Inv, AdvanceAllowed, Decide, Reviewed;
    advanced := RelayDecisions.AdvancesKeepingThePending(su, noted);
    if ValidSetup(su) {
      NextKeepsInv(su, d, decided);
      NextKeepsInv(su, decided, noted);
    }
  }

  /** BATCH_END, asked for once `proceed` holds the run, is honoured by the advance `proceed` makes, and the
      same command takes the run on all the same: stopped, active again and the next batch opened, with no
      operator in between. It happens from every cap pause with a batch to go to. */
  lemma HonouredStopIsUndone(su: Setup, d: Durable) returns (t: seq<Durable>)
    requires ValidSetup(su) && Inv(su, d) && d.row.status == PausedCycleCap && d.row.batch < su.totalBatches
    ensures |t| == 12 && t[0] == d && Linked(su, t)
    ensures t[1] == d.(intent := None) && t[2] == Decide(t[1], Proceed)
    ensures t[6] == t[5].(intent := Some(BatchEnd)) && t[7] == t[6].(intent := None)
    ensures t[9].row == d.row.(status := Stopped, batch := d.row.batch + 1, cycle := 1) && t[9].intent == None
    ensures t[10].row == t[9].row.(status := Active) && t[11].row == t[10].row
    ensures LastExchange(t[11].log).Some? && LastExchange(t[11].log).value.batch == d.row.batch + 1
  {
    hide Next, Inv, Decide, ValidSetup, LastExchange, WithNote;
    var claimed := d.(intent := None);
    CellGoes(su, d, None);
    NextKeepsInv(su, d, claimed);
    var noted, advanced := ProceedMoves(su, claimed);
    var moved, resting, begun := StopsAndOpens(su, noted, advanced);
    t := [d, claimed, Decide(claimed, Proceed), noted, advanced, moved, moved.(intent := Some(BatchEnd)), moved,
          resting, resting.(row := resting.row.(status := Stopped)), resting, begun];
    forall i | 0 < i < |t|
      ensures Next(su, t[i - 1], t[i])
    {
    }
  }

  lemma StopsAndOpens(su: Setup, before: Durable, d: Durable) returns (moved: Durable, resting: Durable, begun: Durable)
    requires ValidSetup(su) && Inv(su, before) && Next(su, before, d) && d.row.status == Active && d.intent == None
    requires LastExchange(d.log).Some? && LastExchange(d.log).value.batch < d.row.batch
    requires LastExchange(d.log).value.entry.Response?
    ensures Next(su, d, moved) && moved.row == d.row && moved.intent == None
    ensures var asked := moved.(intent := Some(BatchEnd)); Next(su, moved, asked) && Next(su, asked, moved)
    ensures Next(su, moved, resting) && resting.row == d.row && resting.intent == None
    ensures var stopped := resting.(row := resting.row.(status := Stopped)); Next(su, resting, stopped) && Next(su, stopped, resting)
    ensures Next(su, resting, begun) && begun.row == d.row
    ensures LastExchange(begun.log).Some? && LastExchange(begun.log).value.batch == d.row.batch
  {
    moved := WithNote(d);
    resting := WithNote(moved);
    NoteGoes(su, d);
    NoteGoes(su, moved);
    hide Next, Inv, ValidSetup;
    assert LastExchange(resting.log) == LastExchange(d.log);
    CellGoes(su, moved, Some(BatchEnd));
    CellGoes(su, moved.(intent := Some(BatchEnd)), None);
    StopGoes(su, resting);
    NextKeepsInv(su, before, d);
    NextKeepsInv(su, d, moved);
    NextKeepsInv(su, moved, resting);
    RelayDecisions.NewBatchMayOpen(su, resting);
    hide LastExchange, RelayDecisions.MayAsk, Opener, OpeningBody, LastDecision;
    begun := RelayDecisions.Asks(su, resting, Opener(su, resting.row.batch), OpeningBody(su, resting.row.batch, true));
  }
}
