/** States that runs do reach: the cap pause, with and without an advance pending. */
module RelayReach {
  import opened Wrappers
  import opened Utf16
  import V = Verdicts
  import opened RelayProtocol
  import RelaySafety
  import opened RelayTheorems
  import opened RelayDecisions

  ghost predicate Reached(su: Setup, d: Durable) {
    exists t :: IsRun(su, t) && t[|t| - 1] == d
  }

  lemma ReachedNext(su: Setup, d: Durable, d': Durable)
    requires Reached(su, d) && Next(su, d, d')
    ensures Reached(su, d')
  {
    var t :| IsRun(su, t) && t[|t| - 1] == d;
    ExtendRun(su, t, d');
    assert (t + [d'])[|t + [d']| - 1] == d';
  }

  lemma ReachedInitially(su: Setup)
    requires ValidSetup(su)
    ensures Reached(su, Initial(su))
  {
    assert IsRun(su, [Initial(su)]) && [Initial(su)][|[Initial(su)]| - 1] == Initial(su);
  }

  // ---- the way to the cap ----

  /** A row of a run that stores no session, with no advance pending. */
  function Plain(su: Setup, batch: nat, cycle: nat, status: Status): Row {
    Row(su.maxCycles, batch, cycle, status, false, Slot(None, None), Slot(None, None))
  }

  /** The reviewer has asked for fixes in cycle `cycle` of the batch. */
  predicate Fixing(su: Setup, d: Durable, batch: nat, cycle: nat) {
    && d.row == Plain(su, batch, cycle, Active)
    && LastExchange(d.log) == Some(Event(batch, cycle, Response(Reviewer, V.FIX))) && !DecisionIsLast(d.log)
  }

  lemma ReachedInv(su: Setup, d: Durable)
    requires Reached(su, d)
    ensures ValidSetup(su) && RelaySafety.Inv(su, d)
  {
    var t :| IsRun(su, t) && t[|t| - 1] == d;
    RunInv(su, t, |t| - 1);
  }

  /** A prompt and its answer. */
  lemma Exchange(su: Setup, d: Durable, role: Role, body: Body, reply: Text) returns (d': Durable)
    requires Reached(su, d) && MayAsk(su, d, role, body)
    requires LastExchange(d.log).Some? ==> LastExchange(d.log).value.entry.Response?
    requires !Blank(reply)
    ensures Reached(su, d') && d'.row == d.row && !DecisionIsLast(d'.log)
    ensures LastExchange(d'.log) == Some(Stamp(d.row, Response(role, reply)))
  {
    ReachedInv(su, d);
    assert d.row.status == Active;
    hide Reached, Next, MayAsk, LastExchange, LastDecision, DecisionIsLast, RelaySafety.Inv, ValidSetup, Blank;
    var asked := Asks(su, d, role, body);
    d' := Answers(su, d, asked, role, reply);
    ReachedNext(su, d, asked);
    ReachedNext(su, asked, d');
  }

  /** A batch that may be opened is, and the reviewer asks for fixes. */
  lemma FirstReview(su: Setup, d: Durable, batch: nat, afterAccept: bool) returns (d': Durable)
    requires Reached(su, d) && d.row == Plain(su, batch, 1, Active)
    requires MayAsk(su, d, Opener(su, batch), OpeningBody(su, batch, afterAccept))
    requires LastExchange(d.log).Some? ==> LastExchange(d.log).value.entry.Response?
    ensures Reached(su, d') && Fixing(su, d', batch, 1)
  {
    V.FixRoutesToTheImplementer();
    V.DoneIsUnclear();
    hide Reached, V.RouteOf, Blank;
    if Opener(su, batch) == Reviewer {
      d' := Exchange(su, d, Reviewer, OpeningBody(su, batch, afterAccept), V.FIX);
    } else {
      var built := Exchange(su, d, Implementer, OpeningBody(su, batch, afterAccept), V.DONE);
      d' := Exchange(su, built, Reviewer, ReviewSummary(batch, V.DONE), V.FIX);
    }
  }

  lemma NextCycle(su: Setup, d: Durable, batch: nat, cycle: nat) returns (d': Durable)
    requires Reached(su, d) && Fixing(su, d, batch, cycle) && cycle < su.maxCycles
    ensures Reached(su, d') && Fixing(su, d', batch, cycle + 1)
  {
    V.FixRoutesToTheImplementer();
    V.DoneIsUnclear();
    hide Reached, V.RouteOf, Blank;
    var counted := d.(row := d.row.(cycle := cycle + 1));
    assert Recycled(d, counted);
    ReachedNext(su, d, counted);
    hide Next, LastExchange;
    var fixed := Exchange(su, counted, Implementer, ApplyFixes(batch, V.FIX), V.DONE);
    d' := Exchange(su, fixed, Reviewer, ReviewSummary(batch, V.DONE), V.FIX);
  }

  lemma {:induction false} UpToTheCap(su: Setup, d: Durable, batch: nat, cycle: nat) returns (d': Durable)
    requires Reached(su, d) && Fixing(su, d, batch, 1) && 1 <= cycle <= su.maxCycles
    ensures Reached(su, d') && Fixing(su, d', batch, cycle)
  {
    hide Reached, Fixing;
    if cycle == 1 {
      d' := d;
    } else {
      var before := UpToTheCap(su, d, batch, cycle - 1);
      d' := NextCycle(su, before, batch, cycle - 1);
    }
  }

  lemma CapStops(su: Setup, d: Durable, batch: nat) returns (d': Durable)
    requires Reached(su, d) && Fixing(su, d, batch, su.maxCycles)
    ensures Reached(su, d') && d'.row == Plain(su, batch, su.maxCycles, PausedCycleCap)
  {
    V.FixRoutesToTheImplementer();
    hide Reached, V.RouteOf;
    d' := d.(row := d.row.(status := PausedCycleCap));
    assert Settled(su, d, d');
    ReachedNext(su, d, d');
  }

  lemma FirstMayOpen(su: Setup)
    ensures MayAsk(su, Initial(su), Opener(su, su.startBatch), OpeningBody(su, su.startBatch, false))
    ensures Initial(su).row == Plain(su, su.startBatch, 1, Active) && LastExchange(Initial(su).log) == None
  {}

  lemma ReachedByProceed(su: Setup, d: Durable) returns (next: Durable)
    requires Reached(su, d) && RelaySafety.Anchored(su, d)
    requires d.row.status == PausedCycleCap && d.row.batch < su.totalBatches
    ensures Reached(su, next) && Entered(d, next)
  {
    hide *;
    DecidesNext(su, d, Proceed);
    next := ProceedAdvances(su, d);
    ReachedNext(su, d, Decide(d, Proceed));
    ReachedNext(su, Decide(d, Proceed), next);
  }

  lemma EnteredMayOpen(su: Setup, d: Durable, next: Durable, batch: nat)
    requires Entered(d, next) && d.row == Plain(su, batch, su.maxCycles, PausedCycleCap)
    requires LastExchange(d.log).Some? && LastExchange(d.log).value.batch == batch
    requires LastExchange(d.log).value.entry.Response?
    ensures next.row == Plain(su, batch + 1, 1, Active)
    ensures MayAsk(su, next, Opener(su, batch + 1), OpeningBody(su, batch + 1, true))
    ensures LastExchange(next.log).Some? && LastExchange(next.log).value.entry.Response?
  {
    hide MayAsk, LastExchange, LastDecision, Opener, OpeningBody;
    NewBatchMayOpen(su, next);
  }

  /** The operator's `proceed` at a cap pause with a batch to go to opens that batch. */
  lemma NextBatch(su: Setup, d: Durable, batch: nat) returns (next: Durable)
    requires Reached(su, d) && d.row == Plain(su, batch, su.maxCycles, PausedCycleCap) && batch < su.totalBatches
    ensures Reached(su, next) && next.row == Plain(su, batch + 1, 1, Active)
    ensures MayAsk(su, next, Opener(su, batch + 1), OpeningBody(su, batch + 1, true))
    ensures LastExchange(next.log).Some? && LastExchange(next.log).value.entry.Response?
  {
    assert d.row.status == PausedCycleCap && d.row.batch == batch;
    hide *;
    ReachedInv(su, d);
    InvAnchors(su, d);
    CapShows(su, d);
    next := ReachedByProceed(su, d);
    EnteredMayOpen(su, d, next, batch);
  }

  lemma InvAnchors(su: Setup, d: Durable)
    requires RelaySafety.Inv(su, d)
    ensures RelaySafety.Anchored(su, d)
  {}

  lemma FirstBatchOpens(su: Setup) returns (d: Durable)
    requires ValidSetup(su)
    ensures Reached(su, d) && Fixing(su, d, su.startBatch, 1)
  {
    hide Reached, MayAsk, Fixing, LastExchange, ValidSetup, Opener, OpeningBody;
    ReachedInitially(su);
    FirstMayOpen(su);
    d := FirstReview(su, Initial(su), su.startBatch, false);
  }

  lemma CyclesArePositive(su: Setup)
    requires ValidSetup(su)
    ensures su.maxCycles >= 1
  {}

  /** Whatever a run is started with, every batch from the first on can be the one it pauses in at the cap. */
  lemma {:induction false} CapAt(su: Setup, batch: nat) returns (d: Durable)
    requires ValidSetup(su) && su.startBatch <= batch && (batch == su.startBatch || batch <= su.totalBatches)
    ensures Reached(su, d) && d.row == Plain(su, batch, su.maxCycles, PausedCycleCap)
    decreases batch
  {
    hide *;
    var begun: Durable;
    if batch == su.startBatch {
      begun := FirstBatchOpens(su);
    } else {
      var before := CapAt(su, batch - 1);
      var next := NextBatch(su, before, batch - 1);
      begun := FirstReview(su, next, batch, true);
    }
    CyclesArePositive(su);
    var capped := UpToTheCap(su, begun, batch, su.maxCycles);
    d := CapStops(su, capped, batch);
  }

  /** Whatever a run is started with, a reviewer who keeps asking for fixes brings it to the cap. */
  lemma CapPauseIsReached(su: Setup) returns (d: Durable)
    requires ValidSetup(su)
    ensures Reached(su, d) && d.row.status == PausedCycleCap && d.row.batch == su.startBatch && !d.row.advanceAfterResponse
  {
    hide Reached, ValidSetup;
    d := CapAt(su, su.startBatch);
  }

  /** The last batch of a run. */
  function LastBatch(su: Setup): nat {
    if su.startBatch > su.totalBatches then su.startBatch else su.totalBatches
  }

  /** And an operator who then proceeds from batch to batch brings it to COMPLETE. */
  lemma CompleteIsReached(su: Setup) returns (d: Durable)
    requires ValidSetup(su)
    ensures Reached(su, d) && d.row == Plain(su, LastBatch(su), su.maxCycles, Complete)
  {
    hide Reached, Next, ValidSetup, RelaySafety.Inv, RelaySafety.Anchored, Decide, AdvanceAllowed;
    var capped := CapAt(su, LastBatch(su));
    ReachedInv(su, capped);
    InvAnchors(su, capped);
    ProceedSettles(su, capped);
    DecidesNext(su, capped, Proceed);
    var decided := Decide(capped, Proceed);
    ProceedActivates(capped);
    ReachedNext(su, capped, decided);
    SettlesNext(su, decided, Complete);
    d := decided.(row := decided.row.(status := Complete));
    ReachedNext(su, decided, d);
  }

  lemma ProceedActivates(d: Durable)
    ensures Decide(d, Proceed).row == d.row.(status := Active)
  {}

  /** And an `accept` that dies before its prompt brings it back there with the advance pending. */
  lemma PendingCapPauseIsReached(su: Setup) returns (d: Durable)
    requires ValidSetup(su)
    ensures Reached(su, d) && d.row.status == PausedCycleCap && d.row.batch == su.startBatch && d.row.advanceAfterResponse
  {
    var capped := CapPauseIsReached(su);
    ReachedInv(su, capped);
    hide Reached, Next, Decide;
    d := AcceptWindowReopens(su, capped);
    var stretch := [capped, Decide(capped, Accept), d];
    assert Next(su, stretch[0], stretch[1]) && Next(su, stretch[1], stretch[2]);
    ReachedNext(su, capped, Decide(capped, Accept));
    ReachedNext(su, Decide(capped, Accept), d);
  }
}
