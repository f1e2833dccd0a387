/** The relay under the lease: processes that load the row, claim the run and work it, each from the copy of
    the row it carries. With harmless claims every history is a run of the relay; without them a copy is written
    over what another process has done. */
module RelayClaims {
  import opened Wrappers
  import opened Utf16
  import L = Lease
  import V = Verdicts
  import opened RelayProtocol
  import RelaySafety
  import opened RelayTheorems
  import RelayDecisions
  import RelayReach

  /** `row` is the row as it is, `past` its earlier versions. `launching` is the process that inserted the row, until
      it has claimed the run and made it active, or has given up: it tests nothing its copy shows. */
  datatype World = World(
    lease: L.State, row: Row, past: seq<Row>, log: seq<Event>, intent: Option<PauseIntent>, launching: Option<L.Pid>)

  datatype Act =
    | Leased(a: L.Action)
    | Work(p: L.Pid, d: Durable)
    | Launch(p: L.Pid)
    | Operate(value: Option<PauseIntent>)

  function Now(w: World): Durable {
    Durable(w.row, w.log, w.intent)
  }

  function RowAt(w: World, version: nat): Row {
    if version < |w.past| then w.past[version] else w.row
  }

  /** What a worker goes by: its own copy of the row, the log and the cell as they are. */
  function View(w: World, p: L.Pid): Durable
    requires L.At(w.lease, p).Working?
  {
    Durable(RowAt(w, L.At(w.lease, p).copy), w.log, w.intent)
  }

  predicate WritesRow(su: Setup, d: Durable, d': Durable) {
    || Activated(d, d') || Seated(d, d') || Recycled(d, d') || Advanced(su, d, d') || Settled(su, d, d')
    || DecidedStep(d, d')
  }

  predicate WritesLog(su: Setup, d: Durable, d': Durable) {
    Noted(d, d') || Prompted(su, d, d') || Responded(d, d') || Intended(d, d')
  }

  /** What `resume` writes back from the copy it loaded before its claim: at the cap the decision, and the
      activation at an unclear pause whose reply is the last word. Any other copy it reads again first. */
  predicate WrittenFirst(d: Durable) {
    || d.row.status == PausedCycleCap
    || (d.row.status == PausedUnclearVerdict && LastExchange(d.log).Some? && LastExchange(d.log).value.entry.Response?)
  }

  predicate MayWork(su: Setup, w: World, p: L.Pid, d: Durable) {
    && L.At(w.lease, p).Working? && w.launching != Some(p)
    && if WritesRow(su, View(w, p), d) then L.Fresh(w.lease, p) || WrittenFirst(View(w, p))
       else L.Fresh(w.lease, p) && WritesLog(su, View(w, p), d)
  }

  predicate MayLaunch(w: World, p: L.Pid) {
    L.At(w.lease, p).Working? && w.launching == Some(p)
  }

  predicate Claims(s: L.State, a: L.Action) {
    a.Claim? && !L.At(s, a.p).Working? && L.At(L.Do(s, a), a.p).Working?
  }

  predicate GivesUp(s: L.State, a: L.Action) {
    L.At(s, a.p) != L.Idle && L.At(L.Do(s, a), a.p) == L.Idle
  }

  /** Row writes are acts of their own, and the launching process does not read the row again. */
  predicate Possible(w: World, a: L.Action) {
    !a.WriteRow? && !(a.Reload? && w.launching == Some(a.p))
  }

  /** One statement of one process, or one write of the operator. The claim clears the operator's cell; a launch
      writes ACTIVE over whatever its copy shows. */
  function Step(su: Setup, w: World, act: Act): World {
    match act
    case Leased(a) =>
      if !Possible(w, a) then w
      else w.(
        lease := L.Do(w.lease, a),
        intent := if Claims(w.lease, a) then None else w.intent,
        launching := if w.launching == Some(a.p) && GivesUp(w.lease, a) then None else w.launching)
    case Work(p, d) =>
      if !MayWork(su, w, p, d) then w
      else if WritesRow(su, View(w, p), d) then
        World(L.Do(w.lease, L.WriteRow(p)), d.row, w.past + [w.row], d.log, d.intent, w.launching)
      else w.(log := d.log, intent := d.intent)
    case Launch(p) =>
      if !MayLaunch(w, p) then w
      else World(L.Do(w.lease, L.WriteRow(p)), View(w, p).row.(status := Active), w.past + [w.row], w.log, w.intent, None)
    case Operate(value) => w.(intent := value)
  }

  function Begin(su: Setup, launching: Option<L.Pid>): World {
    World(L.START, Initial(su).row, [], [], None, launching)
  }

  function After(su: Setup, w: World, acts: seq<Act>): World {
    if acts == [] then w else Step(su, After(su, w, acts[..|acts| - 1]), acts[|acts| - 1])
  }

  // ---- the lease inside ----

  /** What one act does to the lease. */
  function LeasePart(su: Setup, w: World, act: Act): (part: seq<L.Action>)
    ensures |part| <= 1
  {
    match act
    case Leased(a) => if Possible(w, a) then [a] else []
    case Work(p, d) => if MayWork(su, w, p, d) && WritesRow(su, View(w, p), d) then [L.WriteRow(p)] else []
    case Launch(p) => if MayLaunch(w, p) then [L.WriteRow(p)] else []
    case Operate(_) => []
  }

  /** The statements of a history that touch the lease or the row. */
  function LeaseOf(su: Setup, w: World, acts: seq<Act>): seq<L.Action> {
    if acts == [] then []
    else
      var front := acts[..|acts| - 1];
      LeaseOf(su, w, front) + LeasePart(su, After(su, w, front), acts[|acts| - 1])
  }

  lemma LeaseStep(su: Setup, w: World, act: Act)
    ensures var part := LeasePart(su, w, act);
            Step(su, w, act).lease == if part == [] then w.lease else L.Do(w.lease, part[0])
  {
    hide MayWork, WritesRow, L.Do, Claims;
  }

  lemma LeaseAfterPart(s: L.State, run: seq<L.Action>, part: seq<L.Action>)
    requires |part| <= 1
    ensures L.After(s, run + part) == if part == [] then L.After(s, run) else L.Do(L.After(s, run), part[0])
  {
    if part == [] {
      assert run + part == run;
    } else {
      assert (run + part)[..|run|] == run;
    }
  }

  /** What the lease does in a history is a run of the lease. */
  lemma {:induction false} LeaseRuns(su: Setup, w: World, acts: seq<Act>)
    ensures After(su, w, acts).lease == L.After(w.lease, LeaseOf(su, w, acts))
  {
    hide MayWork, WritesRow, L.Do, Claims, Step, LeasePart;
    if acts != [] {
      var front, last := acts[..|acts| - 1], acts[|acts| - 1];
      LeaseRuns(su, w, front);
      LeaseStep(su, After(su, w, front), last);
      LeaseAfterPart(w.lease, LeaseOf(su, w, front), LeasePart(su, After(su, w, front), last));
    }
  }

  lemma LeaseInv(su: Setup, launching: Option<L.Pid>, acts: seq<Act>)
    ensures L.Inv(After(su, Begin(su, launching), acts).lease)
  {
    hide *;
    LeaseRuns(su, Begin(su, launching), acts);
    BeginsAtStart(su, launching);
    L.EveryRunKeepsInv(LeaseOf(su, Begin(su, launching), acts));
  }

  lemma BeginsAtStart(su: Setup, launching: Option<L.Pid>)
    ensures Begin(su, launching).lease == L.START
  {}

  // ---- harmless claims ----

  /** The worker's copy is the row, or is read again before anything is written; a launching worker's copy is the
      row and shows neither COMPLETE nor the cap pause. */
  predicate Harmless(w: World, p: L.Pid)
    requires L.At(w.lease, p).Working?
  {
    if w.launching == Some(p) then L.Fresh(w.lease, p) && View(w, p).row.status !in {Complete, PausedCycleCap}
    else L.Fresh(w.lease, p) || !WrittenFirst(View(w, p))
  }

  ghost predicate HarmlessClaims(su: Setup, w: World, acts: seq<Act>) {
    forall i :: 0 <= i < |acts| ==> HarmlessAt(su, After(su, w, acts[..i]), acts[i])
  }

  predicate HarmlessAt(su: Setup, w: World, act: Act) {
    act.Leased? && Claims(w.lease, act.a) ==>
      L.At(Step(su, w, act).lease, act.a.p).Working? && Harmless(Step(su, w, act), act.a.p)
  }

  ghost predicate AllHarmless(w: World) {
    |w.past| == w.lease.version && forall p :: L.At(w.lease, p).Working? ==> Harmless(w, p)
  }

  lemma FreshView(w: World, p: L.Pid)
    requires |w.past| == w.lease.version && L.At(w.lease, p).Working? && L.Fresh(w.lease, p)
    ensures View(w, p) == Now(w)
  {}

  lemma LeasedStaysHarmless(su: Setup, w: World, a: L.Action)
    requires AllHarmless(w) && HarmlessAt(su, w, Leased(a)) && Possible(w, a)
    ensures AllHarmless(Step(su, w, Leased(a)))
  {
    var w' := Step(su, w, Leased(a));
    hide WrittenFirst;
    forall p | L.At(w'.lease, p).Working?
      ensures Harmless(w', p)
    {
      if L.At(w.lease, p).Working? {
        assert Harmless(w, p);
        LeasedKeepsView(su, w, a, p);
        if L.At(w'.lease, p) == L.At(w.lease, p) { SameFirst(View(w, p), View(w', p)); }
      }
    }
  }

  /** A statement that leaves a worker working leaves its copy, or makes it the row. */
  lemma LeasedKeepsView(su: Setup, w: World, a: L.Action, p: L.Pid)
    requires Possible(w, a) && L.At(w.lease, p).Working?
    requires L.At(Step(su, w, Leased(a)).lease, p).Working?
    ensures var w' := Step(su, w, Leased(a));
            && (w'.launching == Some(p) <==> w.launching == Some(p))
            && (L.At(w'.lease, p) == L.At(w.lease, p) || L.Fresh(w'.lease, p))
            && (L.At(w'.lease, p) == L.At(w.lease, p) || w.launching != Some(p))
            && w'.lease.version == w.lease.version && w'.past == w.past && w'.row == w.row && w'.log == w.log
  {
    hide WrittenFirst, Claims;
  }

  /** After a row write the writer is the one worker, and its copy is the row. */
  lemma WriteStaysFresh(s: L.State, p: L.Pid, q: L.Pid)
    requires L.Inv(s) && L.At(s, p).Working? && L.At(L.Do(s, L.WriteRow(p)), q).Working?
    ensures q == p && L.Fresh(L.Do(s, L.WriteRow(p)), q) && L.Do(s, L.WriteRow(p)).version == s.version + 1
  {
    assert L.Sound(s, p) && L.Sound(s, q);
  }

  lemma WritingKeepsWorking(s: L.State, p: L.Pid)
    requires L.At(s, p).Working?
    ensures L.At(L.Do(s, L.WriteRow(p)), p).Working?
  {}

  lemma RowWriteStaysHarmless(w: World, w': World, p: L.Pid)
    requires L.Inv(w.lease) && AllHarmless(w) && L.At(w.lease, p).Working?
    requires w'.lease == L.Do(w.lease, L.WriteRow(p)) && w'.past == w.past + [w.row] && w'.launching != Some(p)
    ensures AllHarmless(w')
  {
    hide L.Do, L.Inv, WrittenFirst;
    WritingKeepsWorking(w.lease, p);
    WriteStaysFresh(w.lease, p, p);
    forall q | L.At(w'.lease, q).Working?
      ensures Harmless(w', q)
    {
      WriteStaysFresh(w.lease, p, q);
    }
  }

  lemma LogWriteStaysHarmless(w: World, w': World, p: L.Pid)
    requires L.Inv(w.lease) && AllHarmless(w) && L.At(w.lease, p).Working? && L.Fresh(w.lease, p)
    requires w' == w.(log := w'.log, intent := w'.intent) && w.launching != Some(p)
    ensures AllHarmless(w')
  {
    hide WrittenFirst;
    forall q | L.At(w'.lease, q).Working?
      ensures Harmless(w', q)
    {
      assert L.Sound(w.lease, p) && L.Sound(w.lease, q);
    }
  }

  lemma WorkIsNext(su: Setup, w: World, p: L.Pid, d: Durable)
    requires MayWork(su, w, p, d)
    ensures Next(su, View(w, p), d)
    ensures !WritesRow(su, View(w, p), d) ==> d.row == View(w, p).row && L.Fresh(w.lease, p)
    ensures L.Fresh(w.lease, p) || WrittenFirst(View(w, p))
  {
    hide WrittenFirst, View, PromptAllowed, SessionAllowed, AdvanceAllowed, SettleAllowed, Reviewed, LastExchange, Decide, Blank;
  }

  lemma WorkStaysHarmless(su: Setup, w: World, p: L.Pid, d: Durable)
    requires L.Inv(w.lease) && AllHarmless(w) && MayWork(su, w, p, d)
    ensures AllHarmless(Step(su, w, Work(p, d)))
    ensures Next(su, Now(w), Now(Step(su, w, Work(p, d))))
  {
    WorkIsNext(su, w, p, d);
    assert Harmless(w, p);
    FreshView(w, p);
    var w' := Step(su, w, Work(p, d));
    hide WritesRow, WritesLog, WrittenFirst, L.Do, L.Inv, Next, AllHarmless, Harmless;
    if WritesRow(su, View(w, p), d) {
      RowWriteStaysHarmless(w, w', p);
    } else {
      LogWriteStaysHarmless(w, w', p);
    }
  }

  lemma LaunchStaysHarmless(su: Setup, w: World, p: L.Pid)
    requires L.Inv(w.lease) && AllHarmless(w) && MayLaunch(w, p)
    ensures AllHarmless(Step(su, w, Launch(p)))
    ensures Next(su, Now(w), Now(Step(su, w, Launch(p))))
  {
    assert Harmless(w, p);
    FreshView(w, p);
    var w' := Step(su, w, Launch(p));
    hide WrittenFirst, L.Do, L.Inv, AllHarmless, Harmless;
    RowWriteStaysHarmless(w, w', p);
    ActivatedIsNext(su, Now(w), Now(w'));
  }

  lemma ActivatedIsNext(su: Setup, d: Durable, d': Durable)
    requires Activated(d, d')
    ensures Next(su, d, d')
  {
    hide Noted, Prompted, Responded, Activated, Seated, Recycled, Advanced, Settled, DecidedStep, Intended;
  }

  lemma StepStaysHarmless(su: Setup, w: World, act: Act)
    requires L.Inv(w.lease) && AllHarmless(w) && HarmlessAt(su, w, act)
    ensures AllHarmless(Step(su, w, act)) && Next(su, Now(w), Now(Step(su, w, act)))
  {
    if act.Work? && MayWork(su, w, act.p, act.d) {
      hide *;
      WorkStaysHarmless(su, w, act.p, act.d);
    } else if act.Launch? && MayLaunch(w, act.p) {
      hide *;
      LaunchStaysHarmless(su, w, act.p);
    } else {
      SilentStep(su, w, act);
      if act.Leased? && Possible(w, act.a) { LeasedStaysHarmless(su, w, act.a); }
      hide *;
      CellIsFree(su, Now(w), Now(Step(su, w, act)));
    }
  }

  lemma SilentStep(su: Setup, w: World, act: Act)
    requires act.Work? ==> !MayWork(su, w, act.p, act.d)
    requires act.Launch? ==> !MayLaunch(w, act.p)
    ensures Now(Step(su, w, act)) == Now(w).(intent := Step(su, w, act).intent)
    ensures AllHarmless(w) && !(act.Leased? && Possible(w, act.a)) ==> AllHarmless(Step(su, w, act))
  {
    hide MayWork, MayLaunch, WrittenFirst, WritesRow, L.Do, Claims, GivesUp;
    var w' := Step(su, w, act);
    if AllHarmless(w) && !(act.Leased? && Possible(w, act.a)) {
      forall p | L.At(w'.lease, p).Working?
        ensures Harmless(w', p)
      {
        assert Harmless(w, p);
        SameFirst(View(w, p), View(w', p));
      }
    }
  }

  lemma SameFirst(d: Durable, d': Durable)
    requires d'.row == d.row && d'.log == d.log
    ensures WrittenFirst(d') == WrittenFirst(d)
  {}

  lemma CellIsFree(su: Setup, d: Durable, d': Durable)
    requires d'.row == d.row && d'.log == d.log
    ensures Next(su, d, d')
  {
    assert Intended(d, d');
  }

  /** The durable states of a history. */
  function States(su: Setup, w: World, acts: seq<Act>): (t: seq<Durable>)
    ensures |t| == |acts| + 1
  {
    if acts == [] then [Now(w)]
    else States(su, w, acts[..|acts| - 1]) + [Now(After(su, w, acts))]
  }

  lemma {:induction false} StateAt(su: Setup, w: World, acts: seq<Act>, i: nat)
    requires i <= |acts|
    ensures States(su, w, acts)[i] == Now(After(su, w, acts[..i]))
  {
    hide Step;
    if i == |acts| {
      assert acts[..i] == acts;
    } else {
      var front := acts[..|acts| - 1];
      StateAt(su, w, front, i);
      assert front[..i] == acts[..i];
    }
  }

  lemma BeginsFresh(su: Setup, launching: Option<L.Pid>)
    requires ValidSetup(su)
    ensures AllHarmless(Begin(su, launching)) && Now(Begin(su, launching)) == Initial(su)
  {}

  lemma HarmlessFront(su: Setup, w: World, acts: seq<Act>)
    requires HarmlessClaims(su, w, acts) && acts != []
    ensures HarmlessClaims(su, w, acts[..|acts| - 1])
    ensures HarmlessAt(su, After(su, w, acts[..|acts| - 1]), acts[|acts| - 1])
  {
    hide HarmlessAt, After;
    var front := acts[..|acts| - 1];
    forall i | 0 <= i < |front|
      ensures HarmlessAt(su, After(su, w, front[..i]), front[i])
    {
      assert front[..i] == acts[..i];
      assert HarmlessAt(su, After(su, w, acts[..i]), acts[i]);
    }
  }

  lemma AfterSnoc(su: Setup, w: World, acts: seq<Act>)
    requires acts != []
    ensures After(su, w, acts) == Step(su, After(su, w, acts[..|acts| - 1]), acts[|acts| - 1])
  {}

  /** With harmless claims the durable states of every history are a run of the relay: every theorem about runs
      is one about histories. */
  lemma {:induction false} HarmlessClaimsRun(su: Setup, launching: Option<L.Pid>, acts: seq<Act>)
    requires ValidSetup(su) && HarmlessClaims(su, Begin(su, launching), acts)
    ensures IsRun(su, States(su, Begin(su, launching), acts)) && AllHarmless(After(su, Begin(su, launching), acts))
  {
    var w := Begin(su, launching);
    BeginsFresh(su, launching);
    hide ValidSetup, Next, AllHarmless, Step, HarmlessClaims, HarmlessAt, L.Inv, Begin;
    if acts != [] {
      var front, last := acts[..|acts| - 1], acts[|acts| - 1];
      HarmlessFront(su, w, acts);
      HarmlessClaimsRun(su, launching, front);
      LeaseInv(su, launching, front);
      StepStaysHarmless(su, After(su, w, front), last);
      AfterSnoc(su, w, acts);
      StateAt(su, w, front, |front|);
      assert front[..|front|] == front;
      hide IsRun;
      ExtendRun(su, States(su, w, front), Now(After(su, w, acts)));
    }
  }

  /** So with harmless claims a complete run stays complete, whoever resumes it. */
  lemma CompleteStays(su: Setup, launching: Option<L.Pid>, acts: seq<Act>, i: nat)
    requires ValidSetup(su) && HarmlessClaims(su, Begin(su, launching), acts) && i <= |acts|
    requires After(su, Begin(su, launching), acts[..i]).row.status == Complete
    ensures var w, w' := After(su, Begin(su, launching), acts[..i]), After(su, Begin(su, launching), acts);
            w'.row == w.row && w'.log == w.log
  {
    hide *;
    var w := Begin(su, launching);
    HarmlessClaimsRun(su, launching, acts);
    StateAt(su, w, acts, i);
    StateAt(su, w, acts, |acts|);
    assert acts[..|acts|] == acts;
    NowShows(After(su, w, acts[..i]));
    NowShows(After(su, w, acts));
    CompleteIsAbsorbing(su, States(su, w, acts), i, |acts|);
  }

  /** And nothing of the log, the batch or the cap is ever taken back. */
  lemma HistoriesGrow(su: Setup, launching: Option<L.Pid>, acts: seq<Act>, i: nat)
    requires ValidSetup(su) && HarmlessClaims(su, Begin(su, launching), acts) && i <= |acts|
    ensures var w, w' := After(su, Begin(su, launching), acts[..i]), After(su, Begin(su, launching), acts);
            w.log <= w'.log && w.row.batch <= w'.row.batch && w.row.maxCycles <= w'.row.maxCycles
  {
    hide *;
    var w := Begin(su, launching);
    HarmlessClaimsRun(su, launching, acts);
    StateAt(su, w, acts, i);
    StateAt(su, w, acts, |acts|);
    assert acts[..|acts|] == acts;
    NowShows(After(su, w, acts[..i]));
    NowShows(After(su, w, acts));
    RunsOnlyGrow(su, States(su, w, acts), i, |acts|);
  }

  lemma NowShows(w: World)
    ensures Now(w).row == w.row && Now(w).log == w.log
  {}

  /** When a claim is fresh, in terms of the history: nobody wrote the row since the load. */
  lemma ClaimIsFreshIff(su: Setup, launching: Option<L.Pid>, before: seq<Act>, p: L.Pid, between: seq<Act>)
    requires var w := After(su, Begin(su, launching), before); p in w.lease.places && w.lease.places[p] == L.Idle
    requires var w := Step(su, After(su, Begin(su, launching), before), Leased(L.Load(p)));
             && (forall k :: 0 <= k < |LeaseOf(su, w, between)| ==> L.Climbs(LeaseOf(su, w, between)[k], p))
             && L.At(After(su, w, between).lease, p).Working?
    ensures var w := Step(su, After(su, Begin(su, launching), before), Leased(L.Load(p)));
            L.Fresh(After(su, w, between).lease, p) <==> !L.Wrote(w.lease, LeaseOf(su, w, between))
  {
    var w0 := After(su, Begin(su, launching), before);
    var w := Step(su, w0, Leased(L.Load(p)));
    assert w.lease == L.Do(w0.lease, L.Load(p));
    hide *;
    LeaseRuns(su, w, between);
    L.ClaimIsFreshIff(w0.lease, p, LeaseOf(su, w, between));
  }

  // ---- when a claim is harmless to begin with ----

  /** No copy is of a later version than the row. */
  ghost predicate CopiesKnown(s: L.State) {
    forall p :: L.CopyOf(L.At(s, p)).Some? ==> L.CopyOf(L.At(s, p)).value <= s.version
  }

  lemma DoKeepsCopies(s: L.State, a: L.Action)
    requires CopiesKnown(s)
    ensures CopiesKnown(L.Do(s, a)) && L.Do(s, a).version >= s.version
  {
    var t := L.Do(s, a);
    forall p | L.CopyOf(L.At(t, p)).Some?
      ensures L.CopyOf(L.At(t, p)).value <= t.version
    {
      assert L.CopyOf(L.At(s, p)).Some? ==> L.CopyOf(L.At(s, p)).value <= s.version;
    }
  }

  lemma StepKeepsUntouched(su: Setup, w: World, act: Act)
    requires CopiesKnown(w.lease) && |w.past| == w.lease.version
    ensures var w' := Step(su, w, act);
            && CopiesKnown(w'.lease) && |w'.past| == w'.lease.version && w'.lease.version >= w.lease.version
            && (w'.lease.version == w.lease.version ==> w'.row == w.row)
  {
    StepCounts(su, w, act);
    LeaseStep(su, w, act);
    var part := LeasePart(su, w, act);
    if part != [] { DoKeepsCopies(w.lease, part[0]); }
    hide WritesRow, WritesLog, WrittenFirst, Claims, GivesUp, CopiesKnown;
  }

  lemma {:induction false} UntouchedRow(su: Setup, launching: Option<L.Pid>, acts: seq<Act>)
    ensures var w := After(su, Begin(su, launching), acts);
            CopiesKnown(w.lease) && |w.past| == w.lease.version && (w.lease.version == 0 ==> w.row == Initial(su).row)
  {
    if acts != [] {
      hide Step, CopiesKnown, Begin;
      UntouchedRow(su, launching, acts[..|acts| - 1]);
      StepKeepsUntouched(su, After(su, Begin(su, launching), acts[..|acts| - 1]), acts[|acts| - 1]);
      AfterSnoc(su, Begin(su, launching), acts);
    }
  }

  /** Whoever works a row nobody has written since its insert does no harm, launching or not. */
  lemma UntouchedIsHarmless(su: Setup, launching: Option<L.Pid>, acts: seq<Act>, p: L.Pid)
    requires L.At(After(su, Begin(su, launching), acts).lease, p).Working?
    requires After(su, Begin(su, launching), acts).lease.version == 0
    ensures Harmless(After(su, Begin(su, launching), acts), p)
  {
    UntouchedRow(su, launching, acts);
    hide After;
    var s := After(su, Begin(su, launching), acts).lease;
    assert L.CopyOf(L.At(s, p)).Some?;
  }

  // ---- what the other copies do ----

  lemma {:induction false} PastIsCounted(su: Setup, launching: Option<L.Pid>, acts: seq<Act>)
    ensures var w := After(su, Begin(su, launching), acts); |w.past| == w.lease.version
  {
    hide MayWork, WritesRow, Claims;
    if acts != [] {
      PastIsCounted(su, launching, acts[..|acts| - 1]);
      StepCounts(su, After(su, Begin(su, launching), acts[..|acts| - 1]), acts[|acts| - 1]);
    }
  }

  lemma StepCounts(su: Setup, w: World, act: Act)
    requires |w.past| == w.lease.version
    ensures |Step(su, w, act).past| == Step(su, w, act).lease.version
  {
    hide WritesRow, WritesLog, WrittenFirst, Claims, GivesUp;
  }

  /** The process writes its copy of the row before it reads the row again. */
  predicate Overwrites(w: World, p: L.Pid)
    requires L.At(w.lease, p).Working?
  {
    w.launching == Some(p) || WrittenFirst(View(w, p))
  }

  predicate IsWrite(act: Act, p: L.Pid) {
    act == Launch(p) || (act.Work? && act.p == p)
  }

  ghost predicate CanReopen(su: Setup, w: World, p: L.Pid) {
    exists act :: IsWrite(act, p) && Step(su, w, act).row.status != Complete
  }

  ghost predicate CanGoBack(su: Setup, w: World, p: L.Pid) {
    exists act :: IsWrite(act, p) && Step(su, w, act).row.batch < w.row.batch
  }

  /** The first write of `resume` from a copy: the decision, or the activation. */
  lemma Rewrites(su: Setup, d: Durable) returns (d': Durable)
    requires WrittenFirst(d)
    ensures WritesRow(su, d, d') && d'.row.batch == d.row.batch && d'.row.status == Active
  {
    hide Advanced, Settled;
    if d.row.status == PausedCycleCap {
      d' := Decide(d, Accept);
      assert DecidedStep(d, d');
    } else {
      d' := d.(row := d.row.(status := Active));
      assert Activated(d, d');
    }
  }

  lemma RowWritesGoOn(su: Setup, d: Durable, d': Durable)
    requires WritesRow(su, d, d')
    ensures d.row.status != Complete && d'.row.batch >= d.row.batch
  {
    hide AdvanceAllowed, SettleAllowed, Reviewed;
  }

  /** What a write of the worker leaves in the row. */
  lemma WritesShow(su: Setup, w: World, p: L.Pid, act: Act)
    requires L.At(w.lease, p).Working? && IsWrite(act, p)
    ensures var row := Step(su, w, act).row;
            || row == w.row
            || (act == Launch(p) && w.launching == Some(p) && row == View(w, p).row.(status := Active))
            || (&& act.Work? && WritesRow(su, View(w, p), act.d) && row == act.d.row
                && (L.Fresh(w.lease, p) || WrittenFirst(View(w, p))))
  {
    hide WritesRow, WritesLog, WrittenFirst;
  }

  lemma WorkWrites(su: Setup, w: World, p: L.Pid, d: Durable)
    requires L.At(w.lease, p).Working? && w.launching != Some(p)
    requires WrittenFirst(View(w, p)) && WritesRow(su, View(w, p), d)
    ensures IsWrite(Work(p, d), p) && Step(su, w, Work(p, d)).row == d.row
  {
    hide WritesRow, WritesLog, WrittenFirst;
  }

  lemma OverwriteShows(su: Setup, w: World, p: L.Pid) returns (act: Act)
    requires L.At(w.lease, p).Working? && Overwrites(w, p)
    ensures IsWrite(act, p) && Step(su, w, act).row.status == Active && Step(su, w, act).row.batch == View(w, p).row.batch
  {
    if w.launching == Some(p) {
      act := Launch(p);
    } else {
      var d := Rewrites(su, View(w, p));
      hide WritesRow, WritesLog, WrittenFirst, Step;
      WorkWrites(su, w, p, d);
      act := Work(p, d);
    }
  }

  /** Exactly when a worker may take a complete run back: when it writes its copy before reading the row again. The
      command that inserted the row does so from a fresh copy too. */
  lemma ReopensIff(su: Setup, launching: Option<L.Pid>, acts: seq<Act>, p: L.Pid)
    requires var w := After(su, Begin(su, launching), acts); L.At(w.lease, p).Working? && w.row.status == Complete
    ensures var w := After(su, Begin(su, launching), acts);
            CanReopen(su, w, p) <==> Overwrites(w, p)
  {
    PastIsCounted(su, launching, acts);
    var w := After(su, Begin(su, launching), acts);
    hide After, Begin, WritesRow, WritesLog, WrittenFirst, Step;
    if Overwrites(w, p) {
      var act := OverwriteShows(su, w, p);
    }
    if CanReopen(su, w, p) {
      var act :| IsWrite(act, p) && Step(su, w, act).row.status != Complete;
      WritesShow(su, w, p, act);
      if act.Work? && WritesRow(su, View(w, p), act.d) { RowWritesGoOn(su, View(w, p), act.d); }
    }
  }

  /** And exactly when it may take the batch back. */
  lemma GoesBackIff(su: Setup, launching: Option<L.Pid>, acts: seq<Act>, p: L.Pid)
    requires L.At(After(su, Begin(su, launching), acts).lease, p).Working?
    ensures var w := After(su, Begin(su, launching), acts);
            CanGoBack(su, w, p) <==> Overwrites(w, p) && View(w, p).row.batch < w.row.batch
  {
    PastIsCounted(su, launching, acts);
    var w := After(su, Begin(su, launching), acts);
    hide After, Begin, WritesRow, WritesLog, WrittenFirst, Step;
    if Overwrites(w, p) && View(w, p).row.batch < w.row.batch {
      var act := OverwriteShows(su, w, p);
    }
    if CanGoBack(su, w, p) {
      var act :| IsWrite(act, p) && Step(su, w, act).row.batch < w.row.batch;
      WritesShow(su, w, p, act);
      if act.Work? && WritesRow(su, View(w, p), act.d) { RowWritesGoOn(su, View(w, p), act.d); }
    }
  }

  // ---- and that it happens ----

  ghost predicate Later(su: Setup, w: World, w': World) {
    exists acts :: After(su, w, acts) == w'
  }

  lemma LaterSelf(su: Setup, w: World)
    ensures Later(su, w, w)
  {
    assert After(su, w, []) == w;
  }

  lemma Goes(su: Setup, from: World, w: World, act: Act) returns (w': World)
    requires Later(su, from, w)
    ensures Later(su, from, w') && w' == Step(su, w, act)
  {
    hide Step;
    var acts :| After(su, from, acts) == w;
    assert (acts + [act])[..|acts|] == acts;
    w' := After(su, from, acts + [act]);
  }

  lemma GoesLeased(su: Setup, from: World, w: World, a: L.Action) returns (w': World)
    requires Later(su, from, w) && !a.WriteRow? && !a.Reload?
    ensures Later(su, from, w') && w'.lease == L.Do(w.lease, a)
    ensures w' == w.(lease := w'.lease, intent := w'.intent, launching := w'.launching)
    ensures w'.launching == if w.launching == Some(a.p) && GivesUp(w.lease, a) then None else w.launching
  {
    hide Later, L.Do, Claims, MayWork, WritesRow, GivesUp;
    w' := Goes(su, from, w, Leased(a));
  }

  lemma GoesWriting(su: Setup, from: World, w: World, p: L.Pid, d: Durable) returns (w': World)
    requires Later(su, from, w) && L.At(w.lease, p).Working? && w.launching != Some(p) && WritesRow(su, View(w, p), d)
    requires L.Fresh(w.lease, p) || WrittenFirst(View(w, p))
    ensures Later(su, from, w') && w'.lease == L.Do(w.lease, L.WriteRow(p))
    ensures w' == World(w'.lease, d.row, w.past + [w.row], d.log, d.intent, w.launching)
  {
    hide Later, L.Do, Claims, WritesRow, View, WrittenFirst;
    w' := Goes(su, from, w, Work(p, d));
  }

  /** Process 1 alone has worked the run so far; process 4 may stand before its launch. */
  predicate Alone(w: World) {
    && |w.past| == w.lease.version
    && w.lease.holder == Some(1) && w.lease.used <= {1, 4}
    && 1 in w.lease.places && w.lease.places[1] == L.Working(|w.past|)
    && (w.launching == None || (w.launching == Some(4) && 4 in w.lease.places && w.lease.places[4] == L.Idle))
  }

  lemma FourthStarts(su: Setup, launching: Option<L.Pid>) returns (w: World)
    requires launching in {None, Some(4)}
    ensures Later(su, Begin(su, launching), w) && Now(w) == Initial(su) && w.past == [] && w.launching == launching
    ensures w.lease == if launching == None then L.START else L.State(None, {4}, map[4 := L.Idle], 0)
  {
    w := Begin(su, launching);
    LaterSelf(su, w);
    hide Later;
    if launching == Some(4) {
      w := GoesLeased(su, Begin(su, launching), w, L.Spawn(4));
      w := Goes(su, Begin(su, launching), w, Operate(None));
    }
  }

  lemma AloneBegins(su: Setup, launching: Option<L.Pid>) returns (w: World)
    requires launching in {None, Some(4)}
    ensures Later(su, Begin(su, launching), w) && Alone(w) && Now(w) == Initial(su) && w.launching == launching
  {
    hide Later, GivesUp;
    var w0 := Begin(su, launching);
    w := FourthStarts(su, launching);
    w := GoesLeased(su, w0, w, L.Spawn(1));
    assert 1 in w.lease.places && w.lease.places[1] == L.Idle && w.lease.used <= {1, 4};
    w := TakesLease(su, w0, w, 1);
    w := Goes(su, w0, w, Operate(None));
  }

  /** A process nobody stands in the way of climbs to the lease. */
  lemma TakesLease(su: Setup, from: World, w: World, p: L.Pid) returns (w': World)
    requires Later(su, from, w) && p in w.lease.places && w.lease.places[p] == L.Idle && w.lease.holder == None
    ensures Later(su, from, w') && w' == w.(lease := w'.lease, intent := w'.intent)
    ensures w'.lease.holder == Some(p) && w'.lease.used == w.lease.used && w'.lease.version == w.lease.version
    ensures p in w'.lease.places && w'.lease.places[p] == L.Working(w.lease.version)
    ensures forall q :: q != p && q in w.lease.places ==> q in w'.lease.places && w'.lease.places[q] == w.lease.places[q]
  {
    hide Later;
    var v := w.lease.version;
    var loaded := GoesLeased(su, from, w, L.Load(p));
    assert loaded.lease == L.Move(w.lease, p, L.Loaded(v));
    var saw := GoesLeased(su, from, loaded, L.ReadHolder(p));
    assert saw.lease == L.Move(loaded.lease, p, L.SawHolder(v, None));
    w' := ClimbsOn(su, from, saw, p, v);
  }

  lemma ClimbsOn(su: Setup, from: World, w: World, p: L.Pid, copy: nat) returns (w': World)
    requires Later(su, from, w) && p in w.lease.places && w.lease.places[p] == L.SawHolder(copy, None) && w.lease.holder == None
    ensures Later(su, from, w') && w' == w.(lease := w'.lease, intent := w'.intent)
    ensures w'.lease.holder == Some(p) && w'.lease.used == w.lease.used && w'.lease.version == w.lease.version
    ensures p in w'.lease.places && w'.lease.places[p] == L.Working(copy)
    ensures forall q :: q != p && q in w.lease.places ==> q in w'.lease.places && w'.lease.places[q] == w.lease.places[q]
  {
    hide Later;
    var tested := GoesLeased(su, from, w, L.TestHolder(p));
    assert tested.lease == L.Move(w.lease, p, L.MayClaim(copy, None));
    w' := GoesLeased(su, from, tested, L.Claim(p));
    assert w'.lease == L.Move(tested.lease, p, L.Working(copy)).(holder := Some(p));
  }

  lemma AloneWorks(su: Setup, from: World, w: World, d: Durable) returns (w': World)
    requires Later(su, from, w) && Alone(w) && Next(su, Now(w), d)
    ensures Later(su, from, w') && Alone(w') && Now(w') == d && w'.launching == w.launching
  {
    NextWrites(su, Now(w), d);
    assert View(w, 1) == Now(w) && L.Fresh(w.lease, 1);
    hide Later, Next, WritesRow, WritesLog, WrittenFirst;
    if WritesRow(su, Now(w), d) {
      w' := GoesWriting(su, from, w, 1, d);
    } else {
      w' := Goes(su, from, w, Work(1, d));
    }
  }

  lemma NextWrites(su: Setup, d: Durable, d': Durable)
    requires Next(su, d, d')
    ensures WritesRow(su, d, d') || (WritesLog(su, d, d') && d'.row == d.row)
  {
    hide PromptAllowed, SessionAllowed, AdvanceAllowed, SettleAllowed, Reviewed, LastExchange, Decide;
  }

  /** Every run of the relay is the history of one process. */
  lemma {:induction false} AloneRuns(su: Setup, t: seq<Durable>, launching: Option<L.Pid>) returns (w: World)
    requires IsRun(su, t) && launching in {None, Some(4)}
    ensures Later(su, Begin(su, launching), w) && Alone(w) && Now(w) == t[|t| - 1] && w.launching == launching
  {
    hide Later, Next, Alone, ValidSetup;
    if |t| == 1 {
      w := AloneBegins(su, launching);
    } else {
      CrashAnywhere(su, t, |t| - 1);
      var before := AloneRuns(su, t[..|t| - 1], launching);
      assert Next(su, t[|t| - 1 - 1], t[|t| - 1]);
      w := AloneWorks(su, Begin(su, launching), before, t[|t| - 1]);
    }
  }

  /** Processes 2 and 3 and where they stand. */
  predicate Race(w: World, holder: Option<L.Pid>, second: L.Place, third: L.Place, version: nat) {
    && w.launching == None && |w.past| == w.lease.version == version
    && w.lease.holder == holder
    && 2 in w.lease.places && w.lease.places[2] == second
    && 3 in w.lease.places && w.lease.places[3] == third
  }

  /** Both load the row the first worker left; process 3 gets the lease. */
  lemma BothLoad(su: Setup, from: World, w: World) returns (w': World)
    requires Later(su, from, w) && Alone(w) && w.launching == None
    ensures Later(su, from, w') && w'.row == w.row && w'.log == w.log && w'.past == w.past
    ensures Race(w', Some(3), L.Loaded(|w.past|), L.Working(|w.past|), |w.past|)
  {
    hide Later;
    w' := GoesLeased(su, from, w, L.Release(1));
    w' := GoesLeased(su, from, w', L.Spawn(2));
    w' := GoesLeased(su, from, w', L.Spawn(3));
    assert Race(w', None, L.Idle, L.Idle, |w.past|);
    w' := GoesLeased(su, from, w', L.Load(2));
    w' := GoesLeased(su, from, w', L.Load(3));
    assert Race(w', None, L.Loaded(|w.past|), L.Loaded(|w.past|), |w.past|);
    w' := ThirdClaims(su, from, w');
  }

  lemma ThirdClaims(su: Setup, from: World, w: World) returns (w': World)
    requires Later(su, from, w) && Race(w, None, L.Loaded(|w.past|), L.Loaded(|w.past|), |w.past|)
    ensures Later(su, from, w') && w'.row == w.row && w'.log == w.log && w'.past == w.past
    ensures Race(w', Some(3), L.Loaded(|w.past|), L.Working(|w.past|), |w.past|)
  {
    hide Later;
    w' := GoesLeased(su, from, w, L.ReadHolder(3));
    assert Race(w', None, L.Loaded(|w.past|), L.SawHolder(|w.past|, None), |w.past|);
    w' := GoesLeased(su, from, w', L.TestHolder(3));
    assert Race(w', None, L.Loaded(|w.past|), L.MayClaim(|w.past|, None), |w.past|);
    w' := GoesLeased(su, from, w', L.Claim(3));
  }

  /** Process 3 gives the run back, and process 2 claims it with the copy it still has. */
  lemma SecondClaims(su: Setup, from: World, w: World, copy: nat, version: nat) returns (w': World)
    requires Later(su, from, w) && Race(w, Some(3), L.Loaded(copy), L.Working(version), version)
    ensures Later(su, from, w') && w'.row == w.row && w'.past == w.past && w'.launching == None
    ensures L.At(w'.lease, 2) == L.Working(copy)
  {
    hide Later;
    w' := GoesLeased(su, from, w, L.Release(3));
    assert Race(w', None, L.Loaded(copy), L.Idle, version);
    w' := GoesLeased(su, from, w', L.ReadHolder(2));
    assert Race(w', None, L.SawHolder(copy, None), L.Idle, version);
    w' := GoesLeased(su, from, w', L.TestHolder(2));
    assert Race(w', None, L.MayClaim(copy, None), L.Idle, version);
    w' := GoesLeased(su, from, w', L.Claim(2));
  }

  lemma ThirdWrites(su: Setup, from: World, w: World, copy: nat, version: nat, d: Durable) returns (w': World)
    requires Later(su, from, w) && Race(w, Some(3), L.Loaded(copy), L.Working(version), version)
    requires WritesRow(su, Now(w), d)
    ensures Later(su, from, w') && Now(w') == d && w'.past == w.past + [w.row]
    ensures Race(w', Some(3), L.Loaded(copy), L.Working(version + 1), version + 1)
  {
    assert View(w, 3) == Now(w) && L.Fresh(w.lease, 3);
    hide Later, WritesRow;
    w' := GoesWriting(su, from, w, 3, d);
  }

  lemma DecideWrites(su: Setup, d: Durable)
    requires d.row.status == PausedCycleCap
    ensures WritesRow(su, d, Decide(d, Proceed))
    ensures Decide(d, Proceed).row == d.row.(status := Active)
  {
    hide Activated, Seated, Recycled, Advanced, Settled;
    assert DecidedStep(d, Decide(d, Proceed));
  }

  lemma CompletionWrites(su: Setup, d: Durable) returns (settled: Durable)
    requires d.row.status == Active && d.row.batch >= su.totalBatches && AdvanceAllowed(d, d.row.advanceAfterResponse)
    ensures WritesRow(su, d, settled) && settled.row.status == Complete
  {
    hide Activated, Seated, Recycled, Advanced, DecidedStep, AdvanceAllowed, Reviewed;
    settled := d.(row := d.row.(status := Complete));
    assert Settled(su, d, settled);
  }

  lemma AdvanceWrites(su: Setup, d: Durable) returns (moved: Durable, settled: Durable)
    requires d.row.status == Active && d.row.batch < su.totalBatches && AdvanceAllowed(d, d.row.advanceAfterResponse)
    ensures WritesRow(su, d, moved) && WritesRow(su, moved, settled)
    ensures settled.row.status == Stopped && settled.row.batch == d.row.batch + 1
  {
    hide Activated, Seated, Recycled, DecidedStep, AdvanceAllowed, Reviewed;
    moved := d.(row := d.row.(batch := d.row.batch + 1, cycle := 1));
    assert moved.row.advanceAfterResponse == d.row.advanceAfterResponse;
    assert Advanced(su, d, moved);
    settled := moved.(row := moved.row.(status := Stopped));
    assert Settled(su, moved, settled);
  }

  /** What process 3 does: `proceed`, which completes the run on the last batch and otherwise moves it on,
      where the operator stops it. */
  lemma ThirdProceeds(su: Setup, from: World, w: World, version: nat) returns (w': World, later: nat)
    requires RelaySafety.Anchored(su, Now(w)) && w.row.status == PausedCycleCap
    requires Later(su, from, w) && Race(w, Some(3), L.Loaded(version), L.Working(version), version)
    ensures Later(su, from, w') && Race(w', Some(3), L.Loaded(version), L.Working(later), later)
    ensures w.past <= w'.past && version < |w'.past| && w'.past[version] == w.row
    ensures if w.row.batch >= su.totalBatches then w'.row.status == Complete else w'.row.batch == w.row.batch + 1
  {
    var d := Now(w);
    DecideWrites(su, d);
    RelayDecisions.ProceedSettles(su, d);
    hide Later, RelaySafety.Anchored, WritesRow, Decide, AdvanceAllowed, JustDecided, LastExchange, LastDecision;
    var decided := ThirdWrites(su, from, w, version, version, Decide(d, Proceed));
    hide Race;
    w', later := ThirdGoesOn(su, from, decided, version, version + 1);
  }

  lemma ThirdGoesOn(su: Setup, from: World, w: World, copy: nat, version: nat) returns (w': World, later: nat)
    requires w.row.status == Active && AdvanceAllowed(Now(w), w.row.advanceAfterResponse)
    requires Later(su, from, w) && Race(w, Some(3), L.Loaded(copy), L.Working(version), version)
    ensures Later(su, from, w') && Race(w', Some(3), L.Loaded(copy), L.Working(later), later)
    ensures w.past <= w'.past
    ensures if w.row.batch >= su.totalBatches then w'.row.status == Complete else w'.row.batch == w.row.batch + 1
  {
    hide Later, WritesRow, AdvanceAllowed, Race;
    if w.row.batch >= su.totalBatches {
      var settled := CompletionWrites(su, Now(w));
      w' := ThirdWrites(su, from, w, copy, version, settled);
      later := version + 1;
    } else {
      var moved, settled := AdvanceWrites(su, Now(w));
      var halfway := ThirdWrites(su, from, w, copy, version, moved);
      w' := ThirdWrites(su, from, halfway, copy, version + 1, settled);
      later := version + 2;
    }
  }

  lemma ReachedAlone(su: Setup, d: Durable, launching: Option<L.Pid>) returns (w: World)
    requires RelayReach.Reached(su, d) && launching in {None, Some(4)}
    ensures Later(su, Begin(su, launching), w) && Alone(w) && Now(w) == d && w.launching == launching
    ensures RelaySafety.Inv(su, d)
  {
    RelayReach.ReachedInv(su, d);
    var t :| IsRun(su, t) && t[|t| - 1] == d;
    hide Later, Alone, IsRun, RelaySafety.Inv, ValidSetup;
    w := AloneRuns(su, t, launching);
  }

  lemma AnchoredAnyway(su: Setup, w: World, w': World)
    requires RelaySafety.Inv(su, Now(w)) && w'.row == w.row && w'.log == w.log
    ensures RelaySafety.Anchored(su, Now(w'))
  {}

  /** A resume that loaded a cap pause before another one took the run on undoes what that one did: it takes a
      complete run back to its cap pause, or an advanced one back to the batch before. */
  lemma StaleResume(su: Setup, d: Durable) returns (w: World, w': World)
    requires RelayReach.Reached(su, d) && d.row.status == PausedCycleCap
    ensures Later(su, Begin(su, None), w) && Later(su, w, w')
    ensures if d.row.batch >= su.totalBatches then w.row.status == Complete && w'.row.status == Active
            else w'.row.batch < w.row.batch
  {
    hide ValidSetup, RelayReach.Reached, RelaySafety.Inv, RelaySafety.Anchored, Later, WritesRow, L.Do;
    var from := Begin(su, None);
    var capped := ReachedAlone(su, d, None);
    var loaded := BothLoad(su, from, capped);
    AnchoredAnyway(su, capped, loaded);
    var version := |capped.past|;
    var settled, later := ThirdProceeds(su, from, loaded, version);
    w := SecondClaims(su, from, settled, version, later);
    assert View(w, 2).row == capped.row;
    var rewritten := Rewrites(su, View(w, 2));
    LaterSelf(su, w);
    w' := GoesWriting(su, w, w, 2, rewritten);
  }

  /** From every setup it takes back a complete run. */
  lemma StaleResumeUndoes(su: Setup) returns (w: World, w': World)
    requires ValidSetup(su)
    ensures Later(su, Begin(su, None), w) && Later(su, w, w')
    ensures w.row.status == Complete && w'.row.status == Active
  {
    hide ValidSetup, RelayReach.Reached, Later;
    var d := RelayReach.CapAt(su, RelayReach.LastBatch(su));
    w, w' := StaleResume(su, d);
  }

  /** And, with a batch to go to, an advanced one. */
  lemma StaleResumeGoesBack(su: Setup) returns (w: World, w': World)
    requires ValidSetup(su) && su.startBatch < su.totalBatches
    ensures Later(su, Begin(su, None), w) && Later(su, w, w')
    ensures w'.row.batch < w.row.batch
  {
    hide ValidSetup, RelayReach.Reached, Later;
    var d := RelayReach.CapPauseIsReached(su);
    w, w' := StaleResume(su, d);
  }

  /** The command that inserted the row may come to its load when another process has worked the run and let it
      go: whatever state that left, its copy is fresh, and it makes the run active. */
  lemma LaunchTakesUp(su: Setup, d: Durable) returns (w: World, w': World)
    requires RelayReach.Reached(su, d)
    ensures Later(su, Begin(su, Some(4)), w) && Later(su, w, w')
    ensures L.Fresh(w.lease, 4) && w.row == d.row && w.log == d.log
    ensures w'.row == d.row.(status := Active) && w'.log == d.log
  {
    hide RelayReach.Reached, RelaySafety.Inv, Later;
    var from := Begin(su, Some(4));
    w := ReachedAlone(su, d, Some(4));
    w := GoesLeased(su, from, w, L.Release(1));
    assert 4 in w.lease.places && w.lease.places[4] == L.Idle && w.lease.holder == None && w.launching == Some(4);
    w := TakesLease(su, from, w, 4);
    assert View(w, 4).row == w.row;
    LaterSelf(su, w);
    w' := Goes(su, w, w, Launch(4));
  }

  /** From every setup, with every copy fresh, it takes back a complete run. */
  lemma LaunchReopens(su: Setup) returns (w: World, w': World)
    requires ValidSetup(su)
    ensures Later(su, Begin(su, Some(4)), w) && Later(su, w, w') && L.Fresh(w.lease, 4)
    ensures w.row.status == Complete && w'.row.status == Active
  {
    hide ValidSetup, RelayReach.Reached, Later;
    var d := RelayReach.CompleteIsReached(su);
    w, w' := LaunchTakesUp(su, d);
  }

  /** And a run paused at the cap goes on with no decision. */
  lemma LaunchSkipsTheDecision(su: Setup) returns (w: World, w': World)
    requires ValidSetup(su)
    ensures Later(su, Begin(su, Some(4)), w) && Later(su, w, w') && L.Fresh(w.lease, 4)
    ensures w.row.status == PausedCycleCap && w'.row.status == Active && w'.log == w.log
  {
    hide ValidSetup, RelayReach.Reached, Later;
    var d := RelayReach.CapPauseIsReached(su);
    w, w' := LaunchTakesUp(su, d);
  }
}
