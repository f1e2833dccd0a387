/** The coalescing debouncer of file-change events, with its clock and its two timers. */
module Debouncer {
  import opened Distinct
  import opened Wrappers

  datatype Config = Config(quietMs: int, maxWaitMs: int, cooldownMs: int, maxBatchSize: int)

  datatype Reason = Quiet | MaxWait | MaxBatch | Manual

  datatype FlushBatch = FlushBatch(files: seq<string>, batchId: nat, windowStart: int, windowEnd: int, reason: Reason)

  /** What `setTimeout` makes of a delay: out of range means one millisecond. */
  function Delay(ms: int): (d: int)
    ensures d >= 1 && (1 <= ms <= 2_147_483_647 ==> d == ms)
  {
    if 1 <= ms <= 0x7FFF_FFFF then ms else 1
  }

  /** How a window of accepted paths ended. All debouncers of a process number their batches from one counter:
      `others` is how often the others had moved it when the window closed. */
  datatype Window =
    | Flushed(batch: FlushBatch, accepted: seq<string>, lastPush: int, others: nat)
    | Cancelled(accepted: seq<string>)

  function MaxFiles(c: Config): int {
    if c.maxBatchSize > 1 then c.maxBatchSize else 1
  }

  /** A batch is its window's distinct paths in first-push order, small and short enough, and its reason
      is true. */
  predicate Right(c: Config, w: Window) {
    w.Flushed? ==>
      && w.batch.files == Firsts(w.accepted) && w.batch.files != []
      && |w.batch.files| <= MaxFiles(c)
      && w.batch.windowStart <= w.lastPush <= w.batch.windowEnd <= w.batch.windowStart + Delay(c.maxWaitMs)
      && w.batch.windowEnd <= w.lastPush + Delay(c.quietMs)
      && (w.batch.reason == Quiet ==> w.batch.windowEnd == w.lastPush + Delay(c.quietMs))
      && (w.batch.reason == MaxWait ==> w.batch.windowEnd == w.batch.windowStart + Delay(c.maxWaitMs))
      && (w.batch.reason == MaxBatch ==> |w.batch.files| >= c.maxBatchSize && w.batch.windowEnd == w.lastPush)
  }

  /** When the last flushed window ended. */
  function LastEnd(history: seq<Window>): Option<int> {
    if history == [] then None
    else if history[|history| - 1].Flushed? then Some(history[|history| - 1].batch.windowEnd)
    else LastEnd(history[..|history| - 1])
  }

  /** How often the others had moved the counter at the last flush. */
  function LastOthers(history: seq<Window>): nat {
    if history == [] then 0
    else if history[|history| - 1].Flushed? then history[|history| - 1].others
    else LastOthers(history[..|history| - 1])
  }

  function Flushes(history: seq<Window>): nat {
    if history == [] then 0
    else Flushes(history[..|history| - 1]) + if history[|history| - 1].Flushed? then 1 else 0
  }

  /** Every window is right, numbered, and starts a cooldown after the flush before it. */
  predicate AllRight(c: Config, history: seq<Window>) {
    history == [] ||
    var before, w := history[..|history| - 1], history[|history| - 1];
    && AllRight(c, before) && Right(c, w)
    && (w.Flushed? ==> w.batch.batchId == Flushes(history) + w.others && w.others >= LastOthers(before))
    && (w.Flushed? && LastEnd(before).Some? ==> w.batch.windowStart >= LastEnd(before).value + c.cooldownMs)
  }

  function Paths(history: seq<Window>): seq<string> {
    if history == [] then [] else Paths(history[..|history| - 1]) + history[|history| - 1].accepted
  }

  /** Consecutive flushed windows are at least the cooldown apart, and their numbers differ by one and by what the
      other debouncers flushed in between. */
  lemma {:induction false} WindowsApart(c: Config, history: seq<Window>, i: nat, j: nat)
    requires AllRight(c, history) && i < j < |history| && history[i].Flushed? && history[j].Flushed?
    requires forall k :: i < k < j ==> history[k].Cancelled?
    ensures history[j].batch.windowStart >= history[i].batch.windowEnd + c.cooldownMs
    ensures history[j].others >= history[i].others
    ensures history[j].batch.batchId == history[i].batch.batchId + 1 + (history[j].others - history[i].others)
  {
    var n := |history| - 1;
    if j < n {
      WindowsApart(c, history[..n], i, j);
    } else {
      LastEndIs(history[..n], i);
      NumberOf(c, history[..n], i);
    }
  }

  lemma {:induction false} LastEndIs(history: seq<Window>, i: nat)
    requires i < |history| && history[i].Flushed? && forall k :: i < k < |history| ==> history[k].Cancelled?
    ensures LastEnd(history) == Some(history[i].batch.windowEnd) && LastOthers(history) == history[i].others
  {
    if i < |history| - 1 {
      LastEndIs(history[..|history| - 1], i);
    }
  }

  lemma {:induction false} NumberOf(c: Config, history: seq<Window>, i: nat)
    requires AllRight(c, history)
    requires i < |history| && history[i].Flushed? && forall k :: i < k < |history| ==> history[k].Cancelled?
    ensures history[i].batch.batchId == Flushes(history) + history[i].others
  {
    if i < |history| - 1 {
      NumberOf(c, history[..|history| - 1], i);
    }
  }

  lemma RecordOne(c: Config, history: seq<Window>, w: Window)
    requires AllRight(c, history) && Right(c, w)
    requires w.Flushed? ==> w.batch.batchId == Flushes(history) + 1 + w.others && w.others >= LastOthers(history)
    requires w.Flushed? && LastEnd(history).Some? ==> w.batch.windowStart >= LastEnd(history).value + c.cooldownMs
    ensures AllRight(c, history + [w]) && Paths(history + [w]) == Paths(history) + w.accepted
    ensures Flushes(history + [w]) == Flushes(history) + if w.Flushed? then 1 else 0
    ensures LastEnd(history + [w]) == if w.Flushed? then Some(w.batch.windowEnd) else LastEnd(history)
    ensures LastOthers(history + [w]) == if w.Flushed? then w.others else LastOthers(history)
  {
    assert (history + [w])[..|history|] == history;
  }

  // ---- the state and its steps ----

  /** `pending` is the keys of the pending map in insertion order; a timer is the time it is due;
      `batchCounter` is the module's, which every debouncer moves. The last four fields are the record of what
      happened. */
  datatype State = State(
    pending: seq<string>,
    quietTimer: Option<int>,
    maxWaitTimer: Option<int>,
    cooldownUntil: int,
    windowStart: int,
    batchCounter: nat,
    destroyed: bool,
    now: int,
    accepted: seq<string>,
    lastPush: int,
    history: seq<Window>,
    everything: seq<string>)

  function Start(now: int, batchCounter: nat): State {
    State([], None, None, 0, 0, batchCounter, false, now, [], 0, [], [])
  }

  /** The timers of an open window are due in time. */
  predicate Open(c: Config, s: State) {
    && s.quietTimer == Some(s.lastPush + Delay(c.quietMs)) && s.now <= s.quietTimer.value
    && s.maxWaitTimer == Some(s.windowStart + Delay(c.maxWaitMs)) && s.now <= s.maxWaitTimer.value
    && s.windowStart <= s.lastPush <= s.now && s.cooldownUntil <= s.windowStart
  }

  predicate Recorded(c: Config, s: State) {
    && AllRight(c, s.history) && s.batchCounter >= Flushes(s.history) + LastOthers(s.history)
    && s.everything == Paths(s.history) + s.accepted
    && (LastEnd(s.history).Some? ==> s.cooldownUntil == LastEnd(s.history).value + c.cooldownMs)
  }

  predicate Sound(c: Config, s: State) {
    && s.pending == Firsts(s.accepted) && |s.pending| <= MaxFiles(c)
    && (s.pending != [] <==> s.quietTimer.Some?) && (s.pending != [] <==> s.maxWaitTimer.Some?)
    && (if s.pending != [] then Open(c, s) else s.accepted == [])
    && (s.destroyed ==> s.pending == [])
    && Recorded(c, s)
  }

  /** Between two calls no window is full. */
  predicate Good(c: Config, s: State) {
    Sound(c, s) && (s.pending != [] ==> |s.pending| < c.maxBatchSize)
  }

  /** The circumstances in which each reason flushes. */
  predicate Called(c: Config, s: State, reason: Reason) {
    match reason
    case Quiet => s.quietTimer == Some(s.now)
    case MaxWait => s.maxWaitTimer == Some(s.now)
    case MaxBatch => |s.pending| >= c.maxBatchSize && s.now == s.lastPush
    case Manual => true
  }

  function BatchOf(s: State, reason: Reason): FlushBatch {
    FlushBatch(s.pending, s.batchCounter + 1, s.windowStart, s.now, reason)
  }

  /** What the others have moved the counter by. */
  function Others(s: State): nat {
    if s.batchCounter >= Flushes(s.history) then s.batchCounter - Flushes(s.history) else 0
  }

  function Flush(c: Config, s: State, reason: Reason): State {
    if s.pending == [] then s
    else s.(
      pending := [], quietTimer := None, maxWaitTimer := None,
      cooldownUntil := s.now + c.cooldownMs, batchCounter := s.batchCounter + 1,
      history := s.history + [Flushed(BatchOf(s, reason), s.accepted, s.lastPush, Others(s))], accepted := [])
  }

  predicate Accepts(s: State) {
    !s.destroyed && s.now >= s.cooldownUntil
  }

  /** An accepted path before the size check. */
  function Accept(c: Config, s: State, path: string): State {
    s.(
      pending := Add(s.pending, path),
      quietTimer := Some(s.now + Delay(c.quietMs)),
      maxWaitTimer := if s.pending == [] then Some(s.now + Delay(c.maxWaitMs)) else s.maxWaitTimer,
      windowStart := if s.pending == [] then s.now else s.windowStart,
      accepted := s.accepted + [path], lastPush := s.now, everything := s.everything + [path])
  }

  function Push(c: Config, s: State, path: string): State {
    if !Accepts(s) then s
    else
      var t := Accept(c, s, path);
      if |t.pending| >= c.maxBatchSize then Flush(c, t, MaxBatch) else t
  }

  function Cancel(s: State): State {
    s.(pending := [], quietTimer := None, maxWaitTimer := None,
       history := s.history + [Cancelled(s.accepted)], accepted := [])
  }

  lemma FlushKeeps(c: Config, s: State, reason: Reason)
    requires Sound(c, s) && Called(c, s, reason)
    ensures Good(c, Flush(c, s, reason))
  {
    if s.pending != [] {
      RecordOne(c, s.history, Flushed(BatchOf(s, reason), s.accepted, s.lastPush, Others(s)));
      assert Paths(Flush(c, s, reason).history) + [] == s.everything;
    }
  }

  lemma AcceptRecords(c: Config, s: State, path: string)
    requires Recorded(c, s)
    ensures Recorded(c, Accept(c, s, path))
  {
    hide AllRight, Flushes, Paths, LastEnd, Firsts, Add, Elements, NoDuplicates, Delay;
    assert Paths(s.history) + (s.accepted + [path]) == s.everything + [path];
  }

  lemma AddSize(xs: seq<string>, x: string)
    ensures 1 <= |Add(xs, x)| <= |xs| + 1
  {
    hide Elements, NoDuplicates;
  }

  lemma AcceptKeeps(c: Config, s: State, path: string)
    requires Good(c, s) && Accepts(s)
    ensures Sound(c, Accept(c, s, path))
  {
    AcceptRecords(c, s, path);
    AcceptOpens(c, s, path);
    hide Recorded, Open;
  }

  lemma AcceptOpens(c: Config, s: State, path: string)
    requires if s.pending != [] then Open(c, s) && |s.pending| < c.maxBatchSize else s.cooldownUntil <= s.now
    requires s.pending == Firsts(s.accepted)
    ensures var t := Accept(c, s, path);
            Open(c, t) && t.pending != [] && t.pending == Firsts(t.accepted) && |t.pending| <= MaxFiles(c)
  {
    FirstsAdd(s.accepted, path);
    AddSize(s.pending, path);
    hide Firsts, Add, Elements, NoDuplicates;
  }

  lemma PushKeeps(c: Config, s: State, path: string)
    requires Good(c, s)
    ensures Good(c, Push(c, s, path))
  {
    if Accepts(s) {
      AcceptKeeps(c, s, path);
      var t := Accept(c, s, path);
      if |t.pending| >= c.maxBatchSize {
        FlushKeeps(c, t, MaxBatch);
      }
      hide Sound, Accept, Flush;
    }
  }

  lemma CancelKeeps(c: Config, s: State)
    requires Good(c, s)
    ensures Good(c, Cancel(s)) && Good(c, Cancel(s).(destroyed := true))
  {
    RecordOne(c, s.history, Cancelled(s.accepted));
    assert Paths(Cancel(s).history) + [] == s.everything;
  }

  lemma StartIsGood(c: Config, now: int, batchCounter: nat)
    ensures Good(c, Start(now, batchCounter))
  {
  }

  // ---- whole histories ----

  datatype Action =
    | Pushed(path: string) | Waited(t: int) | Fired(reason: Reason) | FlushedNow | CancelledNow | Destroyed
    | OthersFlushed(n: nat)

  /** Timers are punctual: time does not run past an armed timer, and a timer fires when it is due. */
  predicate Possible(s: State, a: Action) {
    match a
    case Waited(t) =>
      && t >= s.now
      && (s.quietTimer.Some? ==> t <= s.quietTimer.value) && (s.maxWaitTimer.Some? ==> t <= s.maxWaitTimer.value)
    case Fired(reason) =>
      (reason == Quiet && s.quietTimer == Some(s.now)) || (reason == MaxWait && s.maxWaitTimer == Some(s.now))
    case _ => true
  }

  function Do(c: Config, s: State, a: Action): State {
    match a
    case Pushed(path) => Push(c, s, path)
    case Waited(t) => s.(now := t)
    case Fired(reason) => Flush(c, s, reason)
    case FlushedNow => Flush(c, s, Manual)
    case CancelledNow => Cancel(s)
    case Destroyed => Cancel(s).(destroyed := true)
    case OthersFlushed(n) => s.(batchCounter := s.batchCounter + n)
  }

  function After(c: Config, s: State, run: seq<Action>): State {
    if run == [] then s else Do(c, After(c, s, run[..|run| - 1]), run[|run| - 1])
  }

  predicate IsRun(c: Config, s: State, run: seq<Action>) {
    run == [] ||
    (IsRun(c, s, run[..|run| - 1]) && Possible(After(c, s, run[..|run| - 1]), run[|run| - 1]))
  }

  lemma StepKeeps(c: Config, s: State, a: Action)
    requires Good(c, s) && Possible(s, a)
    ensures Good(c, Do(c, s, a))
  {
    match a
    case Pushed(path) => PushKeeps(c, s, path);
    case Waited(t) =>
    case Fired(reason) => FlushKeeps(c, s, reason);
    case FlushedNow => FlushKeeps(c, s, Manual);
    case CancelledNow => CancelKeeps(c, s);
    case Destroyed => CancelKeeps(c, s);
    case OthersFlushed(n) =>
  }

  /** Over every history: pending is open exactly while both timers are armed, every batch is its window's
      distinct paths, no accepted path is lost or repeated, and windows are short, small and apart. */
  lemma {:induction false} EveryRunIsGood(c: Config, start: State, run: seq<Action>)
    requires Good(c, start) && IsRun(c, start, run)
    ensures Good(c, After(c, start, run))
  {
    if run != [] {
      EveryRunIsGood(c, start, run[..|run| - 1]);
      StepKeeps(c, After(c, start, run[..|run| - 1]), run[|run| - 1]);
    }
  }

  lemma {:induction false} AllAreRight(c: Config, history: seq<Window>, i: nat)
    requires AllRight(c, history) && i < |history|
    ensures Right(c, history[i])
  {
    if i < |history| - 1 {
      AllAreRight(c, history[..|history| - 1], i);
    }
  }

  /** What that means for a run: the accepted paths, in order, are those of the closed windows and of the
      open one; every flushed batch is right; and an open window has both timers armed and still to come. */
  lemma EveryRunAccountsForAll(c: Config, start: int, batchCounter: nat, run: seq<Action>)
    requires IsRun(c, Start(start, batchCounter), run)
    ensures var s := After(c, Start(start, batchCounter), run);
            && s.everything == Paths(s.history) + s.accepted && s.pending == Firsts(s.accepted)
            && (forall i :: 0 <= i < |s.history| ==> Right(c, s.history[i]))
            && (s.pending != [] <==> s.quietTimer.Some?) && (s.pending != [] <==> s.maxWaitTimer.Some?)
            && (s.pending != [] ==> s.now <= s.windowStart + Delay(c.maxWaitMs) && s.now <= s.lastPush + Delay(c.quietMs))
  {
    StartIsGood(c, start, batchCounter);
    EveryRunIsGood(c, Start(start, batchCounter), run);
    var s := After(c, Start(start, batchCounter), run);
    hide After, Firsts, Right;
    forall i | 0 <= i < |s.history|
      ensures Right(c, s.history[i])
    {
      AllAreRight(c, s.history, i);
    }
  }

  /** The module's batch counter. */
  class Counter {
    var value: nat

    constructor ()
      ensures value == 0
    {
      value := 0;
    }
  }

  class Debouncer {
    const config: Config
    const counter: Counter
    var pending: seq<string>
    var quietTimer: Option<int>
    var maxWaitTimer: Option<int>
    var cooldownUntil: int
    var windowStart: int
    var destroyed: bool
    var now: int
    ghost var accepted: seq<string>
    ghost var lastPush: int
    ghost var history: seq<Window>
    ghost var everything: seq<string>

    ghost function View(): State
      reads this, counter
    {
      State(pending, quietTimer, maxWaitTimer, cooldownUntil, windowStart, counter.value, destroyed, now,
            accepted, lastPush, history, everything)
    }

    ghost predicate Valid()
      reads this, counter
    {
      Good(config, View())
    }

    constructor (config: Config, counter: Counter, now: int)
      ensures Valid() && this.config == config && this.counter == counter && View() == Start(now, counter.value)
    {
      this.config, this.counter := config, counter;
      pending, quietTimer, maxWaitTimer, cooldownUntil, windowStart := [], None, None, 0, 0;
      destroyed, this.now := false, now;
      accepted, lastPush, history, everything := [], 0, [], [];
    }

    /** Other debouncers of the process may flush at any moment. */
    twostate lemma OthersMayFlush()
      requires old(Valid()) && unchanged(this) && counter.value >= old(counter.value)
      ensures Valid() && View() == Do(config, old(View()), OthersFlushed(counter.value - old(counter.value)))
    {
      hide Good, Push, Flush, Cancel;
      StepKeeps(config, old(View()), OthersFlushed(counter.value - old(counter.value)));
    }

    /** Time passes, up to the next timer. */
    method Wait(t: int)
      requires Valid() && Possible(View(), Waited(t))
      modifies this`now
      ensures Valid() && View() == old(View()).(now := t)
    {
      StepKeeps(config, View(), Waited(t));
      now := t;
    }

    method ClearTimers()
      modifies this`quietTimer, this`maxWaitTimer
      ensures quietTimer == None && maxWaitTimer == None
    {
      if quietTimer.Some? {
        quietTimer := None;
      }
      if maxWaitTimer.Some? {
        maxWaitTimer := None;
      }
    }

    /** Ends the window, if there is one, and hands out its batch. */
    method FlushPending(reason: Reason) returns (batch: Option<FlushBatch>)
      requires Sound(config, View()) && Called(config, View(), reason)
      modifies this, counter
      ensures Valid() && View() == Flush(config, old(View()), reason)
      ensures batch == if old(pending) == [] then None else Some(BatchOf(old(View()), reason))
      ensures batch.Some? ==>
                && batch.value == FlushBatch(old(pending), old(counter.value) + 1, old(windowStart), now, reason)
                && pending == [] && counter.value == old(counter.value) + 1 && cooldownUntil == now + config.cooldownMs
    {
      FlushKeeps(config, View(), reason);
      hide Good, Sound, Called;
      if pending == [] {
        return None;
      }
      var closed := Close(reason);
      batch := Some(closed);
    }

    method Close(reason: Reason) returns (batch: FlushBatch)
      requires pending != []
      modifies this, counter
      ensures View() == Flush(config, old(View()), reason) && batch == BatchOf(old(View()), reason)
    {
      ClearTimers();
      ghost var others := Others(View());
      counter.value := counter.value + 1;
      batch := FlushBatch(pending, counter.value, windowStart, now, reason);
      history := history + [Flushed(batch, accepted, lastPush, others)];
      pending, accepted := [], [];
      cooldownUntil := now + config.cooldownMs;
    }

    method StartMaxWaitTimer()
      modifies this`maxWaitTimer
      ensures maxWaitTimer == if old(maxWaitTimer).Some? then old(maxWaitTimer) else Some(now + Delay(config.maxWaitMs))
    {
      if maxWaitTimer.None? {
        maxWaitTimer := Some(now + Delay(config.maxWaitMs));
      }
    }

    /** A change event stamped with the time of the push. */
    method PushEvent(path: string) returns (taken: bool, batch: Option<FlushBatch>)
      requires Valid()
      modifies this, counter
      ensures Valid() && View() == Push(config, old(View()), path)
      ensures taken == Accepts(old(View()))
      ensures batch.Some? ==> taken && batch.value.files == Add(old(pending), path)
      ensures taken <==> !old(destroyed) && old(now) >= old(cooldownUntil)
      ensures batch.Some? <==> taken && |Add(old(pending), path)| >= config.maxBatchSize
      ensures !taken ==> View() == old(View())
      ensures taken && batch.None? ==>
                && pending == Add(old(pending), path) && counter.value == old(counter.value)
                && windowStart == if old(pending) == [] then now else old(windowStart)
      ensures batch.Some? ==>
                && batch.value.reason == MaxBatch && batch.value.windowEnd == now && pending == []
                && batch.value.batchId == counter.value == old(counter.value) + 1
                && batch.value.windowStart == if old(pending) == [] then now else old(windowStart)
    {
      PushKeeps(config, View(), path);
      assert pending == [] ==> maxWaitTimer.None?;
      hide Good, Sound, Flush, Delay, Add;
      taken, batch := false, None;
      if !destroyed && now >= cooldownUntil {
        AcceptKeeps(config, View(), path);
        Take(path);
        if |pending| >= config.maxBatchSize {
          batch := FlushPending(MaxBatch);
        }
        taken := true;
      }
    }

    /** The accepted event before the size check. */
    method Take(path: string)
      requires pending == [] ==> maxWaitTimer.None?
      modifies this
      ensures View() == Accept(config, old(View()), path)
    {
      hide Delay, Add;
      if |pending| == 0 {
        windowStart := now;
        StartMaxWaitTimer();
      }
      pending := Add(pending, path);
      quietTimer := Some(now + Delay(config.quietMs));
      accepted, lastPush, everything := accepted + [path], now, everything + [path];
    }

    /** A timer fires when it is due. */
    method Fire(reason: Reason) returns (batch: Option<FlushBatch>)
      requires Valid() && Possible(View(), Fired(reason))
      modifies this, counter
      ensures Valid() && View() == Flush(config, old(View()), reason)
      ensures batch == Some(BatchOf(old(View()), reason)) && batch.value.reason == reason
    {
      batch := FlushPending(reason);
    }

    method FlushNow() returns (batch: Option<FlushBatch>)
      requires Valid()
      modifies this, counter
      ensures Valid() && View() == Flush(config, old(View()), Manual)
      ensures batch == if old(pending) == [] then None else Some(BatchOf(old(View()), Manual))
    {
      batch := FlushPending(Manual);
    }

    method CancelPending()
      requires Valid()
      modifies this
      ensures Valid() && View() == Cancel(old(View()))
      ensures pending == [] && quietTimer == None && maxWaitTimer == None
      ensures cooldownUntil == old(cooldownUntil) && destroyed == old(destroyed)
    {
      CancelKeeps(config, View());
      hide Good, Sound;
      ClearTimers();
      history := history + [Cancelled(accepted)];
      pending, accepted := [], [];
    }

    method Destroy()
      requires Valid()
      modifies this
      ensures Valid() && View() == Cancel(old(View())).(destroyed := true)
      ensures destroyed && pending == [] && quietTimer == None && maxWaitTimer == None
    {
      CancelKeeps(config, View());
      CancelPending();
      destroyed := true;
    }
  }
}
