/** The worker lease: any number of processes reading the holder, testing it for life, claiming by
    compare-and-swap, releasing, dying, and clearing stale leases, one statement at a time. */
module Lease {
  import opened Wrappers

  type Pid = nat

  /** Where a process is. `copy` is the version of the row it loaded before it asked for the lease. */
  datatype Place =
    | Idle
    | Loaded(copy: nat)
    | SawHolder(copy: nat, holder: Option<Pid>)
    | MayClaim(copy: nat, holder: Option<Pid>)
    | Working(copy: nat)
    | PauseSaw(seen: Pid)
    | MayClear(seen: Pid)

  /** `used` keeps every pid ever started: pids are not reused. `version` counts row writes. */
  datatype State = State(holder: Option<Pid>, used: set<Pid>, places: map<Pid, Place>, version: nat)

  datatype Action =
    | Spawn(p: Pid)
    | Load(p: Pid)
    | ReadHolder(p: Pid)
    | TestHolder(p: Pid)
    | Claim(p: Pid)
    | WriteRow(p: Pid)
    | Reload(p: Pid)
    | Release(p: Pid)
    | Die(p: Pid)
    | PauseRead(p: Pid)
    | PauseTest(p: Pid)
    | ClearStale(p: Pid)

  predicate Alive(s: State, p: Pid) {
    p in s.places
  }

  function At(s: State, p: Pid): Place {
    if p in s.places then s.places[p] else Idle
  }

  function Move(s: State, p: Pid, place: Place): State {
    s.(places := s.places[p := place])
  }

  /** One statement of one process. A process that is not where the statement is does nothing. */
  function Do(s: State, a: Action): State {
    if a.Spawn? then
      if a.p in s.used then s else s.(used := s.used + {a.p}, places := s.places[a.p := Idle])
    else if !Alive(s, a.p) then s
    else
      var p, place := a.p, s.places[a.p];
      match (a, place)
      case (Die(_), _) => s.(places := s.places - {p})
      case (Load(_), Idle) => Move(s, p, Loaded(s.version))
      case (ReadHolder(_), Loaded(copy)) => Move(s, p, SawHolder(copy, s.holder))
      case (TestHolder(_), SawHolder(copy, seen)) =>
        if seen.Some? && seen.value != p && Alive(s, seen.value) then Move(s, p, Idle)
        else Move(s, p, MayClaim(copy, seen))
      case (Claim(_), MayClaim(copy, seen)) =>
        if s.holder == seen || s.holder == Some(p) then Move(s, p, Working(copy)).(holder := Some(p))
        else Move(s, p, Idle)
      case (WriteRow(_), Working(_)) => Move(s, p, Working(s.version + 1)).(version := s.version + 1)
      case (Reload(_), Working(_)) => Move(s, p, Working(s.version))
      case (Release(_), Working(_)) =>
        Move(s, p, Idle).(holder := if s.holder == Some(p) then None else s.holder)
      case (PauseRead(_), Idle) => if s.holder.Some? then Move(s, p, PauseSaw(s.holder.value)) else s
      case (PauseTest(_), PauseSaw(seen)) =>
        if Alive(s, seen) then Move(s, p, Idle) else Move(s, p, MayClear(seen))
      case (ClearStale(_), MayClear(seen)) =>
        Move(s, p, Idle).(holder := if s.holder == Some(seen) then None else s.holder)
      case _ => s
  }

  const START := State(None, {}, map[], 0)

  /** Every interleaving is a sequence of actions. */
  function After(s: State, run: seq<Action>): State {
    if run == [] then s else Do(After(s, run[..|run| - 1]), run[|run| - 1])
  }

  ghost predicate Reachable(s: State) {
    exists run :: After(START, run) == s
  }

  lemma ReachableStep(s: State, a: Action)
    requires Reachable(s)
    ensures Reachable(Do(s, a))
  {
    var run :| After(START, run) == s;
    assert (run + [a])[..|run|] == run;
    assert After(START, run + [a]) == Do(s, a);
  }

  // ---- mutual exclusion ----

  /** What one process may rely on. */
  predicate Sound(s: State, p: Pid) {
    match At(s, p)
    case Working(_) => s.holder == Some(p)
    case MayClaim(_, Some(seen)) => seen in s.used && (seen == p || !Alive(s, seen))
    case SawHolder(_, Some(seen)) => seen in s.used
    case PauseSaw(seen) => seen in s.used
    case MayClear(seen) => seen in s.used && !Alive(s, seen)
    case _ => true
  }

  ghost predicate Inv(s: State) {
    && s.places.Keys <= s.used
    && (s.holder.Some? ==> s.holder.value in s.used)
    && (forall p :: Sound(s, p))
  }

  lemma StepKeepsInv(s: State, a: Action)
    requires Inv(s)
    ensures Inv(Do(s, a))
  {
    var s' := Do(s, a);
    forall p
      ensures Sound(s', p)
    {
      assert Sound(s, p) && Sound(s, a.p);
    }
  }

  lemma {:induction false} EveryRunKeepsInv(run: seq<Action>)
    ensures Inv(After(START, run))
  {
    if run != [] {
      EveryRunKeepsInv(run[..|run| - 1]);
      StepKeepsInv(After(START, run[..|run| - 1]), run[|run| - 1]);
    }
  }

  lemma ReachableInv(s: State)
    requires Reachable(s)
    ensures Inv(s)
  {
    var run :| After(START, run) == s;
    EveryRunKeepsInv(run);
  }

  /** In every interleaving at most one live process works the run, and the row names it. */
  lemma OneWorker(s: State, p: Pid, q: Pid)
    requires Reachable(s) && At(s, p).Working? && At(s, q).Working?
    ensures p == q && s.holder == Some(p)
  {
    ReachableInv(s);
    assert Sound(s, p) && Sound(s, q);
  }

  /** Nobody else's release, stale-clear, claim or death takes the lease from a live worker. */
  lemma OnlyTheWorkerGivesItUp(s: State, a: Action, p: Pid)
    requires Reachable(s) && At(s, p).Working? && a != Release(p) && a != Die(p)
    ensures At(Do(s, a), p).Working? && Do(s, a).holder == Some(p)
  {
    ReachableInv(s);
    StepKeepsInv(s, a);
    assert Sound(s, p) && Sound(s, a.p) && Sound(Do(s, a), p);
  }

  /** A lease that changes hands was given up by the process that held it, or that process is dead. */
  lemma OnlyOwnOrDeadLeasesGo(s: State, a: Action)
    requires Reachable(s) && s.holder.Some? && Do(s, a).holder != s.holder
    ensures a == Release(s.holder.value) || !Alive(s, s.holder.value)
  {
    ReachableInv(s);
    assert Sound(s, a.p);
  }

  /** A dead holder blocks nobody: any idle live process can take the run over. */
  lemma DeathReleases(s: State, p: Pid)
    requires Reachable(s) && p in s.places && s.places[p] == Idle
    requires s.holder.Some? ==> !Alive(s, s.holder.value)
    ensures var t := Do(Do(Do(Do(s, Load(p)), ReadHolder(p)), TestHolder(p)), Claim(p));
            t.holder == Some(p) && At(t, p).Working?
  {
    var t := Do(Do(s, Load(p)), ReadHolder(p));
    assert t.places[p] == SawHolder(s.version, s.holder);
    assert Do(t, TestHolder(p)).places[p] == MayClaim(s.version, s.holder);
  }

  /** A worker that gives the run back leaves it to nobody, and a pause that finds the holder dead clears the lease; a
      live holder keeps it. */
  lemma LeasesAreFreed(s: State, p: Pid)
    requires Reachable(s) && p in s.places
    ensures s.places[p].Working? ==> Do(s, Release(p)).holder == None && At(Do(s, Release(p)), p) == Idle
    ensures s.places[p] == Idle && s.holder.Some? ==>
              var t := Do(Do(Do(s, PauseRead(p)), PauseTest(p)), ClearStale(p));
              At(t, p) == Idle && t.holder == if Alive(s, s.holder.value) then s.holder else None
  {
    ReachableInv(s);
    assert Sound(s, p);
    if s.places[p] == Idle && s.holder.Some? {
      var seen := Do(s, PauseRead(p));
      assert seen.places[p] == PauseSaw(s.holder.value);
      assert Do(seen, PauseTest(p)).places[p] == if Alive(s, s.holder.value) then Idle else MayClear(s.holder.value);
    }
  }

  // ---- the copy loaded before the claim ----

  /** The version of the row a process carries. */
  function CopyOf(place: Place): Option<nat> {
    match place
    case Loaded(copy) => Some(copy)
    case SawHolder(copy, _) => Some(copy)
    case MayClaim(copy, _) => Some(copy)
    case Working(copy) => Some(copy)
    case _ => None
  }

  /** The worker's copy of the row is the row. */
  predicate Fresh(s: State, p: Pid) {
    At(s, p).Working? && At(s, p).copy == s.version
  }

  /** Reading the row again, or writing it, makes the worker's copy the row. */
  lemma WorkersFreshen(s: State, p: Pid)
    requires p in s.places && s.places[p].Working?
    ensures Fresh(Do(s, Reload(p)), p) && Do(s, Reload(p)).version == s.version
    ensures Fresh(Do(s, WriteRow(p)), p) && Do(s, WriteRow(p)).version == s.version + 1
  {
    assert Do(s, Reload(p)).places[p] == Working(s.version);
  }

  /** Anything by anybody else; by `p` only the steps from the load to the lease. */
  predicate Climbs(a: Action, p: Pid) {
    a.p == p ==> a.ReadHolder? || a.TestHolder? || a.Claim?
  }

  /** Some worker wrote the row during `between`. */
  ghost predicate Wrote(s: State, between: seq<Action>) {
    exists k: nat :: k < |between| && WritesAt(s, between, k)
  }

  predicate WritesAt(s: State, between: seq<Action>, k: nat)
    requires k < |between|
  {
    between[k].WriteRow? && At(After(s, between[..k]), between[k].p).Working?
  }

  lemma {:induction false} CarriesItsCopy(s: State, between: seq<Action>, p: Pid, copy: nat)
    requires p in s.places && CopyOf(s.places[p]) == Some(copy)
    requires forall k :: 0 <= k < |between| ==> Climbs(between[k], p)
    ensures var t := After(s, between);
            p in t.places && (t.places[p] == Idle || CopyOf(t.places[p]) == Some(copy))
  {
    if between != [] {
      CarriesItsCopy(s, between[..|between| - 1], p, copy);
      assert Climbs(between[|between| - 1], p);
    }
  }

  lemma {:induction false} WritesShow(s: State, between: seq<Action>)
    ensures After(s, between).version >= s.version
    ensures After(s, between).version == s.version <==> !Wrote(s, between)
  {
    if between != [] {
      var before, n := between[..|between| - 1], |between| - 1;
      WritesShow(s, before);
      forall k: nat | k < n
        ensures WritesAt(s, before, k) == WritesAt(s, between, k)
      {
        assert before[..k] == between[..k];
      }
      assert Wrote(s, between) <==> Wrote(s, before) || WritesAt(s, between, n) by {
        if Wrote(s, before) {
          var k: nat :| k < |before| && WritesAt(s, before, k);
          assert WritesAt(s, between, k);
        }
      }
    }
  }

  /** A process that loads the row and climbs to the lease works on a fresh copy exactly when no other
      worker wrote the row in between: the load is not part of the claim. */
  lemma ClaimIsFreshIff(s: State, p: Pid, between: seq<Action>)
    requires p in s.places && s.places[p] == Idle
    requires forall k :: 0 <= k < |between| ==> Climbs(between[k], p)
    requires At(After(Do(s, Load(p)), between), p).Working?
    ensures Fresh(After(Do(s, Load(p)), between), p) <==> !Wrote(Do(s, Load(p)), between)
  {
    CarriesItsCopy(Do(s, Load(p)), between, p, s.version);
    WritesShow(Do(s, Load(p)), between);
  }

  /** And it does happen: between the load and the claim another process takes the run, writes the row
      and gives it back. */
  lemma StaleCopyReachesTheLease()
    ensures exists s: State, p: Pid :: Reachable(s) && At(s, p).Working? && !Fresh(s, p)
  {
    hide Reachable;
    var s1 := TwoLoad();
    var s2 := Follow(Follow(Follow(s1, ReadHolder(2)), TestHolder(2)), Claim(2));
    assert Holds(s2, Some(2), Loaded(0), Working(0), 0);
    var s3 := Follow(Follow(s2, WriteRow(2)), Release(2));
    assert Holds(s3, None, Loaded(0), Idle, 1);
    var s4 := Follow(Follow(Follow(s3, ReadHolder(1)), TestHolder(1)), Claim(1));
    assert Holds(s4, Some(1), Working(0), Idle, 1);
    assert Reachable(s4) && At(s4, 1).Working? && !Fresh(s4, 1);
  }

  function Follow(s: State, a: Action): (t: State)
    requires Reachable(s)
    ensures Reachable(t) && t == Do(s, a)
  {
    ReachableStep(s, a);
    Do(s, a)
  }

  /** Processes 1 and 2 are alive and stand where they stand. */
  predicate Holds(s: State, holder: Option<Pid>, first: Place, second: Place, version: nat) {
    && s.holder == holder && s.version == version
    && 1 in s.places && s.places[1] == first
    && 2 in s.places && s.places[2] == second
  }

  lemma TwoLoad() returns (t: State)
    ensures Reachable(t) && Holds(t, None, Loaded(0), Loaded(0), 0)
  {
    assert After(START, []) == START;
    hide After, Reachable;
    var s := Follow(Follow(START, Spawn(1)), Spawn(2));
    assert Holds(s, None, Idle, Idle, 0);
    t := Follow(Follow(s, Load(1)), Load(2));
  }
}
