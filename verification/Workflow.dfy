/** The workflow resolver: steps name the outputs they read, and are put into an order in which every
    step follows the steps that produce its inputs. */
module Workflow {
  import opened Distinct
  import opened Wrappers

  datatype Step = Step(id: string, input: Option<seq<string>>, output: Option<string>, loop: Option<string>)

  datatype Resolved = Resolved(
    definition: Step,
    inputStepIds: seq<string>,
    isLoopEntry: bool,
    loopPartnerStepId: Option<string>)

  datatype Error =
    | UnknownInput(step: string, ref: string)
    | UnknownLoop(step: string, partner: string)
    | Cycle

  // ---- what a list of steps says ----

  function Ids(steps: seq<Step>): (r: seq<string>)
    ensures |r| == |steps|
  {
    seq(|steps|, i requires 0 <= i < |steps| => steps[i].id)
  }

  predicate Writes(s: Step, ref: string) {
    s.output == Some(ref) && ref != ""
  }

  function Refs(s: Step): seq<string> {
    if s.input.Some? then s.input.value else []
  }

  /** The last step that writes `ref` is the one that produces it. */
  function Producer(steps: seq<Step>, ref: string): Option<string> {
    if steps == [] then None
    else if Writes(steps[|steps| - 1], ref) then Some(steps[|steps| - 1].id)
    else Producer(steps[..|steps| - 1], ref)
  }

  /** It is the last step that has `ref` for its output: later steps take an output over, earlier ones keep theirs. */
  lemma {:induction false} ProducerIff(steps: seq<Step>, ref: string, id: string)
    ensures Producer(steps, ref) == Some(id) <==>
            exists k: nat :: && k < |steps| && steps[k].id == id && steps[k].output == Some(ref) && ref != ""
                             && forall j :: k < j < |steps| ==> steps[j].output != Some(ref)
  {
    if steps != [] {
      var n := |steps| - 1;
      var before := steps[..n];
      ProducerIff(before, ref, id);
      if k: nat :| && k < |steps| && steps[k].id == id && steps[k].output == Some(ref) && ref != ""
                   && forall j :: k < j < |steps| ==> steps[j].output != Some(ref) {
        assert k < n ==> before[k] == steps[k] && steps[n].output != Some(ref);
        assert forall j :: k < j < n ==> before[j] == steps[j];
      }
      if Producer(steps, ref) == Some(id) && !Writes(steps[n], ref) {
        var k: nat :| && k < n && before[k].id == id && before[k].output == Some(ref) && ref != ""
                      && forall j :: k < j < n ==> before[j].output != Some(ref);
        LastStays(steps, ref, k);
      }
    }
  }

  lemma LastStays(steps: seq<Step>, ref: string, k: nat)
    requires steps != [] && k < |steps| - 1 && steps[|steps| - 1].output != Some(ref)
    requires var before := steps[..|steps| - 1]; forall j :: k < j < |before| ==> before[j].output != Some(ref)
    ensures steps[..|steps| - 1][k] == steps[k] && forall j :: k < j < |steps| ==> steps[j].output != Some(ref)
  {
    var before := steps[..|steps| - 1];
    forall j | k < j < |steps|
      ensures steps[j].output != Some(ref)
    {
      assert j < |before| ==> before[j] == steps[j];
    }
  }

  /** Nobody produces `ref` exactly when no step has it for its output, or it is empty. */
  lemma {:induction false} NobodyProducesIff(steps: seq<Step>, ref: string)
    ensures Producer(steps, ref).None? <==>
            ref == "" || forall k :: 0 <= k < |steps| ==> steps[k].output != Some(ref)
  {
    if steps != [] {
      NobodyProducesIff(steps[..|steps| - 1], ref);
      if Producer(steps, ref).None? && ref != "" {
        forall k | 0 <= k < |steps|
          ensures steps[k].output != Some(ref)
        {
          assert k < |steps| - 1 ==> steps[..|steps| - 1][k] == steps[k];
        }
      }
    }
  }

  function Sources(steps: seq<Step>, refs: seq<string>): seq<string> {
    if refs == [] then []
    else
      var before, found := Sources(steps, refs[..|refs| - 1]), Producer(steps, refs[|refs| - 1]);
      if found.Some? then before + [found.value] else before
  }

  /** The steps a step depends on, in the order in which it first reads them. */
  function Inputs(steps: seq<Step>, s: Step): (r: seq<string>)
    ensures NoDuplicates(r)
  {
    Firsts(Sources(steps, Refs(s)))
  }

  predicate Known(steps: seq<Step>, refs: seq<string>) {
    forall ref :: ref in refs ==> Producer(steps, ref).Some?
  }

  predicate Sound(steps: seq<Step>, s: Step) {
    Known(steps, Refs(s)) && (s.loop.Some? ==> s.loop.value in Ids(steps))
  }

  /** The first thing wrong with step `i` is `e`, and the steps before it are sound. */
  ghost predicate FirstFault(steps: seq<Step>, i: nat, e: Error) {
    && i < |steps|
    && (forall j :: 0 <= j < i ==> Sound(steps, steps[j]))
    && match e
       case UnknownInput(id, ref) =>
         id == steps[i].id && exists k: nat :: FirstUnknown(steps, Refs(steps[i]), k, ref)
       case UnknownLoop(id, partner) =>
         && id == steps[i].id && Known(steps, Refs(steps[i]))
         && steps[i].loop == Some(partner) && partner !in Ids(steps)
       case Cycle => false
  }

  predicate FirstUnknown(steps: seq<Step>, refs: seq<string>, k: nat, ref: string) {
    k < |refs| && refs[k] == ref && Producer(steps, ref).None? && Known(steps, refs[..k])
  }

  /** A step is sound exactly when all it reads is some step's output and its loop partner is a step. */
  lemma SoundIff(steps: seq<Step>, s: Step)
    ensures Sound(steps, s) <==>
            && (s.input.Some? ==>
                  forall ref :: ref in s.input.value ==>
                                  ref != "" && exists k :: 0 <= k < |steps| && steps[k].output == Some(ref))
            && (s.loop.Some? ==> exists k :: 0 <= k < |steps| && steps[k].id == s.loop.value)
  {
    forall ref | ref in Refs(s)
      ensures Producer(steps, ref).Some? <==> ref != "" && exists k :: 0 <= k < |steps| && steps[k].output == Some(ref)
    {
      NobodyProducesIff(steps, ref);
    }
    assert forall k :: 0 <= k < |steps| ==> Ids(steps)[k] == steps[k].id;
    hide Producer;
  }

  /** A reported reference is read by the step it is reported for, and is no step's output. */
  lemma UnknownIsNoOutput(steps: seq<Step>, i: nat, e: Error)
    requires FirstFault(steps, i, e) && e.UnknownInput?
    ensures i < |steps| && steps[i].id == e.step && steps[i].input.Some? && e.ref in steps[i].input.value
    ensures e.ref == "" || forall k :: 0 <= k < |steps| ==> steps[k].output != Some(e.ref)
  {
    var k: nat :| FirstUnknown(steps, Refs(steps[i]), k, e.ref);
    NobodyProducesIff(steps, e.ref);
  }

  lemma FaultIsUnsound(steps: seq<Step>, i: nat, e: Error)
    requires FirstFault(steps, i, e)
    ensures !Sound(steps, steps[i])
  {
    if e.UnknownInput? {
      var k: nat :| FirstUnknown(steps, Refs(steps[i]), k, e.ref);
      assert Refs(steps[i])[k] in Refs(steps[i]);
    }
  }

  // ---- graphs ----

  type Graph = map<string, seq<string>>

  /** `ids` lists the keys of `g`, and every dependency is a key. */
  ghost predicate IsGraph(ids: seq<string>, g: Graph) {
    && NoDuplicates(ids)
    && g.Keys == Elements(ids)
    && (forall id :: id in g ==> NoDuplicates(g[id]) && Elements(g[id]) <= g.Keys)
  }

  predicate IsWalk(g: Graph, w: seq<string>) {
    forall k :: 0 <= k < |w| - 1 ==> Edge(g, w[k], w[k + 1])
  }

  predicate IsCycle(g: Graph, c: seq<string>) {
    |c| >= 2 && c[0] == c[|c| - 1] && IsWalk(g, c)
  }

  predicate Edge(g: Graph, a: string, b: string) {
    a in g && b in g[a]
  }

  ghost predicate HasCycle(g: Graph) {
    exists c :: IsCycle(g, c)
  }

  /** Every step follows all the steps it depends on. */
  predicate Ordered(g: Graph, order: seq<string>) {
    forall i :: 0 <= i < |order| ==> order[i] in g && Elements(g[order[i]]) <= Elements(order[..i])
  }

  /** Everything outside `done` waits for something outside `done`. */
  ghost predicate Stuck(g: Graph, done: seq<string>) {
    forall id :: id in g && id !in done ==> exists d :: d !in done && Edge(g, id, d)
  }

  /** Along a walk through an ordered list the positions fall. */
  lemma {:induction false} WalkGoesBack(g: Graph, order: seq<string>, c: seq<string>)
    requires Ordered(g, order) && NoDuplicates(order) && g.Keys <= Elements(order)
    requires |c| >= 2 && IsWalk(g, c)
    ensures c[0] in order && c[|c| - 1] in order
    ensures FirstAt(order, c[|c| - 1]) < FirstAt(order, c[0])
  {
    var n := |c| - 2;
    assert Edge(g, c[n], c[n + 1]);
    EdgeGoesBack(g, order, c[n], c[n + 1]);
    if n > 0 {
      WalkGoesBack(g, order, c[..n + 1]);
    }
  }

  lemma EdgeGoesBack(g: Graph, order: seq<string>, a: string, b: string)
    requires Ordered(g, order) && NoDuplicates(order) && g.Keys <= Elements(order) && Edge(g, a, b)
    ensures a in order && b in order && FirstAt(order, b) < FirstAt(order, a)
  {
    assert a in Elements(order);
    var i := FirstAt(order, a);
    assert b in Elements(order[..i]);
    var j: nat :| j < i && order[..i][j] == b;
    assert order[j] == b;
    assert order[FirstAt(order, b)] == order[j];
  }

  /** A complete order leaves no room for a cycle. */
  lemma OrderedHasNoCycle(g: Graph, order: seq<string>)
    requires Ordered(g, order) && NoDuplicates(order) && g.Keys <= Elements(order)
    ensures !HasCycle(g)
  {
    if c :| IsCycle(g, c) {
      WalkGoesBack(g, order, c);
    }
  }

  lemma NextStuck(g: Graph, done: seq<string>, id: string) returns (d: string)
    requires Stuck(g, done) && id in g && id !in done
    ensures d !in done && Edge(g, id, d)
  {
    d :| d !in done && Edge(g, id, d);
  }

  lemma WalkOn(g: Graph, w: seq<string>, d: string)
    requires IsWalk(g, w) && |w| > 0 && Edge(g, w[|w| - 1], d)
    ensures IsWalk(g, w + [d])
  {
  }

  /** A walk of any length outside `done`. */
  lemma {:induction false} StuckWalks(ids: seq<string>, g: Graph, done: seq<string>, start: string, n: nat)
    returns (w: seq<string>)
    requires IsGraph(ids, g) && Stuck(g, done) && start in g && start !in done
    ensures |w| == n + 1 && Elements(w) <= g.Keys && IsWalk(g, w) && w[n] !in done
  {
    hide Stuck;
    if n == 0 {
      w := [start];
    } else {
      var before := StuckWalks(ids, g, done, start, n - 1);
      assert before[n - 1] in Elements(before);
      var d := NextStuck(g, done, before[n - 1]);
      WalkOn(g, before, d);
      assert d in Elements(g[before[n - 1]]);
      w := before + [d];
      assert Elements(w) == Elements(before) + {d};
    }
  }

  /** A walk longer than the number of steps meets itself. */
  lemma LongWalkRepeats(w: seq<string>, nodes: set<string>) returns (i: nat, j: nat)
    requires Elements(w) <= nodes && |w| > |nodes|
    ensures i < j < |w| && w[i] == w[j]
  {
    if NoDuplicates(w) {
      SizeIsLength(w);
      SubsetSize(Elements(w), nodes);
      assert false;
    }
    i, j :| 0 <= i < j < |w| && w[i] == w[j];
  }

  /** When everything left waits for something left, there is a real cycle. */
  lemma StuckHasCycle(ids: seq<string>, g: Graph, done: seq<string>)
    requires IsGraph(ids, g) && Stuck(g, done) && exists id :: id in g && id !in done
    ensures HasCycle(g)
  {
    hide Stuck;
    var start :| start in g && start !in done;
    var w := StuckWalks(ids, g, done, start, |g.Keys|);
    var i, j := LongWalkRepeats(w, g.Keys);
    Loop(g, w, i, j);
  }

  lemma Loop(g: Graph, w: seq<string>, i: nat, j: nat)
    requires IsWalk(g, w) && i < j < |w| && w[i] == w[j]
    ensures HasCycle(g)
  {
    var c := w[i..j + 1];
    forall k | 0 <= k < |c| - 1
      ensures Edge(g, c[k], c[k + 1])
    {
      assert Edge(g, w[i + k], w[i + k + 1]);
    }
    assert IsCycle(g, c);
  }

  // ---- the work queue ----

  /** How many dependencies of `id` are not in `done`. */
  function Waiting(g: Graph, id: string, done: set<string>): nat
    requires id in g
  {
    |Elements(g[id]) - done|
  }

  lemma WaitingFalls(g: Graph, id: string, done: set<string>, current: string)
    requires id in g && current !in done
    ensures Waiting(g, id, done + {current}) == Waiting(g, id, done) - (if current in g[id] then 1 else 0)
  {
    var left, next := Elements(g[id]) - done, Elements(g[id]) - (done + {current});
    assert next == left - {current};
  }

  lemma NothingToWaitFor(g: Graph, id: string, done: set<string>)
    requires id in g
    ensures Waiting(g, id, done) == 0 <==> Elements(g[id]) <= done
  {
    var left := Elements(g[id]) - done;
    if left == {} {
      assert forall d :: d in Elements(g[id]) ==> d !in left;
    } else {
      assert exists d :: d in left;
    }
  }

  /** The counters of the steps in `handled` take `after` into account, the others only `before`. */
  ghost predicate Counted(g: Graph, depCount: map<string, int>, before: set<string>, after: set<string>,
                          handled: set<string>) {
    && depCount.Keys == g.Keys
    && forall id :: id in g ==> depCount[id] == Waiting(g, id, if id in handled then after else before)
  }

  /** What has entered the queue, each once, is exactly what waits for nothing. */
  ghost predicate Entered(g: Graph, depCount: map<string, int>, entered: seq<string>) {
    && NoDuplicates(entered)
    && depCount.Keys == g.Keys
    && forall id :: id in entered <==> id in g && depCount[id] == 0
  }

  lemma CountOne(g: Graph, counts: map<string, int>, before: set<string>, current: string,
                 handled: set<string>, id: string)
    returns (depCount: map<string, int>)
    requires Counted(g, counts, before, before + {current}, handled)
    requires id in g && id !in handled && current !in before
    ensures depCount == if current in g[id] then counts[id := counts[id] - 1] else counts
    ensures Counted(g, depCount, before, before + {current}, handled + {id})
    ensures current in g[id] ==> counts[id] != 0
  {
    WaitingFalls(g, id, before, current);
    depCount := if current in g[id] then counts[id := counts[id] - 1] else counts;
    hide Waiting;
  }

  lemma EnterOne(g: Graph, depCount: map<string, int>, entered: seq<string>, id: string, count: int)
    requires Entered(g, depCount, entered) && id in g && depCount[id] != 0
    ensures Entered(g, depCount[id := count], if count == 0 then entered + [id] else entered)
  {
    assert id !in entered;
  }

  /** One step of the pass over the steps: `id` no longer waits for `current`. */
  method RelaxOne(g: Graph, counts: map<string, int>, waiting: seq<string>, ghost entered: seq<string>,
                  ghost done: set<string>, ghost handled: set<string>, current: string, id: string)
    returns (depCount: map<string, int>, queue: seq<string>)
    requires id in g && id !in handled && current !in done
    requires Counted(g, counts, done, done + {current}, handled)
    requires Entered(g, counts, entered + waiting)
    ensures Counted(g, depCount, done, done + {current}, handled + {id})
    ensures Entered(g, depCount, entered + queue)
  {
    ghost var next := CountOne(g, counts, done, current, handled, id);
    assert id in counts;
    hide Counted, Entered;
    depCount, queue := counts, waiting;
    if current in g[id] {
      var newCount := depCount[id] - 1;
      EnterOne(g, depCount, entered + queue, id, newCount);
      depCount := depCount[id := newCount];
      if newCount == 0 {
        assert entered + (queue + [id]) == entered + queue + [id];
        queue := queue + [id];
      }
    }
  }

  /** One pass over the steps after `current` was taken from the queue. */
  method Relax(ids: seq<string>, g: Graph, counts: map<string, int>, waiting: seq<string>,
               ghost done: seq<string>, current: string)
    returns (depCount: map<string, int>, queue: seq<string>)
    requires NoDuplicates(ids) && g.Keys == Elements(ids) && current !in done
    requires Counted(g, counts, Elements(done), Elements(done) + {current}, {})
    requires Entered(g, counts, done + [current] + waiting)
    ensures Counted(g, depCount, Elements(done), Elements(done) + {current}, Elements(ids))
    ensures Entered(g, depCount, done + [current] + queue)
  {
    assert Elements(ids[..0]) == {};
    hide Counted, Entered;
    depCount, queue := counts, waiting;
    for k := 0 to |ids|
      invariant Counted(g, depCount, Elements(done), Elements(done) + {current}, Elements(ids[..k]))
      invariant Entered(g, depCount, done + [current] + queue)
    {
      Fresh(ids, k);
      depCount, queue :=
        RelaxOne(g, depCount, queue, done + [current], Elements(done), Elements(ids[..k]), current, ids[k]);
    }
    assert ids[..|ids|] == ids;
  }

  lemma Fresh(ids: seq<string>, k: nat)
    requires NoDuplicates(ids) && k < |ids|
    ensures ids[k] in Elements(ids) && ids[k] !in Elements(ids[..k])
    ensures Elements(ids[..k + 1]) == Elements(ids[..k]) + {ids[k]}
  {
    assert ids[..k + 1] == ids[..k] + [ids[k]];
  }

  /** The counters start at the numbers of dependencies, the queue with the steps that have none. */
  method Start(ids: seq<string>, g: Graph) returns (depCount: map<string, int>, queue: seq<string>)
    requires IsGraph(ids, g)
    ensures Counted(g, depCount, {}, {}, {})
    ensures Entered(g, depCount, queue)
  {
    depCount := map[];
    for i := 0 to |ids|
      invariant depCount.Keys == Elements(ids[..i])
      invariant forall id :: id in depCount ==> id in g && depCount[id] == Waiting(g, id, {})
    {
      Fresh(ids, i);
      SizeIsLength(g[ids[i]]);
      assert Elements(g[ids[i]]) - {} == Elements(g[ids[i]]);
      depCount := depCount[ids[i] := |g[ids[i]]|];
    }
    assert ids[..|ids|] == ids;
    queue := Ready(ids, depCount);
  }

  method Ready(ids: seq<string>, depCount: map<string, int>) returns (queue: seq<string>)
    requires NoDuplicates(ids) && depCount.Keys == Elements(ids)
    ensures NoDuplicates(queue)
    ensures forall id :: id in queue <==> id in depCount && depCount[id] == 0
  {
    queue := [];
    for i := 0 to |ids|
      invariant NoDuplicates(queue)
      invariant forall id :: id in queue <==> id in Elements(ids[..i]) && id in depCount && depCount[id] == 0
    {
      Fresh(ids, i);
      if depCount[ids[i]] == 0 {
        queue := queue + [ids[i]];
      }
    }
    assert ids[..|ids|] == ids;
  }

  lemma OrderOne(g: Graph, order: seq<string>, id: string)
    requires Ordered(g, order) && id in g && Elements(g[id]) <= Elements(order)
    ensures Ordered(g, order + [id])
  {
    var longer := order + [id];
    forall i | 0 <= i < |longer|
      ensures longer[i] in g && Elements(g[longer[i]]) <= Elements(longer[..i])
    {
      assert longer[..i] == order[..i];
      assert longer[..|order|] == order;
    }
  }

  lemma EnteredFits(g: Graph, depCount: map<string, int>, entered: seq<string>)
    requires Entered(g, depCount, entered)
    ensures NoDuplicates(entered) && Elements(entered) <= g.Keys && |entered| <= |g.Keys|
  {
    SizeIsLength(entered);
    SubsetSize(Elements(entered), g.Keys);
  }

  /** The state of the work queue between two turns. */
  ghost predicate Turning(g: Graph, depCount: map<string, int>, sorted: seq<string>, queue: seq<string>) {
    && Counted(g, depCount, Elements(sorted), Elements(sorted), {})
    && Entered(g, depCount, sorted + queue)
    && Ordered(g, sorted)
  }

  /** The work queue puts out an order and leaves only steps that wait for each other. */
  method Sort(ids: seq<string>, g: Graph) returns (sorted: seq<string>)
    requires IsGraph(ids, g)
    ensures NoDuplicates(sorted) && Elements(sorted) <= g.Keys
    ensures Ordered(g, sorted) && Stuck(g, sorted)
  {
    var depCount, queue := Start(ids, g);
    sorted := [];
    assert sorted + queue == queue && Elements(sorted) == {};
    assert NoDuplicates(ids) && g.Keys == Elements(ids);
    hide Counted, Entered, Ordered, IsGraph, Turning;
    assert Turning(g, depCount, sorted, queue) by {
      Begin(g, depCount, queue);
    }
    while queue != []
      invariant Turning(g, depCount, sorted, queue)
      decreases |g.Keys| - |sorted|
    {
      var current := queue[0];
      TakeOne(g, depCount, sorted, queue);
      depCount, queue := Relax(ids, g, depCount, queue[1..], sorted, current);
      TurnDone(g, depCount, sorted, current, queue);
      sorted := sorted + [current];
    }
    Drained(g, depCount, sorted);
  }

  lemma Begin(g: Graph, depCount: map<string, int>, queue: seq<string>)
    requires Counted(g, depCount, {}, {}, {}) && Entered(g, depCount, queue)
    ensures Turning(g, depCount, [], queue)
  {
    assert [] + queue == queue && Elements<string>([]) == {};
  }

  lemma TakeOne(g: Graph, depCount: map<string, int>, sorted: seq<string>, queue: seq<string>)
    requires Turning(g, depCount, sorted, queue) && queue != []
    ensures queue[0] !in sorted
    ensures Counted(g, depCount, Elements(sorted), Elements(sorted) + {queue[0]}, {})
    ensures Entered(g, depCount, sorted + [queue[0]] + queue[1..])
    ensures Ordered(g, sorted + [queue[0]])
  {
    var current := queue[0];
    Unhandled(g, depCount, Elements(sorted), {current}, current);
    FrontIsReady(g, depCount, sorted, queue);
    NothingToWaitFor(g, current, Elements(sorted));
    hide Waiting, Counted, Entered;
    OrderOne(g, sorted, current);
  }

  lemma Unhandled(g: Graph, depCount: map<string, int>, before: set<string>, more: set<string>, id: string)
    requires Counted(g, depCount, before, before, {})
    ensures Counted(g, depCount, before, before + more, {})
    ensures id in g ==> depCount[id] == Waiting(g, id, before)
  {
    hide Waiting;
  }

  lemma FrontIsReady(g: Graph, depCount: map<string, int>, sorted: seq<string>, queue: seq<string>)
    requires queue != [] && Entered(g, depCount, sorted + queue)
    ensures queue[0] !in sorted && queue[0] in g && depCount[queue[0]] == 0
    ensures Entered(g, depCount, sorted + [queue[0]] + queue[1..])
  {
    var entered := sorted + queue;
    assert entered == sorted + [queue[0]] + queue[1..];
    assert entered[|sorted|] == queue[0] && queue[0] in entered;
    assert forall k :: 0 <= k < |sorted| ==> entered[k] == sorted[k];
  }

  lemma TurnDone(g: Graph, depCount: map<string, int>, sorted: seq<string>, current: string, queue: seq<string>)
    requires Counted(g, depCount, Elements(sorted), Elements(sorted) + {current}, g.Keys)
    requires Entered(g, depCount, sorted + [current] + queue) && Ordered(g, sorted + [current])
    ensures Turning(g, depCount, sorted + [current], queue) && |sorted| + 1 <= |g.Keys|
  {
    hide Ordered, Waiting;
    assert Elements(sorted + [current]) == Elements(sorted) + {current};
    EnteredFits(g, depCount, sorted + [current] + queue);
  }

  lemma Drained(g: Graph, depCount: map<string, int>, sorted: seq<string>)
    requires Turning(g, depCount, sorted, [])
    ensures NoDuplicates(sorted) && Elements(sorted) <= g.Keys && Ordered(g, sorted) && Stuck(g, sorted)
  {
    assert sorted + [] == sorted;
    EnteredFits(g, depCount, sorted);
    forall id | id in g && id !in sorted
      ensures exists d :: d !in sorted && Edge(g, id, d)
    {
      NothingToWaitFor(g, id, Elements(sorted));
      var d :| d in Elements(g[id]) && d !in Elements(sorted);
      assert Edge(g, id, d);
    }
  }

  // ---- from steps to the graph ----

  lemma {:induction false} SourcesAreProducers(steps: seq<Step>, refs: seq<string>, b: string)
    ensures b in Sources(steps, refs) <==> exists ref :: ref in refs && Producer(steps, ref) == Some(b)
  {
    if refs != [] {
      var before, last := refs[..|refs| - 1], refs[|refs| - 1];
      assert refs == before + [last];
      SourcesAreProducers(steps, before, b);
      if b in Sources(steps, before) {
        var ref :| ref in before && Producer(steps, ref) == Some(b);
        assert ref in refs;
      } else if Producer(steps, last) == Some(b) {
        assert last in refs;
      }
      if ref :| ref in refs && Producer(steps, ref) == Some(b) {
        assert ref in before || ref == last;
      }
    }
  }

  /** A step depends on exactly the producers of the outputs it reads. */
  lemma InputsAreProducers(steps: seq<Step>, s: Step, b: string)
    ensures b in Inputs(steps, s) <==> exists ref :: ref in Refs(s) && Producer(steps, ref) == Some(b)
  {
    SourcesAreProducers(steps, Refs(s), b);
    assert b in Inputs(steps, s) <==> b in Elements(Inputs(steps, s));
    assert b in Sources(steps, Refs(s)) <==> b in Elements(Sources(steps, Refs(s)));
  }

  /** They stand in the order in which the step first reads them. */
  lemma InputsInReadingOrder(steps: seq<Step>, s: Step, i: nat, j: nat)
    requires i < j < |Inputs(steps, s)|
    ensures exists p: nat :: && p < |Refs(s)| && Producer(steps, Refs(s)[p]) == Some(Inputs(steps, s)[i])
                             && forall q :: 0 <= q <= p ==> Producer(steps, Refs(s)[q]) != Some(Inputs(steps, s)[j])
  {
    var sources := Sources(steps, Refs(s));
    var a, b := Inputs(steps, s)[i], Inputs(steps, s)[j];
    FirstsInOrder(sources, i, j);
    hide Inputs;
    var p := ReadAt(steps, Refs(s), FirstAt(sources, a));
    forall q | 0 <= q <= p
      ensures Producer(steps, Refs(s)[q]) != Some(b)
    {
      if Producer(steps, Refs(s)[q]) == Some(b) {
        SourcesAreProducers(steps, Refs(s)[..q + 1], b);
        assert Refs(s)[..q + 1][q] == Refs(s)[q];
        SourcesOfPrefix(steps, Refs(s), q + 1, p + 1);
      }
    }
  }

  lemma {:induction false} SourcesOfPrefix(steps: seq<Step>, refs: seq<string>, m: nat, n: nat)
    requires m <= n <= |refs|
    ensures Sources(steps, refs[..m]) <= Sources(steps, refs[..n])
  {
    if m < n {
      SourcesOfPrefix(steps, refs, m, n - 1);
      assert refs[..n][..n - 1] == refs[..n - 1];
    }
  }

  /** The reference at which the source at position `at` is met. */
  lemma {:induction false} ReadAt(steps: seq<Step>, refs: seq<string>, at: nat) returns (p: nat)
    requires at < |Sources(steps, refs)|
    ensures p < |refs| && Producer(steps, refs[p]) == Some(Sources(steps, refs)[at])
    ensures Sources(steps, refs[..p + 1]) == Sources(steps, refs)[..at + 1]
  {
    var n := |refs| - 1;
    if at < |Sources(steps, refs[..n])| {
      p := ReadAt(steps, refs[..n], at);
      assert refs[..n][..p + 1] == refs[..p + 1];
    } else {
      p := n;
      assert refs[..n + 1] == refs;
    }
  }

  lemma InputsAreSteps(steps: seq<Step>, s: Step)
    ensures Elements(Inputs(steps, s)) <= Elements(Ids(steps))
  {
    forall b | b in Inputs(steps, s)
      ensures b in Ids(steps)
    {
      InputsAreProducers(steps, s, b);
      var ref :| ref in Refs(s) && Producer(steps, ref) == Some(b);
      ProducerIff(steps, ref, b);
      var k: nat :| k < |steps| && steps[k].id == b && steps[k].output == Some(ref);
      assert Ids(steps)[k] == b;
    }
  }

  function Named(steps: seq<Step>, id: string): Step
    requires id in Ids(steps)
  {
    steps[FirstAt(Ids(steps), id)]
  }

  /** The dependency relation of a workflow. */
  function Dependencies(steps: seq<Step>): Graph {
    map id | id in Elements(Ids(steps)) :: Inputs(steps, Named(steps, id))
  }

  lemma DependenciesGraph(steps: seq<Step>)
    requires NoDuplicates(Ids(steps))
    ensures IsGraph(Ids(steps), Dependencies(steps))
  {
    var g := Dependencies(steps);
    forall id | id in g
      ensures NoDuplicates(g[id]) && Elements(g[id]) <= g.Keys
    {
      InputsAreSteps(steps, Named(steps, id));
    }
  }

  type Outputs = map<string, string>

  ghost predicate Indexes(steps: seq<Step>, outputMap: Outputs) {
    forall ref :: Producer(steps, ref) == if ref in outputMap then Some(outputMap[ref]) else None
  }

  function WithOutput(outputMap: Outputs, s: Step): Outputs {
    if s.output.Some? && s.output.value != "" then outputMap[s.output.value := s.id] else outputMap
  }

  lemma IndexOne(steps: seq<Step>, outputMap: Outputs, s: Step)
    requires Indexes(steps, outputMap)
    ensures Indexes(steps + [s], WithOutput(outputMap, s))
  {
    assert (steps + [s])[..|steps|] == steps;
  }

  function Itself(s: Step): Step {
    s
  }

  /** The table of the first `i` steps by id. */
  ghost predicate ById<V>(steps: seq<Step>, i: nat, table: map<string, V>, value: Step -> V)
    requires i <= |steps|
  {
    && table.Keys == Elements(Ids(steps)[..i])
    && forall k :: 0 <= k < i ==> steps[k].id in table && table[steps[k].id] == value(steps[k])
  }

  lemma ByIdOne<V>(steps: seq<Step>, i: nat, table: map<string, V>, value: Step -> V)
    requires NoDuplicates(Ids(steps)) && i < |steps| && ById(steps, i, table, value)
    ensures ById(steps, i + 1, table[steps[i].id := value(steps[i])], value)
  {
    Fresh(Ids(steps), i);
    assert forall k :: 0 <= k < i ==> Ids(steps)[k] != Ids(steps)[i];
  }

  /** Both tables cover the first `i` steps. */
  ghost predicate Indexed(steps: seq<Step>, i: nat, stepMap: map<string, Step>, outputMap: Outputs) {
    i <= |steps| && ById(steps, i, stepMap, Itself) && Indexes(steps[..i], outputMap)
  }

  lemma NoneIndexed(steps: seq<Step>)
    ensures Indexed(steps, 0, map[], map[])
  {
  }

  lemma IndexStep(steps: seq<Step>, i: nat, stepMap: map<string, Step>, outputMap: Outputs)
    requires NoDuplicates(Ids(steps)) && i < |steps| && Indexed(steps, i, stepMap, outputMap)
    ensures Indexed(steps, i + 1, stepMap[steps[i].id := steps[i]], WithOutput(outputMap, steps[i]))
  {
    ByIdOne(steps, i, stepMap, Itself);
    IndexOne(steps[..i], outputMap, steps[i]);
    assert steps[..i + 1] == steps[..i] + [steps[i]];
    hide ById, Indexes;
  }

  lemma AllIndexed(steps: seq<Step>, stepMap: map<string, Step>, outputMap: Outputs)
    requires Indexed(steps, |steps|, stepMap, outputMap)
    ensures ById(steps, |steps|, stepMap, Itself) && Indexes(steps, outputMap)
  {
    assert steps[..|steps|] == steps;
  }

  /** The two lookup tables: steps by id, producers by output. */
  method Index(steps: seq<Step>) returns (stepMap: map<string, Step>, outputMap: Outputs)
    requires NoDuplicates(Ids(steps))
    ensures ById(steps, |steps|, stepMap, Itself) && Indexes(steps, outputMap)
    ensures forall k :: 0 <= k < |steps| ==> steps[k].id in stepMap && stepMap[steps[k].id] == steps[k]
    ensures forall id :: id in stepMap ==> exists k :: 0 <= k < |steps| && steps[k].id == id
    ensures forall k :: 0 <= k < |steps| && steps[k].output.Some? && steps[k].output.value != "" ==>
                          steps[k].output.value in outputMap
    ensures forall ref :: ref in outputMap ==>
                            exists k: nat :: && k < |steps| && steps[k].id == outputMap[ref]
                                             && steps[k].output == Some(ref) && ref != ""
                                             && forall j :: k < j < |steps| ==> steps[j].output != Some(ref)
  {
    hide *;
    stepMap, outputMap := map[], map[];
    NoneIndexed(steps);
    for i := 0 to |steps|
      invariant Indexed(steps, i, stepMap, outputMap)
    {
      var s := steps[i];
      IndexStep(steps, i, stepMap, outputMap);
      stepMap := stepMap[s.id := s];
      outputMap := WithOutput(outputMap, s);
    }
    AllIndexed(steps, stepMap, outputMap);
    IndexSays(steps, stepMap, outputMap);
  }

  lemma IndexSays(steps: seq<Step>, stepMap: map<string, Step>, outputMap: Outputs)
    requires ById(steps, |steps|, stepMap, Itself) && Indexes(steps, outputMap)
    ensures forall k :: 0 <= k < |steps| ==> steps[k].id in stepMap && stepMap[steps[k].id] == steps[k]
    ensures forall id :: id in stepMap ==> exists k :: 0 <= k < |steps| && steps[k].id == id
    ensures forall k :: 0 <= k < |steps| && steps[k].output.Some? && steps[k].output.value != "" ==>
                          steps[k].output.value in outputMap
    ensures forall ref :: ref in outputMap ==>
                            exists k: nat :: && k < |steps| && steps[k].id == outputMap[ref]
                                             && steps[k].output == Some(ref) && ref != ""
                                             && forall j :: k < j < |steps| ==> steps[j].output != Some(ref)
  {
    hide Producer;
    forall id | id in stepMap
      ensures exists k :: 0 <= k < |steps| && steps[k].id == id
    {
      assert id in Elements(Ids(steps)[..|steps|]);
    }
    forall k | 0 <= k < |steps| && steps[k].output.Some? && steps[k].output.value != ""
      ensures steps[k].output.value in outputMap
    {
      NobodyProducesIff(steps, steps[k].output.value);
    }
    forall ref | ref in outputMap
      ensures exists k: nat :: && k < |steps| && steps[k].id == outputMap[ref]
                               && steps[k].output == Some(ref) && ref != ""
                               && forall j :: k < j < |steps| ==> steps[j].output != Some(ref)
    {
      ProducerIff(steps, ref, outputMap[ref]);
    }
  }

  /** The steps that produce what `refs` names, or the first name nobody produces. */
  method Collect(steps: seq<Step>, refs: seq<string>, outputMap: Outputs)
    returns (r: Result<seq<string>, string>)
    requires Indexes(steps, outputMap)
    ensures r.Ok? ==> Known(steps, refs) && r.value == Firsts(Sources(steps, refs))
    ensures r.Err? ==> exists k: nat :: FirstUnknown(steps, refs, k, r.error)
  {
    var deps: seq<string> := [];
    for k := 0 to |refs|
      invariant Known(steps, refs[..k]) && deps == Firsts(Sources(steps, refs[..k]))
    {
      var ref := refs[k];
      assert Producer(steps, ref) == if ref in outputMap then Some(outputMap[ref]) else None;
      if ref !in outputMap {
        assert FirstUnknown(steps, refs, k, ref);
        return Err(ref);
      }
      CollectOne(steps, refs, k);
      deps := Add(deps, outputMap[ref]);
    }
    assert refs[..|refs|] == refs;
    return Ok(deps);
  }

  lemma CollectOne(steps: seq<Step>, refs: seq<string>, k: nat)
    requires k < |refs| && Known(steps, refs[..k]) && Producer(steps, refs[k]).Some?
    ensures Known(steps, refs[..k + 1])
    ensures Firsts(Sources(steps, refs[..k + 1])) == Add(Firsts(Sources(steps, refs[..k])), Producer(steps, refs[k]).value)
  {
    hide Producer, Firsts;
    assert refs[..k + 1] == refs[..k] + [refs[k]];
    assert refs[..k + 1][..k] == refs[..k];
    FirstsAdd(Sources(steps, refs[..k]), Producer(steps, refs[k]).value);
  }

  /** The dependencies of step `i`, or its first fault. */
  method LinkOne(steps: seq<Step>, i: nat, stepMap: map<string, Step>, outputMap: Outputs)
    returns (r: Result<seq<string>, Error>)
    requires i < |steps| && stepMap.Keys == Elements(Ids(steps)) && Indexes(steps, outputMap)
    ensures r.Ok? ==> Sound(steps, steps[i]) && r.value == Inputs(steps, steps[i])
    ensures r.Err? && (forall j :: 0 <= j < i ==> Sound(steps, steps[j])) ==> FirstFault(steps, i, r.error)
  {
    var s := steps[i];
    var deps := Collect(steps, Refs(s), outputMap);
    if deps.Err? {
      return Err(UnknownInput(s.id, deps.error));
    }
    if s.loop.Some? && s.loop.value !in stepMap {
      return Err(UnknownLoop(s.id, s.loop.value));
    }
    return Ok(deps.value);
  }

  /** The dependency graph, or the first fault in reading order. */
  method Link(steps: seq<Step>, stepMap: map<string, Step>, outputMap: Outputs) returns (r: Result<Graph, Error>)
    requires NoDuplicates(Ids(steps))
    requires stepMap.Keys == Elements(Ids(steps)) && Indexes(steps, outputMap)
    ensures r.Ok? ==> r.value == Dependencies(steps) && forall j :: 0 <= j < |steps| ==> Sound(steps, steps[j])
    ensures r.Err? ==> exists i: nat :: FirstFault(steps, i, r.error)
  {
    ghost var inputs := (s: Step) => Inputs(steps, s);
    var edges: Graph := map[];
    assert ById(steps, 0, edges, inputs);
    hide ById, Sound, Indexes, FirstFault;
    for i := 0 to |steps|
      invariant ById(steps, i, edges, inputs)
      invariant forall j :: 0 <= j < i ==> Sound(steps, steps[j])
    {
      var deps := LinkOne(steps, i, stepMap, outputMap);
      if deps.Err? {
        assert FirstFault(steps, i, deps.error);
        return Err(deps.error);
      }
      ByIdOne(steps, i, edges, inputs);
      edges := edges[steps[i].id := deps.value];
    }
    AllLinked(steps, edges);
    return Ok(edges);
  }

  lemma AllLinked(steps: seq<Step>, edges: Graph)
    requires NoDuplicates(Ids(steps)) && ById(steps, |steps|, edges, s => Inputs(steps, s))
    ensures edges == Dependencies(steps)
  {
    hide Inputs;
    assert Ids(steps)[..|steps|] == Ids(steps);
    forall id | id in edges
      ensures edges[id] == Dependencies(steps)[id]
    {
      var k := FirstAt(Ids(steps), id);
      assert steps[k].id == id;
    }
  }

  function Definitions(out: seq<Resolved>): seq<Step> {
    seq(|out|, i requires 0 <= i < |out| => out[i].definition)
  }

  /** `out` lists every step once, each with its inputs and after all of them. */
  ghost predicate Resolves(steps: seq<Step>, out: seq<Resolved>) {
    && multiset(Definitions(out)) == multiset(steps)
    && forall k :: 0 <= k < |out| ==> ResolvedAt(steps, out, k)
  }

  ghost predicate ResolvedAt(steps: seq<Step>, out: seq<Resolved>, k: nat)
    requires k < |out|
  {
    && out[k].inputStepIds == Inputs(steps, out[k].definition)
    && Elements(out[k].inputStepIds) <= Elements(Ids(Definitions(out[..k])))
    && out[k].isLoopEntry == out[k].definition.loop.Some?
    && out[k].loopPartnerStepId == out[k].definition.loop
  }

  /** From the sorted ids to the resolved steps. */
  method Resolve(steps: seq<Step>, stepMap: map<string, Step>, g: Graph, sorted: seq<string>)
    returns (out: seq<Resolved>)
    requires NoDuplicates(Ids(steps)) && ById(steps, |steps|, stepMap, Itself) && g == Dependencies(steps)
    requires forall id :: id in sorted ==> id in Ids(steps)
    ensures IsResolution(steps, sorted, out)
  {
    out := [];
    assert IsResolution(steps, sorted[..0], out);
    hide ById, IsResolution, Dependencies, Inputs, Named;
    for i := 0 to |sorted|
      invariant IsResolution(steps, sorted[..i], out)
    {
      var id := sorted[i];
      StepMapNamed(steps, stepMap, id);
      var def := stepMap[id];
      ResolutionOne(steps, sorted, i, out);
      out := out + [Resolved(def, g[id], def.loop.Some?, def.loop)];
    }
    assert sorted[..|sorted|] == sorted;
  }

  lemma ResolutionOne(steps: seq<Step>, sorted: seq<string>, i: nat, out: seq<Resolved>)
    requires i < |sorted| && sorted[i] in Ids(steps) && IsResolution(steps, sorted[..i], out)
    ensures IsResolution(steps, sorted[..i + 1], out + [ResolvedStep(steps, sorted[i])])
  {
    hide Named, Inputs;
    assert sorted[..i + 1] == sorted[..i] + [sorted[i]];
  }

  lemma StepMapNamed(steps: seq<Step>, stepMap: map<string, Step>, id: string)
    requires NoDuplicates(Ids(steps)) && ById(steps, |steps|, stepMap, Itself) && id in Ids(steps)
    ensures id in stepMap && stepMap[id] == Named(steps, id)
    ensures id in Dependencies(steps) && Dependencies(steps)[id] == Inputs(steps, stepMap[id])
  {
    var k := FirstAt(Ids(steps), id);
    assert steps[k].id == id;
  }

  function ResolvedStep(steps: seq<Step>, id: string): Resolved
    requires id in Ids(steps)
  {
    var def := Named(steps, id);
    Resolved(def, Inputs(steps, def), def.loop.Some?, def.loop)
  }

  lemma NamedHasId(steps: seq<Step>, id: string)
    requires id in Ids(steps)
    ensures Named(steps, id).id == id && Named(steps, id) in steps
  {
    var k := FirstAt(Ids(steps), id);
    assert Ids(steps)[k] == steps[k].id;
  }

  ghost predicate IsResolution(steps: seq<Step>, sorted: seq<string>, out: seq<Resolved>) {
    && |out| == |sorted|
    && forall k :: 0 <= k < |sorted| ==> sorted[k] in Ids(steps) && out[k] == ResolvedStep(steps, sorted[k])
  }

  lemma ResolvedIds(steps: seq<Step>, sorted: seq<string>, out: seq<Resolved>)
    requires IsResolution(steps, sorted, out)
    ensures Ids(Definitions(out)) == sorted
    ensures forall k :: 0 <= k < |out| ==> Definitions(out)[k] in steps
  {
    hide Named, Inputs;
    forall k | 0 <= k < |out|
      ensures Definitions(out)[k].id == sorted[k] && Definitions(out)[k] in steps
    {
      NamedHasId(steps, sorted[k]);
    }
  }

  /** Steps are told apart by their ids. */
  lemma SameIds(steps: seq<Step>, defs: seq<Step>)
    requires NoDuplicates(Ids(steps)) && NoDuplicates(Ids(defs)) && Elements(Ids(defs)) == Elements(Ids(steps))
    requires forall k :: 0 <= k < |defs| ==> defs[k] in steps
    ensures multiset(defs) == multiset(steps)
  {
    ToldApart(steps);
    ToldApart(defs);
    assert Elements(defs) == Elements(steps) by {
      forall s | s in steps
        ensures s in defs
      {
        var k :| 0 <= k < |steps| && steps[k] == s;
        assert Ids(steps)[k] in Elements(Ids(steps));
        var m :| 0 <= m < |defs| && Ids(defs)[m] == s.id;
        SameId(steps, s, defs[m]);
      }
    }
    Permutation(defs, steps);
  }

  lemma ToldApart(steps: seq<Step>)
    requires NoDuplicates(Ids(steps))
    ensures NoDuplicates(steps)
  {
    forall i, j | 0 <= i < j < |steps|
      ensures steps[i] != steps[j]
    {
      assert Ids(steps)[i] != Ids(steps)[j];
    }
  }

  lemma SameId(steps: seq<Step>, s: Step, t: Step)
    requires NoDuplicates(Ids(steps)) && s in steps && t in steps && s.id == t.id
    ensures s == t
  {
    var i, j :| 0 <= i < |steps| && 0 <= j < |steps| && steps[i] == s && steps[j] == t;
    assert Ids(steps)[i] == Ids(steps)[j];
  }

  /** A complete sorted list of ids is a resolution. */
  lemma SortedResolves(steps: seq<Step>, sorted: seq<string>, out: seq<Resolved>)
    requires NoDuplicates(Ids(steps)) && NoDuplicates(sorted) && Elements(sorted) == Elements(Ids(steps))
    requires Ordered(Dependencies(steps), sorted) && IsResolution(steps, sorted, out)
    ensures Resolves(steps, out)
  {
    hide Named, Inputs;
    ResolvedIds(steps, sorted, out);
    SameIds(steps, Definitions(out));
    forall k | 0 <= k < |out|
      ensures ResolvedAt(steps, out, k)
    {
      assert Ids(Definitions(out[..k])) == sorted[..k];
    }
  }

  ghost predicate AllSound(steps: seq<Step>) {
    forall k :: 0 <= k < |steps| ==> Sound(steps, steps[k])
  }

  /** The whole resolver: an order, the first fault in reading order, or a cycle that is really there. */
  method ResolveSteps(steps: seq<Step>) returns (r: Result<seq<Resolved>, Error>)
    requires NoDuplicates(Ids(steps))
    ensures r.Ok? ==> Resolves(steps, r.value)
    ensures r.Err? && r.error != Cycle ==> exists i: nat :: FirstFault(steps, i, r.error)
    ensures r.Err? && r.error.UnknownInput? ==>
              && (exists i :: 0 <= i < |steps| && steps[i].id == r.error.step && steps[i].input.Some?
                              && r.error.ref in steps[i].input.value)
              && (r.error.ref == "" || forall k :: 0 <= k < |steps| ==> steps[k].output != Some(r.error.ref))
    ensures r.Err? && r.error != Cycle <==> !AllSound(steps)
    ensures r == Err(Cycle) <==> AllSound(steps) && HasCycle(Dependencies(steps))
  {
    var stepMap, outputMap := Index(steps);
    StepMapKeys(steps, stepMap);
    var edges := Link(steps, stepMap, outputMap);
    if edges.Err? {
      ghost var i: nat :| FirstFault(steps, i, edges.error);
      FaultIsUnsound(steps, i, edges.error);
      if edges.error.UnknownInput? {
        UnknownIsNoOutput(steps, i, edges.error);
      }
      return Err(edges.error);
    }
    hide *;
    var g := edges.value;
    DependenciesGraph(steps);
    var sorted := Sort(Ids(steps), g);
    Outcome(steps, sorted);
    if |sorted| != |steps| {
      return Err(Cycle);
    }
    var out := Resolve(steps, stepMap, g, sorted);
    SortedResolves(steps, sorted, out);
    return Ok(out);
  }

  lemma StepMapKeys(steps: seq<Step>, stepMap: map<string, Step>)
    requires ById(steps, |steps|, stepMap, Itself)
    ensures stepMap.Keys == Elements(Ids(steps))
  {
    assert Ids(steps)[..|steps|] == Ids(steps);
  }

  /** The output of the queue is short exactly when there is a cycle. */
  lemma Outcome(steps: seq<Step>, sorted: seq<string>)
    requires NoDuplicates(Ids(steps))
    requires var g := Dependencies(steps);
             NoDuplicates(sorted) && Elements(sorted) <= g.Keys && Ordered(g, sorted) && Stuck(g, sorted)
    ensures |sorted| != |steps| <==> HasCycle(Dependencies(steps))
    ensures |sorted| == |steps| ==> Elements(sorted) == Elements(Ids(steps))
    ensures forall id :: id in sorted ==> id in Ids(steps)
  {
    var g := Dependencies(steps);
    DependenciesGraph(steps);
    SameElements(sorted, Ids(steps));
    assert forall id :: id in sorted ==> id in Elements(sorted);
    hide Inputs, Named, Ordered, Stuck, HasCycle;
    if |sorted| == |steps| {
      OrderedHasNoCycle(g, sorted);
    } else {
      Leftover(sorted, Ids(steps));
      StuckHasCycle(Ids(steps), g, sorted);
    }
  }

  lemma Leftover(some: seq<string>, all: seq<string>)
    requires NoDuplicates(some) && NoDuplicates(all) && Elements(some) <= Elements(all) && |some| != |all|
    ensures exists id :: id in Elements(all) && id !in some
  {
    SizeIsLength(some);
    SizeIsLength(all);
    assert Elements(some) != Elements(all);
    assert exists id :: id in Elements(all) && id !in Elements(some);
  }
}
