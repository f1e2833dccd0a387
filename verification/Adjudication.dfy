/** Adjudication of disputed findings: verdicts of a model change the findings in place. */
module Adjudication {
  import opened Distinct
  import opened Merge

  /** What a call comes to: it failed or said nothing readable, or gave a verdict with its reason. */
  datatype Reply = Nothing | Confirmed(reason: string) | Dismissed(reason: string) | Uncertain(reason: string)

  predicate Settles(r: Reply) {
    r.Confirmed? || r.Dismissed?
  }

  predicate Adjudicatable(f: Finding) {
    f.disputed || f.confidence == Medium
  }

  /** The positions `filter` selects, in order. */
  function Selected(findings: seq<Finding>): (r: seq<nat>)
    ensures NoDuplicates(r)
    ensures forall i :: i in r <==> 0 <= i < |findings| && Adjudicatable(findings[i])
  {
    if findings == [] then []
    else
      var n := |findings| - 1;
      var before := Selected(findings[..n]);
      assert n !in before;
      before + if Adjudicatable(findings[n]) then [n] else []
  }

  /** `xs.slice(0, n)`: a negative `n` counts from the end. */
  function Slice<T>(xs: seq<T>, n: int): (r: seq<T>)
    ensures r <= xs
  {
    var end := if n < 0 then |xs| + n else n;
    xs[..if end < 0 then 0 else if end > |xs| then |xs| else end]
  }

  /** A limit takes as many from the front, all when there are no more; a negative one leaves as many off the end. */
  lemma SliceLength<T>(xs: seq<T>, n: int)
    ensures 0 <= n <= |xs| ==> |Slice(xs, n)| == n
    ensures n > |xs| ==> Slice(xs, n) == xs
    ensures n < 0 ==> |Slice(xs, n)| == if |xs| + n > 0 then |xs| + n else 0
  {
  }

  /** The disputed findings and those of medium confidence, in order. */
  lemma {:induction false} SelectedAre(findings: seq<Finding>)
    ensures forall i :: i in Selected(findings) <==>
                          0 <= i < |findings| && (findings[i].disputed || findings[i].confidence == Medium)
    ensures forall j, k :: 0 <= j < k < |Selected(findings)| ==> Selected(findings)[j] < Selected(findings)[k]
  {
    if findings != [] {
      var before := Selected(findings[..|findings| - 1]);
      SelectedAre(findings[..|findings| - 1]);
      assert forall j :: 0 <= j < |before| ==> before[j] in before;
    }
  }

  /** One verdict applied to one finding. */
  function Apply(f: Finding, r: Reply): Finding {
    match r
    case Nothing => f
    case Confirmed(reason) =>
      f.(confidence := High, semanticEvidence := f.semanticEvidence + ["Adjudicated: CONFIRMED — " + reason], disputed := false)
    case Dismissed(reason) =>
      f.(confidence := Low, semanticEvidence := f.semanticEvidence + ["Adjudicated: DISMISSED — " + reason], disputed := false)
    case Uncertain(reason) =>
      f.(semanticEvidence := f.semanticEvidence + ["Adjudicated: UNCERTAIN — " + reason])
  }

  predicate Positions(todo: seq<nat>, findings: seq<Finding>) {
    NoDuplicates(todo) && forall j :: 0 <= j < |todo| ==> todo[j] < |findings|
  }

  /** The findings after the verdicts on `todo`, one by one. */
  function After(findings: seq<Finding>, todo: seq<nat>, reply: nat -> Reply): (r: seq<Finding>)
    requires Positions(todo, findings)
    ensures |r| == |findings|
  {
    if todo == [] then findings
    else
      var j := |todo| - 1;
      var before := After(findings, todo[..j], reply);
      before[todo[j] := Apply(before[todo[j]], reply(j))]
  }

  /** Every selected finding meets its own verdict once, and nothing else changes. */
  lemma {:induction false} AfterAt(findings: seq<Finding>, todo: seq<nat>, reply: nat -> Reply)
    requires Positions(todo, findings)
    ensures forall j :: 0 <= j < |todo| ==> After(findings, todo, reply)[todo[j]] == Apply(findings[todo[j]], reply(j))
    ensures forall i :: 0 <= i < |findings| && i !in todo ==> After(findings, todo, reply)[i] == findings[i]
  {
    hide Apply;
    if todo != [] {
      var j := |todo| - 1;
      AfterAt(findings, todo[..j], reply);
      assert forall k :: 0 <= k < j ==> todo[..j][k] == todo[k];
      assert todo[j] !in todo[..j];
    }
  }

  /** What a verdict leaves of the finding it is about: CONFIRMED makes it certain and DISMISSED doubtful, neither of
      them disputed; UNCERTAIN leaves confidence and dispute as they were; all three say so in the semantic evidence.
      A call without a verdict changes nothing. */
  lemma VerdictsSay(findings: seq<Finding>, todo: seq<nat>, reply: nat -> Reply, j: nat)
    requires Positions(todo, findings) && j < |todo|
    ensures var was, f := findings[todo[j]], After(findings, todo, reply)[todo[j]];
            && (reply(j).Nothing? ==> f == was)
            && (!reply(j).Nothing? ==>
                  && |f.semanticEvidence| == |was.semanticEvidence| + 1 && was.semanticEvidence < f.semanticEvidence
                  && f == was.(semanticEvidence := f.semanticEvidence, confidence := f.confidence, disputed := f.disputed))
            && (reply(j).Confirmed? ==>
                  && f.confidence == High && !f.disputed
                  && f.semanticEvidence[|was.semanticEvidence|] == "Adjudicated: CONFIRMED — " + reply(j).reason)
            && (reply(j).Dismissed? ==>
                  && f.confidence == Low && !f.disputed
                  && f.semanticEvidence[|was.semanticEvidence|] == "Adjudicated: DISMISSED — " + reply(j).reason)
            && (reply(j).Uncertain? ==>
                  && f.confidence == was.confidence && f.disputed == was.disputed
                  && f.semanticEvidence[|was.semanticEvidence|] == "Adjudicated: UNCERTAIN — " + reply(j).reason)
  {
    AfterAt(findings, todo, reply);
    hide After, Positions;
  }

  /** The reported number of verdicts is that of the CONFIRMED and DISMISSED ones. */
  lemma {:induction false} SettledIs(todo: seq<nat>, reply: nat -> Reply)
    ensures Settled(todo, reply) == |set j: nat | j < |todo| && (reply(j).Confirmed? || reply(j).Dismissed?)|
  {
    if todo != [] {
      var n := |todo| - 1;
      SettledIs(todo[..n], reply);
      assert (set j: nat | j < |todo| && (reply(j).Confirmed? || reply(j).Dismissed?)) ==
             (set j: nat | j < n && (reply(j).Confirmed? || reply(j).Dismissed?))
             + if Settles(reply(n)) then {n} else {};
    }
  }

  /** How many verdicts settle something. */
  function Settled(todo: seq<nat>, reply: nat -> Reply): nat {
    if todo == [] then 0 else Settled(todo[..|todo| - 1], reply) + if Settles(reply(|todo| - 1)) then 1 else 0
  }

  /** How many verdicts settle a finding that nobody disputed. */
  function Undisputed(findings: seq<Finding>, todo: seq<nat>, reply: nat -> Reply): nat
    requires Positions(todo, findings)
  {
    if todo == [] then 0
    else
      var j := |todo| - 1;
      Undisputed(findings, todo[..j], reply) + if Settles(reply(j)) && !findings[todo[j]].disputed then 1 else 0
  }

  function Disputes(findings: seq<Finding>): nat {
    Count(findings, (f: Finding) => f.disputed)
  }

  lemma {:induction false} DisputesUpdate(findings: seq<Finding>, i: nat, f: Finding)
    requires i < |findings|
    ensures Disputes(findings[i := f]) + (if findings[i].disputed then 1 else 0) ==
            Disputes(findings) + (if f.disputed then 1 else 0)
  {
    var n := |findings| - 1;
    if i < n {
      DisputesUpdate(findings[..n], i, f);
      assert findings[i := f][..n] == findings[..n][i := f];
    } else {
      assert findings[i := f][..n] == findings[..n];
    }
  }

  /** Disputes are conserved up to the medium findings that nobody disputed. */
  lemma {:induction false} Conservation(findings: seq<Finding>, todo: seq<nat>, reply: nat -> Reply)
    requires Positions(todo, findings)
    ensures Settled(todo, reply) + Disputes(After(findings, todo, reply)) ==
            Disputes(findings) + Undisputed(findings, todo, reply)
  {
    if todo != [] {
      var j := |todo| - 1;
      Conservation(findings, todo[..j], reply);
      AfterAt(findings, todo[..j], reply);
      assert todo[j] !in todo[..j];
      var before := After(findings, todo[..j], reply);
      DisputesUpdate(before, todo[j], Apply(before[todo[j]], reply(j)));
    }
  }

  lemma {:induction false} AllDisputed(findings: seq<Finding>, todo: seq<nat>, reply: nat -> Reply)
    requires Positions(todo, findings) && forall j :: 0 <= j < |todo| ==> findings[todo[j]].disputed
    ensures Undisputed(findings, todo, reply) == 0
  {
    if todo != [] {
      AllDisputed(findings, todo[..|todo| - 1], reply);
    }
  }

  lemma SliceSelects(findings: seq<Finding>, maxDisputes: int)
    ensures var todo := Slice(Selected(findings), maxDisputes);
            Positions(todo, findings) && forall j :: 0 <= j < |todo| ==> Adjudicatable(findings[todo[j]])
  {
    var all, todo := Selected(findings), Slice(Selected(findings), maxDisputes);
    forall j | 0 <= j < |todo|
      ensures todo[j] < |findings| && Adjudicatable(findings[todo[j]])
    {
      assert todo[j] == all[j] && all[j] in all;
    }
  }

  /** On the merge's own output the conservation is exact, whatever the verdicts and the limit. */
  lemma MergedConservation(seen: seq<Entry>, maxDisputes: int, reply: nat -> Reply)
    ensures var merged := MergedAll(seen);
            var todo := Slice(Selected(merged), maxDisputes);
            && Positions(todo, merged)
            && Settled(todo, reply) + Disputes(After(merged, todo, reply)) == Disputes(merged)
  {
    var merged := MergedAll(seen);
    var todo := Slice(Selected(merged), maxDisputes);
    SliceSelects(merged, maxDisputes);
    Conservation(merged, todo, reply);
    forall j | 0 <= j < |todo|
      ensures merged[todo[j]].disputed
    {
      SingleSourceIsDisputed(seen, todo[j]);
    }
    AllDisputed(merged, todo, reply);
  }

  /** The counts are taken again; `adjudicated` is left to the caller. */
  function RecalculateConfidenceStats(findings: seq<Finding>, stats: Stats): Stats {
    stats.(
      highConfidence := Count(findings, (f: Finding) => f.confidence == High),
      mediumConfidence := Count(findings, (f: Finding) => f.confidence == Medium),
      lowConfidence := Count(findings, (f: Finding) => f.confidence == Low),
      agreed := Count(findings, (f: Finding) => |f.sources| >= 2),
      disputed := Count(findings, (f: Finding) => f.disputed))
  }

  /** The recount is the merge's own count, taken of the findings as they are now. */
  lemma RecountAgrees(deterministic: seq<Finding>, semantic: seq<Finding>, host: seq<Finding>, findings: seq<Finding>,
                      stats: Stats)
    ensures RecalculateConfidenceStats(findings, stats) ==
            ComputeThreeWayStats(deterministic, semantic, host, findings).(
              deterministic := stats.deterministic, semantic := stats.semantic, host := stats.host,
              adjudicated := stats.adjudicated)
  {
    hide Count, KeySet;
  }

  method Select(findings: array<Finding>) returns (todo: seq<nat>)
    ensures todo == Selected(findings[..])
  {
    todo := [];
    for i := 0 to findings.Length
      invariant todo == Selected(findings[..i])
    {
      assert findings[..i + 1][..i] == findings[..i];
      if findings[i].disputed || findings[i].confidence == Medium {
        todo := todo + [i];
      }
    }
    assert findings[..] == findings[..findings.Length];
  }

  /** The adjudication loop, over the findings in place. */
  method AdjudicateFindings(findings: array<Finding>, maxDisputes: int, stats0: Stats, reply: nat -> Reply)
    returns (stats: Stats)
    modifies findings
    ensures var todo := Slice(Selected(old(findings[..])), maxDisputes);
            && Positions(todo, old(findings[..]))
            && findings[..] == After(old(findings[..]), todo, reply)
            && stats == RecalculateConfidenceStats(findings[..], stats0.(adjudicated := stats0.adjudicated + Settled(todo, reply)))
  {
    var all := Select(findings);
    var todo := Slice(all, maxDisputes);
    ghost var was := findings[..];
    SliceSelects(was, maxDisputes);
    hide *;
    NothingYet(was, todo, reply);
    stats := stats0.(adjudicated := stats0.adjudicated + 0);
    for j := 0 to |todo|
      invariant Positions(todo, was) && Applied(was, todo, j, reply, findings[..])
      invariant stats == stats0.(adjudicated := stats0.adjudicated + SettledUpTo(todo, j, reply))
    {
      AppliedOne(was, todo, j, reply, findings[..]);
      var finding, settled := Adjudicate(findings[todo[j]], reply(j));
      findings[todo[j]] := finding;
      if settled {
        stats := stats.(adjudicated := stats.adjudicated + 1);
      }
    }
    AllApplied(was, todo, reply, findings[..]);
    stats := RecalculateConfidenceStats(findings[..], stats);
  }

  /** What one reply does to one finding. */
  method Adjudicate(before: Finding, r: Reply) returns (finding: Finding, settled: bool)
    ensures finding == Apply(before, r) && settled == Settles(r)
  {
    finding, settled := before, false;
    match r {
      case Nothing =>
      case Uncertain(reason) =>
        finding := finding.(semanticEvidence := finding.semanticEvidence + ["Adjudicated: UNCERTAIN — " + reason]);
      case Confirmed(reason) =>
        finding := finding.(confidence := High);
        finding := finding.(semanticEvidence := finding.semanticEvidence + ["Adjudicated: CONFIRMED — " + reason]);
        finding, settled := finding.(disputed := false), true;
      case Dismissed(reason) =>
        finding := finding.(confidence := Low);
        finding := finding.(semanticEvidence := finding.semanticEvidence + ["Adjudicated: DISMISSED — " + reason]);
        finding, settled := finding.(disputed := false), true;
    }
  }

  /** The first `j` verdicts have been applied. */
  predicate Applied(was: seq<Finding>, todo: seq<nat>, j: nat, reply: nat -> Reply, now: seq<Finding>) {
    j <= |todo| && Positions(todo[..j], was) && now == After(was, todo[..j], reply)
  }

  function SettledUpTo(todo: seq<nat>, j: nat, reply: nat -> Reply): nat
    requires j <= |todo|
  {
    Settled(todo[..j], reply)
  }

  lemma NothingYet(was: seq<Finding>, todo: seq<nat>, reply: nat -> Reply)
    ensures Applied(was, todo, 0, reply, was) && SettledUpTo(todo, 0, reply) == 0
  {
  }

  lemma AppliedOne(was: seq<Finding>, todo: seq<nat>, j: nat, reply: nat -> Reply, now: seq<Finding>)
    requires j < |todo| && Positions(todo, was) && Applied(was, todo, j, reply, now)
    ensures |now| == |was| && todo[j] < |was|
    ensures Applied(was, todo, j + 1, reply, now[todo[j] := Apply(now[todo[j]], reply(j))])
    ensures SettledUpTo(todo, j + 1, reply) == SettledUpTo(todo, j, reply) + if Settles(reply(j)) then 1 else 0
  {
    hide Apply;
    assert todo[..j + 1][..j] == todo[..j];
  }

  lemma AllApplied(was: seq<Finding>, todo: seq<nat>, reply: nat -> Reply, now: seq<Finding>)
    requires Applied(was, todo, |todo|, reply, now)
    ensures Positions(todo, was) && now == After(was, todo, reply)
    ensures SettledUpTo(todo, |todo|, reply) == Settled(todo, reply)
  {
    assert todo[..|todo|] == todo;
  }
}
