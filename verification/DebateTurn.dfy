/** Any number of turn commands over one ledger: they read, recover stale rows, claim, call the model,
    commit or fail, one database statement at a time, and may die anywhere. */
module DebateTurn {
  import opened MessageLedger
  import opened Utf16
  import opened Wrappers

  type Pid = nat

  datatype Job = Job(key: Key, prompt: Text, bridge: string, model: string, threshold: int)

  /** Where a command is in its script. */
  datatype Place =
    | Begun(job: Job)
    | Looked(job: Job)
    | Swept(job: Job)
    | Refetched(job: Job, current: Option<nat>, idle: bool)
    | Prepared(job: Job, id: nat)
    | Refused(job: Job, id: nat)
    | Calling(job: Job, id: nat)
    | Answered(job: Job, id: nat, reply: Reply)
    | Committed(job: Job, id: nat, text: Text)
    | Erred(job: Job, id: nat, error: Text)

  /** A successful `markCompleted`, and a successful command's report. */
  datatype Commit = Commit(pid: Pid, id: nat, text: Text)
  datatype Report = Report(pid: Pid, key: Key, text: Text)

  datatype State = State(rows: Table, at: map<Pid, Place>, commits: seq<Commit>, reports: seq<Report>)

  datatype Action =
    | Begin(p: Pid, job: Job)
    | Look(p: Pid)
    | Sweep(p: Pid, now: int)
    | Refetch(p: Pid)
    | Prepare(p: Pid, now: int)
    | Claim(p: Pid, now: int)
    | Recheck(p: Pid)
    | Answer(p: Pid, reply: Reply)
    | Throw(p: Pid, error: Text)
    | Complete(p: Pid, now: int)
    | Fail(p: Pid, now: int)
    | Print(p: Pid)
    | Exit(p: Pid)

  const START := State([], map[], [], [])

  function Move(s: State, p: Pid, place: Place): State {
    s.(at := s.at[p := place])
  }

  function Leave(s: State, p: Pid): State {
    s.(at := s.at - {p})
  }

  function Say(s: State, p: Pid, key: Key, text: Text): State {
    Leave(s, p).(reports := s.reports + [Report(p, key, text)])
  }

  /** The stored answer of a completed row; a row without one reads as the empty text. */
  function Stored(row: Row): Text {
    if row.reply.Some? then row.reply.value.text else []
  }

  predicate Done(s: State, key: Key) {
    Find(s.rows, key).Some? && s.rows[Find(s.rows, key).value].status == Completed
  }

  /** Prints the cached answer. */
  function SayStored(s: State, p: Pid, key: Key): State
    requires Done(s, key)
  {
    Say(s, p, key, Stored(s.rows[Find(s.rows, key).value]))
  }

  function NewRow(clean: Text -> Text, job: Job, now: int): Row {
    Row(job.key, job.bridge, job.model, clean(job.prompt), Queued, None, None, now, now, None)
  }

  function DoPrepare(clean: Text -> Text, s: State, p: Pid, place: Place, now: int): State
    requires place.Refetched?
  {
    var job := place.job;
    if place.current.Some? then
      var id := place.current.value;
      Move(s, p, Prepared(job, id)).(
        rows := if place.idle then Put(s.rows, id, IDLE, Prompting(clean(job.prompt), now)) else s.rows)
    else if Find(s.rows, job.key).Some? then Leave(s, p)
    else Move(s, p, Prepared(job, |s.rows|)).(rows := s.rows + [NewRow(clean, job, now)])
  }

  function DoComplete(clean: Text -> Text, s: State, p: Pid, place: Place, now: int): State
    requires place.Answered?
  {
    if Hits(s.rows, place.id, {Running}) then
      Move(s, p, Committed(place.job, place.id, place.reply.text)).(
        rows := Put(s.rows, place.id, {Running}, Completing(Cleaned(clean, place.reply), now)),
        commits := s.commits + [Commit(p, place.id, place.reply.text)])
    else Leave(s, p)
  }

  /** One statement of one command. A command that is not where the statement is does nothing. */
  function Do(clean: Text -> Text, s: State, a: Action): State {
    if a.Begin? then
      if a.p in s.at then s else Move(s, a.p, Begun(a.job))
    else if a.p !in s.at then s
    else
      var p, place := a.p, s.at[a.p];
      match (a, place)
      case (Exit(_), _) => Leave(s, p)
      case (Look(_), Begun(job)) => if Done(s, job.key) then SayStored(s, p, job.key) else Move(s, p, Looked(job))
      case (Sweep(_, now), Looked(job)) =>
        Move(s, p, Swept(job)).(rows := Recover(s.rows, job.key.debateId, now - job.threshold, now))
      case (Refetch(_), Swept(job)) =>
        var found := Find(s.rows, job.key);
        Move(s, p, Refetched(job, found, found.Some? && s.rows[found.value].status in IDLE))
      case (Prepare(_, now), Refetched(_, _, _)) => DoPrepare(clean, s, p, place, now)
      case (Claim(_, now), Prepared(job, id)) =>
        if Hits(s.rows, id, IDLE) then Move(s, p, Calling(job, id)).(rows := Put(s.rows, id, IDLE, Starting(now)))
        else Move(s, p, Refused(job, id))
      case (Recheck(_), Refused(job, _)) => if Done(s, job.key) then SayStored(s, p, job.key) else Leave(s, p)
      case (Answer(_, reply), Calling(job, id)) => Move(s, p, Answered(job, id, reply))
      case (Throw(_, error), Calling(job, id)) => Move(s, p, Erred(job, id, error))
      case (Throw(_, error), Committed(job, id, _)) => Move(s, p, Erred(job, id, error))
      case (Complete(_, now), Answered(_, _, _)) => DoComplete(clean, s, p, place, now)
      case (Fail(_, now), Erred(_, id, error)) =>
        Leave(s, p).(rows := Put(s.rows, id, {Running}, Failing(clean(error), now)))
      case (Print(_), Committed(job, _, text)) => Say(s, p, job.key, text)
      case _ => s
  }

  function After(clean: Text -> Text, s: State, run: seq<Action>): State {
    if run == [] then s else Do(clean, After(clean, s, run[..|run| - 1]), run[|run| - 1])
  }

  // ---- the invariant ----

  /** The row a command works on is its own. */
  predicate Placed(s: State, p: Pid) {
    p in s.at ==>
      match s.at[p]
      case Refetched(job, current, _) => current.Some? ==> Owns(s, job, current.value)
      case Prepared(job, id) => Owns(s, job, id)
      case Refused(job, id) => Owns(s, job, id)
      case Calling(job, id) => Owns(s, job, id)
      case Answered(job, id, _) => Owns(s, job, id)
      case Committed(job, id, text) => Owns(s, job, id) && Commit(p, id, text) in s.commits
      case Erred(job, id, _) => Owns(s, job, id)
      case _ => true
  }

  predicate Owns(s: State, job: Job, id: nat) {
    id < |s.rows| && s.rows[id].key == job.key
  }

  /** A commit is in its row for good. */
  predicate Kept(clean: Text -> Text, s: State, c: Commit) {
    && c.id < |s.rows| && s.rows[c.id].status == Completed
    && s.rows[c.id].reply.Some? && s.rows[c.id].reply.value.text == clean(c.text)
  }

  /** A report is the commit of its key, raw or redacted. */
  ghost predicate Backed(clean: Text -> Text, s: State, r: Report) {
    exists c :: c in s.commits && Backs(clean, s, c, r)
  }

  predicate Backs(clean: Text -> Text, s: State, c: Commit, r: Report) {
    c.id < |s.rows| && s.rows[c.id].key == r.key && (r.text == c.text || r.text == clean(c.text))
  }

  ghost predicate Witnessed(s: State, id: nat) {
    exists c :: c in s.commits && c.id == id
  }

  ghost predicate Inv(clean: Text -> Text, s: State) {
    && Unique(s.rows)
    && (forall p :: Placed(s, p))
    && (forall c :: c in s.commits ==> Kept(clean, s, c))
    && (forall i, j :: 0 <= i < j < |s.commits| ==> s.commits[i].id != s.commits[j].id)
    && (forall id :: 0 <= id < |s.rows| && s.rows[id].status == Completed ==> Witnessed(s, id))
    && (forall r :: r in s.reports ==> Backed(clean, s, r))
  }

  /** The ledger part of a step that completes nothing. */
  ghost predicate Calm(s: State, t: State) {
    && Follows(s.rows, t.rows) && Unique(t.rows)
    && t.commits == s.commits
    && (forall id :: 0 <= id < |t.rows| && t.rows[id].status == Completed ==> id < |s.rows| && s.rows[id].status == Completed)
  }

  lemma CalmKeeps(clean: Text -> Text, s: State, t: State)
    requires Inv(clean, s) && Calm(s, t)
    requires forall p :: Placed(t, p)
    requires forall r :: r in t.reports ==> r in s.reports || Backed(clean, s, r)
    ensures Inv(clean, t)
  {
    forall c | c in t.commits
      ensures Kept(clean, t, c)
    {
      assert Kept(clean, s, c);
    }
    forall r | r in t.reports
      ensures Backed(clean, t, r)
    {
      assert Backed(clean, s, r);
      var c :| c in s.commits && Backs(clean, s, c, r);
      assert Backs(clean, t, c, r);
    }
    forall id | 0 <= id < |t.rows| && t.rows[id].status == Completed
      ensures Witnessed(t, id)
    {
      assert Witnessed(s, id);
    }
  }

  /** Steps of `p` leave the others where they are. */
  lemma OthersPlaced(s: State, t: State, p: Pid, q: Pid)
    requires Placed(s, q) && q != p
    requires q in t.at ==> q in s.at && t.at[q] == s.at[q]
    requires Follows(s.rows, t.rows) && s.commits <= t.commits
    ensures Placed(t, q)
  {
  }

  /** A step that neither completes a row nor reports. */
  lemma QuietStep(clean: Text -> Text, s: State, t: State, p: Pid)
    requires Inv(clean, s) && Calm(s, t) && t.reports == s.reports && Placed(t, p)
    requires forall q :: q != p ==> (q in t.at ==> q in s.at && t.at[q] == s.at[q])
    ensures Inv(clean, t)
  {
    forall q
      ensures Placed(t, q)
    {
      if q != p {
        assert Placed(s, q);
        OthersPlaced(s, t, p, q);
      }
    }
    CalmKeeps(clean, s, t);
  }

  /** A step that reports `text` for `key` and ends the command. */
  lemma SayStep(clean: Text -> Text, s: State, p: Pid, key: Key, text: Text)
    requires Inv(clean, s) && Backed(clean, s, Report(p, key, text))
    ensures Inv(clean, Say(s, p, key, text))
  {
    var t := Say(s, p, key, text);
    forall q
      ensures Placed(t, q)
    {
      assert Placed(s, q);
    }
    assert Backed(clean, t, Report(p, key, text)) by {
      var c :| c in s.commits && Backs(clean, s, c, Report(p, key, text));
      assert Backs(clean, t, c, Report(p, key, text));
    }
    CalmKeeps(clean, s, t);
  }

  /** What a completed row holds is the redacted commit. */
  lemma StoredIsBacked(clean: Text -> Text, s: State, p: Pid, key: Key)
    requires Inv(clean, s) && Done(s, key)
    ensures Backed(clean, s, Report(p, key, Stored(s.rows[Find(s.rows, key).value])))
  {
    var id := Find(s.rows, key).value;
    assert Witnessed(s, id);
    var c :| c in s.commits && c.id == id;
    assert Kept(clean, s, c);
    assert Backs(clean, s, c, Report(p, key, Stored(s.rows[id])));
  }

  lemma CommittedIsBacked(clean: Text -> Text, s: State, p: Pid)
    requires Inv(clean, s) && p in s.at && s.at[p].Committed?
    ensures Backed(clean, s, Report(p, s.at[p].job.key, s.at[p].text))
  {
    assert Placed(s, p);
    var c := Commit(p, s.at[p].id, s.at[p].text);
    assert Kept(clean, s, c);
    assert Backs(clean, s, c, Report(p, s.at[p].job.key, s.at[p].text));
  }

  /** A guarded update that does not complete its row. */
  lemma PutIsCalm(s: State, t: State, id: nat, from: set<Status>, change: Row -> Row)
    requires Unique(s.rows) && t.rows == Put(s.rows, id, from, change) && t.commits == s.commits
    requires Completed !in from && forall row :: change(row).key == row.key && (change(row).status == Completed ==> row.status == Completed)
    ensures Calm(s, t)
  {
    PutFollows(s.rows, id, from, change);
  }

  lemma PrepareStep(clean: Text -> Text, s: State, p: Pid, now: int)
    requires Inv(clean, s) && p in s.at && s.at[p].Refetched?
    ensures Inv(clean, DoPrepare(clean, s, p, s.at[p], now))
  {
    var place := s.at[p];
    var t := DoPrepare(clean, s, p, place, now);
    assert Placed(s, p);
    if place.current.Some? && place.idle {
      PutIsCalm(s, t, place.current.value, IDLE, Prompting(clean(place.job.prompt), now));
    } else if place.current.None? && Find(s.rows, place.job.key).None? {
      assert Unique(t.rows);
    }
    QuietStep(clean, s, t, p);
  }

  lemma CompleteStep(clean: Text -> Text, s: State, p: Pid, now: int)
    requires Inv(clean, s) && p in s.at && s.at[p].Answered?
    ensures Inv(clean, DoComplete(clean, s, p, s.at[p], now))
  {
    var place := s.at[p];
    var t := DoComplete(clean, s, p, place, now);
    assert Placed(s, p);
    if Hits(s.rows, place.id, {Running}) {
      var c := Commit(p, place.id, place.reply.text);
      PutFollows(s.rows, place.id, {Running}, Completing(Cleaned(clean, place.reply), now));
      CommitKeeps(clean, s, t, p, c);
    } else {
      QuietStep(clean, s, t, p);
    }
  }

  lemma CommitKeeps(clean: Text -> Text, s: State, t: State, p: Pid, c: Commit)
    requires Inv(clean, s) && c.id < |s.rows| && s.rows[c.id].status != Completed
    requires Follows(s.rows, t.rows) && Unique(t.rows) && |t.rows| == |s.rows|
    requires forall id :: 0 <= id < |s.rows| && id != c.id ==> t.rows[id] == s.rows[id]
    requires t.commits == s.commits + [c] && Kept(clean, t, c)
    requires t.reports == s.reports && Placed(t, p)
    requires forall q :: q != p ==> (q in t.at ==> q in s.at && t.at[q] == s.at[q])
    ensures Inv(clean, t)
  {
    forall d | d in t.commits
      ensures Kept(clean, t, d)
    {
      if d in s.commits {
        assert Kept(clean, s, d);
      }
    }
    forall q
      ensures Placed(t, q)
    {
      if q != p {
        assert Placed(s, q);
        OthersPlaced(s, t, p, q);
      }
    }
    forall r | r in t.reports
      ensures Backed(clean, t, r)
    {
      assert Backed(clean, s, r);
      var d :| d in s.commits && Backs(clean, s, d, r);
      assert Backs(clean, t, d, r) && d in t.commits;
    }
    CommitCovers(clean, s, t, c);
  }

  lemma CommitCovers(clean: Text -> Text, s: State, t: State, c: Commit)
    requires Inv(clean, s) && c.id < |s.rows| && s.rows[c.id].status != Completed
    requires |t.rows| == |s.rows| && t.commits == s.commits + [c]
    requires forall id :: 0 <= id < |s.rows| && id != c.id ==> t.rows[id] == s.rows[id]
    ensures forall i, j :: 0 <= i < j < |t.commits| ==> t.commits[i].id != t.commits[j].id
    ensures forall id :: 0 <= id < |t.rows| && t.rows[id].status == Completed ==> Witnessed(t, id)
  {
    forall i | 0 <= i < |s.commits|
      ensures s.commits[i].id != c.id
    {
      assert Kept(clean, s, s.commits[i]);
    }
    forall id | 0 <= id < |t.rows| && t.rows[id].status == Completed
      ensures Witnessed(t, id)
    {
      if id == c.id {
        assert c in t.commits;
      } else {
        assert Witnessed(s, id);
        var d :| d in s.commits && d.id == id;
        assert d in t.commits;
      }
    }
  }

  /** The steps that only read or move the command. */
  lemma MoveStep(clean: Text -> Text, s: State, p: Pid, place: Place)
    requires Inv(clean, s) && Placed(Move(s, p, place), p)
    ensures Inv(clean, Move(s, p, place)) && Inv(clean, Leave(s, p))
  {
    QuietStep(clean, s, Move(s, p, place), p);
    QuietStep(clean, s, Leave(s, p), p);
  }

  lemma SweepStep(clean: Text -> Text, s: State, p: Pid, now: int)
    requires Inv(clean, s) && p in s.at && s.at[p].Looked?
    ensures Inv(clean, Do(clean, s, Sweep(p, now)))
  {
    var job := s.at[p].job;
    var t := Move(s, p, Swept(job)).(rows := Recover(s.rows, job.key.debateId, now - job.threshold, now));
    RecoverFollows(s.rows, job.key.debateId, now - job.threshold, now);
    QuietStep(clean, s, t, p);
  }

  lemma ClaimStep(clean: Text -> Text, s: State, p: Pid, now: int)
    requires Inv(clean, s) && p in s.at && s.at[p].Prepared?
    ensures Inv(clean, Do(clean, s, Claim(p, now)))
  {
    var job, id := s.at[p].job, s.at[p].id;
    assert Placed(s, p);
    if Hits(s.rows, id, IDLE) {
      var t := Move(s, p, Calling(job, id)).(rows := Put(s.rows, id, IDLE, Starting(now)));
      PutIsCalm(s, t, id, IDLE, Starting(now));
      QuietStep(clean, s, t, p);
    } else {
      MoveStep(clean, s, p, Refused(job, id));
    }
  }

  lemma FailStep(clean: Text -> Text, s: State, p: Pid, now: int)
    requires Inv(clean, s) && p in s.at && s.at[p].Erred?
    ensures Inv(clean, Do(clean, s, Fail(p, now)))
  {
    var id, error := s.at[p].id, s.at[p].error;
    var t := Leave(s, p).(rows := Put(s.rows, id, {Running}, Failing(clean(error), now)));
    PutIsCalm(s, t, id, {Running}, Failing(clean(error), now));
    QuietStep(clean, s, t, p);
  }

  lemma CachedStep(clean: Text -> Text, s: State, p: Pid, key: Key)
    requires Inv(clean, s) && Done(s, key)
    ensures Inv(clean, SayStored(s, p, key))
  {
    StoredIsBacked(clean, s, p, key);
    SayStep(clean, s, p, key, Stored(s.rows[Find(s.rows, key).value]));
  }

  lemma StepKeepsInv(clean: Text -> Text, s: State, a: Action)
    requires Inv(clean, s)
    ensures Inv(clean, Do(clean, s, a))
  {
    var p := a.p;
    assert Placed(s, p);
    if a.Begin? {
      MoveStep(clean, s, p, Begun(a.job));
    } else if p in s.at {
      var place := s.at[p];
      hide Inv;
      match (a, place)
      case (Look(_), Begun(job)) =>
        MoveStep(clean, s, p, Looked(job));
        if Done(s, job.key) {
          CachedStep(clean, s, p, job.key);
        }
      case (Recheck(_), Refused(job, _)) =>
        MoveStep(clean, s, p, Looked(job));
        if Done(s, job.key) {
          CachedStep(clean, s, p, job.key);
        }
      case (Sweep(_, now), Looked(_)) => SweepStep(clean, s, p, now);
      case (Claim(_, now), Prepared(_, _)) => ClaimStep(clean, s, p, now);
      case (Fail(_, now), Erred(_, _, _)) => FailStep(clean, s, p, now);
      case (Refetch(_), Swept(job)) =>
        var found := Find(s.rows, job.key);
        MoveStep(clean, s, p, Refetched(job, found, found.Some? && s.rows[found.value].status in IDLE));
      case (Prepare(_, now), Refetched(_, _, _)) => PrepareStep(clean, s, p, now);
      case (Complete(_, now), Answered(_, _, _)) => CompleteStep(clean, s, p, now);
      case (Answer(_, reply), Calling(job, id)) => MoveStep(clean, s, p, Answered(job, id, reply));
      case (Throw(_, error), Calling(job, id)) => MoveStep(clean, s, p, Erred(job, id, error));
      case (Throw(_, error), Committed(job, id, _)) => MoveStep(clean, s, p, Erred(job, id, error));
      case (Print(_), Committed(job, _, text)) =>
        CommittedIsBacked(clean, s, p);
        SayStep(clean, s, p, job.key, text);
      case (Exit(_), _) => MoveStep(clean, s, p, Begun(place.job));
      case _ =>
    }
  }

  lemma {:induction false} EveryRunKeepsInv(clean: Text -> Text, run: seq<Action>)
    ensures Inv(clean, After(clean, START, run))
  {
    if run != [] {
      EveryRunKeepsInv(clean, run[..|run| - 1]);
      StepKeepsInv(clean, After(clean, START, run[..|run| - 1]), run[|run| - 1]);
    }
  }

  // ---- turn agreement ----

  /** At most one command ever commits a response for one key. */
  lemma OneCommitPerKey(clean: Text -> Text, run: seq<Action>, i: nat, j: nat)
    requires var s := After(clean, START, run);
             && i < |s.commits| && j < |s.commits|
             && s.commits[i].id < |s.rows| && s.commits[j].id < |s.rows|
             && s.rows[s.commits[i].id].key == s.rows[s.commits[j].id].key
    ensures i == j
  {
    EveryRunKeepsInv(clean, run);
  }

  ghost predicate AllSay(clean: Text -> Text, s: State, key: Key, text: Text) {
    forall r :: r in s.reports && r.key == key ==> r.text == text || r.text == clean(text)
  }

  /** Whatever the interleaving, all successful commands for one key report one committed response,
      raw or redacted. */
  lemma ReportsAgree(clean: Text -> Text, run: seq<Action>, key: Key)
    requires exists r :: r in After(clean, START, run).reports && r.key == key
    ensures var s := After(clean, START, run);
            exists c :: c in s.commits && c.id < |s.rows| && s.rows[c.id].key == key && AllSay(clean, s, key, c.text)
  {
    EveryRunKeepsInv(clean, run);
    var s := After(clean, START, run);
    var first :| first in s.reports && first.key == key;
    assert Backed(clean, s, first);
    var c :| c in s.commits && Backs(clean, s, c, first);
    forall r | r in s.reports && r.key == key
      ensures r.text == c.text || r.text == clean(c.text)
    {
      assert Backed(clean, s, r);
      var d :| d in s.commits && Backs(clean, s, d, r);
      SameKeySameCommit(clean, s, c, d);
    }
    assert AllSay(clean, s, key, c.text);
  }

  lemma SameKeySameCommit(clean: Text -> Text, s: State, c: Commit, d: Commit)
    requires Inv(clean, s) && c in s.commits && d in s.commits
    requires c.id < |s.rows| && d.id < |s.rows| && s.rows[c.id].key == s.rows[d.id].key
    ensures c == d
  {
    var i, j :| 0 <= i < |s.commits| && 0 <= j < |s.commits| && s.commits[i] == c && s.commits[j] == d;
  }

  lemma StepFollows(clean: Text -> Text, s: State, a: Action)
    requires Inv(clean, s)
    ensures Follows(s.rows, Do(clean, s, a).rows)
  {
    if !a.Begin? && a.p in s.at {
      var place := s.at[a.p];
      match (a, place)
      case (Sweep(_, now), Looked(job)) => RecoverFollows(s.rows, job.key.debateId, now - job.threshold, now);
      case (Claim(_, now), Prepared(_, id)) => PutFollows(s.rows, id, IDLE, Starting(now));
      case (Fail(_, now), Erred(_, id, error)) => PutFollows(s.rows, id, {Running}, Failing(clean(error), now));
      case (Prepare(_, now), Refetched(job, current, _)) =>
        if current.Some? {
          PutFollows(s.rows, current.value, IDLE, Prompting(clean(job.prompt), now));
        }
      case (Complete(_, now), Answered(_, id, reply)) =>
        PutFollows(s.rows, id, {Running}, Completing(Cleaned(clean, reply), now));
      case _ =>
    }
  }

  /** A completed row never changes again, and no row is ever lost or renamed. */
  lemma {:induction false} CompletedForever(clean: Text -> Text, run: seq<Action>, more: seq<Action>)
    ensures Follows(After(clean, START, run).rows, After(clean, START, run + more).rows)
  {
    if more == [] {
      assert run + more == run;
    } else {
      var init, last := more[..|more| - 1], more[|more| - 1];
      CompletedForever(clean, run, init);
      assert (run + more)[..|run + more| - 1] == run + init;
      EveryRunKeepsInv(clean, run + init);
      assert After(clean, START, run + more) == Do(clean, After(clean, START, run + init), last);
      StepFollows(clean, After(clean, START, run + init), last);
      hide *;
      FollowsOn(After(clean, START, run).rows, After(clean, START, run + init).rows, After(clean, START, run + more).rows);
    }
  }

  // ---- what agreement does not say ----

  ghost predicate Reachable(clean: Text -> Text, s: State) {
    exists run :: After(clean, START, run) == s
  }

  lemma ReachableStep(clean: Text -> Text, s: State, a: Action)
    requires Reachable(clean, s)
    ensures Reachable(clean, Do(clean, s, a))
  {
    var run :| After(clean, START, run) == s;
    assert (run + [a])[..|run|] == run;
    assert After(clean, START, run + [a]) == Do(clean, s, a);
  }

  ghost function Next(clean: Text -> Text, s: State, a: Action): (t: State)
    requires Reachable(clean, s)
    ensures Reachable(clean, t) && t == Do(clean, s, a)
  {
    ReachableStep(clean, s, a);
    Do(clean, s, a)
  }

  /** The step sets the prompt of the row `id`: by the insert, or by an update that finds the row idle. */
  predicate SetsPrompt(s: State, a: Action, id: nat) {
    && a.Prepare? && a.p in s.at && s.at[a.p].Refetched?
    && var place := s.at[a.p];
       if place.current.Some? then place.current.value == id && place.idle && Hits(s.rows, id, IDLE)
       else Find(s.rows, place.job.key).None? && id == |s.rows|
  }

  /** Whose prompt step `k` of the run puts into the row, if it puts one there. */
  function Setter(clean: Text -> Text, run: seq<Action>, k: nat, id: nat): Option<Job>
    requires k < |run|
  {
    var s := After(clean, START, run[..k]);
    if SetsPrompt(s, run[k], id) then Some(s.at[run[k].p].job) else None
  }

  /** Step `k` puts a prompt that shows as `shown` into the row, or another one. */
  predicate SetsTo(clean: Text -> Text, run: seq<Action>, k: nat, id: nat, shown: Text, same: bool)
    requires k < |run|
  {
    var setter := Setter(clean, run, k, id);
    setter.Some? && (clean(setter.value.prompt) == shown) == same
  }

  /** Another command's prompt was put into the row, and this one not put back since. */
  ghost predicate Overwritten(clean: Text -> Text, run: seq<Action>, id: nat, shown: Text) {
    exists j :: 0 <= j < |run| && LastToSet(clean, run, j, id, shown)
  }

  ghost predicate LastToSet(clean: Text -> Text, run: seq<Action>, j: nat, id: nat, shown: Text)
    requires j < |run|
  {
    SetsTo(clean, run, j, id, shown, false) && forall k :: j < k < |run| ==> !SetsTo(clean, run, k, id, shown, true)
  }

  /** The same after a command's own prompt went in at step `own`: a later command of another job put its prompt
      over it for good. */
  ghost predicate OverwrittenSince(clean: Text -> Text, run: seq<Action>, own: nat, id: nat, job: Job) {
    exists j :: own < j < |run| && PutOver(clean, run, j, id, job)
  }

  ghost predicate PutOver(clean: Text -> Text, run: seq<Action>, j: nat, id: nat, job: Job)
    requires j < |run|
  {
    && Setter(clean, run, j, id).Some? && Setter(clean, run, j, id).value != job
    && LastToSet(clean, run, j, id, clean(job.prompt))
  }

  lemma OverwrittenSinceIff(clean: Text -> Text, run: seq<Action>, own: nat, id: nat, job: Job)
    requires own < |run| && Setter(clean, run, own, id) == Some(job)
    ensures Overwritten(clean, run, id, clean(job.prompt)) <==> OverwrittenSince(clean, run, own, id, job)
  {
    var shown := clean(job.prompt);
    assert SetsTo(clean, run, own, id, shown, true);
    if Overwritten(clean, run, id, shown) {
      var j :| 0 <= j < |run| && LastToSet(clean, run, j, id, shown);
      hide Setter;
      assert PutOver(clean, run, j, id, job);
    }
    if OverwrittenSince(clean, run, own, id, job) {
      var j :| own < j < |run| && PutOver(clean, run, j, id, job);
      assert LastToSet(clean, run, j, id, shown);
    }
  }

  /** No other step touches a prompt. */
  lemma OnlySettersSet(clean: Text -> Text, s: State, a: Action, id: nat)
    requires id < |Do(clean, s, a).rows| && !SetsPrompt(s, a, id)
    ensures id < |s.rows| && Do(clean, s, a).rows[id].prompt == s.rows[id].prompt
  {
  }

  lemma SetterSets(clean: Text -> Text, s: State, a: Action, id: nat)
    requires SetsPrompt(s, a, id)
    ensures id < |Do(clean, s, a).rows| && Do(clean, s, a).rows[id].prompt == clean(s.at[a.p].job.prompt)
  {
  }

  lemma SetsBefore(clean: Text -> Text, run: seq<Action>, k: nat, id: nat, shown: Text, same: bool)
    requires k < |run| - 1
    ensures SetsTo(clean, run[..|run| - 1], k, id, shown, same) == SetsTo(clean, run, k, id, shown, same)
  {
    hide After, SetsPrompt;
    assert run[..|run| - 1][..k] == run[..k];
  }

  lemma LastSetsNothing(clean: Text -> Text, run: seq<Action>, id: nat, shown: Text)
    requires run != [] && !SetsPrompt(After(clean, START, run[..|run| - 1]), run[|run| - 1], id)
    ensures !SetsTo(clean, run, |run| - 1, id, shown, true) && !SetsTo(clean, run, |run| - 1, id, shown, false)
  {
    hide After, SetsPrompt;
  }

  lemma LastStays(clean: Text -> Text, run: seq<Action>, j: nat, id: nat, shown: Text)
    requires j < |run| - 1 && !SetsTo(clean, run, |run| - 1, id, shown, true)
    ensures LastToSet(clean, run[..|run| - 1], j, id, shown) == LastToSet(clean, run, j, id, shown)
  {
    hide SetsTo;
    var front := run[..|run| - 1];
    SetsBefore(clean, run, j, id, shown, false);
    if LastToSet(clean, front, j, id, shown) {
      forall k | j < k < |run|
        ensures !SetsTo(clean, run, k, id, shown, true)
      {
        if k < |front| { SetsBefore(clean, run, k, id, shown, true); }
      }
    }
    if LastToSet(clean, run, j, id, shown) {
      forall k | j < k < |front|
        ensures !SetsTo(clean, front, k, id, shown, true)
      {
        SetsBefore(clean, run, k, id, shown, true);
      }
    }
  }

  lemma OverwrittenBefore(clean: Text -> Text, run: seq<Action>, id: nat, shown: Text)
    requires run != [] && !SetsPrompt(After(clean, START, run[..|run| - 1]), run[|run| - 1], id)
    ensures Overwritten(clean, run, id, shown) <==> Overwritten(clean, run[..|run| - 1], id, shown)
  {
    var front := run[..|run| - 1];
    LastSetsNothing(clean, run, id, shown);
    if Overwritten(clean, run, id, shown) {
      var j :| 0 <= j < |run| && LastToSet(clean, run, j, id, shown);
      hide After, SetsPrompt, SetsTo;
      LastStays(clean, run, j, id, shown);
    }
    if Overwritten(clean, front, id, shown) {
      var j :| 0 <= j < |front| && LastToSet(clean, front, j, id, shown);
      hide After, SetsPrompt, SetsTo;
      LastStays(clean, run, j, id, shown);
    }
  }

  lemma OverwrittenNow(clean: Text -> Text, run: seq<Action>, id: nat, shown: Text)
    requires run != [] && SetsPrompt(After(clean, START, run[..|run| - 1]), run[|run| - 1], id)
    ensures var s := After(clean, START, run[..|run| - 1]);
            Overwritten(clean, run, id, shown) <==> clean(s.at[run[|run| - 1].p].job.prompt) != shown
  {
    var last := |run| - 1;
    hide After;
    var same := clean(After(clean, START, run[..last]).at[run[last].p].job.prompt) == shown;
    assert SetsTo(clean, run, last, id, shown, same);
    if !same {
      assert LastToSet(clean, run, last, id, shown);
    }
  }

  /** What a row shows, in terms of the run that wrote it. */
  lemma {:induction false} ShowsIff(clean: Text -> Text, run: seq<Action>, id: nat, shown: Text)
    requires id < |After(clean, START, run).rows|
    ensures After(clean, START, run).rows[id].prompt == shown <==> !Overwritten(clean, run, id, shown)
  {
    var s, a := After(clean, START, run[..|run| - 1]), run[|run| - 1];
    hide Do, SetsPrompt, Overwritten;
    if SetsPrompt(s, a, id) {
      SetterSets(clean, s, a, id);
      OverwrittenNow(clean, run, id, shown);
    } else {
      OnlySettersSet(clean, s, a, id);
      ShowsIff(clean, run[..|run| - 1], id, shown);
      OverwrittenBefore(clean, run, id, shown);
    }
  }

  /** Exactly when a committed response answers the prompt its row shows: when no other command's prompt was put
      into the row for good; for a command that put its own there, when no command of another job put its prompt
      over it afterwards. */
  lemma CommitAnswersItsPromptIff(clean: Text -> Text, run: seq<Action>, p: Pid)
    requires var s := After(clean, START, run); p in s.at && s.at[p].Committed?
    ensures var s := After(clean, START, run);
            var place := s.at[p];
            && place.id < |s.rows| && s.rows[place.id].key == place.job.key
            && (s.rows[place.id].prompt == clean(place.job.prompt) <==>
                !Overwritten(clean, run, place.id, clean(place.job.prompt)))
            && (forall own :: 0 <= own < |run| && Setter(clean, run, own, place.id) == Some(place.job) ==>
                  (s.rows[place.id].prompt == clean(place.job.prompt) <==>
                   !OverwrittenSince(clean, run, own, place.id, place.job)))
  {
    EveryRunKeepsInv(clean, run);
    var s := After(clean, START, run);
    assert Placed(s, p);
    var id, job := s.at[p].id, s.at[p].job;
    hide Overwritten, OverwrittenSince, After, Setter, Inv;
    ShowsIff(clean, run, id, clean(job.prompt));
    forall own | 0 <= own < |run| && Setter(clean, run, own, id) == Some(job)
      ensures Overwritten(clean, run, id, clean(job.prompt)) <==> OverwrittenSince(clean, run, own, id, job)
    {
      OverwrittenSinceIff(clean, run, own, id, job);
    }
  }

  /** It happens between an insert and its claim: a second command may replace the prompt of the queued
      row. */
  lemma PromptMayBelongToAnother(clean: Text -> Text, mine: Job, other: Job, reply: Reply)
    requires mine.key == other.key && clean(mine.prompt) != clean(other.prompt)
    ensures exists s, p :: && Reachable(clean, s) && p in s.at && s.at[p].Committed? && s.at[p].id < |s.rows|
                           && s.rows[s.at[p].id].prompt != clean(s.at[p].job.prompt)
  {
    var s1 := FirstInserts(clean, mine);
    var s2 := SecondPrompts(clean, s1, mine, other);
    var s3 := FirstCommits(clean, s2, mine, reply);
    assert Reachable(clean, s3) && 1 in s3.at && s3.at[1].Committed?;
  }

  lemma FirstCommits(clean: Text -> Text, s: State, job: Job, reply: Reply) returns (t: State)
    requires Reachable(clean, s) && 1 in s.at && s.at[1] == Prepared(job, 0)
    requires |s.rows| == 1 && s.rows[0].status == Queued
    ensures Reachable(clean, t) && 1 in t.at && t.at[1] == Committed(job, 0, reply.text)
    ensures |t.rows| == 1 && t.rows[0].prompt == s.rows[0].prompt
  {
    hide Reachable;
    var s1 := Next(clean, s, Claim(1, 0));
    assert s1.at[1] == Calling(job, 0) && s1.rows[0].status == Running;
    t := FirstAnswers(clean, s1, job, reply);
  }

  lemma Arrives(clean: Text -> Text, s: State, p: Pid, job: Job) returns (t: State)
    requires Reachable(clean, s) && p !in s.at && !Done(s, job.key)
    ensures Reachable(clean, t) && t == Move(s, p, Looked(job))
  {
    var s1 := Next(clean, s, Begin(p, job));
    hide Reachable, Done;
    t := Next(clean, s1, Look(p));
  }

  lemma Scans(clean: Text -> Text, s: State, p: Pid, job: Job) returns (t: State)
    requires Reachable(clean, s) && p in s.at && s.at[p] == Looked(job)
    requires forall i :: 0 <= i < |s.rows| ==> s.rows[i].status != Running
    ensures Reachable(clean, t)
    ensures var found := Find(s.rows, job.key);
            t == Move(s, p, Refetched(job, found, found.Some? && s.rows[found.value].status in IDLE))
  {
    assert Recover(s.rows, job.key.debateId, 0 - job.threshold, 0) == s.rows;
    var s1 := Next(clean, s, Sweep(p, 0));
    assert s1 == Move(s, p, Swept(job));
    hide Reachable, Find, Recover;
    t := Next(clean, s1, Refetch(p));
  }

  lemma TurnPrepares(clean: Text -> Text, s: State, p: Pid, job: Job, now: int) returns (t: State)
    requires Reachable(clean, s) && p in s.at && s.at[p] == Refetched(job, None, false) && Find(s.rows, job.key).None?
    ensures Reachable(clean, t) && t == Move(s, p, Prepared(job, |s.rows|)).(rows := s.rows + [NewRow(clean, job, now)])
  {
    t := Next(clean, s, Prepare(p, now));
  }

  lemma TurnScans(clean: Text -> Text, s: State, p: Pid, job: Job, now: int) returns (t: State)
    requires Reachable(clean, s) && p !in s.at && Find(s.rows, job.key).None?
    ensures Reachable(clean, t) && t == Move(s, p, Refetched(job, None, false)).(rows := t.rows)
    ensures |t.rows| == |s.rows| && Find(t.rows, job.key).None?
  {
    hide Reachable, Recover;
    var s1 := Arrives(clean, s, p, job);
    var s2 := Next(clean, s1, Sweep(p, now));
    RecoverFollows(s.rows, job.key.debateId, now - job.threshold, now);
    assert s2.at[p] == Swept(job) && |s2.rows| == |s.rows| && Find(s2.rows, job.key).None?;
    hide Find;
    t := Next(clean, s2, Refetch(p));
  }

  /** A command on a new key, undisturbed, gets as far as its call. */
  lemma TurnCalls(clean: Text -> Text, s: State, p: Pid, job: Job, now: int) returns (t: State)
    requires Reachable(clean, s) && p !in s.at && Find(s.rows, job.key).None?
    ensures Reachable(clean, t) && t.at == s.at[p := Calling(job, |s.rows|)]
    ensures t.commits == s.commits && t.reports == s.reports && |t.rows| == |s.rows| + 1
    ensures var row := t.rows[|s.rows|]; row.key == job.key && row.status == Running && row.prompt == clean(job.prompt)
  {
    hide Reachable, Find;
    var s1 := TurnScans(clean, s, p, job, now);
    var s2 := TurnPrepares(clean, s1, p, job, now);
    t := Next(clean, s2, Claim(p, now));
  }

  /** Answered, it completes its row with the redacted answer and reports the answer. */
  lemma AnsweredTurnReports(clean: Text -> Text, s: State, p: Pid, job: Job, now: int, reply: Reply) returns (t: State)
    requires Reachable(clean, s) && p !in s.at && Find(s.rows, job.key).None?
    ensures Reachable(clean, t) && p !in t.at && |t.rows| == |s.rows| + 1
    ensures t.commits == s.commits + [Commit(p, |s.rows|, reply.text)]
    ensures t.reports == s.reports + [Report(p, job.key, reply.text)]
    ensures var row := t.rows[|s.rows|];
            && row.key == job.key && row.status == Completed && row.prompt == clean(job.prompt)
            && row.reply.Some? && row.reply.value.text == clean(reply.text)
  {
    hide Reachable;
    var s1 := TurnCalls(clean, s, p, job, now);
    var s2 := Next(clean, s1, Answer(p, reply));
    assert s2.at[p] == Answered(job, |s.rows|, reply) && s2.rows == s1.rows;
    var s3 := Next(clean, s2, Complete(p, now));
    assert s3.at[p] == Committed(job, |s.rows|, reply.text);
    t := Next(clean, s3, Print(p));
  }

  /** When the call fails it fails its row and reports nothing. */
  lemma FailedTurnFails(clean: Text -> Text, s: State, p: Pid, job: Job, now: int, error: Text) returns (t: State)
    requires Reachable(clean, s) && p !in s.at && Find(s.rows, job.key).None?
    ensures Reachable(clean, t) && p !in t.at && |t.rows| == |s.rows| + 1
    ensures t.commits == s.commits && t.reports == s.reports
    ensures var row := t.rows[|s.rows|];
            row.key == job.key && row.status == Failed && row.prompt == clean(job.prompt) && row.error == Some(clean(error))
  {
    hide Reachable;
    var s1 := TurnCalls(clean, s, p, job, now);
    var s2 := Next(clean, s1, Throw(p, error));
    assert s2.at[p] == Erred(job, |s.rows|, error) && s2.rows == s1.rows;
    t := Next(clean, s2, Fail(p, now));
  }

  /** A command whose row somebody else completed meanwhile reports what is stored there. */
  lemma RefusedTurnReports(clean: Text -> Text, s: State, p: Pid) returns (t: State)
    requires Reachable(clean, s) && p in s.at && s.at[p].Prepared? && Done(s, s.at[p].job.key)
    requires s.at[p].id < |s.rows| && s.rows[s.at[p].id].status == Completed
    ensures Reachable(clean, t) && p !in t.at && t.rows == s.rows
    ensures t.reports == s.reports + [Report(p, s.at[p].job.key, Stored(s.rows[Find(s.rows, s.at[p].job.key).value]))]
  {
    hide Reachable, Find;
    var s1 := Next(clean, s, Claim(p, 0));
    assert s1.at[p] == Refused(s.at[p].job, s.at[p].id) && s1.rows == s.rows;
    t := Next(clean, s1, Recheck(p));
  }

  lemma FirstInserts(clean: Text -> Text, job: Job) returns (s: State)
    ensures Reachable(clean, s) && s.at == map[1 := Prepared(job, 0)] && s.rows == [NewRow(clean, job, 0)]
  {
    assert After(clean, START, []) == START;
    hide Reachable;
    var s1 := Arrives(clean, START, 1, job);
    var s2 := Scans(clean, s1, 1, job);
    s := Next(clean, s2, Prepare(1, 0));
    assert s.rows == [] + [NewRow(clean, job, 0)];
  }

  lemma SecondPrompts(clean: Text -> Text, s: State, mine: Job, other: Job) returns (t: State)
    requires Reachable(clean, s) && s.at == map[1 := Prepared(mine, 0)]
    requires s.rows == [NewRow(clean, mine, 0)] && mine.key == other.key
    ensures Reachable(clean, t) && 1 in t.at && t.at[1] == Prepared(mine, 0)
    ensures |t.rows| == 1 && t.rows[0].status == Queued && t.rows[0].prompt == clean(other.prompt)
  {
    hide Reachable;
    assert s.rows[..0] == [] && Find(s.rows, mine.key) == Some(0);
    var s1 := Arrives(clean, s, 2, other);
    var s2 := Scans(clean, s1, 2, other);
    assert s2.at[2] == Refetched(other, Some(0), true) && s2.rows == s.rows;
    hide Find;
    t := Next(clean, s2, Prepare(2, 0));
  }

  /** And it happens after the claim: while the first command waits for the model a second one takes its row for
      stale, replaces the prompt and claims the row, which the first one then completes. */
  lemma StaleClaimsShareARow(clean: Text -> Text, mine: Job, other: Job, reply: Reply)
    requires mine.key == other.key && clean(mine.prompt) != clean(other.prompt)
    ensures exists s, p :: && Reachable(clean, s) && p in s.at && s.at[p].Committed? && s.at[p].id < |s.rows|
                           && s.at[p].job == mine && s.rows[s.at[p].id].prompt == clean(other.prompt)
  {
    hide Reachable;
    var s1 := FirstInserts(clean, mine);
    var s2 := Next(clean, s1, Claim(1, 0));
    assert s2.at[1] == Calling(mine, 0) && s2.rows[0].status == Running && s2.rows[0].updatedAt == 0;
    var s3 := SecondTakesOver(clean, s2, mine, other);
    var s4 := FirstAnswers(clean, s3, mine, reply);
    assert Reachable(clean, s4) && 1 in s4.at && s4.at[1].Committed?;
  }

  lemma FirstAnswers(clean: Text -> Text, s: State, job: Job, reply: Reply) returns (t: State)
    requires Reachable(clean, s) && 1 in s.at && s.at[1] == Calling(job, 0)
    requires |s.rows| == 1 && s.rows[0].status == Running
    ensures Reachable(clean, t) && 1 in t.at && t.at[1] == Committed(job, 0, reply.text)
    ensures |t.rows| == 1 && t.rows[0].prompt == s.rows[0].prompt
  {
    hide Reachable;
    var s1 := Next(clean, s, Answer(1, reply));
    assert s1.at[1] == Answered(job, 0, reply) && s1.rows == s.rows;
    t := Next(clean, s1, Complete(1, 0));
  }

  lemma SecondTakesOver(clean: Text -> Text, s: State, mine: Job, other: Job) returns (t: State)
    requires Reachable(clean, s) && mine.key == other.key
    requires |s.rows| == 1 && s.rows[0].key == mine.key && s.rows[0].status == Running && s.rows[0].updatedAt == 0
    requires s.at == map[1 := Calling(mine, 0)]
    ensures Reachable(clean, t) && 1 in t.at && t.at[1] == Calling(mine, 0)
    ensures |t.rows| == 1 && t.rows[0].status == Running && t.rows[0].prompt == clean(other.prompt)
  {
    hide Reachable;
    assert s.rows[..0] == [] && Find(s.rows, mine.key) == Some(0);
    var s1 := Arrives(clean, s, 2, other);
    var now := other.threshold + 1;
    var s2 := Next(clean, s1, Sweep(2, now));
    assert |s2.rows| == 1 && s2.rows[0] == Recovered(s.rows[0], other.key.debateId, now - other.threshold, now);
    assert s2.at[1] == Calling(mine, 0) && s2.at[2] == Swept(other);
    t := SecondClaims(clean, s2, mine, other);
  }

  lemma SecondClaims(clean: Text -> Text, s: State, mine: Job, other: Job) returns (t: State)
    requires Reachable(clean, s) && |s.rows| == 1 && s.rows[0].key == other.key && s.rows[0].status == Failed
    requires 1 in s.at && s.at[1] == Calling(mine, 0) && 2 in s.at && s.at[2] == Swept(other)
    ensures Reachable(clean, t) && 1 in t.at && t.at[1] == Calling(mine, 0)
    ensures |t.rows| == 1 && t.rows[0].status == Running && t.rows[0].prompt == clean(other.prompt)
  {
    hide Reachable;
    FindFirst(s.rows);
    var s1 := Next(clean, s, Refetch(2));
    assert s1.at[2] == Refetched(other, Some(0), true) && s1.rows == s.rows && s1.at[1] == s.at[1];
    var s2 := Next(clean, s1, Prepare(2, 0));
    assert s2.at[2] == Prepared(other, 0) && s2.at[1] == s.at[1];
    t := Next(clean, s2, Claim(2, 0));
  }

  lemma FindFirst(t: Table)
    requires |t| == 1
    ensures Find(t, t[0].key) == Some(0)
  {
    assert t[..0] == [];
  }

  // ---- one command on its own ----

  datatype Outcome = Printed(text: Text, cached: bool) | Exited

  /** A cached answer changes nothing and is the stored one; a fresh one is the model's and is stored,
      redacted, under the key. */
  predicate AsReported(clean: Text -> Text, before: Table, after: Table, key: Key, reply: Result<Reply, Text>,
                       outcome: Outcome) {
    && (Find(before, key).Some? && before[Find(before, key).value].status == Completed ==>
          after == before && outcome == Printed(Stored(before[Find(before, key).value]), true))
    && (outcome.Printed? && outcome.cached ==>
          && Find(before, key).Some? && before[Find(before, key).value].status == Completed)
    && (outcome.Printed? && !outcome.cached ==>
          && reply.Ok? && outcome.text == reply.value.text
          && Find(after, key).Some? && after[Find(after, key).value].status == Completed
          && Stored(after[Find(after, key).value]) == clean(outcome.text))
  }

  /** A turn that is the command's to take: the prompt is the command's, and the row ends answered, failed, or
      left running when the budget check stops it. */
  predicate Taken(clean: Text -> Text, after: Table, job: Job, stop: bool, reply: Result<Reply, Text>, outcome: Outcome) {
    Find(after, job.key).Some? && TakenIn(clean, after[Find(after, job.key).value], job, stop, reply, outcome)
  }

  predicate TakenIn(clean: Text -> Text, row: Row, job: Job, stop: bool, reply: Result<Reply, Text>, outcome: Outcome) {
    && row.key == job.key && row.prompt == clean(job.prompt)
    && if stop then outcome == Exited && row.status == Running
       else if reply.Ok? then outcome == Printed(reply.value.text, false) && row.status == Completed
       else outcome == Exited && row.status == Failed && row.error == Some(clean(reply.error))
  }

  /** What the command makes of the row of its key, by what it finds there: a completed one is printed, a queued, failed
      or long running one is taken, and one that runs since the threshold at most is left to whoever runs it. */
  predicate OnItsRow(clean: Text -> Text, was: Row, row: Row, job: Job, now: int, stop: bool, reply: Result<Reply, Text>,
                     outcome: Outcome) {
    match was.status
    case Completed => row == was && outcome == Printed(if was.reply.Some? then was.reply.value.text else [], true)
    case Queued => TakenIn(clean, row, job, stop, reply, outcome)
    case Failed => TakenIn(clean, row, job, stop, reply, outcome)
    case Running =>
      if was.updatedAt < now - job.threshold then TakenIn(clean, row, job, stop, reply, outcome)
      else row == was && outcome == Exited
  }

  /** And of any other row: it stays, unless it is one of the debate that runs for longer. */
  predicate OnAnother(was: Row, row: Row, job: Job, now: int) {
    || row == was
    || (&& was.status == Running && was.key.debateId == job.key.debateId && was.updatedAt < now - job.threshold
        && row == was.(status := Failed, error := Some(STALE_RECOVERY), updatedAt := now))
  }

  /** All rows but that of `key` stay; a row may be added for it. */
  ghost predicate OnlyItsRow(before: Table, after: Table, key: Key) {
    && |before| <= |after| <= |before| + 1
    && (forall i :: 0 <= i < |before| && before[i].key != key ==> after[i] == before[i])
    && (|before| < |after| ==> after[|before|].key == key)
  }

  /** A key that is new or queued, failed before, or was left running by a command that is long gone. */
  predicate IsFree(t: Table, key: Key) {
    Find(t, key).None? || t[Find(t, key).value].status in IDLE
  }

  predicate IsLeft(t: Table, job: Job, now: int) {
    Find(t, job.key).Some? && IsStale(t[Find(t, job.key).value], job.key.debateId, now - job.threshold)
  }

  /** The whole command against the store, when nobody else writes to it meanwhile. `stop` is the
      token-budget check, `reply` the model's answer or the error of the call. */
  method DebateTurnCommand(store: MessageStore, job: Job, now: int, stop: bool, reply: Result<Reply, Text>)
    returns (outcome: Outcome)
    requires store.Valid()
    modifies store
    ensures store.Valid() && Follows(old(store.rows), store.rows)
    ensures AsReported(store.clean, old(store.rows), store.rows, job.key, reply, outcome)
    ensures IsFree(old(store.rows), job.key) || IsLeft(old(store.rows), job, now) ==>
              Taken(store.clean, store.rows, job, stop, reply, outcome)
    ensures !Finished(old(store.rows), job.key) && !IsFree(old(store.rows), job.key) && !IsLeft(old(store.rows), job, now) ==>
              outcome == Exited && store.rows == Recover(old(store.rows), job.key.debateId, now - job.threshold, now)
    ensures |old(store.rows)| <= |store.rows| <= |old(store.rows)| + 1
    ensures forall id :: 0 <= id < |old(store.rows)| ==>
              if old(store.rows)[id].key == job.key
              then OnItsRow(store.clean, old(store.rows)[id], store.rows[id], job, now, stop, reply, outcome)
              else OnAnother(old(store.rows)[id], store.rows[id], job, now)
    ensures (forall id :: 0 <= id < |old(store.rows)| ==> old(store.rows)[id].key != job.key) ==>
              && |store.rows| == |old(store.rows)| + 1
              && TakenIn(store.clean, store.rows[|old(store.rows)|], job, stop, reply, outcome)
  {
    hide Recover, Find, IsStale, Follows, Taken, TakenIn, IsFree, IsLeft, AsReported, OnItsRow, OnAnother, OnlyItsRow;
    ghost var before := store.rows;
    var existing := store.GetByRound(job.key);
    if existing.Some? && existing.value.status == Completed {
      CachedReports(store.clean, before, job, now, reply);
      CachedRows(store.clean, before, job, now, stop, reply);
      return Printed(Stored(existing.value), true);
    }
    var recovered := store.RecoverStaleForDebate(job.key.debateId, job.threshold, now);
    ghost var swept := store.rows;
    SweepFrees(before, job, now);
    RecoverFollows(before, job.key.debateId, now - job.threshold, now);
    outcome := TakeTurn(store, job, now, stop, reply);
    FollowsOn(before, swept, store.rows);
    TurnReports(store.clean, before, store.rows, job.key, reply, outcome);
    RecoverSays(before, job.key.debateId, now - job.threshold, now);
    TurnRows(store.clean, before, swept, store.rows, job, now, stop, reply, outcome);
  }

  lemma CachedRows(clean: Text -> Text, t: Table, job: Job, now: int, stop: bool, reply: Result<Reply, Text>)
    requires Unique(t) && Finished(t, job.key)
    ensures var outcome := Printed(Stored(t[Find(t, job.key).value]), true);
            forall id :: 0 <= id < |t| ==>
              if t[id].key == job.key then OnItsRow(clean, t[id], t[id], job, now, stop, reply, outcome)
              else OnAnother(t[id], t[id], job, now)
    ensures exists id :: 0 <= id < |t| && t[id].key == job.key
  {
    hide Find, TakenIn;
    forall id | 0 <= id < |t| && t[id].key == job.key
      ensures Find(t, job.key) == Some(id)
    {
      FindOnly(t, id);
    }
    assert t[Find(t, job.key).value].key == job.key;
  }

  /** The rows after the sweep and the turn, told by the rows before. */
  lemma TurnRows(clean: Text -> Text, before: Table, swept: Table, after: Table, job: Job, now: int, stop: bool,
                 reply: Result<Reply, Text>, outcome: Outcome)
    requires Unique(before) && Unique(swept) && Unique(after) && !Finished(before, job.key) && |swept| == |before|
    requires var cutoff := now - job.threshold;
             forall i :: 0 <= i < |before| ==>
               if before[i].status == Running && before[i].key.debateId == job.key.debateId && before[i].updatedAt < cutoff
               then swept[i] == before[i].(status := Failed, error := Some(STALE_RECOVERY), updatedAt := now)
               else swept[i] == before[i]
    requires OnlyItsRow(swept, after, job.key) && Follows(swept, after)
    requires if IsFree(swept, job.key) then Taken(clean, after, job, stop, reply, outcome)
             else outcome == Exited && after == swept
    ensures |before| <= |after| <= |before| + 1
    ensures forall id :: 0 <= id < |before| ==>
              if before[id].key == job.key then OnItsRow(clean, before[id], after[id], job, now, stop, reply, outcome)
              else OnAnother(before[id], after[id], job, now)
    ensures (forall id :: 0 <= id < |before| ==> before[id].key != job.key) ==>
              |after| == |before| + 1 && TakenIn(clean, after[|before|], job, stop, reply, outcome)
  {
    hide Find, TakenIn;
    forall id | 0 <= id < |before|
      ensures before[id].key != job.key ==> OnAnother(before[id], after[id], job, now)
      ensures before[id].key == job.key ==> OnItsRow(clean, before[id], after[id], job, now, stop, reply, outcome)
    {
      if before[id].key == job.key {
        FindOnly(before, id);
        FindOnly(swept, id);
        assert after[id].key == job.key;
        FindOnly(after, id);
      }
    }
    if forall id :: 0 <= id < |before| ==> before[id].key != job.key {
      assert forall id :: 0 <= id < |swept| ==> swept[id].key == before[id].key;
      assert Find(swept, job.key).None?;
    }
  }

  lemma CachedReports(clean: Text -> Text, t: Table, job: Job, now: int, reply: Result<Reply, Text>)
    requires Finished(t, job.key)
    ensures AsReported(clean, t, t, job.key, reply, Printed(Stored(t[Find(t, job.key).value]), true)) && Follows(t, t)
    ensures !IsFree(t, job.key) && !IsLeft(t, job, now)
  {
    hide Find;
  }

  lemma TurnReports(clean: Text -> Text, before: Table, after: Table, key: Key, reply: Result<Reply, Text>, outcome: Outcome)
    requires !Finished(before, key)
    requires outcome.Printed? ==>
               && !outcome.cached && reply.Ok? && outcome.text == reply.value.text
               && Finished(after, key) && Stored(after[Find(after, key).value]) == clean(outcome.text)
    ensures AsReported(clean, before, after, key, reply, outcome)
  {
    hide Find;
  }

  predicate Finished(t: Table, key: Key) {
    Find(t, key).Some? && t[Find(t, key).value].status == Completed
  }

  /** The sweep frees the row that was left running and nobody else's. */
  lemma SweepFrees(t: Table, job: Job, now: int)
    requires Unique(t)
    ensures var swept := Recover(t, job.key.debateId, now - job.threshold, now);
            && Find(swept, job.key) == Find(t, job.key)
            && (IsFree(swept, job.key) <==> IsFree(t, job.key) || IsLeft(t, job, now))
            && (Finished(swept, job.key) <==> Finished(t, job.key))
  {
    var swept := Recover(t, job.key.debateId, now - job.threshold, now);
    RecoverFollows(t, job.key.debateId, now - job.threshold, now);
    if Find(t, job.key).Some? {
      FindOnly(swept, Find(t, job.key).value);
    }
  }

  /** The command after its sweep: claim the row, unless somebody works on it, and answer it. */
  method TakeTurn(store: MessageStore, job: Job, now: int, stop: bool, reply: Result<Reply, Text>) returns (outcome: Outcome)
    requires store.Valid() && !Finished(store.rows, job.key)
    modifies store
    ensures store.Valid() && Follows(old(store.rows), store.rows)
    ensures OnlyItsRow(old(store.rows), store.rows, job.key)
    ensures if IsFree(old(store.rows), job.key) then Taken(store.clean, store.rows, job, stop, reply, outcome)
            else outcome == Exited && store.rows == old(store.rows)
    ensures outcome.Printed? ==>
              && !outcome.cached && reply.Ok? && outcome.text == reply.value.text
              && Finished(store.rows, job.key) && Stored(store.rows[Find(store.rows, job.key).value]) == store.clean(outcome.text)
  {
    var id := Claimed(store, job, now);
    if id.None? {
      return Exited;
    }
    FindOnly(store.rows, id.value);
    if stop {
      return Exited;
    }
    ghost var before := store.rows;
    outcome := AnswerTurn(store, id.value, reply, now);
    FollowsOn(old(store.rows), before, store.rows);
    FindOnly(store.rows, id.value);
  }

  /** The call's answer or its error goes into the claimed row. */
  method AnswerTurn(store: MessageStore, id: nat, reply: Result<Reply, Text>, now: int) returns (outcome: Outcome)
    requires store.Valid() && id < |store.rows| && store.rows[id].status == Running
    modifies store
    ensures store.Valid() && Follows(old(store.rows), store.rows)
    ensures id < |store.rows| && store.rows[id].key == old(store.rows[id].key) && store.rows[id].prompt == old(store.rows[id].prompt)
    ensures |store.rows| == |old(store.rows)| && forall i :: 0 <= i < |store.rows| && i != id ==> store.rows[i] == old(store.rows)[i]
    ensures reply.Ok? ==>
              && outcome == Printed(reply.value.text, false) && store.rows[id].status == Completed
              && Stored(store.rows[id]) == store.clean(reply.value.text)
    ensures reply.Err? ==>
              outcome == Exited && store.rows[id].status == Failed && store.rows[id].error == Some(store.clean(reply.error))
  {
    ghost var before := store.rows;
    match reply
    case Ok(answer) =>
      var completed := store.MarkCompleted(id, answer, now);
      PutFollows(before, id, {Running}, Completing(Cleaned(store.clean, answer), now));
      outcome := Printed(answer.text, false);
    case Err(error) =>
      var failed := store.MarkFailed(id, error, now);
      PutFollows(before, id, {Running}, Failing(store.clean(error), now));
      outcome := Exited;
  }

  /** Insert or reuse the row of the job, and claim it. */
  method Claimed(store: MessageStore, job: Job, now: int) returns (id: Option<nat>)
    requires store.Valid()
    modifies store
    ensures store.Valid() && Follows(old(store.rows), store.rows)
    ensures id.Some? <==> IsFree(old(store.rows), job.key)
    ensures id.Some? ==> && id.value < |store.rows| && store.rows[id.value].key == job.key
                         && store.rows[id.value].status == Running
                         && store.rows[id.value].prompt == store.clean(job.prompt)
    ensures id.None? ==> store.rows == old(store.rows)
    ensures OnlyItsRow(old(store.rows), store.rows, job.key)
  {
    ghost var rows0 := store.rows;
    var found := Find(store.rows, job.key);
    var at := 0;
    if found.Some? {
      at := found.value;
      var current := store.rows[at];
      if current.status == Failed || current.status == Queued {
        var changed := store.UpdatePrompt(at, job.prompt, now);
        PutFollows(rows0, at, IDLE, Prompting(store.clean(job.prompt), now));
      }
    } else {
      var inserted := store.InsertQueued(job.key, job.bridge, job.model, job.prompt, now);
      at := inserted.value;
    }
    ghost var rows1 := store.rows;
    var running := store.MarkRunning(at, now);
    PutFollows(rows1, at, IDLE, Starting(now));
    FollowsOn(rows0, rows1, store.rows);
    id := if running then Some(at) else None;
  }
}
