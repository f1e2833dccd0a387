/** The ledger of debate turns: one row per (debate, round, role), moved between statuses only by
    guarded updates. */
module MessageLedger {
  import opened Utf16
  import opened Wrappers

  datatype Key = Key(debateId: string, round: int, role: string)

  datatype Status = Queued | Running | Completed | Failed

  /** What a completed row keeps of the model's answer. */
  datatype Reply = Reply(
    text: Text,
    stance: Option<string>,
    confidence: Option<real>,
    verdictRaw: Option<Text>,
    usage: Text,
    durationMs: int,
    sessionId: Option<string>)

  /** A row; its id is its position, since rows are numbered as they come and never deleted. */
  datatype Row = Row(
    key: Key,
    bridge: string,
    model: string,
    prompt: Text,
    status: Status,
    reply: Option<Reply>,
    error: Option<Text>,
    createdAt: int,
    updatedAt: int,
    completedAt: Option<int>)

  type Table = seq<Row>

  // ---- the statements ----

  function Find(t: Table, key: Key): (id: Option<nat>)
    ensures id.Some? ==> id.value < |t| && t[id.value].key == key
    ensures id.None? ==> forall i :: 0 <= i < |t| ==> t[i].key != key
  {
    if t == [] then None
    else
      var before := Find(t[..|t| - 1], key);
      if before.Some? then before else if t[|t| - 1].key == key then Some(|t| - 1) else None
  }

  /** An update of the row `id`, effective only from one of the statuses `from`. */
  predicate Hits(t: Table, id: nat, from: set<Status>) {
    id < |t| && t[id].status in from
  }

  function Put(t: Table, id: nat, from: set<Status>, change: Row -> Row): Table {
    if Hits(t, id, from) then t[id := change(t[id])] else t
  }

  const IDLE: set<Status> := {Queued, Failed}
  const STALE_RECOVERY: Text := U("STALE_RECOVERY")

  function Prompting(prompt: Text, now: int): Row -> Row {
    (row: Row) => row.(prompt := prompt, updatedAt := now)
  }

  function Starting(now: int): Row -> Row {
    (row: Row) => row.(status := Running, updatedAt := now)
  }

  function Completing(reply: Reply, now: int): Row -> Row {
    (row: Row) =>
      row.(status := Completed, reply := Some(reply), error := None, updatedAt := now, completedAt := Some(now))
  }

  function Failing(error: Text, now: int): Row -> Row {
    (row: Row) => row.(status := Failed, error := Some(error), updatedAt := now)
  }

  predicate IsStale(row: Row, debateId: string, cutoff: int) {
    row.status == Running && row.key.debateId == debateId && row.updatedAt < cutoff
  }

  function Recovered(row: Row, debateId: string, cutoff: int, now: int): Row {
    if IsStale(row, debateId, cutoff) then row.(status := Failed, error := Some(STALE_RECOVERY), updatedAt := now)
    else row
  }

  function Recover(t: Table, debateId: string, cutoff: int, now: int): (r: Table)
    ensures |r| == |t|
  {
    seq(|t|, i requires 0 <= i < |t| => Recovered(t[i], debateId, cutoff, now))
  }

  function StaleCount(t: Table, debateId: string, cutoff: int): nat {
    if t == [] then 0
    else StaleCount(t[..|t| - 1], debateId, cutoff) + if IsStale(t[|t| - 1], debateId, cutoff) then 1 else 0
  }

  /** Two rows never share a key. */
  predicate Unique(t: Table) {
    forall i, j :: 0 <= i < j < |t| ==> t[i].key != t[j].key
  }

  /** With the unique index there is one row to find. */
  lemma FindOnly(t: Table, id: nat)
    requires Unique(t) && id < |t|
    ensures Find(t, t[id].key) == Some(id)
  {
  }

  // ---- what the guards keep ----

  /** How one statement may change a table: rows are added, keys stay, completed rows stay. */
  ghost predicate Follows(t: Table, later: Table) {
    && |t| <= |later|
    && forall i :: 0 <= i < |t| ==> later[i].key == t[i].key && (t[i].status == Completed ==> later[i] == t[i])
  }

  lemma PutFollows(t: Table, id: nat, from: set<Status>, change: Row -> Row)
    requires Completed !in from && forall row :: change(row).key == row.key
    ensures Follows(t, Put(t, id, from, change)) && (Unique(t) ==> Unique(Put(t, id, from, change)))
  {
  }

  lemma RecoverFollows(t: Table, debateId: string, cutoff: int, now: int)
    ensures Follows(t, Recover(t, debateId, cutoff, now))
    ensures Unique(t) ==> Unique(Recover(t, debateId, cutoff, now))
  {
    var r := Recover(t, debateId, cutoff, now);
    assert forall i :: 0 <= i < |t| ==> r[i].key == t[i].key;
  }

  lemma RecoverOne(t: Table, i: nat, debateId: string, cutoff: int, now: int)
    requires i < |t|
    ensures Recover(t[..i + 1], debateId, cutoff, now) ==
            Recover(t[..i], debateId, cutoff, now) + [Recovered(t[i], debateId, cutoff, now)]
    ensures StaleCount(t[..i + 1], debateId, cutoff) ==
            StaleCount(t[..i], debateId, cutoff) + if IsStale(t[i], debateId, cutoff) then 1 else 0
  {
    assert t[..i + 1][..i] == t[..i];
  }

  /** Recovery row by row: a row of this debate left running since before the cutoff fails, every other row stays. */
  lemma RecoverSays(t: Table, debateId: string, cutoff: int, now: int)
    ensures var r := Recover(t, debateId, cutoff, now);
            forall i :: 0 <= i < |t| ==>
              if t[i].status == Running && t[i].key.debateId == debateId && t[i].updatedAt < cutoff
              then r[i] == t[i].(status := Failed, error := Some(STALE_RECOVERY), updatedAt := now)
              else r[i] == t[i]
  {
  }

  ghost function StaleAt(t: Table, debateId: string, cutoff: int): set<int> {
    set i | 0 <= i < |t| && IsStale(t[i], debateId, cutoff)
  }

  lemma StaleAtGrows(t: Table, row: Row, debateId: string, cutoff: int)
    ensures |StaleAt(t + [row], debateId, cutoff)| ==
            |StaleAt(t, debateId, cutoff)| + if IsStale(row, debateId, cutoff) then 1 else 0
  {
    hide IsStale;
    var more := t + [row];
    assert forall i :: 0 <= i < |t| ==> more[i] == t[i];
    assert StaleAt(more, debateId, cutoff) ==
           StaleAt(t, debateId, cutoff) + if IsStale(row, debateId, cutoff) then {|t|} else {};
  }

  lemma {:induction false} StaleCountAt(t: Table, debateId: string, cutoff: int)
    ensures StaleCount(t, debateId, cutoff) == |StaleAt(t, debateId, cutoff)|
  {
    hide IsStale;
    if t != [] {
      StaleCountAt(t[..|t| - 1], debateId, cutoff);
      StaleAtGrows(t[..|t| - 1], t[|t| - 1], debateId, cutoff);
      assert t[..|t| - 1] + [t[|t| - 1]] == t;
    }
  }

  /** And the count is that of the rows that fail. */
  lemma StaleCountIs(t: Table, debateId: string, cutoff: int)
    ensures StaleCount(t, debateId, cutoff) ==
            |set i | 0 <= i < |t| && t[i].status == Running && t[i].key.debateId == debateId && t[i].updatedAt < cutoff|
  {
    StaleCountAt(t, debateId, cutoff);
    assert StaleAt(t, debateId, cutoff) ==
           set i | 0 <= i < |t| && t[i].status == Running && t[i].key.debateId == debateId && t[i].updatedAt < cutoff;
  }

  lemma FollowsOn(a: Table, b: Table, c: Table)
    requires Follows(a, b) && Follows(b, c)
    ensures Follows(a, c)
  {
    assert forall i :: 0 <= i < |a| ==> b[i].key == a[i].key;
  }

  /** The store. `clean` is the redaction every stored text goes through. */
  class MessageStore {
    const clean: Text -> Text
    var rows: Table

    predicate Valid()
      reads this
    {
      Unique(rows)
    }

    constructor (clean: Text -> Text)
      ensures Valid() && rows == [] && this.clean == clean
    {
      this.clean := clean;
      rows := [];
    }

    /** A second row for the same key is refused by the unique index. */
    method InsertQueued(key: Key, bridge: string, model: string, promptText: Text, now: int)
      returns (id: Option<nat>)
      requires Valid()
      modifies this
      ensures Valid()
      ensures id.None? <==> Find(old(rows), key).Some?
      ensures id.None? ==> rows == old(rows)
      ensures id.Some? ==> && id.value == |old(rows)|
                           && rows == old(rows) + [Row(key, bridge, model, clean(promptText), Queued, None, None, now, now, None)]
    {
      var i := 0;
      while i < |rows|
        invariant 0 <= i <= |rows| && rows == old(rows)
        invariant forall j :: 0 <= j < i ==> rows[j].key != key
      {
        if rows[i].key == key {
          return None;
        }
        i := i + 1;
      }
      id := Some(|rows|);
      rows := rows + [Row(key, bridge, model, clean(promptText), Queued, None, None, now, now, None)];
    }

    method UpdatePrompt(id: nat, promptText: Text, now: int) returns (changed: bool)
      requires Valid()
      modifies this
      ensures Valid() && rows == Put(old(rows), id, IDLE, Prompting(clean(promptText), now))
      ensures changed == Hits(old(rows), id, IDLE)
      ensures changed <==> id < |old(rows)| && (old(rows)[id].status == Queued || old(rows)[id].status == Failed)
      ensures rows == if changed then old(rows)[id := old(rows)[id].(prompt := clean(promptText), updatedAt := now)]
                      else old(rows)
    {
      changed := id < |rows| && (rows[id].status == Queued || rows[id].status == Failed);
      if changed {
        rows := rows[id := rows[id].(prompt := clean(promptText), updatedAt := now)];
      }
    }

    method MarkRunning(id: nat, now: int) returns (changed: bool)
      requires Valid()
      modifies this
      ensures Valid() && rows == Put(old(rows), id, IDLE, Starting(now))
      ensures changed == Hits(old(rows), id, IDLE)
      ensures changed <==> id < |old(rows)| && (old(rows)[id].status == Queued || old(rows)[id].status == Failed)
      ensures rows == if changed then old(rows)[id := old(rows)[id].(status := Running, updatedAt := now)] else old(rows)
    {
      changed := id < |rows| && (rows[id].status == Queued || rows[id].status == Failed);
      if changed {
        rows := rows[id := rows[id].(status := Running, updatedAt := now)];
      }
    }

    method MarkCompleted(id: nat, reply: Reply, now: int) returns (changed: bool)
      requires Valid()
      modifies this
      ensures Valid() && rows == Put(old(rows), id, {Running}, Completing(Cleaned(clean, reply), now))
      ensures changed == Hits(old(rows), id, {Running})
      ensures changed <==> id < |old(rows)| && old(rows)[id].status == Running
      ensures changed ==> && |rows| == |old(rows)|
                          && rows[id].reply.Some? && rows[id].reply.value.text == clean(reply.text)
                          && rows[id] == old(rows)[id].(status := Completed, reply := rows[id].reply, error := None,
                                                        updatedAt := now, completedAt := Some(now))
                          && forall i :: 0 <= i < |rows| && i != id ==> rows[i] == old(rows)[i]
      ensures changed ==> rows[id].reply.value == reply.(text := clean(reply.text),
                                                         verdictRaw := rows[id].reply.value.verdictRaw)
      ensures changed ==> rows[id].reply.value.verdictRaw == if reply.verdictRaw in {None, Some([])} then None
                                                             else Some(clean(reply.verdictRaw.value))
      ensures !changed ==> rows == old(rows)
    {
      changed := id < |rows| && rows[id].status == Running;
      if changed {
        var raw := if reply.verdictRaw.Some? && reply.verdictRaw.value != [] then Some(clean(reply.verdictRaw.value)) else None;
        var kept := reply.(text := clean(reply.text), verdictRaw := raw);
        rows := rows[id := rows[id].(status := Completed, reply := Some(kept), error := None,
                                     updatedAt := now, completedAt := Some(now))];
      }
    }

    method MarkFailed(id: nat, error: Text, now: int) returns (changed: bool)
      requires Valid()
      modifies this
      ensures Valid() && rows == Put(old(rows), id, {Running}, Failing(clean(error), now))
      ensures changed == Hits(old(rows), id, {Running})
      ensures changed <==> id < |old(rows)| && old(rows)[id].status == Running
      ensures rows == if changed
                      then old(rows)[id := old(rows)[id].(status := Failed, error := Some(clean(error)), updatedAt := now)]
                      else old(rows)
    {
      changed := id < |rows| && rows[id].status == Running;
      if changed {
        rows := rows[id := rows[id].(status := Failed, error := Some(clean(error)), updatedAt := now)];
      }
    }

    method GetByRound(key: Key) returns (row: Option<Row>)
      requires Valid()
      ensures row == if Find(rows, key).Some? then Some(rows[Find(rows, key).value]) else None
    {
      for i := 0 to |rows|
        invariant forall j :: 0 <= j < i ==> rows[j].key != key
      {
        if rows[i].key == key {
          FindOnly(rows, i);
          return Some(rows[i]);
        }
      }
      return None;
    }

    method RecoverStaleForDebate(debateId: string, thresholdMs: int, now: int) returns (recovered: nat)
      requires Valid()
      modifies this
      ensures Valid() && rows == Recover(old(rows), debateId, now - thresholdMs, now)
      ensures forall i :: 0 <= i < |old(rows)| ==>
                if old(rows)[i].status == Running && old(rows)[i].key.debateId == debateId
                   && old(rows)[i].updatedAt < now - thresholdMs
                then rows[i] == old(rows)[i].(status := Failed, error := Some(STALE_RECOVERY), updatedAt := now)
                else rows[i] == old(rows)[i]
      ensures recovered == |set i | 0 <= i < |old(rows)| && old(rows)[i].status == Running
                                    && old(rows)[i].key.debateId == debateId
                                    && old(rows)[i].updatedAt < now - thresholdMs|
    {
      var cutoff := now - thresholdMs;
      var next: Table := [];
      recovered := 0;
      assert StaleCount(rows[..0], debateId, cutoff) == 0;
      assert Recover(rows[..0], debateId, cutoff, now) == [];
      hide Recover, StaleCount, Unique;
      for i := 0 to |rows|
        invariant rows == old(rows) && next == Recover(rows[..i], debateId, cutoff, now)
        invariant recovered == StaleCount(rows[..i], debateId, cutoff)
      {
        RecoverOne(rows, i, debateId, cutoff, now);
        if rows[i].status == Running && rows[i].key.debateId == debateId && rows[i].updatedAt < cutoff {
          next := next + [rows[i].(status := Failed, error := Some(STALE_RECOVERY), updatedAt := now)];
          recovered := recovered + 1;
        } else {
          next := next + [rows[i]];
        }
      }
      assert rows[..|rows|] == rows;
      RecoverFollows(rows, debateId, cutoff, now);
      RecoverSays(rows, debateId, cutoff, now);
      StaleCountIs(rows, debateId, cutoff);
      rows := next;
    }
  }

  function Cleaned(clean: Text -> Text, reply: Reply): Reply {
    reply.(
      text := clean(reply.text),
      verdictRaw := if reply.verdictRaw.Some? && reply.verdictRaw.value != []
                    then Some(clean(reply.verdictRaw.value)) else None)
  }
}
