/** Plan refinement: an outline pinned on first acceptance, then one staged draft per batch, resumed
    over any number of attempts that fail or die after any durable write. */
module Refinement {
  import opened Distinct
  import opened Wrappers

  datatype Batch = Batch(batchId: string, batchPlanVersionId: string, ordinal: int, objective: string)

  datatype Outline = Outline(summary: string, refinedPlanContent: string, batches: seq<Batch>)

  /** A batch plan; `body` is everything the refinement only passes on. */
  datatype Draft = Draft(batchId: string, batchPlanVersionId: string, ordinal: int, objective: string, body: string)

  /** A row of the staging table. */
  datatype Entry = Entry(ordinal: int, draft: Draft)

  /** What one attempt meets: the answers that parse, whether the stored drafts still parse, whether the
      capture goes through, and how many durable writes it lives to make. */
  datatype Attempt = Attempt(
    outlineReply: Option<Outline>,
    batchReply: int -> Option<Draft>,
    draftsParse: bool,
    captures: bool,
    lifetime: nat)

  datatype Failure =
    | AlreadyRefined
    | Died
    | OutlineFailed
    | OutlineRejected
    | DraftsUnreadable
    | WrongBatch(ordinal: int)
    | BatchFailed(ordinal: int)
    | CaptureFailed

  // ---- the outline contract ----

  function BatchIds(batches: seq<Batch>): seq<string> {
    seq(|batches|, i requires 0 <= i < |batches| => batches[i].batchId)
  }

  predicate Accepted(o: Outline) {
    && o.summary != "" && o.refinedPlanContent != "" && o.batches != []
    && (forall i :: 0 <= i < |o.batches| ==> o.batches[i].ordinal == i + 1 && o.batches[i].objective != "")
    && NoDuplicates(BatchIds(o.batches))
  }

  // ---- listing the staging table ----

  type Table = map<int, Draft>

  predicate Ascending(rows: seq<Entry>) {
    forall i, j :: 0 <= i < j < |rows| ==> rows[i].ordinal < rows[j].ordinal
  }

  function Staged(rows: seq<Entry>, ordinal: int): Option<Draft> {
    if rows == [] then None
    else if rows[0].ordinal == ordinal then Some(rows[0].draft)
    else Staged(rows[1..], ordinal)
  }

  /** Keeps a listing in ordinal order. */
  function Upsert(rows: seq<Entry>, e: Entry): seq<Entry> {
    if rows == [] || e.ordinal < rows[0].ordinal then [e] + rows
    else if e.ordinal == rows[0].ordinal then [e] + rows[1..]
    else [rows[0]] + Upsert(rows[1..], e)
  }

  lemma {:induction false} UpsertStages(rows: seq<Entry>, e: Entry)
    requires Ascending(rows)
    ensures Ascending(Upsert(rows, e))
    ensures forall o :: Staged(Upsert(rows, e), o) == if o == e.ordinal then Some(e.draft) else Staged(rows, o)
    ensures forall i :: 0 <= i < |Upsert(rows, e)| ==> Upsert(rows, e)[i] == e || Upsert(rows, e)[i] in rows
  {
    if rows == [] || e.ordinal < rows[0].ordinal {
      Absent(rows, e.ordinal);
    } else if e.ordinal == rows[0].ordinal {
    } else {
      UpsertStages(rows[1..], e);
    }
  }

  lemma Absent(rows: seq<Entry>, o: int)
    requires forall i :: 0 <= i < |rows| ==> rows[i].ordinal != o
    ensures Staged(rows, o) == None
  {
  }

  /** `rows` is the table in ordinal order. */
  ghost predicate Lists(rows: seq<Entry>, table: Table) {
    && Ascending(rows)
    && forall o :: Staged(rows, o) == if o in table then Some(table[o]) else None
  }

  method List(table: Table) returns (rows: seq<Entry>)
    ensures Lists(rows, table)
  {
    rows := [];
    var left := table.Keys;
    while left != {}
      invariant left <= table.Keys && Ascending(rows)
      invariant forall o :: Staged(rows, o) == if o in table && o !in left then Some(table[o]) else None
      decreases |left|
    {
      ghost var some := Member(left);
      var o: int :| o in left;
      UpsertStages(rows, Entry(o, table[o]));
      rows := Upsert(rows, Entry(o, table[o]));
      left := left - {o};
    }
  }

  // ---- adopting the decomposition of staged drafts ----

  function Insert(b: Batch, sorted: seq<Batch>): seq<Batch> {
    if sorted == [] || b.ordinal < sorted[0].ordinal then [b] + sorted else [sorted[0]] + Insert(b, sorted[1..])
  }

  function BatchOf(d: Draft): Batch {
    Batch(d.batchId, d.batchPlanVersionId, d.ordinal, d.objective)
  }

  /** The stable sort of the staged drafts by the ordinal each draft carries itself. */
  function Adopted(rows: seq<Entry>): (r: seq<Batch>) {
    if rows == [] then [] else Insert(BatchOf(rows[|rows| - 1].draft), Adopted(rows[..|rows| - 1]))
  }

  function Bodies(rows: seq<Entry>): (r: seq<Batch>)
    ensures |r| == |rows|
    ensures forall i :: 0 <= i < |r| ==>
              && r[i].batchId == rows[i].draft.batchId && r[i].batchPlanVersionId == rows[i].draft.batchPlanVersionId
              && r[i].ordinal == rows[i].draft.ordinal && r[i].objective == rows[i].draft.objective
  {
    seq(|rows|, i requires 0 <= i < |rows| => BatchOf(rows[i].draft))
  }

  lemma {:induction false} InsertAdds(b: Batch, sorted: seq<Batch>)
    ensures multiset(Insert(b, sorted)) == multiset(sorted) + multiset{b}
    ensures |Insert(b, sorted)| == |sorted| + 1
  {
    if sorted != [] && b.ordinal >= sorted[0].ordinal {
      InsertAdds(b, sorted[1..]);
      assert sorted == [sorted[0]] + sorted[1..];
    }
  }

  /** Adoption loses and invents no batch. */
  lemma {:induction false} AdoptedKeepsAll(rows: seq<Entry>)
    ensures multiset(Adopted(rows)) == multiset(Bodies(rows)) && |Adopted(rows)| == |rows|
  {
    if rows != [] {
      var before, last := rows[..|rows| - 1], rows[|rows| - 1];
      AdoptedKeepsAll(before);
      InsertAdds(BatchOf(last.draft), Adopted(before));
      assert Bodies(rows) == Bodies(before) + [BatchOf(last.draft)];
    }
  }

  predicate InOrder(batches: seq<Batch>) {
    forall i, j :: 0 <= i < j < |batches| ==> batches[i].ordinal <= batches[j].ordinal
  }

  /** The batches of one ordinal, as they stand. */
  function OfOrdinal(batches: seq<Batch>, o: int): seq<Batch> {
    if batches == [] then []
    else (if batches[0].ordinal == o then [batches[0]] else []) + OfOrdinal(batches[1..], o)
  }

  lemma {:induction false} OfOrdinalSnoc(batches: seq<Batch>, b: Batch, o: int)
    ensures OfOrdinal(batches + [b], o) == OfOrdinal(batches, o) + if b.ordinal == o then [b] else []
  {
    if batches == [] {
      assert ([] + [b])[1..] == [];
    } else {
      OfOrdinalSnoc(batches[1..], b, o);
      assert (batches + [b])[1..] == batches[1..] + [b];
    }
  }

  lemma {:induction false} NoneOfOrdinal(batches: seq<Batch>, o: int)
    requires forall i :: 0 <= i < |batches| ==> batches[i].ordinal != o
    ensures OfOrdinal(batches, o) == []
  {
    if batches != [] {
      NoneOfOrdinal(batches[1..], o);
    }
  }

  lemma {:induction false} InsertKeepsOrder(b: Batch, sorted: seq<Batch>)
    requires InOrder(sorted)
    ensures InOrder(Insert(b, sorted))
    ensures forall i :: 0 <= i < |Insert(b, sorted)| ==> Insert(b, sorted)[i] == b || Insert(b, sorted)[i] in sorted
  {
    if sorted != [] && b.ordinal >= sorted[0].ordinal {
      var rest := Insert(b, sorted[1..]);
      InsertKeepsOrder(b, sorted[1..]);
      assert Insert(b, sorted) == [sorted[0]] + rest;
      hide Insert;
      assert forall i :: 0 <= i < |rest| ==> sorted[0].ordinal <= rest[i].ordinal;
    }
  }

  lemma {:induction false} InsertIsLastOfItsOrdinal(b: Batch, sorted: seq<Batch>, o: int)
    requires InOrder(sorted)
    ensures OfOrdinal(Insert(b, sorted), o) == OfOrdinal(sorted, o) + if b.ordinal == o then [b] else []
  {
    if sorted == [] || b.ordinal < sorted[0].ordinal {
      assert ([b] + sorted)[1..] == sorted;
      if o == b.ordinal {
        NoneOfOrdinal(sorted, o);
      }
    } else {
      InsertIsLastOfItsOrdinal(b, sorted[1..], o);
      assert ([sorted[0]] + Insert(b, sorted[1..]))[1..] == Insert(b, sorted[1..]);
    }
  }

  /** Adoption is a stable sort: in ordinal order, and batches of the same ordinal as they were listed. */
  lemma {:induction false} AdoptedIsStable(rows: seq<Entry>, o: int)
    ensures InOrder(Adopted(rows))
    ensures OfOrdinal(Adopted(rows), o) == OfOrdinal(Bodies(rows), o)
  {
    if rows != [] {
      var before, last := rows[..|rows| - 1], rows[|rows| - 1];
      AdoptedIsStable(before, o);
      InsertKeepsOrder(BatchOf(last.draft), Adopted(before));
      InsertIsLastOfItsOrdinal(BatchOf(last.draft), Adopted(before), o);
      OfOrdinalSnoc(Bodies(before), BatchOf(last.draft), o);
      assert Bodies(rows) == Bodies(before) + [BatchOf(last.draft)];
    }
  }

  lemma {:induction false} InsertLast(b: Batch, sorted: seq<Batch>)
    requires forall i :: 0 <= i < |sorted| ==> sorted[i].ordinal <= b.ordinal
    ensures Insert(b, sorted) == sorted + [b]
  {
    if sorted != [] {
      InsertLast(b, sorted[1..]);
      assert sorted == [sorted[0]] + sorted[1..];
    }
  }

  /** Every draft carries the ordinal it is staged under. */
  predicate Aligned(rows: seq<Entry>) {
    forall i :: 0 <= i < |rows| ==> rows[i].draft.ordinal == rows[i].ordinal
  }

  lemma {:induction false} AlignedStaysPut(rows: seq<Entry>)
    requires Ascending(rows) && Aligned(rows)
    ensures Adopted(rows) == Bodies(rows)
  {
    if rows != [] {
      var before, last := rows[..|rows| - 1], rows[|rows| - 1];
      AlignedStaysPut(before);
      InsertLast(BatchOf(last.draft), Bodies(before));
      assert Bodies(rows) == Bodies(before) + [BatchOf(last.draft)];
    }
  }

  /** Row `k + 1` stages a plan of batch `k`. */
  predicate Paired(batches: seq<Batch>, rows: seq<Entry>) {
    |rows| == |batches| &&
    forall k :: 0 <= k < |rows| ==> rows[k].ordinal == k + 1 && rows[k].draft.batchId == batches[k].batchId
  }

  /** An adopted decomposition pairs with the drafts it was adopted from exactly when each draft carries
      the ordinal it is staged under. */
  lemma AdoptionPairsIff(o: Outline, rows: seq<Entry>)
    requires Ascending(rows) && Accepted(o) && o.batches == Adopted(rows)
    ensures Paired(o.batches, rows) <==> Aligned(rows)
  {
    AdoptedKeepsAll(rows);
    if Aligned(rows) {
      AlignedStaysPut(rows);
      forall k | 0 <= k < |rows|
        ensures rows[k].ordinal == k + 1 && rows[k].draft.batchId == o.batches[k].batchId
      {
        assert o.batches[k] == BatchOf(rows[k].draft);
      }
    }
    if Paired(o.batches, rows) {
      forall k | 0 <= k < |rows|
        ensures rows[k].draft.ordinal == rows[k].ordinal
      {
        var b := BatchOf(rows[k].draft);
        assert Bodies(rows)[k] == b;
        assert b in multiset(Adopted(rows));
        var m :| 0 <= m < |o.batches| && o.batches[m] == b;
        SameBatch(o.batches, m, k);
      }
    }
  }

  lemma SameBatch(batches: seq<Batch>, i: nat, j: nat)
    requires NoDuplicates(BatchIds(batches)) && i < |batches| && j < |batches| && batches[i].batchId == batches[j].batchId
    ensures i == j
  {
    assert BatchIds(batches)[i] == BatchIds(batches)[j];
  }

  // ---- the durable state ----

  /** What is staged for the ordinal of batch `k` is a plan of that batch. */
  predicate PlannedAt(batches: seq<Batch>, table: Table, k: nat)
    requires k < |batches|
  {
    k + 1 in table && table[k + 1].batchId == batches[k].batchId
  }

  /** Every batch has its plan, in order: what a finished refinement assembles. */
  predicate Pairs(batches: seq<Batch>, table: Table, plans: seq<Draft>) {
    |plans| == |batches| &&
    forall k :: 0 <= k < |plans| ==> PairAt(batches, table, plans, k)
  }

  predicate PairAt(batches: seq<Batch>, table: Table, plans: seq<Draft>, k: nat)
    requires k < |batches| && k < |plans|
  {
    PlannedAt(batches, table, k) && table[k + 1] == plans[k]
  }

  /** Nothing staged for an ordinal of the decomposition is lost or replaced. */
  ghost predicate Preserves(table: Table, later: Table, n: nat) {
    forall o :: 1 <= o <= n && o in table ==> o in later && later[o] == table[o]
  }

  predicate Inside(table: Table, n: nat) {
    forall o :: o in table ==> 1 <= o <= n
  }

  function Size(outline: Option<Outline>): nat {
    if outline.Some? then |outline.value.batches| else 0
  }

  /** What an attempt adds to the staging table are its replies. */
  predicate FromReplies(before: Table, after: Table, a: Attempt) {
    forall o :: o in after && o !in before ==> a.batchReply(o) == Some(after[o])
  }

  /** Nothing the attempt meets stands in its way. */
  ghost predicate CanFinish(batches: seq<Batch>, table: Table, a: Attempt) {
    && a.draftsParse && a.captures
    && (forall o :: 1 <= o <= |batches| ==> Ready(batches, table, a, o))
  }

  predicate Ready(batches: seq<Batch>, table: Table, a: Attempt, o: int)
    requires 1 <= o <= |batches|
  {
    if o in table then table[o].batchId == batches[o - 1].batchId
    else a.batchReply(o).Some? && a.batchReply(o).value.batchId == batches[o - 1].batchId
  }

  /** The authored outline is not acceptable with the batches of the drafts. */
  ghost predicate AdoptionRefused(a: Attempt, table: Table) {
    a.outlineReply.Some? && exists rows :: Lists(rows, table) && !Accepted(a.outlineReply.value.(batches := Adopted(rows)))
  }

  /** A failure says what stopped the attempt. */
  ghost predicate Explained(f: Failure, a: Attempt, captured: bool, outline: Option<Outline>, table: Table, lives: nat) {
    match f
    case AlreadyRefined => captured
    case Died => lives == 0
    case OutlineFailed => outline.None? && (a.outlineReply.None? || !Accepted(a.outlineReply.value))
    case OutlineRejected => outline.None? && table != map[] && AdoptionRefused(a, table)
    case DraftsUnreadable => !a.draftsParse && table != map[]
    case WrongBatch(o) => outline.Some? && 1 <= o <= Size(outline) && o in table &&
                          table[o].batchId != outline.value.batches[o - 1].batchId
    case BatchFailed(o) =>
      && outline.Some? && 1 <= o <= Size(outline) && o !in table
      && (a.batchReply(o).None? || a.batchReply(o).value.batchId != outline.value.batches[o - 1].batchId)
      && (forall k :: 1 <= k < o ==> k in table)
    case CaptureFailed => !a.captures
  }

  /** A fresh outline is the authored one, its batches adopted from the drafts when there are any. */
  ghost predicate TakenFrom(o: Outline, a: Attempt, table: Table) {
    && a.outlineReply.Some?
    && (table == map[] ==> o == a.outlineReply.value)
    && (table != map[] ==> exists rows :: Lists(rows, table) && o == a.outlineReply.value.(batches := Adopted(rows)))
  }

  function Ordinals(rows: seq<Entry>): seq<int> {
    seq(|rows|, i requires 0 <= i < |rows| => rows[i].ordinal)
  }

  lemma {:induction false} ListedIsStaged(rows: seq<Entry>, i: nat)
    requires Ascending(rows) && i < |rows|
    ensures Staged(rows, rows[i].ordinal) == Some(rows[i].draft)
  {
    if i > 0 {
      ListedIsStaged(rows[1..], i - 1);
    }
  }

  lemma {:induction false} StagedIsListed(rows: seq<Entry>, o: int)
    requires Staged(rows, o).Some?
    ensures o in Ordinals(rows)
  {
    if rows[0].ordinal == o {
      assert Ordinals(rows)[0] == o;
    } else {
      StagedIsListed(rows[1..], o);
      var k :| 0 <= k < |rows| - 1 && Ordinals(rows[1..])[k] == o;
      assert Ordinals(rows)[k + 1] == o;
    }
  }

  /** A listing has every ordinal of the table once. */
  lemma ListingSize(rows: seq<Entry>, table: Table)
    requires Lists(rows, table)
    ensures Elements(Ordinals(rows)) == table.Keys && |rows| == |table|
  {
    forall o
      ensures o in Ordinals(rows) <==> o in table
    {
      if o in Ordinals(rows) {
        var k :| 0 <= k < |rows| && rows[k].ordinal == o;
        ListedIsStaged(rows, k);
      }
      if o in table {
        StagedIsListed(rows, o);
      }
    }
    SizeIsLength(Ordinals(rows));
    assert |table.Keys| == |table|;
  }

  /** Outside the decomposition only ordinals still to be looked at are left. */
  ghost predicate LeftToDiscard(table: Table, n: nat, ordinals: seq<int>) {
    forall o :: o in table ==> 1 <= o <= n || o in ordinals
  }

  lemma DiscardOne(was: Table, table: Table, n: nat, ordinals: seq<int>)
    requires ordinals != [] && LeftToDiscard(table, n, ordinals)
    requires Preserves(was, table, n) && Preserves(table, was, n)
    ensures 1 <= ordinals[0] <= n ==> LeftToDiscard(table, n, ordinals[1..])
    ensures !(1 <= ordinals[0] <= n) ==>
              && LeftToDiscard(table - {ordinals[0]}, n, ordinals[1..])
              && Preserves(was, table - {ordinals[0]}, n) && Preserves(table - {ordinals[0]}, was, n)
  {
    assert ordinals == [ordinals[0]] + ordinals[1..];
  }

  /** The workflow's refinement: the pinned outline, the staging table, the captured result. */
  class Refinement {
    var outline: Option<Outline>
    var drafts: Table
    var captured: Option<seq<Draft>>
    /** The writes the running process still lives to make. */
    var lives: nat
    /** The ordinals whose plans were authored and staged here. */
    ghost var authored: seq<int>
    /** The outlines pinned here. */
    ghost var pins: seq<Outline>

    ghost predicate Valid()
      reads this`outline, this`drafts, this`captured, this`authored, this`pins
    {
      && (pins == [] || (outline.Some? && pins == [outline.value]))
      && (outline.Some? ==> Accepted(outline.value))
      && NoDuplicates(authored)
      && (forall o :: o in authored ==> 1 <= o <= Size(outline) && o in drafts)
      && (captured.Some? ==> outline.Some? && Pairs(outline.value.batches, drafts, captured.value))
    }

    /** A workflow that may hold drafts from before outlines were pinned. */
    constructor (legacy: Table)
      ensures Valid() && outline == None && drafts == legacy && captured == None && authored == [] && pins == []
    {
      outline, drafts, captured, lives, authored, pins := None, legacy, None, 0, [], [];
    }

    /** The first outline stays: a later insert does nothing. */
    method SaveRefinementOutline(o: Outline)
      requires Valid() && Accepted(o) && lives > 0
      modifies this`outline, this`lives, this`pins
      ensures Valid() && lives == old(lives) - 1
      ensures outline == if old(outline).Some? then old(outline) else Some(o)
      ensures pins == if old(outline).Some? then old(pins) else old(pins) + [o]
    {
      if outline.None? {
        outline := Some(o);
        pins := pins + [o];
      }
      lives := lives - 1;
    }

    /** The outline this attempt works under. */
    method TakeOutline(a: Attempt) returns (r: Result<Outline, Failure>)
      requires Valid()
      modifies this`outline, this`lives, this`pins
      ensures Valid() && old(lives) - 1 <= lives <= old(lives)
      ensures Pinned(old(outline), old(pins), outline, pins)
      ensures old(outline).Some? ==> outline == old(outline) && r == Ok(outline.value) && lives == old(lives)
      ensures r.Ok? ==> outline == Some(r.value)
      ensures r.Err? ==> outline == old(outline) && lives == old(lives)
      ensures r.Err? ==> Explained(r.error, a, false, outline, drafts, lives)
      ensures r.Err? ==> r.error in {OutlineFailed, OutlineRejected, DraftsUnreadable, Died}
      ensures r.Ok? && old(outline).None? ==> TakenFrom(r.value, a, drafts)
    {
      if outline.Some? {
        return Ok(outline.value);
      }
      if a.outlineReply.None? || !Accepted(a.outlineReply.value) {
        return Err(OutlineFailed);
      }
      var o := a.outlineReply.value;
      if drafts != map[] {
        if !a.draftsParse {
          return Err(DraftsUnreadable);
        }
        var rows := List(drafts);
        o := o.(batches := Adopted(rows));
        if !Accepted(o) {
          return Err(OutlineRejected);
        }
      }
      if lives == 0 {
        return Err(Died);
      }
      SaveRefinementOutline(o);
      return Ok(o);
    }

    /** One `DELETE` of a draft outside the decomposition. */
    method DeleteDraft(ordinal: int)
      requires Valid() && captured.None? && lives > 0 && !(1 <= ordinal <= Size(outline))
      modifies this`drafts, this`lives
      ensures Valid() && drafts == old(drafts) - {ordinal} && lives == old(lives) - 1
    {
      drafts := drafts - {ordinal};
      lives := lives - 1;
    }

    /** Deletes the drafts outside the decomposition, one statement each. */
    method DiscardRefinementDraftsOutside(n: nat) returns (finished: bool)
      requires Valid() && captured.None? && n == Size(outline)
      modifies this`drafts, this`lives
      ensures Valid() && Preserves(old(drafts), drafts, n) && Preserves(drafts, old(drafts), n)
      ensures if finished then Inside(drafts, n) else lives == 0
      ensures old(lives) - |old(drafts)| <= lives <= old(lives)
    {
      ghost var was := drafts;
      var rows := List(drafts);
      ListingSize(rows, drafts);
      assert LeftToDiscard(drafts, n, Ordinals(rows)[0..]);
      assert Preserves(was, was, n);
      hide LeftToDiscard, Preserves, Valid;
      for i := 0 to |rows|
        invariant Valid() && n == Size(outline) && LeftToDiscard(drafts, n, Ordinals(rows)[i..])
        invariant Preserves(was, drafts, n) && Preserves(drafts, was, n)
        invariant old(lives) - i <= lives <= old(lives)
      {
        DiscardOne(was, drafts, n, Ordinals(rows)[i..]);
        assert Ordinals(rows)[i..][1..] == Ordinals(rows)[i + 1..];
        if !(1 <= rows[i].ordinal <= n) {
          if lives == 0 {
            return false;
          }
          DeleteDraft(rows[i].ordinal);
        }
      }
      NoneLeft(drafts, n, Ordinals(rows)[|rows|..]);
      return true;
    }

    /** Stages the plan of one batch the moment it lands. */
    method SaveRefinementDraft(ordinal: int, draft: Draft)
      requires Valid() && lives > 0 && captured.None? && 1 <= ordinal <= Size(outline) && ordinal !in drafts
      modifies this`drafts, this`lives, this`authored
      ensures Valid() && drafts == old(drafts)[ordinal := draft] && lives == old(lives) - 1
      ensures authored == old(authored) + [ordinal]
    {
      drafts := drafts[ordinal := draft];
      authored := authored + [ordinal];
      lives := lives - 1;
    }

    /** The turn of one batch: reuse its staged plan if it is this batch's, or author and stage it. */
    method AuthorBatch(o: Outline, k: nat, staged: Table, a: Attempt) returns (r: Result<Table, Failure>)
      requires Valid() && captured.None? && outline == Some(o) && k < |o.batches| && staged == drafts
      requires Matched(o.batches, drafts, k)
      modifies this`drafts, this`lives, this`authored
      ensures Valid() && (r.Err? ==> drafts == old(drafts) && lives == old(lives) && authored == old(authored))
      ensures r.Err? ==> Explained(r.error, a, false, outline, drafts, lives)
      ensures r.Ok? ==> && r.value == drafts && k + 1 in drafts && drafts[k + 1].batchId == o.batches[k].batchId
                        && old(lives) - 1 <= lives <= old(lives)
                        && if k + 1 in old(drafts) then drafts == old(drafts) && authored == old(authored)
                           else a.batchReply(k + 1) == Some(drafts[k + 1])
                                && drafts == old(drafts)[k + 1 := drafts[k + 1]] && authored == old(authored) + [k + 1]
    {
      var batch := o.batches[k];
      MatchedStaged(o.batches, drafts, k);
      if batch.ordinal in staged {
        if staged[batch.ordinal].batchId != batch.batchId {
          return Err(WrongBatch(batch.ordinal));
        }
        return Ok(staged);
      }
      var reply := a.batchReply(batch.ordinal);
      if reply.None? || reply.value.batchId != batch.batchId {
        return Err(BatchFailed(batch.ordinal));
      }
      if lives == 0 {
        return Err(Died);
      }
      SaveRefinementDraft(batch.ordinal, reply.value);
      return Ok(staged[batch.ordinal := reply.value]);
    }

    /** All batches in order. */
    method AuthorBatches(o: Outline, a: Attempt) returns (r: Result<Table, Failure>)
      requires Valid() && captured.None? && outline == Some(o) && Inside(drafts, |o.batches|)
      modifies this`drafts, this`lives, this`authored
      ensures Valid() && Inside(drafts, |o.batches|) && Preserves(old(drafts), drafts, |o.batches|)
      ensures Continued(old(authored), authored, old(drafts))
      ensures FromReplies(old(drafts), drafts, a)
      ensures r.Ok? ==> r.value == drafts && Matched(o.batches, drafts, |o.batches|)
      ensures r.Err? ==> Explained(r.error, a, false, outline, drafts, lives)
      ensures old(lives) - |o.batches| <= lives <= old(lives)
    {
      if !a.draftsParse && drafts != map[] {
        return Err(DraftsUnreadable);
      }
      var staged := drafts;
      for k := 0 to |o.batches|
        invariant Valid() && staged == drafts && Inside(drafts, |o.batches|)
        invariant Preserves(old(drafts), drafts, |o.batches|) && Continued(old(authored), authored, old(drafts))
        invariant Matched(o.batches, drafts, k) && FromReplies(old(drafts), drafts, a)
        invariant old(lives) - k <= lives <= old(lives)
      {
        var next := AuthorBatch(o, k, staged, a);
        if next.Err? {
          return Err(next.error);
        }
        MatchedKept(o.batches, staged, drafts, k);
        staged := next.value;
      }
      return Ok(staged);
    }

    /** The plans of the decomposition, in its order. */
    method Assemble(o: Outline, staged: Table) returns (plans: seq<Draft>)
      requires Matched(o.batches, staged, |o.batches|)
      ensures Pairs(o.batches, staged, plans)
    {
      plans := [];
      for k := 0 to |o.batches|
        invariant Pairs(o.batches[..k], staged, plans)
      {
        assert PlannedAt(o.batches, staged, k);
        ShorterPairs(o.batches, staged, plans, k);
        plans := plans + [staged[k + 1]];
      }
      assert o.batches[..|o.batches|] == o.batches;
    }

    /** One attempt. */
    method PerformRefinement(a: Attempt) returns (r: Result<seq<Draft>, Failure>)
      requires Valid()
      modifies this
      ensures Valid()
      ensures Pinned(old(outline), old(pins), outline, pins)
      ensures r.Ok? <==> captured != old(captured)
      ensures r.Ok? ==> old(captured).None? && captured == Some(r.value) && Inside(drafts, Size(outline))
      ensures r.Err? ==> captured == old(captured) && Explained(r.error, a, captured.Some?, outline, drafts, lives)
      ensures r.Err? && r.error == Died ==> a.lifetime < 2 + |old(drafts)| + Size(outline)
      ensures Preserves(old(drafts), drafts, Size(outline))
      ensures Continued(old(authored), authored, old(drafts))
      ensures (&& old(captured).None? && outline.Some? && CanFinish(outline.value.batches, old(drafts), a)
               && a.lifetime >= 2 + |old(drafts)| + Size(outline)) ==> r.Ok?
      ensures old(captured).None? && outline.None? ==>
                r.Err? && r.error in {OutlineFailed, OutlineRejected, DraftsUnreadable, Died}
    {
      hide Accepted, NoDuplicates, Matched, PlannedAt, TakenFrom, FromReplies, Pairs, CanFinish, Lists, Inside, Preserves;
      lives := a.lifetime;
      if captured.Some? {
        AllKept(drafts, Size(outline));
        return Err(AlreadyRefined);
      }
      var taken := TakeOutline(a);
      AllKept(drafts, Size(outline));
      if taken.Err? {
        return Err(taken.error);
      }
      r := PlanBatches(taken.value, a);
    }

    /** The attempt under its outline: clear the table, plan every batch, capture the result. */
    method PlanBatches(o: Outline, a: Attempt) returns (r: Result<seq<Draft>, Failure>)
      requires Valid() && captured.None? && outline == Some(o) && a.lifetime - 1 <= lives <= a.lifetime
      modifies this`drafts, this`captured, this`lives, this`authored
      ensures Valid()
      ensures r.Ok? ==> captured == Some(r.value) && Inside(drafts, |o.batches|)
      ensures r.Err? ==> captured == None && Explained(r.error, a, false, outline, drafts, lives)
      ensures r.Err? && r.error == Died ==> a.lifetime < 2 + |old(drafts)| + |o.batches|
      ensures Preserves(old(drafts), drafts, |o.batches|)
      ensures Continued(old(authored), authored, old(drafts))
      ensures CanFinish(o.batches, old(drafts), a) && a.lifetime >= 2 + |old(drafts)| + |o.batches| ==> r.Ok?
    {
      hide Accepted, NoDuplicates, Matched, PlannedAt, TakenFrom, FromReplies;
      var cleared := DiscardRefinementDraftsOutside(|o.batches|);
      if !cleared {
        return Err(Died);
      }
      ghost var cleared0, authored0 := drafts, authored;
      var staged := AuthorBatches(o, a);
      ContinuedFrom(old(drafts), cleared0, authored0, authored, |o.batches|);
      if staged.Err? {
        StoppedFor(staged.error, a, o, old(drafts), cleared0, drafts, lives);
        return Err(staged.error);
      }
      var plans := Assemble(o, staged.value);
      if lives == 0 {
        return Err(Died);
      }
      if !a.captures {
        return Err(CaptureFailed);
      }
      captured := Some(plans);
      lives := lives - 1;
      return Ok(plans);
    }

    /** Any number of attempts: whatever fails or dies, the first pinned outline stays, no ordinal is
        authored twice, and what is captured pairs the pinned batches with plans of their own. */
    method Resume(attempts: seq<Attempt>)
      requires Valid() && authored == []
      modifies this
      ensures Valid() && NoDuplicates(authored)
      ensures Pinned(old(outline), old(pins), outline, pins)
      ensures captured.Some? ==> outline.Some? && Pairs(outline.value.batches, drafts, captured.value)
      ensures old(captured).Some? ==> captured == old(captured)
    {
      for i := 0 to |attempts|
        invariant Valid()
        invariant Pinned(old(outline), old(pins), outline, pins)
        invariant old(captured).Some? ==> captured == old(captured)
      {
        var r := PerformRefinement(attempts[i]);
      }
    }
  }

  /** An outline that stands stays; otherwise one may be pinned, and that one stands. */
  predicate Pinned(before: Option<Outline>, pinsBefore: seq<Outline>, outline: Option<Outline>, pins: seq<Outline>) {
    if before.Some? then outline == before && pins == pinsBefore
    else if outline.Some? then pins == pinsBefore + [outline.value]
    else pins == pinsBefore
  }

  lemma AllKept(table: Table, n: nat)
    ensures Preserves(table, table, n)
  {}

  /** The first `k` batches have plans of their own. */
  predicate Matched(batches: seq<Batch>, table: Table, k: nat)
    requires k <= |batches|
  {
    forall j :: 0 <= j < k ==> PlannedAt(batches, table, j)
  }

  lemma MatchedKept(batches: seq<Batch>, table: Table, later: Table, k: nat)
    requires k < |batches| && Matched(batches, table, k) && PlannedAt(batches, later, k)
    requires later == table || later == table[k + 1 := later[k + 1]]
    ensures Matched(batches, later, k + 1)
  {
    forall j | 0 <= j < k
      ensures PlannedAt(batches, later, j)
    {
      assert PlannedAt(batches, table, j);
    }
  }

  lemma ShorterPairs(batches: seq<Batch>, table: Table, plans: seq<Draft>, k: nat)
    requires k < |batches| && Pairs(batches[..k], table, plans) && PlannedAt(batches, table, k)
    ensures Pairs(batches[..k + 1], table, plans + [table[k + 1]])
  {
    var more, longer := batches[..k + 1], plans + [table[k + 1]];
    forall j | 0 <= j < |longer|
      ensures PairAt(more, table, longer, j)
    {
      if j < k {
        assert PairAt(batches[..k], table, plans, j);
      }
    }
  }

  lemma MatchedStaged(batches: seq<Batch>, table: Table, k: nat)
    requires k <= |batches| && Matched(batches, table, k)
    ensures forall o :: 1 <= o <= k ==> o in table
  {
    forall o | 1 <= o <= k
      ensures o in table
    {
      assert PlannedAt(batches, table, o - 1);
    }
  }

  // ---- an adoption that does not pair ----

  /** The ordinals of the listing are 1 to its length. */
  predicate Dense(rows: seq<Entry>) {
    forall k :: 0 <= k < |rows| ==> rows[k].ordinal == k + 1
  }

  predicate InRange(rows: seq<Entry>) {
    forall k :: 0 <= k < |rows| ==> 1 <= rows[k].ordinal <= |rows|
  }

  lemma {:induction false} AscendingFrom(rows: seq<Entry>, k: nat)
    requires Ascending(rows) && InRange(rows) && k < |rows|
    ensures rows[k].ordinal >= k + 1
  {
    if k > 0 {
      AscendingFrom(rows, k - 1);
    }
  }

  lemma {:induction false} AscendingUpTo(rows: seq<Entry>, k: nat)
    requires Ascending(rows) && InRange(rows) && k < |rows|
    ensures rows[k].ordinal <= k + 1
    decreases |rows| - k
  {
    if k + 1 < |rows| {
      AscendingUpTo(rows, k + 1);
    }
  }

  lemma InRangeIsDense(rows: seq<Entry>)
    requires Ascending(rows) && InRange(rows)
    ensures Dense(rows)
  {
    forall k | 0 <= k < |rows|
      ensures rows[k].ordinal == k + 1
    {
      AscendingFrom(rows, k);
      AscendingUpTo(rows, k);
    }
  }

  /** Some draft staged inside the decomposition is a plan of another batch. */
  predicate Misplaced(batches: seq<Batch>, table: Table) {
    exists o :: o in table && 1 <= o <= |batches| && table[o].batchId != batches[o - 1].batchId
  }

  function Fitting(batches: seq<Batch>, o: int): Option<Draft> {
    if 1 <= o <= |batches| then
      var b := batches[o - 1];
      Some(Draft(b.batchId, b.batchPlanVersionId, b.ordinal, b.objective, ""))
    else None
  }

  /** A decomposition can be finished over the drafts exactly when none of them is misplaced in it. */
  lemma FinishableIff(batches: seq<Batch>, table: Table)
    ensures (exists a :: CanFinish(batches, table, a)) <==> !Misplaced(batches, table)
  {
    if a :| CanFinish(batches, table, a) {
      forall o | o in table && 1 <= o <= |batches|
        ensures table[o].batchId == batches[o - 1].batchId
      {
        assert Ready(batches, table, a, o);
      }
    }
    if !Misplaced(batches, table) {
      var a := Attempt(None, o => Fitting(batches, o), true, true, 0);
      forall o | 1 <= o <= |batches|
        ensures Ready(batches, table, a, o)
      {
      }
      assert CanFinish(batches, table, a);
    }
  }

  /** Misplaced drafts stay: whatever later attempts add, nothing pairs. */
  lemma MisplacedIsStuck(batches: seq<Batch>, table: Table, later: Table, plans: seq<Draft>)
    requires Misplaced(batches, table) && Preserves(table, later, |batches|)
    ensures !Pairs(batches, later, plans)
  {
    var o :| o in table && 1 <= o <= |batches| && table[o].batchId != batches[o - 1].batchId;
    if |plans| == |batches| {
      assert !PairAt(batches, later, plans, o - 1);
    }
  }

  /** What becomes of an adoption from drafts that do not carry their staged ordinals. Staged under 1 to n, one of
      them is misplaced, and every later attempt stops at it. Staged otherwise, one lies outside the decomposition
      it was adopted into: whatever table holds nothing outside, that plan is lost. */
  lemma AdoptionOutcomes(o: Outline, rows: seq<Entry>, table: Table, later: Table)
    requires Lists(rows, table) && Accepted(o) && o.batches == Adopted(rows) && !Aligned(rows)
    requires Inside(later, |o.batches|)
    ensures Dense(rows) ==> Misplaced(o.batches, table)
    ensures !Dense(rows) ==>
              exists k :: 0 <= k < |rows| && rows[k].ordinal !in later && BatchOf(rows[k].draft) in o.batches
  {
    AdoptedKeepsAll(rows);
    if Dense(rows) {
      AdoptionPairsIff(o, rows);
      DenseIsMisplaced(o.batches, rows, table);
    } else {
      OneIsOutside(rows, later);
    }
  }

  lemma DenseIsMisplaced(batches: seq<Batch>, rows: seq<Entry>, table: Table)
    requires Lists(rows, table) && Dense(rows) && |rows| == |batches| && !Paired(batches, rows)
    ensures Misplaced(batches, table)
  {
    var k: nat :| k < |rows| && (rows[k].ordinal != k + 1 || rows[k].draft.batchId != batches[k].batchId);
    ListedIsStaged(rows, k);
    assert rows[k].ordinal in table && table[rows[k].ordinal] == rows[k].draft;
  }

  lemma Outsider(rows: seq<Entry>) returns (k: nat)
    requires !InRange(rows)
    ensures k < |rows| && !(1 <= rows[k].ordinal <= |rows|)
  {
    k := 0;
    while 1 <= rows[k].ordinal <= |rows|
      invariant k < |rows| && forall j :: 0 <= j < k ==> 1 <= rows[j].ordinal <= |rows|
      decreases |rows| - k
    {
      k := k + 1;
    }
  }

  lemma OneIsOutside(rows: seq<Entry>, later: Table)
    requires Ascending(rows) && !Dense(rows) && Inside(later, |rows|)
    ensures exists k :: 0 <= k < |rows| && rows[k].ordinal !in later && BatchOf(rows[k].draft) in Adopted(rows)
  {
    if InRange(rows) { InRangeIsDense(rows); }
    var k := Outsider(rows);
    AdoptedKeepsAll(rows);
    assert Bodies(rows)[k] == BatchOf(rows[k].draft);
    assert BatchOf(rows[k].draft) in multiset(Adopted(rows));
  }

  /** Only plans that were not staged before are authored. */
  ghost predicate Continued(before: seq<int>, after: seq<int>, table: Table) {
    before <= after && forall i :: |before| <= i < |after| ==> after[i] !in table
  }

  /** Then no explanation of a failure fits. */
  lemma NothingToExplain(f: Failure, a: Attempt, outline: Outline, before: Table, table: Table, lives: nat)
    requires CanFinish(outline.batches, before, a)
    requires Preserves(before, table, |outline.batches|) && FromReplies(before, table, a)
    ensures f == Died || f == AlreadyRefined || !Explained(f, a, false, Some(outline), table, lives)
  {
    if (f.WrongBatch? || f.BatchFailed?) && 1 <= f.ordinal <= |outline.batches| {
      assert Ready(outline.batches, before, a, f.ordinal);
    }
  }

  lemma StoppedFor(f: Failure, a: Attempt, o: Outline, before: Table, kept: Table, table: Table, lives: nat)
    requires Preserves(before, kept, |o.batches|) && Preserves(kept, before, |o.batches|)
    requires Preserves(kept, table, |o.batches|) && FromReplies(kept, table, a)
    requires Explained(f, a, false, Some(o), table, lives)
    ensures CanFinish(o.batches, before, a) ==> f == Died || f == AlreadyRefined
  {
    if CanFinish(o.batches, before, a) {
      forall i | 1 <= i <= |o.batches|
        ensures Ready(o.batches, kept, a, i)
      {
        assert Ready(o.batches, before, a, i);
      }
      NothingToExplain(f, a, o, kept, table, lives);
    }
  }

  lemma ContinuedFrom(table: Table, kept: Table, before: seq<int>, after: seq<int>, n: nat)
    requires Preserves(table, kept, n) && Continued(before, after, kept)
    requires forall o :: o in after ==> 1 <= o <= n
    ensures Continued(before, after, table)
  {
    forall i | |before| <= i < |after|
      ensures after[i] !in table
    {
      var o := after[i];
      assert o in after;
      assert 1 <= o <= n && o !in kept;
    }
  }

  lemma NoneLeft(table: Table, n: nat, ordinals: seq<int>)
    requires ordinals == [] && LeftToDiscard(table, n, ordinals)
    ensures Inside(table, n)
  {
  }
}
