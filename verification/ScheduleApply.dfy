/** Applying a draft (internal/anime/schedule_service.go:55-150, schedule_service_operations.go:11-40): the order of
    the checks, the batch of writes, and when a second editor's board token is found out of date. */
module ScheduleApply {
  import opened Basics
  import opened ScheduleOrder
  import opened ScheduleBoard
  import opened ScheduleDraft
  import opened ScheduleMethods

  // ---------------------------------------------------------------- the board token

  /** currentBoardModifiedAt: the latest modification among active records. */
  function BoardToken(records: seq<Record>): (token: int)
    ensures token >= 0
    ensures forall i | 0 <= i < |records| && records[i].active == 1 :: records[i].modifiedAt <= token
    ensures token == 0 || exists i | 0 <= i < |records| :: records[i].active == 1 && records[i].modifiedAt == token
  {
    if records == [] then 0
    else
      var rest, last := BoardToken(records[..|records| - 1]), records[|records| - 1];
      if last.active == 1 && last.modifiedAt > rest then last.modifiedAt else rest
  }

  method CurrentBoardModifiedAt(records: seq<Record>) returns (token: int)
    ensures token == BoardToken(records)
  {
    token := 0;
    for i := 0 to |records|
      invariant token == BoardToken(records[..i])
    {
      assert records[..i + 1][..i] == records[..i];
      if records[i].active == 1 && records[i].modifiedAt > token {
        token := records[i].modifiedAt;
      }
    }
    assert records[..|records|] == records;
  }

  function ById(records: seq<Record>): map<AnimeId, Record> {
    if records == [] then map[]
    else
      var rest, r := ById(records[..|records| - 1]), records[|records| - 1];
      if r.active != 1 then rest else rest[r.id := r]
  }

  method ActiveScheduleRecordsById(records: seq<Record>) returns (byId: map<AnimeId, Record>)
    ensures byId == ById(records)
  {
    byId := map[];
    for i := 0 to |records|
      invariant byId == ById(records[..i])
    {
      assert records[..i + 1][..i] == records[..i];
      if records[i].active == 1 {
        byId := byId[records[i].id := records[i]];
      }
    }
    assert records[..|records|] == records;
  }

  predicate IsStale(byId: map<AnimeId, Record>, e: Entry) {
    e.animeId in byId && byId[e.animeId].modifiedAt != e.baseModifiedAt
  }

  /** `e` is the first entry whose base is not the record's modification time. */
  ghost predicate FirstStale(byId: map<AnimeId, Record>, entries: seq<Entry>, e: Entry) {
    exists i | 0 <= i < |entries| ::
      entries[i] == e && IsStale(byId, entries[i]) && forall j | 0 <= j < i :: !IsStale(byId, entries[j])
  }

  ghost predicate AnyStale(byId: map<AnimeId, Record>, entries: seq<Entry>) {
    exists i | 0 <= i < |entries| :: IsStale(byId, entries[i])
  }

  method StaleScheduleEntry(byId: map<AnimeId, Record>, entries: seq<Entry>) returns (stale: Option<Entry>)
    requires forall i | 0 <= i < |entries| :: entries[i].animeId in byId
    ensures stale.None? <==> !AnyStale(byId, entries)
    ensures stale.Some? ==> FirstStale(byId, entries, stale.value)
  {
    for i := 0 to |entries|
      invariant forall j | 0 <= j < i :: !IsStale(byId, entries[j])
    {
      if byId[entries[i].animeId].modifiedAt != entries[i].baseModifiedAt {
        return Some(entries[i]);
      }
    }
    return None;
  }

  lemma {:induction false} ActiveAreIndexed(records: seq<Record>)
    ensures ById(records).Keys == ActiveIds(records)
    ensures forall id | id in ById(records) :: ById(records)[id] in records && ById(records)[id].id == id && ById(records)[id].active == 1
  {
    if records != [] {
      var init, r := records[..|records| - 1], records[|records| - 1];
      ActiveAreIndexed(init);
      assert records == init + [r];
      assert ActiveIds(records) == ActiveIds(init) + if r.active == 1 then {r.id} else {};
    }
  }

  // ---------------------------------------------------------------- the batch

  datatype Operation = Operation(id: AnimeId, base: int, days: seq<Day>)

  function OperationFor(byId: map<AnimeId, Record>, q: Placements, id: AnimeId): Operation
    requires id in byId
  {
    Operation(id, byId[id].modifiedAt, Get(q, id))
  }

  predicate Changes(byId: map<AnimeId, Record>, q: Placements, id: AnimeId) {
    id in byId && Get(q, id) != byId[id].days
  }

  ghost predicate Writes(ops: seq<Operation>, id: AnimeId) {
    exists i | 0 <= i < |ops| :: ops[i].id == id
  }

  /** One operation for every anime whose days change, and no other. */
  ghost predicate ExactlyChanges(ops: seq<Operation>, byId: map<AnimeId, Record>, q: Placements) {
    && (forall op | op in ops :: Changes(byId, q, op.id) && op == OperationFor(byId, q, op.id))
    && (forall id | Changes(byId, q, id) :: Writes(ops, id))
  }

  ghost predicate Ascend(ops: seq<Operation>) {
    forall i, j | 0 <= i < j < |ops| :: IdBelow(ops[i].id, ops[j].id)
  }

  function PlaceOp(op: Operation, sorted: seq<Operation>): seq<Operation> {
    if sorted == [] || IdBelow(op.id, sorted[0].id) then [op] + sorted else [sorted[0]] + PlaceOp(op, sorted[1..])
  }

  lemma {:induction false} PlaceOpAscends(op: Operation, sorted: seq<Operation>)
    requires Ascend(sorted) && forall other | other in sorted :: other.id != op.id
    ensures Ascend(PlaceOp(op, sorted)) && forall x :: x in PlaceOp(op, sorted) <==> x == op || x in sorted
  {
    if sorted == [] {
    } else if IdBelow(op.id, sorted[0].id) {
      forall j | 0 <= j < |sorted| ensures IdBelow(op.id, sorted[j].id) {
        if j > 0 {
          IdTransitive(op.id, sorted[0].id, sorted[j].id);
        }
      }
    } else {
      assert sorted[0] in sorted;
      IdTotal(op.id, sorted[0].id);
      assert sorted == [sorted[0]] + sorted[1..];
      PlaceOpAscends(op, sorted[1..]);
      var tail := PlaceOp(op, sorted[1..]);
      forall j | 0 <= j < |tail| ensures IdBelow(sorted[0].id, tail[j].id) {
        assert tail[j] in tail;
      }
    }
  }

  lemma PlaceOpWrites(op: Operation, sorted: seq<Operation>)
    requires Ascend(sorted) && forall other | other in sorted :: other.id != op.id
    ensures forall id :: Writes(PlaceOp(op, sorted), id) <==> id == op.id || Writes(sorted, id)
  {
    PlaceOpAscends(op, sorted);
    var placed := PlaceOp(op, sorted);
    forall id ensures Writes(placed, id) <==> id == op.id || Writes(sorted, id) {
      if i :| 0 <= i < |placed| && placed[i].id == id {
        assert placed[i] in placed;
      }
      if id == op.id {
        assert op in placed;
      } else if i :| 0 <= i < |sorted| && sorted[i].id == id {
        assert sorted[i] in placed;
      }
    }
  }

  /** The operations found along one walk of the map, kept sorted by anime. */
  function Operations(byId: map<AnimeId, Record>, q: Placements, keys: seq<AnimeId>): seq<Operation> {
    if keys == [] then []
    else
      var id, rest := keys[|keys| - 1], Operations(byId, q, keys[..|keys| - 1]);
      if Changes(byId, q, id) then PlaceOp(OperationFor(byId, q, id), rest) else rest
  }

  lemma {:induction false} OperationsAre(byId: map<AnimeId, Record>, q: Placements, keys: seq<AnimeId>)
    requires Distinct(keys)
    ensures var ops := Operations(byId, q, keys);
            && Ascend(ops)
            && (forall op | op in ops :: op.id in keys && Changes(byId, q, op.id) && op == OperationFor(byId, q, op.id))
            && (forall id | id in keys && Changes(byId, q, id) :: Writes(ops, id))
  {
    if keys != [] {
      var init, id := keys[..|keys| - 1], keys[|keys| - 1];
      OperationsAre(byId, q, init);
      assert keys == init + [id] && id !in init;
      if Changes(byId, q, id) {
        PlaceOpAscends(OperationFor(byId, q, id), Operations(byId, q, init));
        PlaceOpWrites(OperationFor(byId, q, id), Operations(byId, q, init));
      }
    }
  }

  /** The operations over one arbitrary walk of the map, then sorted by anime. */
  method BuildScheduleOperations(byId: map<AnimeId, Record>, q: Placements) returns (ops: seq<Operation>)
    ensures Ascend(ops) && ExactlyChanges(ops, byId, q)
  {
    var keys := Walk(byId.Keys);
    ops := [];
    for i := 0 to |keys|
      invariant ops == Operations(byId, q, keys[..i])
    {
      var id := keys[i];
      assert id in byId.Keys && keys[..i + 1][..i] == keys[..i];
      if Get(q, id) != byId[id].days {
        ops := PlaceOp(OperationFor(byId, q, id), ops);
      }
    }
    assert keys[..|keys|] == keys;
    OperationsAre(byId, q, keys);
  }

  lemma FirstOpIsLeast(a: seq<Operation>, op: Operation)
    requires Ascend(a) && op in a
    ensures a[0] == op || IdBelow(a[0].id, op.id)
  {
  }

  lemma {:induction false} SortedOnce(a: seq<Operation>, b: seq<Operation>)
    requires Ascend(a) && Ascend(b) && forall op :: op in a <==> op in b
    ensures a == b
  {
    assert forall i | 0 <= i < |a| :: a[i] in b;
    assert forall i | 0 <= i < |b| :: b[i] in a;
    if a != [] && b != [] {
      assert a[0] in a && a[0] in b;
      assert b[0] in b && b[0] in a;
      FirstOpIsLeast(a, b[0]);
      FirstOpIsLeast(b, a[0]);
      IdTotal(a[0].id, b[0].id);
      assert a == [a[0]] + a[1..] && b == [b[0]] + b[1..];
      forall op ensures op in a[1..] <==> op in b[1..] {
        IdTotal(a[0].id, a[0].id);
        assert a[0] !in a[1..] && b[0] !in b[1..];
        assert op in a <==> op == a[0] || op in a[1..];
        assert op in b <==> op == b[0] || op in b[1..];
      }
      SortedOnce(a[1..], b[1..]);
    }
  }

  /** `ops` is the batch for the board `q`. */
  ghost predicate BatchFor(ops: seq<Operation>, records: seq<Record>, q: Placements) {
    Ascend(ops) && ExactlyChanges(ops, ById(records), q)
  }

  lemma BatchCovers(a: seq<Operation>, b: seq<Operation>, records: seq<Record>, q1: Placements, q2: Placements)
    requires BatchFor(a, records, q1) && BatchFor(b, records, q2)
    requires forall id | id in ById(records) :: Get(q1, id) == Get(q2, id)
    ensures forall op | op in a :: op in b
  {
    forall op | op in a ensures op in b {
      assert Changes(ById(records), q2, op.id);
      var i :| 0 <= i < |b| && b[i].id == op.id;
      assert b[i] in b;
    }
  }

  /** One board has one batch: it does not depend on the walk over the records. */
  lemma BatchDetermined(a: seq<Operation>, b: seq<Operation>, records: seq<Record>, q1: Placements, q2: Placements)
    requires BatchFor(a, records, q1) && BatchFor(b, records, q2)
    requires forall id | id in ById(records) :: Get(q1, id) == Get(q2, id)
    ensures a == b
  {
    BatchCovers(a, b, records, q1, q2);
    BatchCovers(b, a, records, q2, q1);
    SortedOnce(a, b);
  }

  lemma BatchExists(records: seq<Record>, q: Placements) returns (ops: seq<Operation>)
    ensures BatchFor(ops, records, q)
  {
    var keys := Enumeration(ById(records).Keys);
    OperationsAre(ById(records), q, keys);
    ops := Operations(ById(records), q, keys);
  }

  datatype Written = Written(id: AnimeId, days: seq<Day>, modifiedAt: int)

  /** The stamp of operation `i`: the clock plus its place, or past its own base when the clock is behind. */
  function Stamp(now: int, i: nat, base: int): (stamp: int)
    ensures stamp > base && stamp >= Min(now + i + 1, base + i + 1)
  {
    if now + i + 1 <= base then base + i + 1 else now + i + 1
  }

  function Stamped(ops: seq<Operation>, now: int): (writes: seq<Written>)
    ensures |writes| == |ops|
  {
    seq(|ops|, i requires 0 <= i < |ops| => Written(ops[i].id, ops[i].days, Stamp(now, i, ops[i].base)))
  }

  // ---------------------------------------------------------------- Apply

  datatype ApplyResult =
    | Invalid(error: DraftError)
    | BoardConflict
    | EntryConflict(entry: Entry)
    | NoOp
    | BaseChanged
    | Applied

  /** The board `q` changes no anime. */
  ghost predicate Leaves(records: seq<Record>, q: Placements) {
    forall id :: !Changes(ById(records), q, id)
  }

  /** Nobody else has written an anime that the board `q` changes. */
  ghost predicate StillCurrent(records: seq<Record>, q: Placements, stored: AnimeId -> int) {
    forall id | Changes(ById(records), q, id) :: stored(id) == ById(records)[id].modifiedAt
  }

  ghost predicate IsStamped(writes: seq<Written>, records: seq<Record>, q: Placements, now: int) {
    exists ops :: BatchFor(ops, records, q) && writes == Stamped(ops, now)
  }

  /** The outcome that the board `q` calls for. */
  ghost predicate Settles(result: ApplyResult, writes: seq<Written>, records: seq<Record>, q: Placements, now: int, stored: AnimeId -> int) {
    if Leaves(records, q) then result.NoOp?
    else if StillCurrent(records, q, stored) then result.Applied? && IsStamped(writes, records, q, now)
    else result.BaseChanged?
  }

  /** The draft is valid, made on the current board, and no entry of it is stale. */
  ghost predicate Passes(records: seq<Record>, token: int, entries: seq<Entry>) {
    && EntriesValid(ActiveIds(records), entries) && Accepted(records, entries)
    && token == BoardToken(records) && !AnyStale(ById(records), entries)
  }

  /** The transaction writes the whole batch, or nothing when some base is no longer the stored one. */
  method WriteBatch(ghost records: seq<Record>, ghost q: Placements, ops: seq<Operation>, now: int, stored: AnimeId -> int)
    returns (result: ApplyResult, writes: seq<Written>)
    requires BatchFor(ops, records, q) && ops != []
    ensures !Leaves(records, q) && Settles(result, writes, records, q, now, stored)
    ensures !result.Applied? ==> writes == []
    ensures result.Applied? ==> writes != []
  {
    assert ops[0] in ops;
    for i := 0 to |ops|
      invariant forall j | 0 <= j < i :: stored(ops[j].id) == ops[j].base
    {
      if stored(ops[i].id) != ops[i].base {
        assert ops[i] in ops;
        return BaseChanged, [];
      }
    }
    forall id | Changes(ById(records), q, id) ensures stored(id) == ById(records)[id].modifiedAt {
      var i :| 0 <= i < |ops| && ops[i].id == id;
      assert ops[i] in ops;
    }
    return Applied, Stamped(ops, now);
  }

  /** `stored` is each anime's modification time when the batch is written, which another writer may have moved. */
  method Apply(records: seq<Record>, token: int, entries: seq<Entry>, now: int, stored: AnimeId -> int)
    returns (result: ApplyResult, writes: seq<Written>)
    ensures !result.Applied? <==> writes == []
    ensures result.Invalid? <==> !(EntriesValid(ActiveIds(records), entries) && Accepted(records, entries))
    ensures result.BoardConflict? <==> !result.Invalid? && token != BoardToken(records)
    ensures result.EntryConflict? <==> !result.Invalid? && token == BoardToken(records) && AnyStale(ById(records), entries)
    ensures result.EntryConflict? ==> FirstStale(ById(records), entries, result.entry)
    ensures Passes(records, token, entries) && entries == [] ==> result.NoOp?
    ensures Passes(records, token, entries) && entries != [] ==>
              exists q :: Normalizes(q, records, entries) && Settles(result, writes, records, q, now, stored)
  {
    var err := ValidateScheduleDraft(records, entries);
    if err.Some? {
      return Invalid(err.value), [];
    }
    var board := CurrentBoardModifiedAt(records);
    if board != token {
      return BoardConflict, [];
    }
    var byId := ActiveScheduleRecordsById(records);
    ActiveAreIndexed(records);
    var stale := StaleScheduleEntry(byId, entries);
    if stale.Some? {
      return EntryConflict(stale.value), [];
    }
    if |entries| == 0 {
      return NoOp, [];
    }
    var q := NormalizedSchedulePlacements(records, entries);
    var ops := BuildScheduleOperations(byId, q);
    if |ops| == 0 {
      assert Leaves(records, q);
      return NoOp, [];
    }
    result, writes := WriteBatch(records, q, ops, now, stored);
  }

  // ---------------------------------------------------------------- the second editor

  ghost predicate UniqueIds(records: seq<Record>) {
    forall i, j | 0 <= i < j < |records| :: records[i].id != records[j].id
  }

  /** The records once the writes are in. */
  function Updated(r: Record, writes: seq<Written>): Record {
    if writes == [] then r
    else if writes[0].id == r.id then r.(days := writes[0].days, modifiedAt := writes[0].modifiedAt)
    else Updated(r, writes[1..])
  }

  function After(records: seq<Record>, writes: seq<Written>): (after: seq<Record>)
    ensures |after| == |records|
  {
    seq(|records|, i requires 0 <= i < |records| => Updated(records[i], writes))
  }

  ghost predicate Raises(records: seq<Record>, w: Written) {
    exists k | 0 <= k < |records| :: records[k].id == w.id && records[k].active == 1 && w.modifiedAt > records[k].modifiedAt
  }

  /** Writes of a batch: each to an active record, stamped past it, one per anime. */
  ghost predicate Batch(records: seq<Record>, writes: seq<Written>) {
    && (forall i, j | 0 <= i < j < |writes| :: writes[i].id != writes[j].id)
    && (forall i | 0 <= i < |writes| :: Raises(records, writes[i]))
  }

  /** What Apply writes is such a batch. */
  lemma AppliedIsBatch(records: seq<Record>, q: Placements, ops: seq<Operation>, now: int)
    requires ExactlyChanges(ops, ById(records), q) && Ascend(ops)
    ensures Batch(records, Stamped(ops, now))
  {
    ActiveAreIndexed(records);
    var writes := Stamped(ops, now);
    forall i, j | 0 <= i < j < |writes| ensures writes[i].id != writes[j].id {
      IdTotal(ops[i].id, ops[i].id);
      assert IdBelow(ops[i].id, ops[j].id);
    }
    forall i | 0 <= i < |writes|
      ensures Raises(records, writes[i])
    {
      assert ops[i] in ops;
      var r := ById(records)[ops[i].id];
      var k :| 0 <= k < |records| && records[k] == r;
      assert writes[i].modifiedAt > records[k].modifiedAt;
    }
  }

  lemma {:induction false} UpdatedCases(r: Record, writes: seq<Written>)
    ensures Updated(r, writes).id == r.id && Updated(r, writes).active == r.active
    ensures Updated(r, writes) == r || exists i | 0 <= i < |writes| :: writes[i].id == r.id && Updated(r, writes).modifiedAt == writes[i].modifiedAt
    ensures (exists i | 0 <= i < |writes| :: writes[i].id == r.id) ==>
              exists i | 0 <= i < |writes| :: writes[i].id == r.id && Updated(r, writes).modifiedAt == writes[i].modifiedAt
  {
    if writes != [] && writes[0].id != r.id {
      UpdatedCases(r, writes[1..]);
      assert forall i | 0 < i < |writes| :: writes[i] == writes[1..][i - 1];
    }
  }

  lemma TokenMovesWithWrites(records: seq<Record>, writes: seq<Written>)
    requires UniqueIds(records) && Batch(records, writes)
    ensures BoardToken(After(records, writes)) != BoardToken(records) <==>
            exists i | 0 <= i < |writes| :: writes[i].modifiedAt > BoardToken(records)
  {
    var after, token := After(records, writes), BoardToken(records);
    forall k | 0 <= k < |records| ensures after[k].active == records[k].active && after[k].modifiedAt >= records[k].modifiedAt {
      OnlyRaised(records, writes, k);
    }
    if i :| 0 <= i < |writes| && writes[i].modifiedAt > token {
      var k :| 0 <= k < |records| && records[k].id == writes[i].id && records[k].active == 1;
      UpdatedCases(records[k], writes);
      assert after[k].modifiedAt == writes[i].modifiedAt;
    } else {
      forall k | 0 <= k < |records| && after[k].active == 1 ensures after[k].modifiedAt <= token {
        UpdatedCases(records[k], writes);
      }
      if token != 0 {
        var k :| 0 <= k < |records| && records[k].active == 1 && records[k].modifiedAt == token;
        assert after[k].modifiedAt == token;
      }
    }
  }

  lemma OnlyRaised(records: seq<Record>, writes: seq<Written>, k: nat)
    requires UniqueIds(records) && Batch(records, writes) && k < |records|
    ensures Updated(records[k], writes).active == records[k].active
    ensures Updated(records[k], writes).modifiedAt >= records[k].modifiedAt
  {
    UpdatedCases(records[k], writes);
    if Updated(records[k], writes) != records[k] {
      var i :| 0 <= i < |writes| && writes[i].id == records[k].id && Updated(records[k], writes).modifiedAt == writes[i].modifiedAt;
      var m :| 0 <= m < |records| && records[m].id == writes[i].id && writes[i].modifiedAt > records[m].modifiedAt;
      assert m == k;
    }
  }

  /** A base is the modification time of an active record, so the token is at or past it. */
  lemma BasesBelowToken(records: seq<Record>, q: Placements, ops: seq<Operation>, i: nat)
    requires BatchFor(ops, records, q) && i < |ops|
    ensures ops[i].base <= BoardToken(records)
  {
    ActiveAreIndexed(records);
    assert ops[i] in ops;
    var r := ById(records)[ops[i].id];
    var k :| 0 <= k < |records| && records[k] == r;
  }

  /** The clock ends up past the token, or some base is behind the token by no more than its place in the batch
      while the clock is behind that base. */
  predicate StampsPass(token: int, ops: seq<Operation>, now: int) {
    || (ops != [] && now + |ops| > token)
    || exists i | 0 <= i < |ops| :: now + i + 1 <= ops[i].base && ops[i].base + i + 1 > token
  }

  /** A second editor's token is found out of date exactly when the clock, or a changed anime's own base, carries
      some stamp past it. With the clock behind and only older cards changed, the token does not move. */
  lemma TokenMovesExactly(records: seq<Record>, q: Placements, ops: seq<Operation>, now: int)
    requires UniqueIds(records) && BatchFor(ops, records, q)
    ensures BoardToken(After(records, Stamped(ops, now))) != BoardToken(records) <==> StampsPass(BoardToken(records), ops, now)
  {
    var writes, token := Stamped(ops, now), BoardToken(records);
    AppliedIsBatch(records, q, ops, now);
    TokenMovesWithWrites(records, writes);
    if i :| 0 <= i < |writes| && writes[i].modifiedAt > token {
      assert writes[i].modifiedAt == Stamp(now, i, ops[i].base);
    }
    if ops != [] && now + |ops| > token {
      BasesBelowToken(records, q, ops, |ops| - 1);
      assert writes[|ops| - 1].modifiedAt > token;
    } else if i :| 0 <= i < |ops| && now + i + 1 <= ops[i].base && ops[i].base + i + 1 > token {
      assert writes[i].modifiedAt > token;
    }
  }

  /** The token never moves back, and a clock at or past it makes any batch move it. */
  lemma ClockAheadMovesToken(records: seq<Record>, q: Placements, ops: seq<Operation>, now: int)
    requires UniqueIds(records) && BatchFor(ops, records, q)
    ensures BoardToken(After(records, Stamped(ops, now))) >= BoardToken(records)
    ensures ops != [] && now >= BoardToken(records) ==> BoardToken(After(records, Stamped(ops, now))) > BoardToken(records)
  {
    var writes, token := Stamped(ops, now), BoardToken(records);
    AppliedIsBatch(records, q, ops, now);
    TokenMovesExactly(records, q, ops, now);
    if token != 0 {
      var k :| 0 <= k < |records| && records[k].active == 1 && records[k].modifiedAt == token;
      OnlyRaised(records, writes, k);
      assert After(records, writes)[k] == Updated(records[k], writes);
    }
  }
}
