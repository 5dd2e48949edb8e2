/** The board-level theorems: what a draft does to every queue, and when the final check accepts it
    (internal/anime/schedule_service_normalization.go and schedule_service_validation.go). */
module ScheduleDraft {
  import opened Basics
  import opened ScheduleOrder
  import opened ScheduleBoard

  /** A stored anime, as far as the board looks at it. */
  datatype Record = Record(id: AnimeId, active: int, days: seq<Day>, modifiedAt: int)

  /** One moved card of a draft. */
  datatype Entry = Entry(animeId: AnimeId, baseModifiedAt: int, placements: seq<Day>)

  // ---------------------------------------------------------------- the board a draft asks for

  function FromRecords(records: seq<Record>): Placements {
    if records == [] then map[]
    else
      var rest, r := FromRecords(records[..|records| - 1]), records[|records| - 1];
      if r.active != 1 then rest else rest[r.id := r.days]
  }

  /** desiredSchedulePlacements: the active records, overlaid with the draft. */
  function Desired(records: seq<Record>, entries: seq<Entry>): Placements {
    if entries == [] then FromRecords(records)
    else
      var last := entries[|entries| - 1];
      Desired(records, entries[..|entries| - 1])[last.animeId := last.placements]
  }

  function EntryIds(entries: seq<Entry>): set<AnimeId> {
    set e | e in entries :: e.animeId
  }

  function Submitted(entries: seq<Entry>): set<string> {
    set e, x | e in entries && x in e.placements :: x.day
  }

  /** Both sides of every move. */
  ghost function Affected(records: seq<Record>, entries: seq<Entry>): set<string> {
    (set e, x | e in entries && x in e.placements && x.day in DESTINATIONS :: x.day)
    + (set r, x | r in records && r.active == 1 && r.id in EntryIds(entries) && x in r.days && x.day in DESTINATIONS :: x.day)
  }

  /** destinationNeedsReflow, over the positions found by walking the animes in the order `keys`. */
  ghost predicate NeedsReflow(p: Placements, entries: seq<Entry>, keys: seq<AnimeId>, d: string) {
    d !in Submitted(entries) || !Distinct(Positions(p, keys, d))
  }

  ghost function Reflow(records: seq<Record>, entries: seq<Entry>, keys: seq<AnimeId>): set<string> {
    set d | d in Affected(records, entries) && NeedsReflow(Desired(records, entries), entries, keys, d)
  }

  function DraftQueues(p: Placements, keys: seq<AnimeId>, changed: set<AnimeId>, reflow: set<string>): map<string, seq<Ref>> {
    map d | d in reflow :: MergeQueue(Gather(p, keys, d), changed)
  }

  /** `q` is what a draft materializes when Go happens to walk the animes as `keys` and the queues as `ds`. */
  ghost predicate Materializes(q: Placements, records: seq<Record>, entries: seq<Entry>, keys: seq<AnimeId>, ds: seq<string>) {
    var p, reflow := Desired(records, entries), Reflow(records, entries, keys);
    && Enumerates(keys, p.Keys) && Enumerates(ds, reflow)
    && (forall id {:trigger Rebuilt(p, reflow, ds, DraftQueues(p, keys, EntryIds(entries), reflow), id)} ::
          Get(q, id) == Rebuilt(p, reflow, ds, DraftQueues(p, keys, EntryIds(entries), reflow), id))
    && (forall id | id in q :: q[id] != [])
  }

  /** `q` is the draft's board, for some walks of the maps; they agree up to list order (DraftConfluent). */
  ghost predicate Normalizes(q: Placements, records: seq<Record>, entries: seq<Entry>) {
    exists keys, ds :: Materializes(q, records, entries, keys, ds)
  }

  // ---------------------------------------------------------------- confluence

  lemma {:induction false} DistinctByCount(a: seq<int>)
    ensures Distinct(a) <==> forall k :: multiset(a)[k] <= 1
  {
    if a != [] {
      var x, rest := a[0], a[1..];
      DistinctByCount(rest);
      assert a == [x] + rest;
      assert forall k :: multiset(a)[k] == multiset(rest)[k] + (if k == x then 1 else 0);
      assert multiset(a)[x] <= 1 <==> x !in multiset(rest);
    }
  }

  lemma ReflowConfluent(records: seq<Record>, entries: seq<Entry>, keys1: seq<AnimeId>, keys2: seq<AnimeId>)
    requires Enumerates(keys1, Desired(records, entries).Keys) && Enumerates(keys2, Desired(records, entries).Keys)
    ensures Reflow(records, entries, keys1) == Reflow(records, entries, keys2)
  {
    var p := Desired(records, entries);
    forall d ensures NeedsReflow(p, entries, keys1, d) <==> NeedsReflow(p, entries, keys2, d) {
      PositionsConfluent(p, keys1, keys2, d);
      DistinctByCount(Positions(p, keys1, d));
      DistinctByCount(Positions(p, keys2, d));
    }
  }

  lemma DraftQueuesConfluent(p: Placements, keys1: seq<AnimeId>, keys2: seq<AnimeId>, changed: set<AnimeId>, reflow: set<string>)
    requires Enumerates(keys1, p.Keys) && Enumerates(keys2, p.Keys)
    ensures DraftQueues(p, keys1, changed, reflow) == DraftQueues(p, keys2, changed, reflow)
  {
    forall d | d in reflow
      ensures MergeQueue(Gather(p, keys1, d), changed) == MergeQueue(Gather(p, keys2, d), changed)
    {
      GatherConfluent(p, keys1, keys2, d);
      MergeConfluent(Gather(p, keys1, d), Gather(p, keys2, d), changed);
    }
  }

  /** A draft gives every anime the same cards on every day, whatever order Go walks its maps in: only the order
      of days inside an anime's own list may differ. */
  lemma DraftConfluent(q1: Placements, q2: Placements, records: seq<Record>, entries: seq<Entry>,
                       keys1: seq<AnimeId>, keys2: seq<AnimeId>, ds1: seq<string>, ds2: seq<string>, id: AnimeId)
    requires Materializes(q1, records, entries, keys1, ds1) && Materializes(q2, records, entries, keys2, ds2)
    ensures forall d :: OnDay(Get(q1, id), d) == OnDay(Get(q2, id), d)
    ensures multiset(Get(q1, id)) == multiset(Get(q2, id))
    ensures id in q1 <==> id in q2
  {
    var p, reflow, changed := Desired(records, entries), Reflow(records, entries, keys1), EntryIds(entries);
    ReflowConfluent(records, entries, keys1, keys2);
    DraftQueuesConfluent(p, keys1, keys2, changed, reflow);
    forall d ensures OnDay(Get(q1, id), d) == OnDay(Get(q2, id), d) {
      RebuiltOnDay(p, reflow, ds1, DraftQueues(p, keys1, changed, reflow), id, d);
      RebuiltOnDay(p, reflow, ds2, DraftQueues(p, keys2, changed, reflow), id, d);
    }
    SameDaysSamePlacements(Get(q1, id), Get(q2, id));
    assert |multiset(Get(q1, id))| == |multiset(Get(q2, id))|;
    assert id in q1 <==> |Get(q1, id)| > 0;
    assert id in q2 <==> |Get(q2, id)| > 0;
  }

  // ---------------------------------------------------------------- frame and conservation

  lemma DraftQueuesAreQueues(p: Placements, keys: seq<AnimeId>, changed: set<AnimeId>, reflow: set<string>)
    ensures QueuesOf(p, keys, DraftQueues(p, keys, changed, reflow))
  {
    forall d | d in reflow ensures multiset(MergeQueue(Gather(p, keys, d), changed)) == multiset(Gather(p, keys, d)) {
      MergePermutes(Gather(p, keys, d), changed);
    }
  }

  /** A draft moves no card between days and loses none; a day outside the reflow set keeps its very list. */
  lemma DraftConserves(q: Placements, records: seq<Record>, entries: seq<Entry>, keys: seq<AnimeId>, ds: seq<string>, id: AnimeId, d: string)
    requires Materializes(q, records, entries, keys, ds)
    ensures |OnDay(Get(q, id), d)| == |OnDay(Get(Desired(records, entries), id), d)|
    ensures d !in Reflow(records, entries, keys) ==> OnDay(Get(q, id), d) == OnDay(Get(Desired(records, entries), id), d)
  {
    var p, reflow, changed := Desired(records, entries), Reflow(records, entries, keys), EntryIds(entries);
    var queues := DraftQueues(p, keys, changed, reflow);
    DraftQueuesAreQueues(p, keys, changed, reflow);
    RebuildConserves(p, keys, reflow, ds, queues, id, d);
    RebuiltOnDay(p, reflow, ds, queues, id, d);
  }

  /** The board that the walks `keys` and `ds` give. */
  ghost function Board(records: seq<Record>, entries: seq<Entry>, keys: seq<AnimeId>, ds: seq<string>): Placements {
    var p, reflow := Desired(records, entries), Reflow(records, entries, keys);
    var queues := DraftQueues(p, keys, EntryIds(entries), reflow);
    map id | id in p.Keys && Rebuilt(p, reflow, ds, queues, id) != [] :: Rebuilt(p, reflow, ds, queues, id)
  }

  lemma NoDaysNoCards(days: seq<Day>)
    requires forall d :: OnDay(days, d) == []
    ensures days == []
  {
    if days != [] {
      OnDayMembers(days, days[0].day, days[0]);
    }
  }

  lemma NothingForAbsent(p: Placements, keys: seq<AnimeId>, changed: set<AnimeId>, reflow: set<string>, ds: seq<string>, id: AnimeId)
    requires Enumerates(keys, p.Keys) && Enumerates(ds, reflow) && id !in p
    ensures Rebuilt(p, reflow, ds, DraftQueues(p, keys, changed, reflow), id) == []
  {
    var queues := DraftQueues(p, keys, changed, reflow);
    DraftQueuesAreQueues(p, keys, changed, reflow);
    forall d ensures OnDay(Rebuilt(p, reflow, ds, queues, id), d) == [] {
      RebuildConserves(p, keys, reflow, ds, queues, id, d);
    }
    NoDaysNoCards(Rebuilt(p, reflow, ds, queues, id));
  }

  /** Every pair of walks gives a board. */
  lemma BoardMaterializes(records: seq<Record>, entries: seq<Entry>, keys: seq<AnimeId>, ds: seq<string>)
    requires Enumerates(keys, Desired(records, entries).Keys) && Enumerates(ds, Reflow(records, entries, keys))
    ensures Materializes(Board(records, entries, keys, ds), records, entries, keys, ds)
  {
    var p, reflow, changed := Desired(records, entries), Reflow(records, entries, keys), EntryIds(entries);
    forall id | id !in p ensures Rebuilt(p, reflow, ds, DraftQueues(p, keys, changed, reflow), id) == [] {
      NothingForAbsent(p, keys, changed, reflow, ds, id);
    }
  }

  // ---------------------------------------------------------------- positions after a draft

  /** The queue a reflowed day is numbered by. */
  ghost function QueueOf(records: seq<Record>, entries: seq<Entry>, keys: seq<AnimeId>, d: string): seq<Ref> {
    MergeQueue(Gather(Desired(records, entries), keys, d), EntryIds(entries))
  }

  lemma ReflowedIsNumbered(q: Placements, records: seq<Record>, entries: seq<Entry>, keys: seq<AnimeId>, ds: seq<string>, d: string)
    requires Materializes(q, records, entries, keys, ds) && d in Reflow(records, entries, keys)
    ensures NumberedBy(q, d, QueueOf(records, entries, keys, d))
  {
    var p, reflow, changed := Desired(records, entries), Reflow(records, entries, keys), EntryIds(entries);
    forall id ensures OnDay(Get(q, id), d) == Numbered(id, d, QueueOf(records, entries, keys, d), 0) {
      RebuiltOnDay(p, reflow, ds, DraftQueues(p, keys, changed, reflow), id, d);
    }
  }

  /** On the board `q`, walked in any order, a reflowed day is numbered 1 to n without gap or repeat. */
  lemma ReflowedIsContiguous(q: Placements, records: seq<Record>, entries: seq<Entry>, keys: seq<AnimeId>, ds: seq<string>,
                             walk: seq<AnimeId>, d: string)
    requires Materializes(q, records, entries, keys, ds) && Enumerates(walk, q.Keys) && d in Reflow(records, entries, keys)
    ensures multiset(Positions(q, walk, d)) == multiset(OneTo(|Gather(Desired(records, entries), keys, d)|))
    ensures Contiguous(Positions(q, walk, d))
  {
    ReflowedIsNumbered(q, records, entries, keys, ds, d);
    NumberedWalk(q, d, QueueOf(records, entries, keys, d), walk);
    MergeLength(Gather(Desired(records, entries), keys, d), EntryIds(entries));
  }

  /** A day left alone has the positions it had. */
  lemma UntouchedPositions(q: Placements, records: seq<Record>, entries: seq<Entry>, keys: seq<AnimeId>, ds: seq<string>,
                           walk: seq<AnimeId>, d: string)
    requires Materializes(q, records, entries, keys, ds) && Enumerates(walk, q.Keys) && d !in Reflow(records, entries, keys)
    ensures multiset(Positions(q, walk, d)) == multiset(Positions(Desired(records, entries), keys, d))
  {
    var p := Desired(records, entries);
    forall id ensures OnDay(Get(q, id), d) == OnDay(Get(p, id), d) {
      DraftConserves(q, records, entries, keys, ds, id, d);
    }
    SamePositions(p, q, keys, d);
    forall id | id in walk && id !in keys ensures OrdersFn(q, d)(id) == [] {
      assert OnDay(Get(p, id), d) == [];
    }
    forall id | id in keys && id !in walk ensures OrdersFn(q, d)(id) == [] {
      assert id !in q;
    }
    FlatPermutes(walk, keys, OrdersFn(q, d));
  }

  /** validateAffectedScheduleDestinations passes. */
  ghost predicate AffectedContiguous(q: Placements, walk: seq<AnimeId>, affected: set<string>) {
    forall d | d in affected :: Contiguous(Positions(q, walk, d))
  }

  lemma ContiguousByCount(a: seq<int>, b: seq<int>)
    requires multiset(a) == multiset(b)
    ensures Contiguous(a) <==> Contiguous(b)
  {
    SameSize(a, b);
  }

  /** Every affected day that the draft submits to, and that has no two cards on one position, is contiguous
      as asked for. */
  ghost predicate AcceptedAsAsked(records: seq<Record>, entries: seq<Entry>, keys: seq<AnimeId>) {
    var p := Desired(records, entries);
    forall d | d in Affected(records, entries) && d in Submitted(entries) && Distinct(Positions(p, keys, d)) ::
      Contiguous(Positions(p, keys, d))
  }

  /** Exactly when the final check accepts a draft: any other day is reflowed, and then always contiguous. */
  lemma FinalCheckExactly(q: Placements, records: seq<Record>, entries: seq<Entry>, keys: seq<AnimeId>, ds: seq<string>, walk: seq<AnimeId>)
    requires Materializes(q, records, entries, keys, ds) && Enumerates(walk, q.Keys)
    ensures AffectedContiguous(q, walk, Affected(records, entries)) <==> AcceptedAsAsked(records, entries, keys)
  {
    var p, affected := Desired(records, entries), Affected(records, entries);
    forall d | d in affected
      ensures Contiguous(Positions(q, walk, d)) <==> (NeedsReflow(p, entries, keys, d) || Contiguous(Positions(p, keys, d)))
    {
      if d in Reflow(records, entries, keys) {
        ReflowedIsContiguous(q, records, entries, keys, ds, walk, d);
      } else {
        UntouchedPositions(q, records, entries, keys, ds, walk, d);
        ContiguousByCount(Positions(q, walk, d), Positions(p, keys, d));
      }
    }
  }

  /** The draft is accepted as asked, whatever order the animes are walked in. */
  ghost predicate Accepted(records: seq<Record>, entries: seq<Entry>) {
    forall keys | Enumerates(keys, Desired(records, entries).Keys) :: AcceptedAsAsked(records, entries, keys)
  }

  lemma AcceptedOnAnyWalk(records: seq<Record>, entries: seq<Entry>, keys: seq<AnimeId>)
    requires Enumerates(keys, Desired(records, entries).Keys)
    ensures Accepted(records, entries) <==> AcceptedAsAsked(records, entries, keys)
  {
    var p := Desired(records, entries);
    forall other, d | Enumerates(other, p.Keys)
      ensures Distinct(Positions(p, other, d)) <==> Distinct(Positions(p, keys, d))
      ensures Contiguous(Positions(p, other, d)) <==> Contiguous(Positions(p, keys, d))
    {
      PositionsConfluent(p, other, keys, d);
      DistinctByCount(Positions(p, other, d));
      DistinctByCount(Positions(p, keys, d));
      ContiguousByCount(Positions(p, other, d), Positions(p, keys, d));
    }
  }

  /** The affected days of a board are contiguous, whatever order the animes are walked in. */
  ghost predicate AllContiguous(q: Placements, affected: set<string>) {
    forall walk | Enumerates(walk, q.Keys) :: AffectedContiguous(q, walk, affected)
  }

  lemma ContiguousOnAnyWalk(q: Placements, walk: seq<AnimeId>, affected: set<string>)
    requires Enumerates(walk, q.Keys)
    ensures AllContiguous(q, affected) <==> AffectedContiguous(q, walk, affected)
  {
    forall other, d | Enumerates(other, q.Keys)
      ensures Contiguous(Positions(q, other, d)) <==> Contiguous(Positions(q, walk, d))
    {
      PositionsConfluent(q, other, walk, d);
      ContiguousByCount(Positions(q, other, d), Positions(q, walk, d));
    }
  }

  // ---------------------------------------------------------------- where the moved cards land

  /** Every placement the draft submits, entry after entry. */
  function Submissions(entries: seq<Entry>): seq<Day> {
    if entries == [] then [] else Submissions(entries[..|entries| - 1]) + entries[|entries| - 1].placements
  }

  /** What the per-entry checks establish: active animes, named once, on known days and positive orders, and no
      (day, order) pair submitted twice. */
  ghost predicate EntriesValid(active: set<AnimeId>, entries: seq<Entry>) {
    && (forall i | 0 <= i < |entries| :: entries[i].animeId in active)
    && (forall i, j | 0 <= i < j < |entries| :: entries[i].animeId != entries[j].animeId)
    && (forall x | x in Submissions(entries) :: x.day in DESTINATIONS && x.order > 0)
    && Distinct(Submissions(entries))
  }

  lemma {:induction false} SubmissionAt(entries: seq<Entry>, i: nat, k: nat)
    requires i < |entries| && k < |entries[i].placements|
    ensures var at := |Submissions(entries[..i])| + k;
            at < |Submissions(entries)| && Submissions(entries)[at] == entries[i].placements[k]
            && |Submissions(entries[..i])| + |entries[i].placements| <= |Submissions(entries)|
  {
    var n := |entries| - 1;
    if i < n {
      SubmissionAt(entries[..n], i, k);
      assert entries[..n][..i] == entries[..i];
    }
  }

  lemma {:induction false} SubmissionsNested(entries: seq<Entry>, i: nat, j: nat)
    requires i < j <= |entries|
    ensures |Submissions(entries[..i])| + |entries[i].placements| <= |Submissions(entries[..j])|
  {
    assert entries[..j][..j - 1] == entries[..j - 1];
    if i < j - 1 {
      SubmissionsNested(entries, i, j - 1);
    }
  }

  lemma SubmittedOnce(entries: seq<Entry>, i: nat, k: nat, j: nat, l: nat)
    requires Distinct(Submissions(entries)) && i <= j < |entries|
    requires k < |entries[i].placements| && l < |entries[j].placements| && entries[i].placements[k] == entries[j].placements[l]
    ensures i == j && k == l
  {
    SubmissionAt(entries, i, k);
    SubmissionAt(entries, j, l);
    if i < j {
      SubmissionsNested(entries, i, j);
    }
  }

  lemma {:induction false} DesiredOfEntry(records: seq<Record>, entries: seq<Entry>, i: nat)
    requires i < |entries| && forall a, b | 0 <= a < b < |entries| :: entries[a].animeId != entries[b].animeId
    ensures entries[i].animeId in Desired(records, entries)
    ensures Desired(records, entries)[entries[i].animeId] == entries[i].placements
  {
    if i < |entries| - 1 {
      DesiredOfEntry(records, entries[..|entries| - 1], i);
    }
  }

  /** A moved card of the queue is a submitted placement. */
  lemma MovedIsSubmitted(active: set<AnimeId>, records: seq<Record>, entries: seq<Entry>, keys: seq<AnimeId>, d: string, r: Ref)
    returns (i: nat)
    requires EntriesValid(active, entries)
    requires r in Moved(Gather(Desired(records, entries), keys, d), EntryIds(entries))
    ensures i < |entries| && entries[i].animeId == r.animeId
    ensures r.index < |entries[i].placements| && entries[i].placements[r.index] == Day(d, r.order) && r.order >= 1
  {
    var p := Desired(records, entries);
    PartitionMembers(Gather(p, keys, d), EntryIds(entries));
    GatherMembers(p, keys, d, r);
    var e :| e in entries && e.animeId == r.animeId;
    i :| 0 <= i < |entries| && entries[i] == e;
    DesiredOfEntry(records, entries, i);
    SubmissionAt(entries, i, r.index);
    assert Day(d, r.order) in Submissions(entries);
  }

  lemma MovedOrdersDistinct(active: set<AnimeId>, records: seq<Record>, entries: seq<Entry>, keys: seq<AnimeId>, d: string)
    requires EntriesValid(active, entries) && Distinct(keys)
    ensures IndexesAscend(Gather(Desired(records, entries), keys, d))
    ensures DistinctPositiveOrders(Moved(Gather(Desired(records, entries), keys, d), EntryIds(entries)))
  {
    var refs := Gather(Desired(records, entries), keys, d);
    var moved := Moved(refs, EntryIds(entries));
    GatherAscends(Desired(records, entries), keys, d);
    PartitionIndexesAscend(refs, EntryIds(entries));
    forall r | r in moved ensures r.order >= 1 {
      var i := MovedIsSubmitted(active, records, entries, keys, d, r);
    }
    forall a, b | 0 <= a < b < |moved| ensures moved[a].order != moved[b].order {
      var i := MovedIsSubmitted(active, records, entries, keys, d, moved[a]);
      var j := MovedIsSubmitted(active, records, entries, keys, d, moved[b]);
      if moved[a].order == moved[b].order {
        if i <= j { SubmittedOnce(entries, i, moved[a].index, j, moved[b].index); }
        else { SubmittedOnce(entries, j, moved[b].index, i, moved[a].index); }
      }
    }
  }

  lemma MovedAscend(active: set<AnimeId>, records: seq<Record>, entries: seq<Entry>, keys: seq<AnimeId>, d: string)
    requires EntriesValid(active, entries) && Distinct(keys)
    ensures AscendFromOne(StableSort(Moved(Gather(Desired(records, entries), keys, d), EntryIds(entries))))
  {
    MovedOrdersDistinct(active, records, entries, keys, d);
    MovedOrdersAscend(Gather(Desired(records, entries), keys, d), EntryIds(entries));
  }

  /** The board has the i-th card of `moved` (from 0) on day `d` at position min(its order, count + i + 1). */
  ghost predicate LandAt(q: Placements, d: string, moved: seq<Ref>, count: nat) {
    forall i | 0 <= i < |moved| :: Day(d, Min(moved[i].order, count + i + 1)) in Get(q, moved[i].animeId)
  }

  /** The i-th moved card (from 0, by ascending requested order) stands at position
      min(requested order, number of unchanged cards + i + 1). */
  ghost predicate MovedLand(q: Placements, d: string, refs: seq<Ref>, changed: set<AnimeId>) {
    AscendFromOne(StableSort(Moved(refs, changed))) && LandAt(q, d, StableSort(Moved(refs, changed)), |Unmoved(refs, changed)|)
  }

  lemma StandingLand(q: Placements, d: string, queue: seq<Ref>, moved: seq<Ref>, count: nat)
    requires NumberedBy(q, d, queue) && StandAt(queue, moved, count)
    ensures LandAt(q, d, moved, count)
  {
    forall i | 0 <= i < |moved| ensures Day(d, Min(moved[i].order, count + i + 1)) in Get(q, moved[i].animeId) {
      NumberedOwner(q, d, queue, Min(moved[i].order - 1, count + i));
    }
  }

  /** Where a valid draft puts its cards on every reflowed day. */
  lemma MovedCardsLand(q: Placements, active: set<AnimeId>, records: seq<Record>, entries: seq<Entry>,
                       keys: seq<AnimeId>, ds: seq<string>, d: string)
    requires Materializes(q, records, entries, keys, ds) && EntriesValid(active, entries) && d in Reflow(records, entries, keys)
    ensures MovedLand(q, d, Gather(Desired(records, entries), keys, d), EntryIds(entries))
  {
    MovedAscend(active, records, entries, keys, d);
    ReflowedIsNumbered(q, records, entries, keys, ds, d);
    var refs := Gather(Desired(records, entries), keys, d);
    MergePositions(refs, EntryIds(entries));
    StandingLand(q, d, QueueOf(records, entries, keys, d), StableSort(Moved(refs, EntryIds(entries))), |Unmoved(refs, EntryIds(entries))|);
  }

  /** The cards that were not moved keep their relative order: reading the numbered day from 1 to n and dropping
      the moved cards leaves the unchanged ones sorted as they were. */
  lemma UnchangedKeepTheirOrder(q: Placements, records: seq<Record>, entries: seq<Entry>, keys: seq<AnimeId>, ds: seq<string>, d: string)
    requires Materializes(q, records, entries, keys, ds) && d in Reflow(records, entries, keys)
    ensures var queue := QueueOf(records, entries, keys, d);
            var refs := Gather(Desired(records, entries), keys, d);
            && (forall k | 0 <= k < |queue| :: Day(d, k + 1) in Get(q, queue[k].animeId))
            && Unmoved(queue, EntryIds(entries)) == StableSort(Unmoved(refs, EntryIds(entries)))
            && InOrder(StableSort(Unmoved(refs, EntryIds(entries))))
  {
    GatherAscends(Desired(records, entries), keys, d);
    MergeKeepsTheRest(Gather(Desired(records, entries), keys, d), EntryIds(entries));
    ReflowedIsNumbered(q, records, entries, keys, ds, d);
    forall k | 0 <= k < |QueueOf(records, entries, keys, d)|
      ensures Day(d, k + 1) in Get(q, QueueOf(records, entries, keys, d)[k].animeId)
    {
      NumberedOwner(q, d, QueueOf(records, entries, keys, d), k);
    }
  }
}
