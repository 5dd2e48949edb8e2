/** Whose cards stand on the board a draft asks for, and what an accepted and applied draft leaves behind
    (internal/anime/schedule_service_normalization.go:10-23, 154-183; schedule_service.go:55-99), said of the records
    and the entries themselves. */
module ScheduleOverlay {
  import opened Basics
  import opened ScheduleOrder
  import opened ScheduleBoard
  import opened ScheduleDraft
  import opened ScheduleMethods
  import opened ScheduleApply
  import opened ScheduleWalks

  // ---------------------------------------------------------------- the records and entries that count

  /** Record `k` is the one that counts for its anime: active, and no later active record has its id. */
  ghost predicate Counts(records: seq<Record>, k: int) {
    && 0 <= k < |records| && records[k].active == 1
    && forall j | k < j < |records| && records[j].active == 1 :: records[j].id != records[k].id
  }

  /** Entry `i` is the last one submitted for its anime. */
  ghost predicate LastEntry(entries: seq<Entry>, i: int) {
    && 0 <= i < |entries|
    && forall j | i < j < |entries| :: entries[j].animeId != entries[i].animeId
  }

  predicate IsActive(records: seq<Record>, id: AnimeId) {
    exists k | 0 <= k < |records| :: records[k].active == 1 && records[k].id == id
  }

  predicate IsSubmitted(entries: seq<Entry>, id: AnimeId) {
    exists i | 0 <= i < |entries| :: entries[i].animeId == id
  }

  lemma CountsBefore(records: seq<Record>, k: nat)
    requires Counts(records, k) && k < |records| - 1
    ensures Counts(records[..|records| - 1], k)
  {
  }

  lemma {:induction false} FromRecordsHolds(records: seq<Record>, id: AnimeId)
    ensures id in FromRecords(records) <==> IsActive(records, id)
    ensures id in ById(records) <==> IsActive(records, id)
  {
    if records != [] {
      var init := records[..|records| - 1];
      FromRecordsHolds(init, id);
      if k :| 0 <= k < |records| && records[k].active == 1 && records[k].id == id {
        assert k < |init| ==> init[k] == records[k];
      }
      if k :| 0 <= k < |init| && init[k].active == 1 && init[k].id == id {
        assert records[k] == init[k];
      }
    }
  }

  lemma {:induction false} FromRecordsOf(records: seq<Record>, k: nat)
    requires Counts(records, k)
    ensures records[k].id in FromRecords(records) && FromRecords(records)[records[k].id] == records[k].days
    ensures records[k].id in ById(records) && ById(records)[records[k].id] == records[k]
  {
    if k < |records| - 1 {
      CountsBefore(records, k);
      FromRecordsOf(records[..|records| - 1], k);
      assert records[..|records| - 1][k] == records[k];
    }
  }

  lemma {:induction false} OverlayHolds(records: seq<Record>, entries: seq<Entry>, id: AnimeId)
    ensures id in Desired(records, entries) <==> IsActive(records, id) || IsSubmitted(entries, id)
    ensures !IsSubmitted(entries, id) ==> Get(Desired(records, entries), id) == Get(FromRecords(records), id)
  {
    if entries == [] {
      FromRecordsHolds(records, id);
    } else {
      var init := entries[..|entries| - 1];
      OverlayHolds(records, init, id);
      if i :| 0 <= i < |entries| && entries[i].animeId == id {
        assert i < |init| ==> init[i] == entries[i];
      }
      if i :| 0 <= i < |init| && init[i].animeId == id {
        assert entries[i] == init[i];
      }
    }
  }

  lemma {:induction false} OverlayOf(records: seq<Record>, entries: seq<Entry>, i: nat)
    requires LastEntry(entries, i)
    ensures Get(Desired(records, entries), entries[i].animeId) == entries[i].placements
  {
    if i < |entries| - 1 {
      var init := entries[..|entries| - 1];
      assert init[i] == entries[i];
      OverlayOf(records, init, i);
    }
  }

  /** The board asked for holds the active and the submitted animes and no other; one that was not submitted has its
      own record's cards, a submitted one those of its last entry. */
  lemma DesiredExactly(records: seq<Record>, entries: seq<Entry>)
    ensures forall id :: id in Desired(records, entries) <==> IsActive(records, id) || IsSubmitted(entries, id)
    ensures forall k | Counts(records, k) && !IsSubmitted(entries, records[k].id) ::
              Get(Desired(records, entries), records[k].id) == records[k].days
    ensures forall i | LastEntry(entries, i) :: Get(Desired(records, entries), entries[i].animeId) == entries[i].placements
  {
    forall id ensures id in Desired(records, entries) <==> IsActive(records, id) || IsSubmitted(entries, id) {
      OverlayHolds(records, entries, id);
    }
    forall k | Counts(records, k) && !IsSubmitted(entries, records[k].id)
      ensures Get(Desired(records, entries), records[k].id) == records[k].days
    {
      OverlayHolds(records, entries, records[k].id);
      FromRecordsOf(records, k);
    }
    forall i | LastEntry(entries, i) ensures Get(Desired(records, entries), entries[i].animeId) == entries[i].placements {
      OverlayOf(records, entries, i);
    }
  }

  /** The keys of the board, as sets. */
  lemma DesiredKeys(records: seq<Record>, entries: seq<Entry>)
    ensures Desired(records, entries).Keys == ActiveIds(records) + EntryIds(entries)
  {
    forall id ensures id in Desired(records, entries) <==> id in ActiveIds(records) + EntryIds(entries) {
      OverlayHolds(records, entries, id);
      if IsActive(records, id) {
        var k :| 0 <= k < |records| && records[k].active == 1 && records[k].id == id;
        assert records[k] in records;
      }
      if IsSubmitted(entries, id) {
        var i :| 0 <= i < |entries| && entries[i].animeId == id;
        assert entries[i] in entries;
      }
    }
  }

  // ---------------------------------------------------------------- the board a draft ends with

  lemma PlacedIsDesired(q: Placements, records: seq<Record>, entries: seq<Entry>, keys: seq<AnimeId>, ds: seq<string>, id: AnimeId)
    requires Materializes(q, records, entries, keys, ds) && id in q
    ensures id in Desired(records, entries)
  {
    if id !in Desired(records, entries) {
      forall d ensures OnDay(Get(q, id), d) == [] {
        DraftConserves(q, records, entries, keys, ds, id, d);
      }
      NoDaysNoCards(Get(q, id));
    }
  }

  /** Nobody is on it who is neither active nor submitted. */
  lemma NobodyElse(q: Placements, records: seq<Record>, entries: seq<Entry>, id: AnimeId)
    requires Normalizes(q, records, entries) && id in q
    ensures IsActive(records, id) || IsSubmitted(entries, id)
  {
    var keys, ds := SomeWalk(q, records, entries);
    PlacedIsDesired(q, records, entries, keys, ds, id);
    OverlayHolds(records, entries, id);
  }

  /** Nobody gains or loses a card: an anime that was not moved keeps as many cards on every day as its own record has,
      a moved one has as many as it asked for. */
  lemma UnmovedKeepTheirCards(q: Placements, records: seq<Record>, entries: seq<Entry>, k: nat, d: string)
    requires Normalizes(q, records, entries) && Counts(records, k) && !IsSubmitted(entries, records[k].id)
    ensures |OnDay(Get(q, records[k].id), d)| == |OnDay(records[k].days, d)|
  {
    var keys, ds := SomeWalk(q, records, entries);
    OverlayHolds(records, entries, records[k].id);
    FromRecordsOf(records, k);
    DraftConserves(q, records, entries, keys, ds, records[k].id, d);
  }

  lemma MovedHaveTheirCards(q: Placements, records: seq<Record>, entries: seq<Entry>, i: nat, d: string)
    requires Normalizes(q, records, entries) && LastEntry(entries, i)
    ensures |OnDay(Get(q, entries[i].animeId), d)| == |OnDay(entries[i].placements, d)|
  {
    var keys, ds := SomeWalk(q, records, entries);
    OverlayOf(records, entries, i);
    DraftConserves(q, records, entries, keys, ds, entries[i].animeId, d);
  }

  // ---------------------------------------------------------------- the days a draft touches

  /** Some entry asks for a card on day `d`. */
  ghost predicate AskedFor(entries: seq<Entry>, d: string) {
    exists i, k :: 0 <= i < |entries| && 0 <= k < |entries[i].placements| && entries[i].placements[k].day == d
  }

  /** Some submitted anime has an active record with a card on day `d`. */
  ghost predicate LeftFrom(records: seq<Record>, entries: seq<Entry>, d: string) {
    exists i, k :: 0 <= i < |records| && records[i].active == 1 && IsSubmitted(entries, records[i].id)
                   && 0 <= k < |records[i].days| && records[i].days[k].day == d
  }

  ghost predicate Touched(records: seq<Record>, entries: seq<Entry>, d: string) {
    d in DESTINATIONS && (AskedFor(entries, d) || LeftFrom(records, entries, d))
  }

  lemma SubmittedIds(entries: seq<Entry>, id: AnimeId)
    ensures id in EntryIds(entries) <==> IsSubmitted(entries, id)
  {
    if i :| 0 <= i < |entries| && entries[i].animeId == id {
      assert entries[i] in entries;
    }
  }

  lemma AskedIsAffected(records: seq<Record>, entries: seq<Entry>, d: string)
    requires Touched(records, entries, d)
    ensures d in Affected(records, entries)
  {
    if i, k :| 0 <= i < |entries| && 0 <= k < |entries[i].placements| && entries[i].placements[k].day == d {
      assert entries[i] in entries && entries[i].placements[k] in entries[i].placements;
    } else {
      var i, k :| 0 <= i < |records| && records[i].active == 1 && IsSubmitted(entries, records[i].id)
                  && 0 <= k < |records[i].days| && records[i].days[k].day == d;
      SubmittedIds(entries, records[i].id);
      assert records[i] in records && records[i].days[k] in records[i].days;
    }
  }

  lemma AffectedIsTouched(records: seq<Record>, entries: seq<Entry>, d: string)
    requires d in Affected(records, entries)
    ensures Touched(records, entries, d)
  {
    if e, x :| e in entries && x in e.placements && x.day in DESTINATIONS && x.day == d {
      var i :| 0 <= i < |entries| && entries[i] == e;
      var k :| 0 <= k < |e.placements| && e.placements[k] == x;
      assert entries[i].placements[k].day == d;
    } else {
      var r, x :| r in records && r.active == 1 && r.id in EntryIds(entries) && x in r.days && x.day in DESTINATIONS && x.day == d;
      SubmittedIds(entries, r.id);
      var i :| 0 <= i < |records| && records[i] == r;
      var k :| 0 <= k < |r.days| && r.days[k] == x;
      assert records[i].days[k].day == d;
    }
  }

  /** Both sides of every move end up numbered 1 to n once a draft is accepted; every other day is as it was asked for. */
  lemma TouchedDaysEndContiguous(q: Placements, records: seq<Record>, entries: seq<Entry>, walk: seq<AnimeId>, d: string)
    requires Normalizes(q, records, entries) && Accepted(records, entries) && Enumerates(walk, q.Keys)
    ensures Touched(records, entries, d) ==> Contiguous(Positions(q, walk, d))
    ensures !Touched(records, entries, d) ==> forall id :: OnDay(Get(q, id), d) == OnDay(Get(Desired(records, entries), id), d)
  {
    if Touched(records, entries, d) {
      FinalCheckAccepts(q, records, entries);
      AskedIsAffected(records, entries, d);
      assert AffectedContiguous(q, walk, Affected(records, entries));
    } else {
      var keys, ds := SomeWalk(q, records, entries);
      if d in Affected(records, entries) { AffectedIsTouched(records, entries, d); }
      forall id ensures OnDay(Get(q, id), d) == OnDay(Get(Desired(records, entries), id), d) {
        DraftConserves(q, records, entries, keys, ds, id, d);
      }
    }
  }

  /** A valid draft puts its animes on known days and positive positions only, and they are active. */
  lemma ValidDraftsStayOnTheBoard(q: Placements, records: seq<Record>, entries: seq<Entry>, i: nat, x: Day)
    requires EntriesValid(ActiveIds(records), entries) && Normalizes(q, records, entries) && i < |entries|
    requires x in Get(q, entries[i].animeId)
    ensures x.day in DESTINATIONS && x.order >= 1 && IsActive(records, entries[i].animeId)
  {
    var keys, ds := SomeWalk(q, records, entries);
    var id := entries[i].animeId;
    ActiveIsActive(records, id);
    assert LastEntry(entries, i);
    OverlayOf(records, entries, i);
    MovedHaveTheirCards(q, records, entries, i, x.day);
    OnDayMembers(Get(q, id), x.day, x);
    AskedDayIsKnown(records, entries, i, x.day);
    if x.day in Reflow(records, entries, keys) {
      ReflowedIsNumbered(q, records, entries, keys, ds, x.day);
      NumberedAt(id, x.day, QueueOf(records, entries, keys, x.day), 0, x);
    } else {
      DraftConserves(q, records, entries, keys, ds, id, x.day);
      OnDayMembers(entries[i].placements, x.day, x);
      SubmittedIsValid(records, entries, i, x);
    }
  }

  lemma ActiveIsActive(records: seq<Record>, id: AnimeId)
    requires id in ActiveIds(records)
    ensures IsActive(records, id)
  {
    var r :| r in records && r.active == 1 && r.id == id;
    var k :| 0 <= k < |records| && records[k] == r;
  }

  lemma SubmittedIsValid(records: seq<Record>, entries: seq<Entry>, i: nat, x: Day)
    requires EntriesValid(ActiveIds(records), entries) && i < |entries| && x in entries[i].placements
    ensures x.day in DESTINATIONS && x.order >= 1
  {
    var k :| 0 <= k < |entries[i].placements| && entries[i].placements[k] == x;
    SubmissionAt(entries, i, k);
  }

  lemma AskedDayIsKnown(records: seq<Record>, entries: seq<Entry>, i: nat, d: string)
    requires EntriesValid(ActiveIds(records), entries) && i < |entries| && |OnDay(entries[i].placements, d)| > 0
    ensures d in DESTINATIONS
  {
    var x := OnDay(entries[i].placements, d)[0];
    OnDayMembers(entries[i].placements, d, x);
    SubmittedIsValid(records, entries, i, x);
  }

  // ---------------------------------------------------------------- stale entries and written records

  lemma {:induction false} ByIdCounts(records: seq<Record>, id: AnimeId) returns (k: nat)
    requires id in ById(records)
    ensures Counts(records, k) && records[k].id == id && ById(records)[id] == records[k]
  {
    var last := records[|records| - 1];
    if last.active == 1 && last.id == id {
      k := |records| - 1;
    } else {
      k := ByIdCounts(records[..|records| - 1], id);
      assert records[..|records| - 1][k] == records[k];
      forall j | k < j < |records| && records[j].active == 1 ensures records[j].id != records[k].id {
        assert j < |records| - 1 ==> records[..|records| - 1][j] == records[j];
      }
    }
  }

  /** A draft is stale exactly when some entry was made on another modification time than its anime's record has. */
  lemma StaleExactly(records: seq<Record>, entries: seq<Entry>)
    ensures AnyStale(ById(records), entries) <==>
            exists i, k :: 0 <= i < |entries| && Counts(records, k) && records[k].id == entries[i].animeId
                           && records[k].modifiedAt != entries[i].baseModifiedAt
  {
    if i :| 0 <= i < |entries| && IsStale(ById(records), entries[i]) {
      var k := ByIdCounts(records, entries[i].animeId);
      assert records[k].modifiedAt != entries[i].baseModifiedAt;
    }
    if i, k :| 0 <= i < |entries| && Counts(records, k) && records[k].id == entries[i].animeId
               && records[k].modifiedAt != entries[i].baseModifiedAt {
      FromRecordsOf(records, k);
      assert IsStale(ById(records), entries[i]);
    }
  }

  lemma {:induction false} UpdatedOnce(r: Record, writes: seq<Written>, i: nat)
    requires i < |writes| && writes[i].id == r.id && forall j, k | 0 <= j < k < |writes| :: writes[j].id != writes[k].id
    ensures Updated(r, writes) == r.(days := writes[i].days, modifiedAt := writes[i].modifiedAt)
  {
    if i > 0 {
      assert writes[0].id != writes[i].id;
      UpdatedOnce(r, writes[1..], i - 1);
    }
  }

  lemma {:induction false} NotUpdated(r: Record, writes: seq<Written>)
    requires forall i | 0 <= i < |writes| :: writes[i].id != r.id
    ensures Updated(r, writes) == r
  {
    if writes != [] {
      NotUpdated(r, writes[1..]);
    }
  }

  /** Once the batch is written the records show the board: each active anime its days there, stamped past what it was
      when they changed, and everything else as it was. */
  lemma WrittenShowsBoard(records: seq<Record>, q: Placements, ops: seq<Operation>, now: int, k: nat)
    requires UniqueIds(records) && BatchFor(ops, records, q) && k < |records|
    ensures var r, after := records[k], After(records, Stamped(ops, now))[k];
            if r.active == 1 && Get(q, r.id) != r.days then
              after.days == Get(q, r.id) && after.modifiedAt > r.modifiedAt && after.id == r.id && after.active == 1
            else after == r
  {
    var r, writes := records[k], Stamped(ops, now);
    AppliedIsBatch(records, q, ops, now);
    if r.active == 1 {
      FromRecordsOf(records, k);
    }
    if r.active == 1 && Get(q, r.id) != r.days {
      assert Changes(ById(records), q, r.id);
      var i :| 0 <= i < |ops| && ops[i].id == r.id;
      assert ops[i] in ops;
      UpdatedOnce(r, writes, i);
    } else {
      forall i | 0 <= i < |writes| ensures writes[i].id != r.id {
        assert ops[i] in ops;
        var m := ByIdCounts(records, ops[i].id);
      }
      NotUpdated(r, writes);
    }
  }
}
