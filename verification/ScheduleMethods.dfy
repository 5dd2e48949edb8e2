/** The loops of internal/anime/schedule_service_normalization.go and schedule_service_validation.go, proved
    against the functions the board theorems are about. A Go map walk is a walk over its keys in an order
    chosen arbitrarily. */
module ScheduleMethods {
  import opened Basics
  import opened ScheduleOrder
  import opened ScheduleBoard
  import opened ScheduleDraft
  import opened ScheduleCanonical

  /** One arbitrary walk over the keys of a map. */
  method Walk<K(!new)>(all: set<K>) returns (keys: seq<K>)
    ensures Enumerates(keys, all)
  {
    keys := [];
    var rest := all;
    while rest != {}
      invariant rest <= all && Distinct(keys) && forall k :: k in keys <==> k in all && k !in rest
      decreases |rest|
    {
      var k :| k in rest;
      keys, rest := keys + [k], rest - {k};
    }
  }

  /** Appending to the list a map holds for an anime. */
  function Push(p: Placements, id: AnimeId, x: Day): (q: Placements)
    ensures forall other :: Get(q, other) == if other == id then Get(p, id) + [x] else Get(p, other)
  {
    p[id := Get(p, id) + [x]]
  }

  function Queue(queues: map<string, seq<Ref>>, d: string): seq<Ref> {
    if d in queues then queues[d] else []
  }

  ghost predicate NoEmptyList(p: Placements) {
    forall id | id in p :: p[id] != []
  }

  lemma {:induction false} RefsOfSnoc(id: AnimeId, days: seq<Day>, x: Day, d: string, from: nat)
    ensures RefsOf(id, days + [x], d, from) ==
            RefsOf(id, days, d, from) + (if x.day == d then [Ref(id, x.order, from + |days|)] else [])
  {
    if days == [] {
      assert days + [x] == [x];
    } else {
      assert (days + [x])[1..] == days[1..] + [x];
      RefsOfSnoc(id, days[1..], x, d, from + 1);
      var head := if days[0].day == d then [Ref(id, days[0].order, from)] else [];
      var tail, last := RefsOf(id, days[1..], d, from + 1), if x.day == d then [Ref(id, x.order, from + |days|)] else [];
      assert (head + tail) + last == head + (tail + last);
    }
  }

  lemma {:induction false} KeptSnoc(days: seq<Day>, x: Day, reflow: set<string>)
    ensures Kept(days + [x], reflow) == Kept(days, reflow) + (if x.day in reflow then [] else [x])
  {
    KeptConcat(days, [x], reflow);
    assert Kept([x], reflow) == if x.day in reflow then [] else [x];
  }

  lemma {:induction false} NumberedSnoc(id: AnimeId, d: string, queue: seq<Ref>, r: Ref, from: nat)
    ensures Numbered(id, d, queue + [r], from) ==
            Numbered(id, d, queue, from) + (if r.animeId == id then [Day(d, from + |queue| + 1)] else [])
  {
    if queue == [] {
      assert queue + [r] == [r];
    } else {
      assert (queue + [r])[1..] == queue[1..] + [r];
      NumberedSnoc(id, d, queue[1..], r, from + 1);
    }
  }

  // ---------------------------------------------------------------- taking queues apart

  /** `after` is `before` with the kept ones of `days` appended to `id`'s list. */
  ghost predicate KeptAdded(before: Placements, after: Placements, id: AnimeId, days: seq<Day>, reflow: set<string>) {
    && NoEmptyList(after)
    && forall other {:trigger Get(after, other)} :: Get(after, other) == Get(before, other) + (if other == id then Kept(days, reflow) else [])
  }

  /** `after` is `before` with the cards of `days` appended to the queues taken apart. */
  ghost predicate QueuesAdded(before: map<string, seq<Ref>>, after: map<string, seq<Ref>>, id: AnimeId, days: seq<Day>, reflow: set<string>) {
    forall d {:trigger Queue(after, d)} :: Queue(after, d) == Queue(before, d) + (if d in reflow then RefsOf(id, days, d, 0) else [])
  }

  function KeepOne(after: Placements, id: AnimeId, x: Day, reflow: set<string>): Placements {
    if x.day in reflow then after else Push(after, id, x)
  }

  function QueueOne(after: map<string, seq<Ref>>, id: AnimeId, x: Day, index: nat, reflow: set<string>): map<string, seq<Ref>> {
    if x.day in reflow then after[x.day := Queue(after, x.day) + [Ref(id, x.order, index)]] else after
  }

  lemma KeptAddedStep(before: Placements, after: Placements, id: AnimeId, days: seq<Day>, x: Day, reflow: set<string>)
    requires KeptAdded(before, after, id, days, reflow)
    ensures KeptAdded(before, KeepOne(after, id, x, reflow), id, days + [x], reflow)
  {
    KeptSnoc(days, x, reflow);
  }

  lemma QueuesAddedStep(before: map<string, seq<Ref>>, after: map<string, seq<Ref>>, id: AnimeId, days: seq<Day>, x: Day, reflow: set<string>)
    requires QueuesAdded(before, after, id, days, reflow)
    ensures QueuesAdded(before, QueueOne(after, id, x, |days|, reflow), id, days + [x], reflow)
  {
    var next := QueueOne(after, id, x, |days|, reflow);
    forall d ensures Queue(next, d) == Queue(before, d) + (if d in reflow then RefsOf(id, days + [x], d, 0) else []) {
      QueueOfDayStep(before, after, id, days, x, reflow, d);
    }
  }

  lemma QueueOfDayStep(before: map<string, seq<Ref>>, after: map<string, seq<Ref>>, id: AnimeId, days: seq<Day>, x: Day, reflow: set<string>, d: string)
    requires Queue(after, d) == Queue(before, d) + (if d in reflow then RefsOf(id, days, d, 0) else [])
    ensures Queue(QueueOne(after, id, x, |days|, reflow), d) ==
            Queue(before, d) + (if d in reflow then RefsOf(id, days + [x], d, 0) else [])
  {
    RefsOfSnoc(id, days, x, d, 0);
  }

  /** The inner loop of splitReflowPlacements: one anime's placements. */
  method SplitOne(id: AnimeId, days: seq<Day>, reflow: set<string>, kept: Placements, queues: map<string, seq<Ref>>)
    returns (kept': Placements, queues': map<string, seq<Ref>>)
    requires NoEmptyList(kept)
    ensures KeptAdded(kept, kept', id, days, reflow) && QueuesAdded(queues, queues', id, days, reflow)
  {
    kept', queues' := kept, queues;
    for index := 0 to |days|
      invariant KeptAdded(kept, kept', id, days[..index], reflow)
      invariant QueuesAdded(queues, queues', id, days[..index], reflow)
    {
      assert days[..index + 1] == days[..index] + [days[index]];
      KeptAddedStep(kept, kept', id, days[..index], days[index], reflow);
      QueuesAddedStep(queues, queues', id, days[..index], days[index], reflow);
      kept', queues' := KeepOne(kept', id, days[index], reflow), QueueOne(queues', id, days[index], index, reflow);
    }
    assert days[..|days|] == days;
  }

  ghost predicate KeptSoFar(kept: Placements, p: Placements, keys: seq<AnimeId>, reflow: set<string>) {
    NoEmptyList(kept) && forall id {:trigger Get(kept, id)} :: Get(kept, id) == if id in keys then Kept(Get(p, id), reflow) else []
  }

  ghost predicate GatheredSoFar(queues: map<string, seq<Ref>>, p: Placements, keys: seq<AnimeId>, reflow: set<string>) {
    forall d {:trigger Queue(queues, d)} :: Queue(queues, d) == if d in reflow then Gather(p, keys, d) else []
  }

  lemma KeptSoFarStep(p: Placements, keys: seq<AnimeId>, id: AnimeId, reflow: set<string>, kept: Placements, kept': Placements)
    requires id !in keys && KeptSoFar(kept, p, keys, reflow) && KeptAdded(kept, kept', id, Get(p, id), reflow)
    ensures KeptSoFar(kept', p, keys + [id], reflow)
  {
    forall other {:trigger Get(kept', other)}
      ensures Get(kept', other) == if other in keys + [id] then Kept(Get(p, other), reflow) else []
    {
      assert Get(kept, other) == if other in keys then Kept(Get(p, other), reflow) else [];
      assert other in keys + [id] <==> other in keys || other == id;
    }
  }

  lemma GatherSnoc(p: Placements, keys: seq<AnimeId>, id: AnimeId, d: string)
    ensures Gather(p, keys + [id], d) == Gather(p, keys, d) + RefsOf(id, Get(p, id), d, 0)
  {
    FlatSnoc(keys, id, RefsFn(p, d));
  }

  lemma GatheredSoFarStep(p: Placements, keys: seq<AnimeId>, id: AnimeId, reflow: set<string>,
                          queues: map<string, seq<Ref>>, queues': map<string, seq<Ref>>)
    requires GatheredSoFar(queues, p, keys, reflow) && QueuesAdded(queues, queues', id, Get(p, id), reflow)
    ensures GatheredSoFar(queues', p, keys + [id], reflow)
  {
    forall d {:trigger Queue(queues', d)}
      ensures Queue(queues', d) == if d in reflow then Gather(p, keys + [id], d) else []
    {
      GatherSnoc(p, keys, id, d);
      assert Queue(queues, d) == if d in reflow then Gather(p, keys, d) else [];
    }
  }

  /** One anime of the walk. */
  method SplitNext(p: Placements, keys: seq<AnimeId>, i: nat, reflow: set<string>, kept: Placements, queues: map<string, seq<Ref>>)
    returns (kept': Placements, queues': map<string, seq<Ref>>)
    requires i < |keys| && keys[i] in p && keys[i] !in keys[..i]
    requires KeptSoFar(kept, p, keys[..i], reflow) && GatheredSoFar(queues, p, keys[..i], reflow)
    ensures KeptSoFar(kept', p, keys[..i + 1], reflow) && GatheredSoFar(queues', p, keys[..i + 1], reflow)
  {
    var id := keys[i];
    kept', queues' := SplitOne(id, p[id], reflow, kept, queues);
    KeptSoFarStep(p, keys[..i], id, reflow, kept, kept');
    GatheredSoFarStep(p, keys[..i], id, reflow, queues, queues');
    assert keys[..i + 1] == keys[..i] + [id];
  }

  /** splitReflowPlacements, animes walked in the order `keys`. */
  method SplitReflowPlacements(p: Placements, keys: seq<AnimeId>, reflow: set<string>)
    returns (kept: Placements, queues: map<string, seq<Ref>>)
    requires Enumerates(keys, p.Keys)
    ensures NoEmptyList(kept) && forall id {:trigger Get(kept, id)} :: Get(kept, id) == Kept(Get(p, id), reflow)
    ensures forall d {:trigger Queue(queues, d)} :: Queue(queues, d) == if d in reflow then Gather(p, keys, d) else []
  {
    kept, queues := map[], map[];
    for i := 0 to |keys|
      invariant KeptSoFar(kept, p, keys[..i], reflow) && GatheredSoFar(queues, p, keys[..i], reflow)
    {
      assert keys[i] in p.Keys;
      kept, queues := SplitNext(p, keys, i, reflow, kept, queues);
    }
    assert keys[..|keys|] == keys;
  }

  // ---------------------------------------------------------------- merging one queue

  method PartitionDraftDestinationRefs(refs: seq<Ref>, changed: set<AnimeId>) returns (unmoved: seq<Ref>, inserted: seq<Ref>)
    ensures unmoved == Unmoved(refs, changed) && inserted == Moved(refs, changed)
  {
    unmoved, inserted := [], [];
    for i := 0 to |refs|
      invariant unmoved == Unmoved(refs[..i], changed) && inserted == Moved(refs[..i], changed)
    {
      assert refs[..i + 1] == refs[..i] + [refs[i]];
      UnmovedConcat(refs[..i], [refs[i]], changed);
      MovedConcat(refs[..i], [refs[i]], changed);
      assert Unmoved([refs[i]], changed) == if refs[i].animeId in changed then [] else [refs[i]];
      assert Moved([refs[i]], changed) == if refs[i].animeId in changed then [refs[i]] else [];
      if refs[i].animeId in changed {
        inserted := inserted + [refs[i]];
      } else {
        unmoved := unmoved + [refs[i]];
      }
    }
    assert refs[..|refs|] == refs;
  }

  lemma ShiftedFrom(before: seq<Ref>, grown: seq<Ref>, index: nat, ref: Ref)
    requires |grown| == |before| + 1 && index <= |before| && grown[index] == ref
    requires forall j | 0 <= j < index :: grown[j] == before[j]
    requires forall j | index < j <= |before| :: grown[j] == before[j - 1]
    ensures grown == before[..index] + [ref] + before[index..]
  {
    assert grown == grown[..index] + [grown[index]] + grown[index + 1..];
    assert grown[..index] == before[..index];
    assert grown[index + 1..] == before[index..];
  }

  /** insertSchedulePlacementRef: grow by one, shift the tail right, write. */
  method InsertSchedulePlacementRef(refs: array<Ref>, ref: Ref) returns (grown: array<Ref>)
    ensures fresh(grown) && grown[..] == InsertRef(refs[..], ref)
  {
    var n := refs.Length;
    var index := InsertionIndex(ref.order, n);
    grown := new Ref[n + 1](_ => ref);
    for k := 0 to n
      invariant forall j | 0 <= j < k :: grown[j] == refs[j]
    {
      grown[k] := refs[k];
    }
    for k := n downto index
      invariant forall j | 0 <= j <= k && j < n :: grown[j] == refs[j]
      invariant forall j | k < j <= n :: grown[j] == refs[j - 1]
    {
      grown[k + 1] := grown[k];
    }
    grown[index] := ref;
    ShiftedFrom(refs[..], grown[..], index, ref);
  }

  method MergeDraftDestinationRefs(refs: seq<Ref>, changed: set<AnimeId>) returns (queue: seq<Ref>)
    ensures queue == MergeQueue(refs, changed)
  {
    var unmoved, inserted := PartitionDraftDestinationRefs(refs, changed);
    unmoved, inserted := StableSort(unmoved), StableSort(inserted);
    var column := new Ref[|unmoved|](i requires 0 <= i < |unmoved| => unmoved[i]);
    assert column[..] == unmoved;
    for i := 0 to |inserted|
      invariant fresh(column) && column[..] == InsertAll(unmoved, inserted[..i])
    {
      assert inserted[..i + 1] == inserted[..i] + [inserted[i]];
      InsertAllSnoc(unmoved, inserted[..i], inserted[i]);
      column := InsertSchedulePlacementRef(column, inserted[i]);
    }
    assert inserted[..|inserted|] == inserted;
    queue := column[..];
  }

  // ---------------------------------------------------------------- writing queues back

  ghost predicate NumberedAdded(before: Placements, after: Placements, d: string, queue: seq<Ref>) {
    && (NoEmptyList(before) ==> NoEmptyList(after))
    && forall id {:trigger Get(after, id)} :: Get(after, id) == Get(before, id) + Numbered(id, d, queue, 0)
  }

  lemma NumberedAddedAt(before: Placements, after: Placements, d: string, queue: seq<Ref>, r: Ref, id: AnimeId)
    requires Get(after, id) == Get(before, id) + Numbered(id, d, queue, 0)
    ensures Get(Push(after, r.animeId, Day(d, |queue| + 1)), id) == Get(before, id) + Numbered(id, d, queue + [r], 0)
  {
    NumberedSnoc(id, d, queue, r, 0);
    if r.animeId == id {
      ConcatAssociates(Get(before, id), Numbered(id, d, queue, 0), [Day(d, |queue| + 1)]);
    }
  }

  lemma PushKeepsListsFilled(p: Placements, id: AnimeId, x: Day)
    requires NoEmptyList(p)
    ensures NoEmptyList(Push(p, id, x))
  {
  }

  lemma NumberedAddedStep(before: Placements, after: Placements, d: string, queue: seq<Ref>, r: Ref)
    requires NumberedAdded(before, after, d, queue)
    ensures NumberedAdded(before, Push(after, r.animeId, Day(d, |queue| + 1)), d, queue + [r])
  {
    var pushed := Push(after, r.animeId, Day(d, |queue| + 1));
    forall id {:trigger Get(pushed, id)} ensures Get(pushed, id) == Get(before, id) + Numbered(id, d, queue + [r], 0) {
      assert Get(after, id) == Get(before, id) + Numbered(id, d, queue, 0);
      NumberedAddedAt(before, after, d, queue, r, id);
    }
    if NoEmptyList(after) {
      PushKeepsListsFilled(after, r.animeId, Day(d, |queue| + 1));
    }
  }

  /** appendNormalizedDestination, and the loop at the end of normalizeSchedulePlacementsMap. */
  method AppendNormalizedDestination(before: Placements, d: string, queue: seq<Ref>) returns (after: Placements)
    ensures NumberedAdded(before, after, d, queue)
  {
    after := before;
    for index := 0 to |queue|
      invariant NumberedAdded(before, after, d, queue[..index])
    {
      assert queue[..index + 1] == queue[..index] + [queue[index]];
      NumberedAddedStep(before, after, d, queue[..index], queue[index]);
      after := Push(after, queue[index].animeId, Day(d, index + 1));
    }
    assert queue[..|queue|] == queue;
  }

  /** The board while its queues are being written back in the order `ds`. */
  ghost predicate RebuiltSoFar(q: Placements, p: Placements, reflow: set<string>, ds: seq<string>, queues: map<string, seq<Ref>>) {
    NoEmptyList(q) && forall id {:trigger Get(q, id)} :: Get(q, id) == Rebuilt(p, reflow, ds, queues, id)
  }

  lemma RebuiltSnoc(p: Placements, reflow: set<string>, ds: seq<string>, d: string, queues: map<string, seq<Ref>>, id: AnimeId)
    requires d in queues
    ensures Rebuilt(p, reflow, ds + [d], queues, id) == Rebuilt(p, reflow, ds, queues, id) + Numbered(id, d, queues[d], 0)
  {
    var fn := NumberedFn(id, queues);
    FlatSnoc(ds, d, fn);
    ConcatAssociates(Kept(Get(p, id), reflow), Flat(ds, fn), fn(d));
  }

  lemma RebuiltStep(q: Placements, q': Placements, p: Placements, reflow: set<string>, ds: seq<string>, d: string, queues: map<string, seq<Ref>>)
    requires RebuiltSoFar(q, p, reflow, ds, queues) && d in queues && NumberedAdded(q, q', d, queues[d])
    ensures RebuiltSoFar(q', p, reflow, ds + [d], queues)
  {
    forall id ensures Get(q', id) == Rebuilt(p, reflow, ds + [d], queues, id) {
      assert Get(q', id) == Get(q, id) + Numbered(id, d, queues[d], 0);
      RebuiltSnoc(p, reflow, ds, d, queues, id);
    }
  }

  lemma RebuiltStart(kept: Placements, p: Placements, reflow: set<string>, queues: map<string, seq<Ref>>)
    requires NoEmptyList(kept) && forall id {:trigger Get(kept, id)} :: Get(kept, id) == Kept(Get(p, id), reflow)
    ensures RebuiltSoFar(kept, p, reflow, [], queues)
  {
    forall id ensures Get(kept, id) == Rebuilt(p, reflow, [], queues, id) {
      assert Flat([], NumberedFn(id, queues)) == [];
    }
  }

  /** The write-back loop that both entry points end with. */
  method WriteBack(kept: Placements, ghost p: Placements, ghost reflow: set<string>, ds: seq<string>, queues: map<string, seq<Ref>>)
    returns (q: Placements)
    requires RebuiltSoFar(kept, p, reflow, [], queues) && forall i | 0 <= i < |ds| :: ds[i] in queues
    ensures RebuiltSoFar(q, p, reflow, ds, queues)
  {
    q := kept;
    for i := 0 to |ds|
      invariant RebuiltSoFar(q, p, reflow, ds[..i], queues)
    {
      var next := AppendNormalizedDestination(q, ds[i], queues[ds[i]]);
      assert ds[..i + 1] == ds[..i] + [ds[i]];
      RebuiltStep(q, next, p, reflow, ds[..i], ds[i], queues);
      q := next;
    }
    assert ds[..|ds|] == ds;
  }

  /** The merge loop, queue by queue. */
  method MergeQueues(p: Placements, keys: seq<AnimeId>, queues: map<string, seq<Ref>>, changed: set<AnimeId>, reflow: set<string>, ds: seq<string>)
    returns (merged: map<string, seq<Ref>>)
    requires forall d {:trigger Queue(queues, d)} :: Queue(queues, d) == if d in reflow then Gather(p, keys, d) else []
    requires Enumerates(ds, reflow)
    ensures merged == DraftQueues(p, keys, changed, reflow)
  {
    merged := map[];
    for i := 0 to |ds|
      invariant forall d :: d in merged <==> d in ds[..i]
      invariant forall d | d in merged :: merged[d] == MergeQueue(Gather(p, keys, d), changed)
    {
      assert ds[..i + 1] == ds[..i] + [ds[i]];
      assert Queue(queues, ds[i]) == Gather(p, keys, ds[i]);
      var queue := MergeDraftDestinationRefs(Queue(queues, ds[i]), changed);
      merged := merged[ds[i] := queue];
    }
  }

  /** normalizeSchedulePlacementsForDraft, animes walked in the order `keys` and queues in an arbitrary one. */
  method NormalizeSchedulePlacementsForDraft(p: Placements, keys: seq<AnimeId>, changed: set<AnimeId>, reflow: set<string>)
    returns (q: Placements, ds: seq<string>)
    requires Enumerates(keys, p.Keys)
    ensures Enumerates(ds, reflow) && RebuiltSoFar(q, p, reflow, ds, DraftQueues(p, keys, changed, reflow))
  {
    var kept, byDestination := SplitReflowPlacements(p, keys, reflow);
    ds := Walk(reflow);
    var merged := MergeQueues(p, keys, byDestination, changed, reflow, ds);
    RebuiltStart(kept, p, reflow, merged);
    q := WriteBack(kept, p, reflow, ds, merged);
  }

  function SortedQueues(p: Placements, keys: seq<AnimeId>, ds: seq<string>): map<string, seq<Ref>> {
    map d | d in ds :: FullSort(Gather(p, keys, d))
  }

  lemma SortedQueuesSnoc(p: Placements, keys: seq<AnimeId>, ds: seq<string>, d: string)
    ensures SortedQueues(p, keys, ds + [d]) == SortedQueues(p, keys, ds)[d := FullSort(Gather(p, keys, d))]
  {
    forall e ensures e in SortedQueues(p, keys, ds + [d]) <==> e in SortedQueues(p, keys, ds) || e == d {
      assert e in ds + [d] <==> e in ds || e == d;
    }
  }

  /** The sort loop of normalizeSchedulePlacementsMap. */
  method SortQueues(p: Placements, keys: seq<AnimeId>, queues: map<string, seq<Ref>>, ds: seq<string>)
    returns (sorted: map<string, seq<Ref>>)
    requires forall i | 0 <= i < |ds| :: Queue(queues, ds[i]) == Gather(p, keys, ds[i])
    ensures sorted == SortedQueues(p, keys, ds)
  {
    sorted := map[];
    for i := 0 to |ds|
      invariant sorted == SortedQueues(p, keys, ds[..i])
    {
      assert ds[..i + 1] == ds[..i] + [ds[i]];
      SortedQueuesSnoc(p, keys, ds[..i], ds[i]);
      sorted := sorted[ds[i] := FullSort(Queue(queues, ds[i]))];
    }
    assert ds[..|ds|] == ds;
  }

  /** normalizeSchedulePlacementsMap, animes walked in an arbitrary order. */
  method NormalizeSchedulePlacementsMap(p: Placements) returns (q: Placements)
    ensures IsCanonical(q, p)
  {
    var walk := Walk(p.Keys);
    var known := set d | d in DESTINATIONS;
    var kept, byDestination := SplitReflowPlacements(p, walk, known);
    assert forall i | 0 <= i < |DESTINATIONS| :: DESTINATIONS[i] in known;
    var sorted := SortQueues(p, walk, byDestination, DESTINATIONS);
    RebuiltStart(kept, p, known, sorted);
    q := WriteBack(kept, p, known, DESTINATIONS, sorted);
    assert Canonicalizes(q, p, walk);
  }

  // ---------------------------------------------------------------- which queues reflow

  lemma {:induction false} OrdersSnoc(days: seq<Day>, x: Day, d: string)
    ensures Orders(OnDay(days + [x], d)) == Orders(OnDay(days, d)) + (if x.day == d then [x.order] else [])
  {
    if days == [] {
      assert days + [x] == [x];
      assert OnDay([x], d) == if x.day == d then [x] else [];
    } else {
      assert (days + [x])[1..] == days[1..] + [x];
      OrdersSnoc(days[1..], x, d);
      if days[0].day == d {
        assert ([days[0]] + OnDay(days[1..], d))[1..] == OnDay(days[1..], d);
        assert ([days[0]] + OnDay(days[1..] + [x], d))[1..] == OnDay(days[1..] + [x], d);
      } else {
        assert OnDay(days, d) == OnDay(days[1..], d);
        assert OnDay(days + [x], d) == OnDay(days[1..] + [x], d);
      }
    }
  }

  lemma DistinctSnoc<T>(s: seq<T>, x: T)
    ensures Distinct(s + [x]) <==> Distinct(s) && x !in s
  {
    if x in s {
      var i :| 0 <= i < |s| && s[i] == x;
      assert (s + [x])[i] == (s + [x])[|s|];
    }
    if !Distinct(s) {
      var i, j :| 0 <= i < j < |s| && s[i] == s[j];
      assert (s + [x])[i] == (s + [x])[j];
    }
  }

  lemma PrefixDistinct<T>(s: seq<T>, t: seq<T>)
    requires Distinct(s + t)
    ensures Distinct(s)
  {
    forall i, j | 0 <= i < j < |s| ensures s[i] != s[j] {
      assert (s + t)[i] != (s + t)[j];
    }
  }

  lemma {:induction false} OrdersOfConcat(a: seq<Day>, b: seq<Day>)
    ensures Orders(a + b) == Orders(a) + Orders(b)
  {
    if a == [] {
      assert a + b == b;
    } else {
      assert (a + b)[1..] == a[1..] + b;
      OrdersOfConcat(a[1..], b);
    }
  }

  lemma OrdersOfPrefix(days: seq<Day>, i: nat, d: string)
    requires i <= |days|
    ensures Orders(OnDay(days, d)) == Orders(OnDay(days[..i], d)) + Orders(OnDay(days[i..], d))
  {
    assert days == days[..i] + days[i..];
    OnDayConcat(days[..i], days[i..], d);
    OrdersOfConcat(OnDay(days[..i], d), OnDay(days[i..], d));
  }

  /** An order met twice, however early, makes the whole list repeat. */
  lemma RepeatSpoils(before: seq<int>, days: seq<Day>, i: nat, d: string)
    requires i < |days| && days[i].day == d && days[i].order in before + Orders(OnDay(days[..i], d))
    ensures !Distinct(before + Orders(OnDay(days, d)))
  {
    var sofar, x := before + Orders(OnDay(days[..i], d)), days[i].order;
    OrdersSnoc(days[..i], days[i], d);
    assert days[..i + 1] == days[..i] + [days[i]];
    OrdersOfPrefix(days, i + 1, d);
    var rest := Orders(OnDay(days[i + 1..], d));
    assert before + Orders(OnDay(days, d)) == (sofar + [x]) + rest;
    DistinctSnoc(sofar, x);
    if Distinct((sofar + [x]) + rest) {
      PrefixDistinct(sofar + [x], rest);
    }
  }

  /** `seen` holds the orders met so far, none of them twice. */
  ghost predicate Seen(seen: set<int>, sofar: seq<int>) {
    Distinct(sofar) && forall o :: o in seen <==> o in sofar
  }

  lemma SeenStep(seen: set<int>, before: seq<int>, days: seq<Day>, i: nat, d: string)
    requires i < |days| && Seen(seen, before + Orders(OnDay(days[..i], d)))
    requires days[i].day == d ==> days[i].order !in seen
    ensures Seen(if days[i].day == d then seen + {days[i].order} else seen, before + Orders(OnDay(days[..i + 1], d)))
  {
    var sofar := before + Orders(OnDay(days[..i], d));
    OrdersSnoc(days[..i], days[i], d);
    assert days[..i + 1] == days[..i] + [days[i]];
    if days[i].day == d {
      DistinctSnoc(sofar, days[i].order);
      assert before + Orders(OnDay(days[..i + 1], d)) == sofar + [days[i].order];
    } else {
      assert before + Orders(OnDay(days[..i + 1], d)) == sofar;
    }
  }

  /** The inner loop of destinationHasDuplicateOrders: stops at the first order already seen. */
  method ScanOrders(days: seq<Day>, d: string, seen: set<int>, ghost before: seq<int>) returns (repeated: bool, seen': set<int>)
    requires Seen(seen, before)
    ensures repeated ==> !Distinct(before + Orders(OnDay(days, d)))
    ensures !repeated ==> Seen(seen', before + Orders(OnDay(days, d)))
  {
    seen' := seen;
    assert before + Orders(OnDay(days[..0], d)) == before;
    for i := 0 to |days|
      invariant Seen(seen', before + Orders(OnDay(days[..i], d)))
    {
      if days[i].day == d && days[i].order in seen' {
        RepeatSpoils(before, days, i, d);
        return true, seen';
      }
      SeenStep(seen', before, days, i, d);
      if days[i].day == d {
        seen' := seen' + {days[i].order};
      }
    }
    assert days[..|days|] == days;
    return false, seen';
  }

  lemma PositionsStep(p: Placements, keys: seq<AnimeId>, i: nat, d: string)
    requires i < |keys| && keys[i] in p
    ensures Positions(p, keys[..i + 1], d) == Positions(p, keys[..i], d) + Orders(OnDay(p[keys[i]], d))
  {
    assert keys[..i + 1] == keys[..i] + [keys[i]];
    FlatSnoc(keys[..i], keys[i], OrdersFn(p, d));
  }

  /** An order met twice on part of the walk is met twice on all of it. */
  lemma RepeatStays(p: Placements, keys: seq<AnimeId>, i: nat, d: string)
    requires i <= |keys| && !Distinct(Positions(p, keys[..i], d))
    ensures !Distinct(Positions(p, keys, d))
  {
    var part, rest := Positions(p, keys[..i], d), Positions(p, keys[i..], d);
    assert Positions(p, keys, d) == part + rest by {
      FlatConcat(keys[..i], keys[i..], OrdersFn(p, d));
      assert keys == keys[..i] + keys[i..];
    }
    if Distinct(part + rest) {
      PrefixDistinct(part, rest);
    }
  }

  /** One anime of the walk. */
  method ScanAnime(d: string, p: Placements, keys: seq<AnimeId>, i: nat, seen: set<int>) returns (repeated: bool, seen': set<int>)
    requires i < |keys| && keys[i] in p && Seen(seen, Positions(p, keys[..i], d))
    ensures repeated ==> !Distinct(Positions(p, keys, d))
    ensures !repeated ==> Seen(seen', Positions(p, keys[..i + 1], d))
  {
    ghost var before := Positions(p, keys[..i], d);
    repeated, seen' := ScanOrders(p[keys[i]], d, seen, before);
    PositionsStep(p, keys, i, d);
    if repeated {
      RepeatStays(p, keys, i + 1, d);
    }
  }

  /** destinationHasDuplicateOrders, animes walked in the order `keys`. */
  method DestinationHasDuplicateOrders(d: string, p: Placements, keys: seq<AnimeId>) returns (repeated: bool)
    requires Enumerates(keys, p.Keys)
    ensures repeated <==> !Distinct(Positions(p, keys, d))
  {
    var seen: set<int> := {};
    for i := 0 to |keys|
      invariant Seen(seen, Positions(p, keys[..i], d))
    {
      assert keys[i] in p.Keys;
      repeated, seen := ScanAnime(d, p, keys, i, seen);
      if repeated {
        return;
      }
    }
    assert keys[..|keys|] == keys;
    repeated := false;
  }

  /** addAllowedScheduleDestinations. */
  method AddAllowedScheduleDestinations(destinations: set<string>, days: seq<Day>) returns (more: set<string>)
    ensures forall d :: d in more <==> d in destinations || (exists x :: x in days && x.day == d && d in DESTINATIONS)
  {
    more := destinations;
    for i := 0 to |days|
      invariant forall d :: d in more <==> d in destinations || (exists x :: x in days[..i] && x.day == d && d in DESTINATIONS)
    {
      assert days[..i + 1] == days[..i] + [days[i]];
      if days[i].day in DESTINATIONS {
        more := more + {days[i].day};
      }
    }
    assert days[..|days|] == days;
  }

  ghost predicate AsksFor(entries: seq<Entry>, d: string) {
    exists e, x :: e in entries && x in e.placements && x.day == d && d in DESTINATIONS
  }

  ghost predicate Leaves(records: seq<Record>, changed: set<AnimeId>, d: string) {
    exists r, x :: r in records && r.active == 1 && r.id in changed && x in r.days && x.day == d && d in DESTINATIONS
  }

  /** affectedScheduleDestinations: both sides of every move. */
  method AffectedScheduleDestinations(records: seq<Record>, entries: seq<Entry>) returns (affected: set<string>)
    ensures affected == Affected(records, entries)
  {
    affected := {};
    for i := 0 to |entries|
      invariant forall d :: d in affected <==> AsksFor(entries[..i], d)
    {
      assert entries[..i + 1] == entries[..i] + [entries[i]];
      affected := AddAllowedScheduleDestinations(affected, entries[i].placements);
    }
    assert entries[..|entries|] == entries;
    var changed := EntryIds(entries);
    for i := 0 to |records|
      invariant forall d :: d in affected <==> AsksFor(entries, d) || Leaves(records[..i], changed, d)
    {
      assert records[..i + 1] == records[..i] + [records[i]];
      if records[i].active != 1 || records[i].id !in changed {
        continue;
      }
      affected := AddAllowedScheduleDestinations(affected, records[i].days);
    }
    assert records[..|records|] == records;
  }

  /** reflowScheduleDestinations, queues walked in an arbitrary order. */
  method ReflowScheduleDestinations(records: seq<Record>, entries: seq<Entry>, p: Placements, keys: seq<AnimeId>)
    returns (reflow: set<string>)
    requires p == Desired(records, entries) && Enumerates(keys, p.Keys)
    ensures reflow == Reflow(records, entries, keys)
  {
    var affected := AffectedScheduleDestinations(records, entries);
    var ds := Walk(affected);
    reflow := {};
    for i := 0 to |ds|
      invariant forall d :: d in reflow <==> d in ds[..i] && NeedsReflow(p, entries, keys, d)
    {
      if ds[i] !in Submitted(entries) {
        reflow := reflow + {ds[i]};
      } else {
        var repeated := DestinationHasDuplicateOrders(ds[i], p, keys);
        if repeated {
          reflow := reflow + {ds[i]};
        }
      }
    }
  }

  // ---------------------------------------------------------------- the whole draft

  /** desiredSchedulePlacements. */
  method DesiredSchedulePlacements(records: seq<Record>, entries: seq<Entry>) returns (p: Placements)
    ensures p == Desired(records, entries)
  {
    p := map[];
    for i := 0 to |records|
      invariant p == FromRecords(records[..i])
    {
      assert records[..i + 1][..i] == records[..i];
      if records[i].active != 1 {
        continue;
      }
      p := p[records[i].id := records[i].days];
    }
    assert records[..|records|] == records;
    for i := 0 to |entries|
      invariant p == Desired(records, entries[..i])
    {
      assert entries[..i + 1][..i] == entries[..i];
      p := p[entries[i].animeId := entries[i].placements];
    }
    assert entries[..|entries|] == entries;
  }

  /** normalizedSchedulePlacements, every map walked in an arbitrary order. */
  method NormalizedSchedulePlacements(records: seq<Record>, entries: seq<Entry>)
    returns (q: Placements)
    ensures Normalizes(q, records, entries)
  {
    var p := DesiredSchedulePlacements(records, entries);
    var walk := Walk(p.Keys);
    var reflow := ReflowScheduleDestinations(records, entries, p, walk);
    var order;
    q, order := NormalizeSchedulePlacementsForDraft(p, walk, EntryIds(entries), reflow);
    assert Materializes(q, records, entries, walk, order);
  }

  // ---------------------------------------------------------------- validation

  function PlaceInt(x: int, sorted: seq<int>): seq<int> {
    if sorted == [] || x <= sorted[0] then [x] + sorted else [sorted[0]] + PlaceInt(x, sorted[1..])
  }

  function SortInts(s: seq<int>): seq<int> {
    if s == [] then [] else PlaceInt(s[0], SortInts(s[1..]))
  }

  lemma {:induction false} PlaceIntPermutes(x: int, sorted: seq<int>)
    ensures multiset(PlaceInt(x, sorted)) == multiset(sorted) + multiset{x}
  {
    if !(sorted == [] || x <= sorted[0]) {
      assert sorted == [sorted[0]] + sorted[1..];
      PlaceIntPermutes(x, sorted[1..]);
    }
  }

  lemma {:induction false} PlaceIntSorts(x: int, sorted: seq<int>)
    requires Ascends(sorted)
    ensures Ascends(PlaceInt(x, sorted))
    ensures PlaceInt(x, sorted)[0] == if sorted == [] || x <= sorted[0] then x else sorted[0]
  {
    if sorted == [] || x <= sorted[0] {
      ConsIntAscends(x, sorted);
    } else {
      PlaceIntSorts(x, sorted[1..]);
      ConsIntAscends(sorted[0], PlaceInt(x, sorted[1..]));
    }
  }

  lemma ConsIntAscends(x: int, s: seq<int>)
    requires Ascends(s) && (s != [] ==> x <= s[0])
    ensures Ascends([x] + s)
  {
  }

  lemma {:induction false} SortIntsSorts(s: seq<int>)
    ensures Ascends(SortInts(s)) && multiset(SortInts(s)) == multiset(s)
  {
    if s != [] {
      SortIntsSorts(s[1..]);
      PlaceIntSorts(s[0], SortInts(s[1..]));
      PlaceIntPermutes(s[0], SortInts(s[1..]));
      assert s == [s[0]] + s[1..];
    }
  }

  /** schedulePositionsAreContiguous: sorted, the positions read 1, 2, 3, ... exactly when they are 1 to n. */
  method SchedulePositionsAreContiguous(positions: seq<int>) returns (ok: bool)
    ensures ok <==> Contiguous(positions)
  {
    SortIntsSorts(positions);
    var sorted := SortInts(positions);
    SameSize(sorted, positions);
    if Contiguous(positions) {
      AscendingUnique(sorted, OneTo(|positions|));
    }
    for index := 0 to |sorted|
      invariant sorted[..index] == OneTo(|sorted|)[..index]
    {
      if sorted[index] != index + 1 {
        assert sorted[index] != OneTo(|sorted|)[index];
        return false;
      }
    }
    assert sorted == OneTo(|sorted|);
    return true;
  }

  /** The inner loop of positionsForDestination. */
  method AppendOrders(before: seq<int>, days: seq<Day>, d: string) returns (positions: seq<int>)
    ensures positions == before + Orders(OnDay(days, d))
  {
    positions := before;
    for j := 0 to |days|
      invariant positions == before + Orders(OnDay(days[..j], d))
    {
      OrdersSnoc(days[..j], days[j], d);
      assert days[..j + 1] == days[..j] + [days[j]];
      if days[j].day == d {
        positions := positions + [days[j].order];
      }
    }
    assert days[..|days|] == days;
  }

  /** positionsForDestination, animes walked in an arbitrary order. */
  method PositionsForDestination(q: Placements, walk: seq<AnimeId>, d: string) returns (positions: seq<int>)
    requires Enumerates(walk, q.Keys)
    ensures positions == Positions(q, walk, d)
  {
    positions := [];
    for i := 0 to |walk|
      invariant positions == Positions(q, walk[..i], d)
    {
      PositionsStep(q, walk, i, d);
      positions := AppendOrders(positions, q[walk[i]], d);
    }
    assert walk[..|walk|] == walk;
  }

  ghost function ContiguousDays(q: Placements, walk: seq<AnimeId>, affected: set<string>): set<string> {
    set d | d in affected && Contiguous(Positions(q, walk, d))
  }

  lemma ContiguousDaysAll(q: Placements, walk: seq<AnimeId>, affected: set<string>)
    ensures AffectedContiguous(q, walk, affected) <==> affected <= ContiguousDays(q, walk, affected)
  {
  }

  method DestinationIsContiguous(q: Placements, walk: seq<AnimeId>, ghost affected: set<string>, d: string) returns (ok: bool)
    requires Enumerates(walk, q.Keys) && d in affected
    ensures ok <==> d in ContiguousDays(q, walk, affected)
  {
    var positions := PositionsForDestination(q, walk, d);
    ok := SchedulePositionsAreContiguous(positions);
  }

  method CheckDestinations(q: Placements, walk: seq<AnimeId>, ghost affected: set<string>, ds: seq<string>) returns (ok: bool)
    requires Enumerates(walk, q.Keys) && Enumerates(ds, affected)
    ensures ok <==> affected <= ContiguousDays(q, walk, affected)
  {
    ghost var good := ContiguousDays(q, walk, affected);
    ghost var passed: set<string> := {};
    for i := 0 to |ds|
      invariant passed <= good && forall k | 0 <= k < i :: ds[k] in passed
    {
      assert ds[i] in affected;
      ok := DestinationIsContiguous(q, walk, affected, ds[i]);
      if !ok {
        return;
      }
      passed := passed + {ds[i]};
    }
    forall d | d in affected ensures d in passed {
      assert d in ds;
    }
    ok := true;
  }

  /** validateAffectedScheduleDestinations, every map walked in an arbitrary order. */
  method ValidateAffectedScheduleDestinations(q: Placements, affected: set<string>) returns (ok: bool)
    ensures ok <==> AllContiguous(q, affected)
  {
    var walk := Walk(q.Keys);
    var ds := Walk(affected);
    ok := CheckDestinations(q, walk, affected, ds);
    ContiguousDaysAll(q, walk, affected);
    ContiguousOnAnyWalk(q, walk, affected);
  }

  datatype DraftError =
    | NotActive(id: AnimeId)
    | RepeatedAnime(id: AnimeId)
    | UnknownDestination(day: string)
    | InvalidOrder(order: int)
    | RepeatedPlacement(placement: Day)
    | PositionTaken(placement: Day)
    | NotContiguous

  function ActiveIds(records: seq<Record>): set<AnimeId> {
    set r | r in records && r.active == 1 :: r.id
  }

  /** The submissions up to placement `k` of entry `i` are a prefix of all of them. */
  lemma {:induction false} SubmissionsPrefix(entries: seq<Entry>, i: nat, k: nat) returns (rest: seq<Day>)
    requires i < |entries| && k <= |entries[i].placements|
    ensures Submissions(entries) == (Submissions(entries[..i]) + entries[i].placements[..k]) + rest
  {
    var n := |entries| - 1;
    if i < n {
      assert entries[..n][..i] == entries[..i];
      rest := SubmissionsPrefix(entries[..n], i, k);
      rest := rest + entries[n].placements;
    } else {
      rest := entries[n].placements[k..];
      assert entries[n].placements == entries[n].placements[..k] + rest;
    }
  }

  /** `reserved` holds the placements submitted so far, all of them on known days, positive and distinct. */
  ghost predicate Reserved(reserved: set<Day>, sofar: seq<Day>) {
    && Distinct(sofar) && (forall x :: x in reserved <==> x in sofar)
    && (forall x | x in sofar :: x.day in DESTINATIONS && x.order > 0)
  }

  lemma TakenSpoils(active: set<AnimeId>, entries: seq<Entry>, i: nat, k: nat)
    requires i < |entries| && k < |entries[i].placements|
    requires var x := entries[i].placements[k];
             x in Submissions(entries[..i]) + entries[i].placements[..k] || x.day !in DESTINATIONS || x.order <= 0
    ensures !EntriesValid(active, entries)
  {
    var sofar, x := Submissions(entries[..i]) + entries[i].placements[..k], entries[i].placements[k];
    var rest := SubmissionsPrefix(entries, i, k + 1);
    assert Submissions(entries[..i]) + entries[i].placements[..k + 1] == sofar + [x];
    DistinctSnoc(sofar, x);
    if Distinct(Submissions(entries)) {
      PrefixDistinct(sofar + [x], rest);
    }
    assert x in Submissions(entries);
  }

  /** The placement loop of validateScheduleEntry, with validateSchedulePlacement and reserveSubmittedPosition. */
  method ValidatePlacements(ghost active: set<AnimeId>, entries: seq<Entry>, i: nat, reserved: set<Day>)
    returns (err: Option<DraftError>, reserved': set<Day>)
    requires i < |entries| && Reserved(reserved, Submissions(entries[..i]))
    ensures err.Some? ==> !EntriesValid(active, entries)
    ensures err.None? ==> Reserved(reserved', Submissions(entries[..i + 1]))
  {
    var placements := entries[i].placements;
    var seen: set<Day> := {};
    reserved' := reserved;
    assert Submissions(entries[..i]) + placements[..0] == Submissions(entries[..i]);
    for k := 0 to |placements|
      invariant Reserved(reserved', Submissions(entries[..i]) + placements[..k])
      invariant forall x :: x in seen <==> x in placements[..k]
    {
      var x := placements[k];
      ghost var sofar := Submissions(entries[..i]) + placements[..k];
      if x.day !in DESTINATIONS {
        TakenSpoils(active, entries, i, k);
        return Some(UnknownDestination(x.day)), reserved';
      }
      if x.order <= 0 {
        TakenSpoils(active, entries, i, k);
        return Some(InvalidOrder(x.order)), reserved';
      }
      if x in seen {
        TakenSpoils(active, entries, i, k);
        return Some(RepeatedPlacement(x)), reserved';
      }
      seen := seen + {x};
      if x in reserved' {
        TakenSpoils(active, entries, i, k);
        return Some(PositionTaken(x)), reserved';
      }
      reserved' := reserved' + {x};
      DistinctSnoc(sofar, x);
      assert Submissions(entries[..i]) + placements[..k + 1] == sofar + [x];
    }
    assert placements[..|placements|] == placements;
    assert entries[..i + 1][..i] == entries[..i];
    err := None;
  }

  /** The per-entry checks of validateScheduleDraft accept exactly the valid drafts. */
  method ValidateEntries(active: set<AnimeId>, entries: seq<Entry>) returns (err: Option<DraftError>)
    ensures err.None? <==> EntriesValid(active, entries)
  {
    var seen: set<AnimeId> := {};
    var reserved: set<Day> := {};
    for i := 0 to |entries|
      invariant forall j | 0 <= j < i :: entries[j].animeId in active
      invariant forall j, k | 0 <= j < k < i :: entries[j].animeId != entries[k].animeId
      invariant forall id :: id in seen <==> exists j :: 0 <= j < i && entries[j].animeId == id
      invariant Reserved(reserved, Submissions(entries[..i]))
    {
      if entries[i].animeId !in active {
        return Some(NotActive(entries[i].animeId));
      }
      if entries[i].animeId in seen {
        return Some(RepeatedAnime(entries[i].animeId));
      }
      seen := seen + {entries[i].animeId};
      err, reserved := ValidatePlacements(active, entries, i, reserved);
      if err.Some? {
        return;
      }
    }
    assert entries[..|entries|] == entries;
    err := None;
  }

  lemma FinalCheckAccepts(q: Placements, records: seq<Record>, entries: seq<Entry>)
    requires Normalizes(q, records, entries)
    ensures AllContiguous(q, Affected(records, entries)) <==> Accepted(records, entries)
  {
    var keys, ds :| Materializes(q, records, entries, keys, ds);
    var walk := Enumeration(q.Keys);
    FinalCheckExactly(q, records, entries, keys, ds, walk);
    ContiguousOnAnyWalk(q, walk, Affected(records, entries));
    AcceptedOnAnyWalk(records, entries, keys);
  }

  /** validateScheduleDraft: which drafts are accepted, whatever order Go walks its maps in. */
  method ValidateScheduleDraft(records: seq<Record>, entries: seq<Entry>) returns (err: Option<DraftError>)
    ensures err.None? <==> EntriesValid(ActiveIds(records), entries) && Accepted(records, entries)
  {
    err := ValidateEntries(ActiveIds(records), entries);
    if err.Some? {
      return;
    }
    var q := NormalizedSchedulePlacements(records, entries);
    var affected := AffectedScheduleDestinations(records, entries);
    var ok := ValidateAffectedScheduleDestinations(q, affected);
    FinalCheckAccepts(q, records, entries);
    err := if ok then None else Some(NotContiguous);
  }
}
