/** How one queue of the schedule board is put in order: the stable sort and the positional insertions of
    internal/anime/schedule_service_normalization.go. */
module ScheduleOrder {
  import opened Basics

  type AnimeId = string

  /** One placement inside a queue: whose it is, the order it asks for, and where it stands in its anime's list. */
  datatype Ref = Ref(animeId: AnimeId, order: int, index: nat)

  // ---------------------------------------------------------------- the order of the queue

  /** Byte order on identifiers, as Go compares strings. */
  predicate IdBelow(a: AnimeId, b: AnimeId) {
    if b == "" then false
    else if a == "" then true
    else a[0] < b[0] || (a[0] == b[0] && IdBelow(a[1..], b[1..]))
  }

  lemma {:induction false} IdTotal(a: AnimeId, b: AnimeId)
    ensures !IdBelow(a, a)
    ensures a == b || IdBelow(a, b) || IdBelow(b, a)
    ensures !(IdBelow(a, b) && IdBelow(b, a))
  {
    if a != "" {
      IdTotal(a[1..], a[1..]);
      if b != "" {
        IdTotal(a[1..], b[1..]);
        assert a == [a[0]] + a[1..] && b == [b[0]] + b[1..];
      }
    }
  }

  /** `a` and `b` agree on `n` bytes, and then `a` ends or has the smaller byte. */
  predicate BelowFrom(a: AnimeId, b: AnimeId, n: nat) {
    n <= |a| && n < |b| && a[..n] == b[..n] && (n == |a| || a[n] < b[n])
  }

  lemma {:induction false} IdBelowExactly(a: AnimeId, b: AnimeId)
    ensures IdBelow(a, b) <==> exists n: nat :: BelowFrom(a, b, n)
  {
    if b != "" && a == "" {
      assert BelowFrom(a, b, 0);
    } else if b != "" && a[0] < b[0] {
      assert BelowFrom(a, b, 0);
    } else if b != "" && a[0] == b[0] {
      IdBelowExactly(a[1..], b[1..]);
      assert a == [a[0]] + a[1..] && b == [b[0]] + b[1..];
      if n: nat :| BelowFrom(a[1..], b[1..], n) {
        assert a[..n + 1] == [a[0]] + a[1..][..n] && b[..n + 1] == [b[0]] + b[1..][..n];
        assert BelowFrom(a, b, n + 1);
      }
      if n: nat :| BelowFrom(a, b, n) {
        assert n > 0;
        assert a[1..][..n - 1] == a[..n][1..] && b[1..][..n - 1] == b[..n][1..];
        assert BelowFrom(a[1..], b[1..], n - 1);
      }
    } else if b != "" {
      forall n: nat ensures !BelowFrom(a, b, n) {
        assert n > 0 && n <= |a| && n <= |b| ==> a[..n][0] != b[..n][0];
      }
    }
  }

  lemma {:induction false} IdTransitive(a: AnimeId, b: AnimeId, c: AnimeId)
    requires IdBelow(a, b) && IdBelow(b, c)
    ensures IdBelow(a, c)
  {
    if a != "" && a[0] == b[0] == c[0] {
      IdTransitive(a[1..], b[1..], c[1..]);
    }
  }

  /** The comparison sortSchedulePlacementRefs sorts by. */
  predicate RefLess(a: Ref, b: Ref) {
    if a.order != b.order then a.order < b.order else IdBelow(a.animeId, b.animeId)
  }

  /** The comparison normalizeSchedulePlacementsMap sorts by: ties fall back to the index. */
  predicate RefBefore(a: Ref, b: Ref) {
    if a.order != b.order then a.order < b.order
    else if a.animeId != b.animeId then IdBelow(a.animeId, b.animeId)
    else a.index < b.index
  }

  lemma RefBeforeTotal(a: Ref, b: Ref)
    ensures !RefBefore(a, a) && !(RefBefore(a, b) && RefBefore(b, a))
    ensures a == b || RefBefore(a, b) || RefBefore(b, a)
    ensures RefLess(a, b) ==> RefBefore(a, b)
    ensures !RefLess(a, b) && !RefLess(b, a) ==> a.order == b.order && a.animeId == b.animeId
  {
    IdTotal(a.animeId, b.animeId);
  }

  lemma RefBeforeTransitive(a: Ref, b: Ref, c: Ref)
    requires RefBefore(a, b) && RefBefore(b, c)
    ensures RefBefore(a, c)
  {
    if a.order == b.order == c.order && a.animeId != b.animeId && b.animeId != c.animeId {
      IdTransitive(a.animeId, b.animeId, c.animeId);
      IdTotal(a.animeId, c.animeId);
    }
  }

  ghost predicate InOrder(refs: seq<Ref>) {
    forall i, j | 0 <= i < j < |refs| :: RefBefore(refs[i], refs[j])
  }

  lemma FirstIsLeast(a: seq<Ref>, y: Ref)
    requires InOrder(a) && |a| > 0 && y in multiset(a)
    ensures a[0] == y || RefBefore(a[0], y)
  {
  }

  lemma TailsPermute<T>(x: T, a: seq<T>, b: seq<T>)
    requires multiset([x] + a) == multiset([x] + b)
    ensures multiset(a) == multiset(b)
  {
    assert multiset(a) == multiset([x] + a) - multiset{x};
    assert multiset(b) == multiset([x] + b) - multiset{x};
  }

  /** A queue in order is determined by what is in it. */
  lemma {:induction false} InOrderUnique(a: seq<Ref>, b: seq<Ref>)
    requires InOrder(a) && InOrder(b) && multiset(a) == multiset(b)
    ensures a == b
  {
    assert |a| == |multiset(a)| == |multiset(b)| == |b|;
    if a != [] {
      var x, y := a[0], b[0];
      FirstIsLeast(a, y);
      FirstIsLeast(b, x);
      RefBeforeTotal(x, y);
      assert a == [x] + a[1..] && b == [x] + b[1..];
      TailsPermute(x, a[1..], b[1..]);
      InOrderUnique(a[1..], b[1..]);
    }
  }

  // ---------------------------------------------------------------- the stable sort

  /** Puts `x` before the first element that is not below it, so that equals keep their order. */
  function Place(x: Ref, sorted: seq<Ref>): seq<Ref> {
    if sorted == [] || !RefLess(sorted[0], x) then [x] + sorted
    else [sorted[0]] + Place(x, sorted[1..])
  }

  /** The stable sort by (order, anime). */
  function StableSort(refs: seq<Ref>): seq<Ref> {
    if refs == [] then [] else Place(refs[0], StableSort(refs[1..]))
  }

  lemma {:induction false} PlacePermutes(x: Ref, sorted: seq<Ref>)
    ensures multiset(Place(x, sorted)) == multiset(sorted) + multiset{x}
  {
    if !(sorted == [] || !RefLess(sorted[0], x)) {
      PlacePermutes(x, sorted[1..]);
      assert sorted == [sorted[0]] + sorted[1..];
    }
  }

  lemma {:induction false} StableSortPermutes(refs: seq<Ref>)
    ensures multiset(StableSort(refs)) == multiset(refs)
  {
    if refs != [] {
      StableSortPermutes(refs[1..]);
      PlacePermutes(refs[0], StableSort(refs[1..]));
      assert refs == [refs[0]] + refs[1..];
    }
  }

  /** The cards of one anime stand in the list in the order of their index: what walking the placements of one
      anime after another yields, whatever the order of the animes. */
  ghost predicate IndexesAscend(refs: seq<Ref>) {
    forall i, j | 0 <= i < j < |refs| && refs[i].animeId == refs[j].animeId :: refs[i].index < refs[j].index
  }

  lemma ConsInOrder(x: Ref, sorted: seq<Ref>)
    requires InOrder(sorted) && forall k | 0 <= k < |sorted| :: RefBefore(x, sorted[k])
    ensures InOrder([x] + sorted)
  {
  }

  lemma LeastInOrder(x: Ref, sorted: seq<Ref>)
    requires InOrder(sorted) && (sorted != [] ==> RefBefore(x, sorted[0]))
    ensures InOrder([x] + sorted)
  {
    forall k | 0 <= k < |sorted| ensures RefBefore(x, sorted[k]) {
      if k > 0 { RefBeforeTransitive(x, sorted[0], sorted[k]); }
    }
    ConsInOrder(x, sorted);
  }

  lemma {:induction false} PlaceInOrder(x: Ref, sorted: seq<Ref>)
    requires InOrder(sorted)
    requires forall y | y in sorted && y.animeId == x.animeId :: x.index < y.index
    ensures InOrder(Place(x, sorted))
  {
    if sorted == [] || !RefLess(sorted[0], x) {
      if sorted != [] { RefBeforeTotal(x, sorted[0]); RefBeforeTotal(sorted[0], x); }
      LeastInOrder(x, sorted);
    } else {
      RefBeforeTotal(sorted[0], x);
      PlaceInOrder(x, sorted[1..]);
      var rest := Place(x, sorted[1..]);
      forall k | 0 <= k < |rest| ensures RefBefore(sorted[0], rest[k]) {
        PlacePermutes(x, sorted[1..]);
        assert rest[k] in multiset(rest);
        assert rest[k] == x || rest[k] in sorted[1..];
      }
      ConsInOrder(sorted[0], rest);
    }
  }

  /** The stable sort by (order, anime) puts such a list in the full order, index included. */
  lemma {:induction false} StableSortInOrder(refs: seq<Ref>)
    requires IndexesAscend(refs)
    ensures InOrder(StableSort(refs))
  {
    if refs != [] {
      StableSortInOrder(refs[1..]);
      StableSortPermutes(refs[1..]);
      var sorted := StableSort(refs[1..]);
      forall y | y in sorted && y.animeId == refs[0].animeId ensures refs[0].index < y.index {
        assert y in multiset(sorted);
      }
      PlaceInOrder(refs[0], sorted);
    }
  }

  /** Such a queue reads by rising order, then by anime, then by place in the anime's own list. */
  lemma QueueReads(refs: seq<Ref>, i: nat, j: nat)
    requires IndexesAscend(refs) && i < j < |StableSort(refs)|
    ensures var a, b := StableSort(refs)[i], StableSort(refs)[j];
            || a.order < b.order
            || (a.order == b.order && IdBelow(a.animeId, b.animeId))
            || (a.order == b.order && a.animeId == b.animeId && a.index < b.index)
  {
    StableSortInOrder(refs);
  }

  /** Two walks over the same placements sort to the same queue, ties included. */
  lemma StableSortConfluent(a: seq<Ref>, b: seq<Ref>)
    requires IndexesAscend(a) && IndexesAscend(b) && multiset(a) == multiset(b)
    ensures StableSort(a) == StableSort(b)
  {
    StableSortInOrder(a);
    StableSortInOrder(b);
    StableSortPermutes(a);
    StableSortPermutes(b);
    InOrderUnique(StableSort(a), StableSort(b));
  }

  // ---------------------------------------------------------------- the sort with an index

  function PlaceFully(x: Ref, sorted: seq<Ref>): seq<Ref> {
    if sorted == [] || !RefBefore(sorted[0], x) then [x] + sorted
    else [sorted[0]] + PlaceFully(x, sorted[1..])
  }

  /** The stable sort by (order, anime, index). */
  function FullSort(refs: seq<Ref>): seq<Ref> {
    if refs == [] then [] else PlaceFully(refs[0], FullSort(refs[1..]))
  }

  lemma {:induction false} PlaceFullyAgrees(x: Ref, sorted: seq<Ref>)
    requires forall y | y in sorted && y.animeId == x.animeId :: x.index < y.index
    ensures PlaceFully(x, sorted) == Place(x, sorted)
  {
    if sorted != [] {
      RefBeforeTotal(sorted[0], x);
      assert sorted == [sorted[0]] + sorted[1..];
      PlaceFullyAgrees(x, sorted[1..]);
    }
  }

  /** Comparing the index as well changes nothing on a list gathered anime by anime. */
  lemma {:induction false} FullSortAgrees(refs: seq<Ref>)
    requires IndexesAscend(refs)
    ensures FullSort(refs) == StableSort(refs)
  {
    if refs != [] {
      FullSortAgrees(refs[1..]);
      StableSortPermutes(refs[1..]);
      var sorted := StableSort(refs[1..]);
      forall y | y in sorted && y.animeId == refs[0].animeId ensures refs[0].index < y.index {
        assert y in multiset(sorted);
      }
      PlaceFullyAgrees(refs[0], sorted);
    }
  }

  // ---------------------------------------------------------------- positional insertion

  function InsertionIndex(order: int, length: nat): (index: nat)
    ensures index <= length
  {
    Min(Max(order - 1, 0), length)
  }

  function InsertRef(refs: seq<Ref>, ref: Ref): seq<Ref> {
    var index := InsertionIndex(ref.order, |refs|);
    refs[..index] + [ref] + refs[index..]
  }

  /** Inserts `inserted` one after another. */
  function InsertAll(refs: seq<Ref>, inserted: seq<Ref>): seq<Ref>
    decreases |inserted|
  {
    if inserted == [] then refs else InsertAll(InsertRef(refs, inserted[0]), inserted[1..])
  }

  lemma {:induction false} InsertAllSnoc(refs: seq<Ref>, inserted: seq<Ref>, ref: Ref)
    ensures InsertAll(refs, inserted + [ref]) == InsertRef(InsertAll(refs, inserted), ref)
    decreases |inserted|
  {
    if inserted == [] {
      assert inserted + [ref] == [ref];
    } else {
      assert (inserted + [ref])[1..] == inserted[1..] + [ref];
      InsertAllSnoc(InsertRef(refs, inserted[0]), inserted[1..], ref);
    }
  }

  lemma {:induction false} InsertAllPermutes(refs: seq<Ref>, inserted: seq<Ref>)
    ensures multiset(InsertAll(refs, inserted)) == multiset(refs) + multiset(inserted)
    decreases |inserted|
  {
    if inserted != [] {
      var ref := inserted[0];
      var index := InsertionIndex(ref.order, |refs|);
      assert refs == refs[..index] + refs[index..];
      assert inserted == [ref] + inserted[1..];
      InsertAllPermutes(InsertRef(refs, ref), inserted[1..]);
    }
  }

  lemma {:induction false} InsertAllLength(refs: seq<Ref>, inserted: seq<Ref>)
    ensures |InsertAll(refs, inserted)| == |refs| + |inserted|
    decreases |inserted|
  {
    if inserted != [] {
      InsertAllLength(InsertRef(refs, inserted[0]), inserted[1..]);
    }
  }

  ghost predicate OrdersAscend(refs: seq<Ref>) {
    forall i, j | 0 <= i < j < |refs| :: refs[i].order < refs[j].order
  }

  ghost predicate AscendFromOne(refs: seq<Ref>) {
    OrdersAscend(refs) && (refs != [] ==> refs[0].order >= 1)
  }

  lemma InsertedStands(refs: seq<Ref>, ref: Ref)
    ensures |InsertRef(refs, ref)| == |refs| + 1
    ensures InsertRef(refs, ref)[InsertionIndex(ref.order, |refs|)] == ref
  {
  }

  lemma EarlierStands(refs: seq<Ref>, ref: Ref, k: nat)
    requires k < InsertionIndex(ref.order, |refs|)
    ensures |InsertRef(refs, ref)| == |refs| + 1 && InsertRef(refs, ref)[k] == refs[k]
  {
  }

  lemma OrderPositive(refs: seq<Ref>, i: nat)
    requires AscendFromOne(refs) && i < |refs|
    ensures refs[i].order >= 1
  {
    assert i > 0 ==> refs[0].order < refs[i].order;
  }

  /** `queue` has the i-th card of `moved` (from 0) at index min(order - 1, count + i). */
  ghost predicate StandAt(queue: seq<Ref>, moved: seq<Ref>, count: nat) {
    forall i | 0 <= i < |moved| ::
      var at := Min(moved[i].order - 1, count + i); 0 <= at < |queue| && queue[at] == moved[i]
  }

  /** A later insertion lands behind the ones before it and displaces none of them. */
  lemma StandsAfter(soFar: seq<Ref>, before: seq<Ref>, last: Ref, count: nat)
    requires StandAt(soFar, before, count) && |soFar| == count + |before| && AscendFromOne(before + [last])
    ensures StandAt(InsertRef(soFar, last), before + [last], count)
  {
    var inserted := before + [last];
    OrderPositive(inserted, |before|);
    InsertedStands(soFar, last);
    forall i | 0 <= i < |before|
      ensures var at := Min(before[i].order - 1, count + i); 0 <= at < |soFar| && InsertRef(soFar, last)[at] == before[i]
    {
      assert inserted[i].order < inserted[|before|].order;
      EarlierStands(soFar, last, Min(before[i].order - 1, count + i));
    }
  }

  lemma {:induction false} FinalPositions(refs: seq<Ref>, inserted: seq<Ref>)
    requires AscendFromOne(inserted)
    ensures StandAt(InsertAll(refs, inserted), inserted, |refs|)
    decreases |inserted|
  {
    if inserted != [] {
      var before, last := inserted[..|inserted| - 1], inserted[|inserted| - 1];
      assert inserted == before + [last];
      FinalPositions(refs, before);
      InsertAllLength(refs, before);
      InsertAllSnoc(refs, before, last);
      StandsAfter(InsertAll(refs, before), before, last, |refs|);
    }
  }

  /** The cards that are not of a changed anime, in the order they stand. */
  function Unmoved(refs: seq<Ref>, changed: set<AnimeId>): seq<Ref> {
    if refs == [] then []
    else (if refs[0].animeId in changed then [] else [refs[0]]) + Unmoved(refs[1..], changed)
  }

  function Moved(refs: seq<Ref>, changed: set<AnimeId>): seq<Ref> {
    if refs == [] then []
    else (if refs[0].animeId in changed then [refs[0]] else []) + Moved(refs[1..], changed)
  }

  lemma {:induction false} UnmovedConcat(a: seq<Ref>, b: seq<Ref>, changed: set<AnimeId>)
    ensures Unmoved(a + b, changed) == Unmoved(a, changed) + Unmoved(b, changed)
  {
    if a == [] {
      assert a + b == b;
    } else {
      assert (a + b)[1..] == a[1..] + b;
      UnmovedConcat(a[1..], b, changed);
      var head := if a[0].animeId in changed then [] else [a[0]];
      assert (head + Unmoved(a[1..], changed)) + Unmoved(b, changed) == head + (Unmoved(a[1..], changed) + Unmoved(b, changed));
    }
  }

  lemma {:induction false} MovedConcat(a: seq<Ref>, b: seq<Ref>, changed: set<AnimeId>)
    ensures Moved(a + b, changed) == Moved(a, changed) + Moved(b, changed)
  {
    if a == [] {
      assert a + b == b;
    } else {
      assert (a + b)[1..] == a[1..] + b;
      MovedConcat(a[1..], b, changed);
      var head := if a[0].animeId in changed then [a[0]] else [];
      assert (head + Moved(a[1..], changed)) + Moved(b, changed) == head + (Moved(a[1..], changed) + Moved(b, changed));
    }
  }

  lemma {:induction false} PartitionMembers(refs: seq<Ref>, changed: set<AnimeId>)
    ensures multiset(Unmoved(refs, changed)) + multiset(Moved(refs, changed)) == multiset(refs)
    ensures forall r :: r in Unmoved(refs, changed) <==> r in refs && r.animeId !in changed
    ensures forall r :: r in Moved(refs, changed) <==> r in refs && r.animeId in changed
  {
    if refs != [] {
      PartitionMembers(refs[1..], changed);
      assert refs == [refs[0]] + refs[1..];
    }
  }

  lemma {:induction false} PartitionIndexesAscend(refs: seq<Ref>, changed: set<AnimeId>)
    requires IndexesAscend(refs)
    ensures IndexesAscend(Unmoved(refs, changed)) && IndexesAscend(Moved(refs, changed))
  {
    if refs != [] {
      var x, rest := refs[0], refs[1..];
      PartitionIndexesAscend(rest, changed);
      PartitionMembers(rest, changed);
      ConsAscends(x, Unmoved(rest, changed));
      ConsAscends(x, Moved(rest, changed));
    }
  }

  lemma ConsAscends(x: Ref, rest: seq<Ref>)
    ensures IndexesAscend(rest) && (forall r | r in rest && r.animeId == x.animeId :: x.index < r.index)
            ==> IndexesAscend([x] + rest)
  {
  }

  lemma {:induction false} AllUnmoved(refs: seq<Ref>, changed: set<AnimeId>)
    requires forall r | r in refs :: r.animeId !in changed
    ensures Unmoved(refs, changed) == refs && Moved(refs, changed) == []
  {
    if refs != [] {
      assert forall r | r in refs[1..] :: r in refs;
      AllUnmoved(refs[1..], changed);
    }
  }

  lemma InsertionKeepsTheRest(refs: seq<Ref>, ref: Ref, changed: set<AnimeId>)
    requires ref.animeId in changed
    ensures Unmoved(InsertRef(refs, ref), changed) == Unmoved(refs, changed)
  {
    var index := InsertionIndex(ref.order, |refs|);
    assert refs == refs[..index] + refs[index..];
    UnmovedConcat(refs[..index], refs[index..], changed);
    UnmovedConcat(refs[..index] + [ref], refs[index..], changed);
    UnmovedConcat(refs[..index], [ref], changed);
    assert Unmoved([ref], changed) == [];
  }

  /** Inserting moved cards leaves the others in the order they had. */
  lemma {:induction false} InsertionsKeepTheRest(refs: seq<Ref>, inserted: seq<Ref>, changed: set<AnimeId>)
    requires forall r | r in inserted :: r.animeId in changed
    ensures Unmoved(InsertAll(refs, inserted), changed) == Unmoved(refs, changed)
    decreases |inserted|
  {
    if inserted != [] {
      InsertionKeepsTheRest(refs, inserted[0], changed);
      assert forall r | r in inserted[1..] :: r in inserted;
      InsertionsKeepTheRest(InsertRef(refs, inserted[0]), inserted[1..], changed);
    }
  }

  // ---------------------------------------------------------------- the merged queue

  /** mergeDraftDestinationRefs: the unchanged cards sorted, then the moved ones inserted by ascending order. */
  function MergeQueue(refs: seq<Ref>, changed: set<AnimeId>): seq<Ref> {
    InsertAll(StableSort(Unmoved(refs, changed)), StableSort(Moved(refs, changed)))
  }

  lemma MergePermutes(refs: seq<Ref>, changed: set<AnimeId>)
    ensures multiset(MergeQueue(refs, changed)) == multiset(refs)
  {
    StableSortPermutes(Unmoved(refs, changed));
    StableSortPermutes(Moved(refs, changed));
    InsertAllPermutes(StableSort(Unmoved(refs, changed)), StableSort(Moved(refs, changed)));
    PartitionMembers(refs, changed);
  }

  lemma MergeLength(refs: seq<Ref>, changed: set<AnimeId>)
    ensures |MergeQueue(refs, changed)| == |refs|
  {
    MergePermutes(refs, changed);
    assert |MergeQueue(refs, changed)| == |multiset(MergeQueue(refs, changed))|;
  }

  /** The merged queue does not depend on the order in which its cards were gathered. */
  lemma MergeConfluent(a: seq<Ref>, b: seq<Ref>, changed: set<AnimeId>)
    requires IndexesAscend(a) && IndexesAscend(b) && multiset(a) == multiset(b)
    ensures MergeQueue(a, changed) == MergeQueue(b, changed)
  {
    PartitionIndexesAscend(a, changed);
    PartitionIndexesAscend(b, changed);
    PartitionCounts(a, b, changed);
    StableSortConfluent(Unmoved(a, changed), Unmoved(b, changed));
    StableSortConfluent(Moved(a, changed), Moved(b, changed));
  }

  lemma PartitionCounts(a: seq<Ref>, b: seq<Ref>, changed: set<AnimeId>)
    requires multiset(a) == multiset(b)
    ensures multiset(Unmoved(a, changed)) == multiset(Unmoved(b, changed))
    ensures multiset(Moved(a, changed)) == multiset(Moved(b, changed))
  {
    forall r
      ensures multiset(Unmoved(a, changed))[r] == multiset(Unmoved(b, changed))[r]
      ensures multiset(Moved(a, changed))[r] == multiset(Moved(b, changed))[r]
    {
      PartitionCount(a, changed, r);
      PartitionCount(b, changed, r);
    }
  }

  lemma {:induction false} PartitionCount(a: seq<Ref>, changed: set<AnimeId>, r: Ref)
    ensures multiset(Unmoved(a, changed))[r] == if r.animeId in changed then 0 else multiset(a)[r]
    ensures multiset(Moved(a, changed))[r] == if r.animeId in changed then multiset(a)[r] else 0
  {
    if a != [] {
      PartitionCount(a[1..], changed, r);
      assert a == [a[0]] + a[1..];
    }
  }

  /** The unchanged cards of a merged queue stand in their own order. */
  lemma MergeKeepsTheRest(refs: seq<Ref>, changed: set<AnimeId>)
    requires IndexesAscend(refs)
    ensures Unmoved(MergeQueue(refs, changed), changed) == StableSort(Unmoved(refs, changed))
    ensures InOrder(StableSort(Unmoved(refs, changed)))
  {
    PartsSorted(refs, changed);
    var moved, rest := StableSort(Moved(refs, changed)), StableSort(Unmoved(refs, changed));
    AllUnmoved(rest, changed);
    InsertionsKeepTheRest(rest, moved, changed);
  }

  ghost predicate DistinctPositiveOrders(refs: seq<Ref>) {
    && (forall r | r in refs :: r.order >= 1)
    && (forall i, j | 0 <= i < j < |refs| :: refs[i].order != refs[j].order)
  }

  /** Where the moved cards end up, when they ask for distinct positive orders: the i-th of them (from 0, by
      ascending order) at index min(order - 1, |unchanged| + i). */
  lemma MergePositions(refs: seq<Ref>, changed: set<AnimeId>)
    requires AscendFromOne(StableSort(Moved(refs, changed)))
    ensures StandAt(MergeQueue(refs, changed), StableSort(Moved(refs, changed)), |Unmoved(refs, changed)|)
  {
    StableSortLength(Unmoved(refs, changed));
    FinalPositions(StableSort(Unmoved(refs, changed)), StableSort(Moved(refs, changed)));
  }

  lemma StableSortLength(refs: seq<Ref>)
    ensures |StableSort(refs)| == |refs|
  {
    StableSortPermutes(refs);
    assert |StableSort(refs)| == |multiset(StableSort(refs))|;
  }

  lemma MovedOrdersAscend(refs: seq<Ref>, changed: set<AnimeId>)
    requires IndexesAscend(refs) && DistinctPositiveOrders(Moved(refs, changed))
    ensures AscendFromOne(StableSort(Moved(refs, changed)))
  {
    var moved := StableSort(Moved(refs, changed));
    PartsSorted(refs, changed);
    DistinctOrdersAscend(Moved(refs, changed), moved);
    if moved != [] {
      assert moved[0] in moved;
    }
  }

  lemma PartsSorted(refs: seq<Ref>, changed: set<AnimeId>)
    requires IndexesAscend(refs)
    ensures var moved, rest := StableSort(Moved(refs, changed)), StableSort(Unmoved(refs, changed));
            && InOrder(moved) && InOrder(rest)
            && multiset(moved) == multiset(Moved(refs, changed))
            && (forall r | r in moved :: r in Moved(refs, changed) && r.animeId in changed)
            && (forall r | r in rest :: r.animeId !in changed)
  {
    var moved, rest := StableSort(Moved(refs, changed)), StableSort(Unmoved(refs, changed));
    PartitionIndexesAscend(refs, changed);
    StableSortInOrder(Moved(refs, changed));
    StableSortInOrder(Unmoved(refs, changed));
    StableSortPermutes(Moved(refs, changed));
    StableSortPermutes(Unmoved(refs, changed));
    PartitionMembers(refs, changed);
    forall r | r in moved ensures r in Moved(refs, changed) { assert r in multiset(moved); }
    forall r | r in rest ensures r in Unmoved(refs, changed) { assert r in multiset(rest); }
  }

  lemma DistinctOrdersAscend(refs: seq<Ref>, sorted: seq<Ref>)
    requires InOrder(sorted) && multiset(sorted) == multiset(refs)
    requires forall i, j | 0 <= i < j < |refs| :: refs[i].order != refs[j].order
    ensures OrdersAscend(sorted)
  {
    forall i, j | 0 <= i < j < |sorted| ensures sorted[i].order < sorted[j].order {
      assert RefBefore(sorted[i], sorted[j]);
      RefBeforeTotal(sorted[i], sorted[j]);
      assert sorted[i] in multiset(refs) && sorted[j] in multiset(refs);
      var a :| 0 <= a < |refs| && refs[a] == sorted[i];
      var b :| 0 <= b < |refs| && refs[b] == sorted[j];
      assert a != b;
    }
  }

  /** Where no card was moved, the merged queue is the sorted one. */
  lemma MergeWithoutMoves(refs: seq<Ref>, changed: set<AnimeId>)
    requires forall r | r in refs :: r.animeId !in changed
    ensures MergeQueue(refs, changed) == StableSort(refs)
  {
    AllUnmoved(refs, changed);
  }
}
