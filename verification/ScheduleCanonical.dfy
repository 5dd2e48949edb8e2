/** Canonicalizing a whole board (normalizeSchedulePlacementsMap in
    internal/anime/schedule_service_normalization.go). */
module ScheduleCanonical {
  import opened Basics
  import opened ScheduleOrder
  import opened ScheduleBoard

  /** normalizeSchedulePlacementsMap: every known queue, sorted by (order, anime, index). */
  function CanonicalQueues(p: Placements, keys: seq<AnimeId>): map<string, seq<Ref>> {
    map d | d in DESTINATIONS :: FullSort(Gather(p, keys, d))
  }

  /** `q` is the canonical form of `p` when Go happens to walk the animes as `keys`. */
  ghost predicate Canonicalizes(q: Placements, p: Placements, keys: seq<AnimeId>) {
    && Enumerates(keys, p.Keys)
    && (forall id {:trigger Rebuilt(p, Allowed(), DESTINATIONS, CanonicalQueues(p, keys), id)} ::
          Get(q, id) == Rebuilt(p, Allowed(), DESTINATIONS, CanonicalQueues(p, keys), id))
    && (forall id | id in q :: q[id] != [])
  }

  /** ... for some such walk; they all give one board (CanonicalConfluent). */
  ghost predicate IsCanonical(q: Placements, p: Placements) {
    exists keys :: Canonicalizes(q, p, keys)
  }

  lemma DestinationsDistinct()
    ensures Distinct(DESTINATIONS) && Enumerates(DESTINATIONS, Allowed())
  {
    var all := DESTINATIONS;
    assert all[0][0] == 'L' && all[1][1] == 'a' && all[2][1] == 'i' && all[3][0] == 'J' && all[4][2] == 'e';
    assert all[5][0] == 'S' && all[5][1] == 'á' && all[6][0] == 'D' && all[7][1] == 'i' && all[8][2] == 'r' && all[9][2] == 's';
    assert all[1][0] == all[2][0] == 'M' && all[4][0] == all[8][0] == all[9][0] == 'V' && all[7][0] == 'S';
  }

  lemma CanonicalQueue(p: Placements, keys: seq<AnimeId>, d: string)
    requires Distinct(keys)
    ensures FullSort(Gather(p, keys, d)) == StableSort(Gather(p, keys, d))
    ensures multiset(FullSort(Gather(p, keys, d))) == multiset(Gather(p, keys, d))
    ensures InOrder(FullSort(Gather(p, keys, d)))
  {
    GatherAscends(p, keys, d);
    FullSortAgrees(Gather(p, keys, d));
    StableSortPermutes(Gather(p, keys, d));
    StableSortInOrder(Gather(p, keys, d));
  }

  /** The canonical board is one board, list order included, whatever order Go walks the map in. */
  lemma CanonicalConfluent(q1: Placements, q2: Placements, p: Placements, keys1: seq<AnimeId>, keys2: seq<AnimeId>)
    requires Canonicalizes(q1, p, keys1) && Canonicalizes(q2, p, keys2)
    ensures q1 == q2
  {
    forall d | d in DESTINATIONS ensures FullSort(Gather(p, keys1, d)) == FullSort(Gather(p, keys2, d)) {
      CanonicalQueue(p, keys1, d);
      CanonicalQueue(p, keys2, d);
      GatherConfluent(p, keys1, keys2, d);
      StableSortConfluent(Gather(p, keys1, d), Gather(p, keys2, d));
    }
    assert CanonicalQueues(p, keys1) == CanonicalQueues(p, keys2);
    forall id ensures Get(q1, id) == Get(q2, id) && (id in q1 <==> id in q2) {
      assert Get(q1, id) == Rebuilt(p, Allowed(), DESTINATIONS, CanonicalQueues(p, keys1), id) == Get(q2, id);
      assert id in q1 <==> Get(q1, id) != [];
      assert id in q2 <==> Get(q2, id) != [];
    }
    assert forall id | id in q1 :: q1[id] == Get(q1, id) == Get(q2, id) == q2[id];
  }

  /** Day by day: a known day is numbered by its sorted queue, an unknown one is left alone, and no card is lost. */
  lemma CanonicalOnDay(q: Placements, p: Placements, keys: seq<AnimeId>, id: AnimeId, d: string)
    requires Canonicalizes(q, p, keys)
    ensures OnDay(Get(q, id), d) == if d in DESTINATIONS then Numbered(id, d, FullSort(Gather(p, keys, d)), 0) else OnDay(Get(p, id), d)
    ensures |OnDay(Get(q, id), d)| == |OnDay(Get(p, id), d)|
  {
    DestinationsDistinct();
    RebuiltOnDay(p, Allowed(), DESTINATIONS, CanonicalQueues(p, keys), id, d);
    forall e | e in DESTINATIONS ensures multiset(FullSort(Gather(p, keys, e))) == multiset(Gather(p, keys, e)) {
      CanonicalQueue(p, keys, e);
    }
    RebuildConserves(p, keys, Allowed(), DESTINATIONS, CanonicalQueues(p, keys), id, d);
  }

  /** On a day where a draft moves nothing, the draft's queue and the canonical one are the same. */
  lemma CanonicalAgreesWithDraft(p: Placements, keys: seq<AnimeId>, changed: set<AnimeId>, d: string)
    requires Distinct(keys) && forall id | id in changed :: OnDay(Get(p, id), d) == []
    ensures MergeQueue(Gather(p, keys, d), changed) == FullSort(Gather(p, keys, d))
  {
    CanonicalQueue(p, keys, d);
    forall r | r in Gather(p, keys, d) ensures r.animeId !in changed {
      GatherMembers(p, keys, d, r);
      OnDayMembers(Get(p, r.animeId), d, Day(d, r.order));
    }
    MergeWithoutMoves(Gather(p, keys, d), changed);
  }

  // ---------------------------------------------------------------- once is enough

  function OrderFn(): Ref -> seq<int> {
    (r: Ref) => [r.order]
  }

  /** The orders of a queue, in its order. */
  function RefOrders(refs: seq<Ref>): seq<int> {
    Flat(refs, OrderFn())
  }

  lemma {:induction false} RefOrdersAt(refs: seq<Ref>)
    ensures |RefOrders(refs)| == |refs| && forall i | 0 <= i < |refs| :: RefOrders(refs)[i] == refs[i].order
  {
    if refs != [] {
      RefOrdersAt(refs[1..]);
    }
  }

  lemma {:induction false} RefOrdersOfOne(id: AnimeId, days: seq<Day>, d: string, from: nat)
    ensures RefOrders(RefsOf(id, days, d, from)) == Orders(OnDay(days, d))
  {
    if days != [] {
      RefOrdersOfOne(id, days[1..], d, from + 1);
      if days[0].day == d {
        assert ([Ref(id, days[0].order, from)] + RefsOf(id, days[1..], d, from + 1))[1..] == RefsOf(id, days[1..], d, from + 1);
        assert ([days[0]] + OnDay(days[1..], d))[1..] == OnDay(days[1..], d);
      } else {
        assert RefsOf(id, days, d, from) == RefsOf(id, days[1..], d, from + 1);
        assert OnDay(days, d) == OnDay(days[1..], d);
      }
    }
  }

  lemma {:induction false} GatherOrders(p: Placements, keys: seq<AnimeId>, d: string)
    ensures RefOrders(Gather(p, keys, d)) == Positions(p, keys, d)
  {
    if keys != [] {
      GatherOrders(p, keys[1..], d);
      RefOrdersOfOne(keys[0], Get(p, keys[0]), d, 0);
      FlatConcat(RefsFn(p, d)(keys[0]), Gather(p, keys[1..], d), OrderFn());
    }
  }

  lemma AscendingIsDistinct(refs: seq<Ref>)
    requires IndexesAscend(refs)
    ensures Distinct(refs)
  {
  }

  lemma InOrderIsDistinct(refs: seq<Ref>)
    requires InOrder(refs)
    ensures Distinct(refs)
  {
    forall i, j | 0 <= i < j < |refs| ensures refs[i] != refs[j] {
      RefBeforeTotal(refs[i], refs[j]);
    }
  }

  ghost predicate Ascends(s: seq<int>) {
    forall i, j | 0 <= i < j < |s| :: s[i] <= s[j]
  }

  lemma LeastFirst(a: seq<int>, y: int)
    requires Ascends(a) && |a| > 0 && y in multiset(a)
    ensures a[0] <= y
  {
  }

  lemma SameLeast(a: seq<int>, b: seq<int>)
    requires Ascends(a) && Ascends(b) && |a| > 0 && |b| > 0 && multiset(a) == multiset(b)
    ensures a[0] == b[0]
  {
    assert a[0] in multiset(a) && b[0] in multiset(b);
    LeastFirst(a, b[0]);
    LeastFirst(b, a[0]);
  }

  lemma {:induction false} AscendingUnique(a: seq<int>, b: seq<int>)
    requires Ascends(a) && Ascends(b) && multiset(a) == multiset(b)
    ensures a == b
  {
    SameSize(a, b);
    if a != [] {
      SameLeast(a, b);
      var x, s, t := a[0], a[1..], b[1..];
      assert a == [x] + s && b == [x] + t;
      TailsPermute(x, s, t);
      AscendingUnique(s, t);
    }
  }

  lemma SortedOrdersAscend(refs: seq<Ref>)
    requires InOrder(refs)
    ensures Ascends(RefOrders(refs))
  {
    RefOrdersAt(refs);
    forall i, j | 0 <= i < j < |refs| ensures RefOrders(refs)[i] <= RefOrders(refs)[j] {
      assert RefBefore(refs[i], refs[j]);
    }
  }

  lemma OrdersPermute(a: seq<Ref>, b: seq<Ref>)
    requires Distinct(a) && Distinct(b) && multiset(a) == multiset(b)
    ensures multiset(RefOrders(a)) == multiset(RefOrders(b))
  {
    forall r ensures r in a <==> r in b {
      assert r in a <==> r in multiset(a);
      assert r in b <==> r in multiset(b);
    }
    FlatPermutes(a, b, OrderFn());
  }

  lemma SortedOrders(q: Placements, walk: seq<AnimeId>, d: string)
    requires Distinct(walk)
    ensures multiset(RefOrders(FullSort(Gather(q, walk, d)))) == multiset(Positions(q, walk, d))
    ensures Ascends(RefOrders(FullSort(Gather(q, walk, d))))
  {
    CanonicalQueue(q, walk, d);
    GatherAscends(q, walk, d);
    AscendingIsDistinct(Gather(q, walk, d));
    InOrderIsDistinct(FullSort(Gather(q, walk, d)));
    OrdersPermute(FullSort(Gather(q, walk, d)), Gather(q, walk, d));
    GatherOrders(q, walk, d);
    SortedOrdersAscend(FullSort(Gather(q, walk, d)));
  }

  /** The queue of a day that is already numbered by `queue` reads 1, 2, 3, ... */
  lemma RequeuedOrders(q: Placements, walk: seq<AnimeId>, d: string, queue: seq<Ref>)
    requires NumberedBy(q, d, queue) && Enumerates(walk, q.Keys)
    ensures RefOrders(FullSort(Gather(q, walk, d))) == OneTo(|queue|)
  {
    NumberedWalk(q, d, queue, walk);
    SortedOrders(q, walk, d);
    AscendingUnique(RefOrders(FullSort(Gather(q, walk, d))), OneTo(|queue|));
  }

  lemma SortedMember(q: Placements, walk: seq<AnimeId>, d: string, i: nat)
    requires Distinct(walk) && i < |FullSort(Gather(q, walk, d))|
    ensures var r := FullSort(Gather(q, walk, d))[i]; Day(d, r.order) in Get(q, r.animeId)
  {
    CanonicalQueue(q, walk, d);
    var r := FullSort(Gather(q, walk, d))[i];
    assert r in multiset(FullSort(Gather(q, walk, d)));
    GatherMembers(q, walk, d, r);
  }

  lemma OwnerOf(q: Placements, d: string, queue: seq<Ref>, id: AnimeId, order: int)
    requires NumberedBy(q, d, queue) && Day(d, order) in Get(q, id)
    ensures 1 <= order <= |queue| && queue[order - 1].animeId == id
  {
    OnDayMembers(Get(q, id), d, Day(d, order));
    assert OnDay(Get(q, id), d) == Numbered(id, d, queue, 0);
    NumberedAt(id, d, queue, 0, Day(d, order));
  }

  lemma RequeuedOwner(q: Placements, walk: seq<AnimeId>, d: string, queue: seq<Ref>, i: nat)
    requires NumberedBy(q, d, queue) && Distinct(walk)
    requires i < |FullSort(Gather(q, walk, d))| && FullSort(Gather(q, walk, d))[i].order == i + 1
    ensures i < |queue| && queue[i].animeId == FullSort(Gather(q, walk, d))[i].animeId
  {
    SortedMember(q, walk, d, i);
    OwnerOf(q, d, queue, FullSort(Gather(q, walk, d))[i].animeId, i + 1);
  }

  lemma RequeuedOrderAt(again: seq<Ref>, n: nat, i: nat)
    requires RefOrders(again) == OneTo(n) && i < n
    ensures |again| == n && again[i].order == i + 1
  {
    RefOrdersAt(again);
    assert RefOrders(again)[i] == OneTo(n)[i];
  }

  /** ... and belongs, position by position, to the same animes. */
  lemma RequeuedOwners(q: Placements, walk: seq<AnimeId>, d: string, queue: seq<Ref>)
    requires NumberedBy(q, d, queue) && Enumerates(walk, q.Keys)
    ensures var again := FullSort(Gather(q, walk, d));
            |again| == |queue| && forall i | 0 <= i < |queue| :: again[i].animeId == queue[i].animeId
  {
    var again := FullSort(Gather(q, walk, d));
    RequeuedOrders(q, walk, d, queue);
    RefOrdersAt(again);
    assert |again| == |OneTo(|queue|)| == |queue|;
    forall i | 0 <= i < |queue| ensures again[i].animeId == queue[i].animeId {
      RequeuedOrderAt(again, |queue|, i);
      RequeuedOwner(q, walk, d, queue, i);
    }
  }

  lemma {:induction false} NumberedByOwners(id: AnimeId, d: string, a: seq<Ref>, b: seq<Ref>, from: nat)
    requires |a| == |b| && forall i | 0 <= i < |a| :: a[i].animeId == b[i].animeId
    ensures Numbered(id, d, a, from) == Numbered(id, d, b, from)
  {
    if a != [] {
      NumberedByOwners(id, d, a[1..], b[1..], from + 1);
    }
  }

  lemma RequeuedNumbers(q: Placements, walk: seq<AnimeId>, d: string, queue: seq<Ref>, id: AnimeId)
    requires NumberedBy(q, d, queue) && Enumerates(walk, q.Keys)
    ensures Numbered(id, d, FullSort(Gather(q, walk, d)), 0) == Numbered(id, d, queue, 0)
  {
    RequeuedOwners(q, walk, d, queue);
    NumberedByOwners(id, d, FullSort(Gather(q, walk, d)), queue, 0);
  }

  lemma {:induction false} KeptConcat(a: seq<Day>, b: seq<Day>, reflow: set<string>)
    ensures Kept(a + b, reflow) == Kept(a, reflow) + Kept(b, reflow)
  {
    if a == [] {
      assert a + b == b;
    } else {
      assert (a + b)[1..] == a[1..] + b;
      KeptConcat(a[1..], b, reflow);
    }
  }

  lemma {:induction false} KeptTwice(days: seq<Day>, reflow: set<string>)
    ensures Kept(Kept(days, reflow), reflow) == Kept(days, reflow)
  {
    if days != [] {
      KeptTwice(days[1..], reflow);
      KeptConcat(if days[0].day in reflow then [] else [days[0]], Kept(days[1..], reflow), reflow);
    }
  }

  lemma {:induction false} KeptOfNumbered(id: AnimeId, d: string, queue: seq<Ref>, from: nat, reflow: set<string>)
    requires d in reflow
    ensures Kept(Numbered(id, d, queue, from), reflow) == []
  {
    if queue != [] {
      KeptOfNumbered(id, d, queue[1..], from + 1, reflow);
      KeptConcat(if queue[0].animeId == id then [Day(d, from + 1)] else [], Numbered(id, d, queue[1..], from + 1), reflow);
    }
  }

  lemma {:induction false} KeptOfFlat(ds: seq<string>, queues: map<string, seq<Ref>>, id: AnimeId, reflow: set<string>)
    requires forall d | d in ds :: d in reflow
    ensures Kept(Flat(ds, NumberedFn(id, queues)), reflow) == []
  {
    if ds != [] {
      assert ds == [ds[0]] + ds[1..];
      KeptOfFlat(ds[1..], queues, id, reflow);
      KeptConcat(NumberedFn(id, queues)(ds[0]), Flat(ds[1..], NumberedFn(id, queues)), reflow);
      if ds[0] in queues {
        KeptOfNumbered(id, ds[0], queues[ds[0]], 0, reflow);
      }
    }
  }

  lemma {:induction false} FlatAgrees<K, V>(keys: seq<K>, f: K -> seq<V>, g: K -> seq<V>)
    requires forall k | k in keys :: f(k) == g(k)
    ensures Flat(keys, f) == Flat(keys, g)
  {
    if keys != [] {
      assert keys == [keys[0]] + keys[1..];
      FlatAgrees(keys[1..], f, g);
    }
  }

  /** Canonicalizing a canonical board changes nothing at all. */
  lemma CanonicalIdempotent(q: Placements, p: Placements, keys: seq<AnimeId>, r: Placements, walk: seq<AnimeId>)
    requires Canonicalizes(q, p, keys) && Canonicalizes(r, q, walk)
    ensures r == q
  {
    forall id ensures Get(r, id) == Get(q, id) {
      CanonicalAgain(q, p, keys, walk, id);
      assert Get(r, id) == Rebuilt(q, Allowed(), DESTINATIONS, CanonicalQueues(q, walk), id);
    }
    forall id ensures id in r <==> id in q {
      assert id in r <==> Get(r, id) != [];
      assert id in q <==> Get(q, id) != [];
    }
    assert forall id | id in r :: r[id] == Get(r, id) == Get(q, id) == q[id];
  }

  lemma KeptOfRebuilt(p: Placements, queues: map<string, seq<Ref>>, id: AnimeId)
    ensures Kept(Rebuilt(p, Allowed(), DESTINATIONS, queues, id), Allowed()) == Kept(Get(p, id), Allowed())
  {
    KeptConcat(Kept(Get(p, id), Allowed()), Flat(DESTINATIONS, NumberedFn(id, queues)), Allowed());
    KeptTwice(Get(p, id), Allowed());
    KeptOfFlat(DESTINATIONS, queues, id, Allowed());
  }

  lemma CanonicalIsNumbered(q: Placements, p: Placements, keys: seq<AnimeId>, d: string)
    requires Canonicalizes(q, p, keys) && d in DESTINATIONS
    ensures NumberedBy(q, d, CanonicalQueues(p, keys)[d])
  {
    forall a ensures OnDay(Get(q, a), d) == Numbered(a, d, CanonicalQueues(p, keys)[d], 0) {
      CanonicalOnDay(q, p, keys, a, d);
    }
  }

  lemma CanonicalAgain(q: Placements, p: Placements, keys: seq<AnimeId>, walk: seq<AnimeId>, id: AnimeId)
    requires Canonicalizes(q, p, keys) && Enumerates(walk, q.Keys)
    ensures Rebuilt(q, Allowed(), DESTINATIONS, CanonicalQueues(q, walk), id) == Get(q, id)
  {
    assert Get(q, id) == Rebuilt(p, Allowed(), DESTINATIONS, CanonicalQueues(p, keys), id);
    KeptOfRebuilt(p, CanonicalQueues(p, keys), id);
    forall d | d in DESTINATIONS
      ensures NumberedFn(id, CanonicalQueues(q, walk))(d) == NumberedFn(id, CanonicalQueues(p, keys))(d)
    {
      CanonicalIsNumbered(q, p, keys, d);
      RequeuedNumbers(q, walk, d, CanonicalQueues(p, keys)[d], id);
    }
    FlatAgrees(DESTINATIONS, NumberedFn(id, CanonicalQueues(q, walk)), NumberedFn(id, CanonicalQueues(p, keys)));
  }
}
