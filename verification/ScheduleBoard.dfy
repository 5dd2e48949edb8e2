/** What rebuilding queues does to a whole board: gathering, renumbering, and the days left alone
    (internal/anime/schedule_service_normalization.go). */
module ScheduleBoard {
  import opened Basics
  import opened ScheduleOrder

  datatype Day = Day(day: string, order: int)

  type Placements = map<AnimeId, seq<Day>>

  const DESTINATIONS: seq<string> :=
    ["Lunes", "Martes", "Miércoles", "Jueves", "Viernes", "Sábado", "Domingo", "Sin ver", "Ver hoy", "Visto"]

  ghost function Allowed(): set<string> {
    set d | d in DESTINATIONS
  }

  /** Reading a Go map: a missing anime has no placements. */
  function Get(p: Placements, id: AnimeId): seq<Day> {
    if id in p then p[id] else []
  }

  // ---------------------------------------------------------------- gathering a queue

  /** The cards of one anime on day `d`; `days` is its list from index `from` on. */
  function RefsOf(id: AnimeId, days: seq<Day>, d: string, from: nat): seq<Ref> {
    if days == [] then []
    else (if days[0].day == d then [Ref(id, days[0].order, from)] else []) + RefsOf(id, days[1..], d, from + 1)
  }

  function RefsFn(p: Placements, d: string): AnimeId -> seq<Ref> {
    id => RefsOf(id, Get(p, id), d, 0)
  }

  /** The queue of day `d`, gathered by walking the animes in the order `keys`. */
  function Gather(p: Placements, keys: seq<AnimeId>, d: string): seq<Ref> {
    Flat(keys, RefsFn(p, d))
  }

  lemma {:induction false} RefsOfShape(id: AnimeId, days: seq<Day>, d: string, from: nat)
    ensures forall r | r in RefsOf(id, days, d, from) ::
              r.animeId == id && from <= r.index < from + |days| && days[r.index - from] == Day(d, r.order)
    ensures IndexesAscend(RefsOf(id, days, d, from))
    ensures |RefsOf(id, days, d, from)| == |OnDay(days, d)|
  {
    if days != [] {
      RefsOfShape(id, days[1..], d, from + 1);
      if days[0].day == d {
        ConsAscends(Ref(id, days[0].order, from), RefsOf(id, days[1..], d, from + 1));
      }
    }
  }

  lemma AppendAscends(a: seq<Ref>, b: seq<Ref>)
    requires IndexesAscend(a) && IndexesAscend(b)
    requires forall r, s | r in a && s in b :: r.animeId != s.animeId
    ensures IndexesAscend(a + b)
  {
  }

  lemma GatherMembers(p: Placements, keys: seq<AnimeId>, d: string, r: Ref)
    ensures r in Gather(p, keys, d) ==>
              r.animeId in keys && r.index < |Get(p, r.animeId)| && Get(p, r.animeId)[r.index] == Day(d, r.order)
  {
    InFlat(keys, RefsFn(p, d), r);
    if r in Gather(p, keys, d) {
      var id :| id in keys && r in RefsFn(p, d)(id);
      RefsOfShape(id, Get(p, id), d, 0);
    }
  }

  lemma {:induction false} GatherAscends(p: Placements, keys: seq<AnimeId>, d: string)
    requires Distinct(keys)
    ensures IndexesAscend(Gather(p, keys, d))
  {
    if keys != [] {
      GatherAscends(p, keys[1..], d);
      RefsOfShape(keys[0], Get(p, keys[0]), d, 0);
      forall r | r in Gather(p, keys[1..], d) ensures r.animeId != keys[0] {
        GatherMembers(p, keys[1..], d, r);
      }
      AppendAscends(RefsFn(p, d)(keys[0]), Gather(p, keys[1..], d));
    }
  }

  lemma GatherConfluent(p: Placements, keys1: seq<AnimeId>, keys2: seq<AnimeId>, d: string)
    requires Enumerates(keys1, p.Keys) && Enumerates(keys2, p.Keys)
    ensures multiset(Gather(p, keys1, d)) == multiset(Gather(p, keys2, d))
    ensures IndexesAscend(Gather(p, keys1, d)) && IndexesAscend(Gather(p, keys2, d))
  {
    FlatPermutes(keys1, keys2, RefsFn(p, d));
    GatherAscends(p, keys1, d);
    GatherAscends(p, keys2, d);
  }

  /** The cards of one anime, out of the whole queue. */
  lemma {:induction false} GatherOfOne(p: Placements, keys: seq<AnimeId>, d: string, id: AnimeId)
    requires Distinct(keys)
    ensures Moved(Gather(p, keys, d), {id}) == if id in keys then RefsOf(id, Get(p, id), d, 0) else []
  {
    if keys != [] {
      var head := RefsFn(p, d)(keys[0]);
      HeadOrTail(keys, id);
      GatherOfOne(p, keys[1..], d, id);
      MovedConcat(head, Gather(p, keys[1..], d), {id});
      RefsOfShape(keys[0], Get(p, keys[0]), d, 0);
      if keys[0] == id { AllMoved(head, {id}); } else { AllUnmoved(head, {id}); }
    }
  }

  lemma {:induction false} AllMoved(refs: seq<Ref>, changed: set<AnimeId>)
    requires forall r | r in refs :: r.animeId in changed
    ensures Moved(refs, changed) == refs
  {
    if refs != [] {
      assert forall r | r in refs[1..] :: r in refs;
      AllMoved(refs[1..], changed);
    }
  }

  // ---------------------------------------------------------------- writing a queue back

  /** What the numbered queue of day `d` gives to one anime; `queue` stands from position `from` + 1 on. */
  function Numbered(id: AnimeId, d: string, queue: seq<Ref>, from: nat): seq<Day> {
    if queue == [] then []
    else (if queue[0].animeId == id then [Day(d, from + 1)] else []) + Numbered(id, d, queue[1..], from + 1)
  }

  function NumberedFn(id: AnimeId, queues: map<string, seq<Ref>>): string -> seq<Day> {
    d => if d in queues then Numbered(id, d, queues[d], 0) else []
  }

  /** The placements that are not taken apart. */
  function Kept(days: seq<Day>, reflow: set<string>): seq<Day> {
    if days == [] then []
    else (if days[0].day in reflow then [] else [days[0]]) + Kept(days[1..], reflow)
  }

  /** One anime's list once the queues `queues` are written back in the order `ds`. */
  function Rebuilt(p: Placements, reflow: set<string>, ds: seq<string>, queues: map<string, seq<Ref>>, id: AnimeId): seq<Day> {
    Kept(Get(p, id), reflow) + Flat(ds, NumberedFn(id, queues))
  }

  function OnDay(days: seq<Day>, d: string): seq<Day> {
    if days == [] then []
    else (if days[0].day == d then [days[0]] else []) + OnDay(days[1..], d)
  }

  lemma {:induction false} OnDayConcat(a: seq<Day>, b: seq<Day>, d: string)
    ensures OnDay(a + b, d) == OnDay(a, d) + OnDay(b, d)
  {
    if a == [] {
      assert a + b == b;
    } else {
      assert (a + b)[1..] == a[1..] + b;
      OnDayConcat(a[1..], b, d);
      ConcatAssociates(if a[0].day == d then [a[0]] else [], OnDay(a[1..], d), OnDay(b, d));
    }
  }

  lemma {:induction false} OnDayKept(days: seq<Day>, reflow: set<string>, d: string)
    ensures OnDay(Kept(days, reflow), d) == if d in reflow then [] else OnDay(days, d)
  {
    if days != [] {
      OnDayKept(days[1..], reflow, d);
      OnDayConcat(if days[0].day in reflow then [] else [days[0]], Kept(days[1..], reflow), d);
    }
  }

  lemma {:induction false} OnDayNumbered(id: AnimeId, e: string, queue: seq<Ref>, from: nat, d: string)
    ensures OnDay(Numbered(id, e, queue, from), d) == if e == d then Numbered(id, e, queue, from) else []
  {
    if queue != [] {
      OnDayNumbered(id, e, queue[1..], from + 1, d);
      OnDayConcat(if queue[0].animeId == id then [Day(e, from + 1)] else [], Numbered(id, e, queue[1..], from + 1), d);
    }
  }

  lemma {:induction false} OnDayFlat(ds: seq<string>, queues: map<string, seq<Ref>>, id: AnimeId, d: string)
    requires Distinct(ds)
    ensures OnDay(Flat(ds, NumberedFn(id, queues)), d) == if d in ds then NumberedFn(id, queues)(d) else []
  {
    if ds != [] {
      HeadOrTail(ds, d);
      OnDayFlat(ds[1..], queues, id, d);
      OnDayConcat(NumberedFn(id, queues)(ds[0]), Flat(ds[1..], NumberedFn(id, queues)), d);
      if ds[0] in queues {
        OnDayNumbered(id, ds[0], queues[ds[0]], 0, d);
      }
    }
  }

  /** Day by day: a rebuilt day holds what its queue gives the anime, any other day is what it was. */
  lemma RebuiltOnDay(p: Placements, reflow: set<string>, ds: seq<string>, queues: map<string, seq<Ref>>, id: AnimeId, d: string)
    requires Enumerates(ds, reflow) && queues.Keys == reflow
    ensures OnDay(Rebuilt(p, reflow, ds, queues, id), d) ==
            if d in reflow then Numbered(id, d, queues[d], 0) else OnDay(Get(p, id), d)
  {
    OnDayConcat(Kept(Get(p, id), reflow), Flat(ds, NumberedFn(id, queues)), d);
    OnDayKept(Get(p, id), reflow, d);
    OnDayFlat(ds, queues, id, d);
  }

  lemma {:induction false} OnDayMembers(days: seq<Day>, d: string, x: Day)
    ensures x in OnDay(days, d) <==> x in days && x.day == d
  {
    if days != [] {
      OnDayMembers(days[1..], d, x);
      assert days == [days[0]] + days[1..];
    }
  }

  /** Lists that agree day by day hold the same placements. */
  lemma {:induction false} OnDayCount(days: seq<Day>, x: Day)
    ensures multiset(days)[x] == multiset(OnDay(days, x.day))[x]
  {
    if days != [] {
      OnDayCount(days[1..], x);
      assert days == [days[0]] + days[1..];
    }
  }

  lemma SameDaysSamePlacements(a: seq<Day>, b: seq<Day>)
    requires forall d :: OnDay(a, d) == OnDay(b, d)
    ensures multiset(a) == multiset(b)
  {
    forall x ensures multiset(a)[x] == multiset(b)[x] {
      OnDayCount(a, x);
      OnDayCount(b, x);
      assert OnDay(a, x.day) == OnDay(b, x.day);
    }
  }

  // ---------------------------------------------------------------- nothing lost, nothing gained

  lemma {:induction false} NumberedLength(id: AnimeId, d: string, queue: seq<Ref>, from: nat)
    ensures |Numbered(id, d, queue, from)| == |Moved(queue, {id})|
  {
    if queue != [] {
      NumberedLength(id, d, queue[1..], from + 1);
    }
  }

  /** The queues are those of the board, in some order. */
  ghost predicate QueuesOf(p: Placements, keys: seq<AnimeId>, queues: map<string, seq<Ref>>) {
    forall d | d in queues :: multiset(queues[d]) == multiset(Gather(p, keys, d))
  }

  /** Every anime keeps as many cards on every day as it had. */
  lemma RebuildConserves(p: Placements, keys: seq<AnimeId>, reflow: set<string>, ds: seq<string>, queues: map<string, seq<Ref>>, id: AnimeId, d: string)
    requires Enumerates(keys, p.Keys) && Enumerates(ds, reflow) && queues.Keys == reflow && QueuesOf(p, keys, queues)
    ensures |OnDay(Rebuilt(p, reflow, ds, queues, id), d)| == |OnDay(Get(p, id), d)|
  {
    RebuiltOnDay(p, reflow, ds, queues, id, d);
    if d in reflow {
      NumberedLength(id, d, queues[d], 0);
      PartitionCounts(queues[d], Gather(p, keys, d), {id});
      GatherOfOne(p, keys, d, id);
      RefsOfShape(id, Get(p, id), d, 0);
      assert |Moved(queues[d], {id})| == |multiset(Moved(queues[d], {id}))|
          == |multiset(Moved(Gather(p, keys, d), {id}))| == |Moved(Gather(p, keys, d), {id})|;
    }
  }

  // ---------------------------------------------------------------- positions

  function OneTo(n: nat): seq<int> {
    seq(n, i => i + 1)
  }

  function Orders(days: seq<Day>): seq<int> {
    if days == [] then [] else [days[0].order] + Orders(days[1..])
  }

  function OrdersFn(p: Placements, d: string): AnimeId -> seq<int> {
    id => Orders(OnDay(Get(p, id), d))
  }

  /** positionsForDestination: every order on day `d`, animes walked in the order `keys`. */
  function Positions(p: Placements, keys: seq<AnimeId>, d: string): seq<int> {
    Flat(keys, OrdersFn(p, d))
  }

  ghost predicate Contiguous(positions: seq<int>) {
    multiset(positions) == multiset(OneTo(|positions|))
  }

  lemma {:induction false} OneToCount(n: nat, k: int)
    ensures multiset(OneTo(n))[k] == if 1 <= k <= n then 1 else 0
  {
    if n > 0 {
      OneToCount(n - 1, k);
      assert OneTo(n) == OneTo(n - 1) + [n];
    }
  }

  lemma {:induction false} NumberedOrders(id: AnimeId, d: string, queue: seq<Ref>, from: nat, k: int)
    ensures multiset(Orders(Numbered(id, d, queue, from)))[k] ==
            if from < k <= from + |queue| && queue[k - from - 1].animeId == id then 1 else 0
  {
    if queue != [] {
      var rest := Numbered(id, d, queue[1..], from + 1);
      NumberedOrders(id, d, queue[1..], from + 1, k);
      if queue[0].animeId == id {
        assert ([Day(d, from + 1)] + rest)[1..] == rest;
        assert Orders([Day(d, from + 1)] + rest) == [from + 1] + Orders(rest);
      } else {
        assert [] + rest == rest;
      }
    }
  }

  /** The board holds, on day `d`, exactly what the numbered queue gives each anime. */
  ghost predicate NumberedBy(p: Placements, d: string, queue: seq<Ref>) {
    forall id :: OnDay(Get(p, id), d) == Numbered(id, d, queue, 0)
  }

  lemma OrdersOfOne(p: Placements, d: string, queue: seq<Ref>, id: AnimeId, k: int)
    requires OnDay(Get(p, id), d) == Numbered(id, d, queue, 0)
    ensures multiset(OrdersFn(p, d)(id))[k] == if 1 <= k <= |queue| && queue[k - 1].animeId == id then 1 else 0
  {
    NumberedOrders(id, d, queue, 0, k);
    assert OrdersFn(p, d)(id) == Orders(Numbered(id, d, queue, 0));
  }

  predicate OwnerIn(queue: seq<Ref>, k: int, keys: seq<AnimeId>) {
    1 <= k <= |queue| && queue[k - 1].animeId in keys
  }

  lemma {:induction false} NumberedPositions(p: Placements, keys: seq<AnimeId>, d: string, queue: seq<Ref>, k: int)
    requires Distinct(keys) && NumberedBy(p, d, queue)
    ensures multiset(Positions(p, keys, d))[k] == if OwnerIn(queue, k, keys) then 1 else 0
  {
    if keys != [] {
      if 1 <= k <= |queue| {
        HeadOrTail(keys, queue[k - 1].animeId);
      }
      NumberedPositions(p, keys[1..], d, queue, k);
      OrdersOfOne(p, d, queue, keys[0], k);
      CountConcat(OrdersFn(p, d)(keys[0]), Positions(p, keys[1..], d), k);
    }
  }

  lemma SameSize(a: seq<int>, b: seq<int>)
    requires multiset(a) == multiset(b)
    ensures |a| == |b|
  {
    assert |a| == |multiset(a)| == |multiset(b)| == |b|;
  }

  /** A numbered queue occupies exactly the positions 1 to n. */
  lemma NumberedIsContiguous(p: Placements, keys: seq<AnimeId>, d: string, queue: seq<Ref>)
    requires Distinct(keys) && NumberedBy(p, d, queue) && forall r | r in queue :: r.animeId in keys
    ensures multiset(Positions(p, keys, d)) == multiset(OneTo(|queue|))
    ensures Contiguous(Positions(p, keys, d))
  {
    var positions, all := Positions(p, keys, d), OneTo(|queue|);
    forall k ensures multiset(positions)[k] == multiset(all)[k] {
      NumberedPositions(p, keys, d, queue, k);
      OneToCount(|queue|, k);
      assert 1 <= k <= |queue| ==> queue[k - 1] in queue;
    }
    SameSize(positions, all);
  }

  /** Positions do not depend on the order of the walk, and days with the same placements have the same ones. */
  lemma PositionsConfluent(p: Placements, keys1: seq<AnimeId>, keys2: seq<AnimeId>, d: string)
    requires Distinct(keys1) && Distinct(keys2) && forall id :: id in keys1 <==> id in keys2
    ensures multiset(Positions(p, keys1, d)) == multiset(Positions(p, keys2, d))
  {
    FlatPermutes(keys1, keys2, OrdersFn(p, d));
  }

  lemma {:induction false} SamePositions(p: Placements, q: Placements, keys: seq<AnimeId>, d: string)
    requires forall id | id in keys :: OnDay(Get(p, id), d) == OnDay(Get(q, id), d)
    ensures Positions(p, keys, d) == Positions(q, keys, d)
  {
    if keys != [] {
      assert forall id | id in keys[1..] :: id in keys;
      SamePositions(p, q, keys[1..], d);
      assert keys[0] in keys;
      assert OrdersFn(p, d)(keys[0]) == OrdersFn(q, d)(keys[0]);
    }
  }

  lemma {:induction false} NumberedAt(id: AnimeId, d: string, queue: seq<Ref>, from: nat, x: Day)
    ensures x in Numbered(id, d, queue, from) <==>
            x.day == d && from < x.order <= from + |queue| && queue[x.order - from - 1].animeId == id
  {
    if queue != [] {
      NumberedAt(id, d, queue[1..], from + 1, x);
      var head, rest := if queue[0].animeId == id then [Day(d, from + 1)] else [], Numbered(id, d, queue[1..], from + 1);
      assert Numbered(id, d, queue, from) == head + rest;
      assert x in head + rest <==> x in head || x in rest;
    }
  }

  lemma NumberedOwner(q: Placements, d: string, queue: seq<Ref>, k: nat)
    requires NumberedBy(q, d, queue) && k < |queue|
    ensures Day(d, k + 1) in Get(q, queue[k].animeId)
  {
    var id := queue[k].animeId;
    NumberedAt(id, d, queue, 0, Day(d, k + 1));
    assert OnDay(Get(q, id), d) == Numbered(id, d, queue, 0);
    OnDayMembers(Get(q, id), d, Day(d, k + 1));
  }

  lemma NumberedWalk(q: Placements, d: string, queue: seq<Ref>, walk: seq<AnimeId>)
    requires NumberedBy(q, d, queue) && Enumerates(walk, q.Keys)
    ensures multiset(Positions(q, walk, d)) == multiset(OneTo(|queue|)) && Contiguous(Positions(q, walk, d))
  {
    forall r | r in queue ensures r.animeId in walk {
      var k :| 0 <= k < |queue| && queue[k] == r;
      NumberedOwner(q, d, queue, k);
    }
    NumberedIsContiguous(q, walk, d, queue);
  }
}
