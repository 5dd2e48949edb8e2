/** What the walk over the reflowed days decides (internal/anime/schedule_service_normalization.go:39,
    schedule_service_operations.go:26-40). A board keeps each anime's cards whatever the walk, but a list of days is
    compared in order, so the walk decides the order of an anime's days and through it which animes are written. */
module ScheduleWalks {
  import opened Basics
  import opened ScheduleOrder
  import opened ScheduleBoard
  import opened ScheduleDraft
  import opened ScheduleApply

  /** The anime has a card on the reflowed day `d`. */
  ghost predicate Reflowed(records: seq<Record>, entries: seq<Entry>, keys: seq<AnimeId>, id: AnimeId, d: string) {
    d in Reflow(records, entries, keys) && OnDay(Get(Desired(records, entries), id), d) != []
  }

  ghost predicate OneReflowedDay(records: seq<Record>, entries: seq<Entry>, keys: seq<AnimeId>, id: AnimeId) {
    forall d, e | Reflowed(records, entries, keys, id, d) && Reflowed(records, entries, keys, id, e) :: d == e
  }

  /** Every walk gives the anime the same list. */
  ghost predicate ListIsFixed(records: seq<Record>, entries: seq<Entry>, id: AnimeId) {
    forall q1, q2 | Normalizes(q1, records, entries) && Normalizes(q2, records, entries) :: Get(q1, id) == Get(q2, id)
  }

  lemma {:induction false} FlatOfOne<K, V>(ds: seq<K>, f: K -> seq<V>, d: K)
    requires Distinct(ds) && d in ds && forall e | e in ds && e != d :: f(e) == []
    ensures Flat(ds, f) == f(d)
  {
    assert ds == [ds[0]] + ds[1..];
    if ds[0] == d {
      FlatOfNothing(ds[1..], f);
    } else {
      FlatOfOne(ds[1..], f, d);
    }
  }

  lemma SparseFlatsAgree<K, V>(a: seq<K>, b: seq<K>, f: K -> seq<V>)
    requires Distinct(a) && Distinct(b) && forall k :: k in a <==> k in b
    requires forall d, e | d in a && e in a && f(d) != [] && f(e) != [] :: d == e
    ensures Flat(a, f) == Flat(b, f)
  {
    if d :| d in a && f(d) != [] {
      FlatOfOne(a, f, d);
      FlatOfOne(b, f, d);
    } else {
      FlatOfNothing(a, f);
      FlatOfNothing(b, f);
    }
  }

  lemma WrittenBackCount(p: Placements, keys: seq<AnimeId>, changed: set<AnimeId>, reflow: set<string>, id: AnimeId, d: string)
    requires Enumerates(keys, p.Keys) && d in reflow
    ensures |NumberedFn(id, DraftQueues(p, keys, changed, reflow))(d)| == |OnDay(Get(p, id), d)|
  {
    var ds := Enumeration(reflow);
    var queues := DraftQueues(p, keys, changed, reflow);
    DraftQueuesAreQueues(p, keys, changed, reflow);
    RebuildConserves(p, keys, reflow, ds, queues, id, d);
    RebuiltOnDay(p, reflow, ds, queues, id, d);
  }

  /** What day `d` is written back with, for one anime: cards of that day only, and none exactly when it had none. */
  lemma WrittenBack(records: seq<Record>, entries: seq<Entry>, keys: seq<AnimeId>, id: AnimeId, d: string)
    requires Enumerates(keys, Desired(records, entries).Keys) && d in Reflow(records, entries, keys)
    ensures var f := NumberedFn(id, DraftQueues(Desired(records, entries), keys, EntryIds(entries), Reflow(records, entries, keys)));
            && (forall x | x in f(d) :: x.day == d)
            && (f(d) == [] <==> OnDay(Get(Desired(records, entries), id), d) == [])
  {
    var p, reflow := Desired(records, entries), Reflow(records, entries, keys);
    var queues := DraftQueues(p, keys, EntryIds(entries), reflow);
    WrittenBackCount(p, keys, EntryIds(entries), reflow, id, d);
    forall x | x in NumberedFn(id, queues)(d) ensures x.day == d {
      NumberedAt(id, d, queues[d], 0, x);
    }
  }

  lemma OneReflowedDayFixes(q1: Placements, q2: Placements, records: seq<Record>, entries: seq<Entry>,
                            keys1: seq<AnimeId>, ds1: seq<string>, keys2: seq<AnimeId>, ds2: seq<string>, id: AnimeId)
    requires Materializes(q1, records, entries, keys1, ds1) && Materializes(q2, records, entries, keys2, ds2)
    requires OneReflowedDay(records, entries, keys1, id)
    ensures Get(q1, id) == Get(q2, id)
  {
    var p, reflow, changed := Desired(records, entries), Reflow(records, entries, keys1), EntryIds(entries);
    ReflowConfluent(records, entries, keys1, keys2);
    DraftQueuesConfluent(p, keys1, keys2, changed, reflow);
    var queues := DraftQueues(p, keys1, changed, reflow);
    var f := NumberedFn(id, queues);
    forall d, e | d in ds1 && e in ds1 && f(d) != [] && f(e) != [] ensures d == e {
      WrittenBack(records, entries, keys1, id, d);
      WrittenBack(records, entries, keys1, id, e);
      assert Reflowed(records, entries, keys1, id, d) && Reflowed(records, entries, keys1, id, e);
    }
    SparseFlatsAgree(ds1, ds2, f);
    assert Get(q1, id) == Rebuilt(p, reflow, ds1, queues, id);
    assert Get(q2, id) == Rebuilt(p, reflow, ds2, queues, id);
  }

  lemma FirstDayLeads(records: seq<Record>, entries: seq<Entry>, keys: seq<AnimeId>, id: AnimeId, ds: seq<string>, q: Placements)
    requires Materializes(q, records, entries, keys, ds) && ds != [] && Reflowed(records, entries, keys, id, ds[0])
    ensures var kept := |Kept(Get(Desired(records, entries), id), Reflow(records, entries, keys))|;
            kept < |Get(q, id)| && Get(q, id)[kept].day == ds[0]
  {
    var p, reflow := Desired(records, entries), Reflow(records, entries, keys);
    var queues := DraftQueues(p, keys, EntryIds(entries), reflow);
    var f, kept := NumberedFn(id, queues), Kept(Get(p, id), reflow);
    WrittenBack(records, entries, keys, id, ds[0]);
    assert Get(q, id) == Rebuilt(p, reflow, ds, queues, id) == kept + Flat(ds, f);
    assert Flat(ds, f) == f(ds[0]) + Flat(ds[1..], f);
    assert Get(q, id)[|kept|] == f(ds[0])[0];
    assert f(ds[0])[0] in f(ds[0]);
  }

  /** Some walk takes the reflowed day `d` first, and then the anime's list has it right after the kept days. */
  lemma WalkTaking(records: seq<Record>, entries: seq<Entry>, keys: seq<AnimeId>, id: AnimeId, d: string) returns (q: Placements)
    requires Enumerates(keys, Desired(records, entries).Keys) && Reflowed(records, entries, keys, id, d)
    ensures Normalizes(q, records, entries)
    ensures var kept := |Kept(Get(Desired(records, entries), id), Reflow(records, entries, keys))|;
            kept < |Get(q, id)| && Get(q, id)[kept].day == d
  {
    var ds := Enumeration(Reflow(records, entries, keys) - {d});
    EnumeratesCons(d, ds, Reflow(records, entries, keys));
    q := Board(records, entries, keys, [d] + ds);
    BoardMaterializes(records, entries, keys, [d] + ds);
    FirstDayLeads(records, entries, keys, id, [d] + ds, q);
  }

  lemma EnumeratesCons<K(!new)>(k: K, rest: seq<K>, all: set<K>)
    requires k in all && Enumerates(rest, all - {k})
    ensures Enumerates([k] + rest, all)
  {
  }

  /** An anime with cards on two reflowed days has two lists: walk either day first. */
  lemma TwoReflowedDays(records: seq<Record>, entries: seq<Entry>, keys: seq<AnimeId>, id: AnimeId)
    returns (q1: Placements, q2: Placements)
    requires Enumerates(keys, Desired(records, entries).Keys) && !OneReflowedDay(records, entries, keys, id)
    ensures Normalizes(q1, records, entries) && Normalizes(q2, records, entries) && Get(q1, id) != Get(q2, id)
  {
    var d, e :| Reflowed(records, entries, keys, id, d) && Reflowed(records, entries, keys, id, e) && d != e;
    q1 := WalkTaking(records, entries, keys, id, d);
    q2 := WalkTaking(records, entries, keys, id, e);
  }

  lemma OneReflowedDayOnAnyWalk(records: seq<Record>, entries: seq<Entry>, keys1: seq<AnimeId>, keys2: seq<AnimeId>, id: AnimeId)
    requires Enumerates(keys1, Desired(records, entries).Keys) && Enumerates(keys2, Desired(records, entries).Keys)
    requires OneReflowedDay(records, entries, keys1, id)
    ensures OneReflowedDay(records, entries, keys2, id)
  {
    ReflowConfluent(records, entries, keys1, keys2);
    forall d, e | Reflowed(records, entries, keys2, id, d) && Reflowed(records, entries, keys2, id, e) ensures d == e {
      assert Reflowed(records, entries, keys1, id, d) && Reflowed(records, entries, keys1, id, e);
    }
  }

  lemma SomeWalk(q: Placements, records: seq<Record>, entries: seq<Entry>) returns (keys: seq<AnimeId>, ds: seq<string>)
    requires Normalizes(q, records, entries)
    ensures Materializes(q, records, entries, keys, ds) && Enumerates(keys, Desired(records, entries).Keys)
  {
    keys, ds :| Materializes(q, records, entries, keys, ds);
  }

  lemma FixedBetween(q1: Placements, q2: Placements, records: seq<Record>, entries: seq<Entry>, keys: seq<AnimeId>, id: AnimeId)
    requires Normalizes(q1, records, entries) && Normalizes(q2, records, entries)
    requires Enumerates(keys, Desired(records, entries).Keys) && OneReflowedDay(records, entries, keys, id)
    ensures Get(q1, id) == Get(q2, id)
  {
    var keys1, ds1 := SomeWalk(q1, records, entries);
    var keys2, ds2 := SomeWalk(q2, records, entries);
    OneReflowedDayOnAnyWalk(records, entries, keys, keys1, id);
    OneReflowedDayFixes(q1, q2, records, entries, keys1, ds1, keys2, ds2, id);
  }

  /** An anime's list is the same on every walk exactly when it has cards on at most one reflowed day. */
  lemma ListIsFixedExactly(records: seq<Record>, entries: seq<Entry>, keys: seq<AnimeId>, id: AnimeId)
    requires Enumerates(keys, Desired(records, entries).Keys)
    ensures ListIsFixed(records, entries, id) <==> OneReflowedDay(records, entries, keys, id)
  {
    if OneReflowedDay(records, entries, keys, id) {
      forall q1, q2 | Normalizes(q1, records, entries) && Normalizes(q2, records, entries) ensures Get(q1, id) == Get(q2, id) {
        FixedBetween(q1, q2, records, entries, keys, id);
      }
    } else {
      var q1, q2 := TwoReflowedDays(records, entries, keys, id);
    }
  }

  // ---------------------------------------------------------------- what is written

  /** Every walk gives the same batch of writes. */
  ghost predicate BatchIsFixed(records: seq<Record>, entries: seq<Entry>) {
    forall q1, q2, a, b | Normalizes(q1, records, entries) && Normalizes(q2, records, entries)
                          && BatchFor(a, records, q1) && BatchFor(b, records, q2) :: a == b
  }

  lemma BatchTellsLists(ops: seq<Operation>, records: seq<Record>, q1: Placements, q2: Placements, id: AnimeId)
    requires BatchFor(ops, records, q1) && BatchFor(ops, records, q2) && id in ById(records)
    ensures Get(q1, id) == Get(q2, id)
  {
    if Changes(ById(records), q1, id) || Changes(ById(records), q2, id) {
      var i :| 0 <= i < |ops| && ops[i].id == id;
      assert ops[i] in ops;
    }
  }

  /** The whole batch is the same on every walk exactly when every active anime has cards on at most one reflowed
      day. */
  lemma BatchIsFixedExactly(records: seq<Record>, entries: seq<Entry>, keys: seq<AnimeId>)
    requires Enumerates(keys, Desired(records, entries).Keys)
    ensures BatchIsFixed(records, entries) <==> forall id | id in ById(records) :: OneReflowedDay(records, entries, keys, id)
  {
    if forall id | id in ById(records) :: OneReflowedDay(records, entries, keys, id) {
      forall id | id in ById(records) ensures ListIsFixed(records, entries, id) {
        ListIsFixedExactly(records, entries, keys, id);
      }
      forall q1, q2, a, b | Normalizes(q1, records, entries) && Normalizes(q2, records, entries)
                            && BatchFor(a, records, q1) && BatchFor(b, records, q2)
        ensures a == b
      {
        BatchDetermined(a, b, records, q1, q2);
      }
    } else {
      var id :| id in ById(records) && !OneReflowedDay(records, entries, keys, id);
      var q1, q2 := TwoReflowedDays(records, entries, keys, id);
      var a := BatchExists(records, q1);
      var b := BatchExists(records, q2);
      if a == b {
        BatchTellsLists(a, records, q1, q2, id);
        assert false;
      }
    }
  }

  /** An active anime with cards on two reflowed days is written on some walk, moved or not. */
  lemma WrittenOnSomeWalk(records: seq<Record>, entries: seq<Entry>, keys: seq<AnimeId>, id: AnimeId)
    returns (q: Placements)
    requires Enumerates(keys, Desired(records, entries).Keys)
    requires id in ById(records) && !OneReflowedDay(records, entries, keys, id)
    ensures Normalizes(q, records, entries) && Changes(ById(records), q, id)
  {
    var q1, q2 := TwoReflowedDays(records, entries, keys, id);
    q := if Changes(ById(records), q1, id) then q1 else q2;
  }

  // ---------------------------------------------------------------- an anime nobody moved

  /** Anime `a` stands second on the days `d` and `e`, anime `b` first. */
  function TwoColumns(a: AnimeId, b: AnimeId, d: string, e: string, at: int): seq<Record> {
    [Record(a, 1, [Day(d, 2), Day(e, 2)], at), Record(b, 1, [Day(d, 1), Day(e, 1)], at)]
  }

  /** A draft that moves `a` alone, to the top of the empty day `f`. */
  function MoveAway(a: AnimeId, f: string, at: int): seq<Entry> {
    [Entry(a, at, [Day(f, 1)])]
  }

  ghost predicate ThreeDays(d: string, e: string, f: string) {
    d in DESTINATIONS && e in DESTINATIONS && f in DESTINATIONS && d != e && d != f && e != f
  }

  lemma TwoColumnsDesired(a: AnimeId, b: AnimeId, d: string, e: string, f: string, at: int)
    requires a != b
    ensures Desired(TwoColumns(a, b, d, e, at), MoveAway(a, f, at)) == map[a := [Day(f, 1)], b := [Day(d, 1), Day(e, 1)]]
    ensures ById(TwoColumns(a, b, d, e, at)) == map[a := TwoColumns(a, b, d, e, at)[0], b := TwoColumns(a, b, d, e, at)[1]]
  {
    var records := TwoColumns(a, b, d, e, at);
    assert records[..1] == [records[0]] && records[..1][..0] == [];
    assert MoveAway(a, f, at)[..0] == [];
    assert FromRecords([records[0]]) == map[a := records[0].days];
    assert ById([records[0]]) == map[a := records[0]];
  }

  lemma OfTwoDays(id: AnimeId, x: Day, y: Day, d: string)
    ensures OnDay([x, y], d) == (if x.day == d then [x] else []) + (if y.day == d then [y] else [])
    ensures RefsOf(id, [x, y], d, 0) ==
            (if x.day == d then [Ref(id, x.order, 0)] else []) + (if y.day == d then [Ref(id, y.order, 1)] else [])
  {
    assert [x, y][1..] == [y] && [y][1..] == [];
    assert RefsOf(id, [y], d, 1) == if y.day == d then [Ref(id, y.order, 1)] else [];
    assert OnDay([y], d) == if y.day == d then [y] else [];
  }

  lemma OfOneDay(id: AnimeId, x: Day, d: string)
    ensures OnDay([x], d) == if x.day == d then [x] else []
    ensures RefsOf(id, [x], d, 0) == if x.day == d then [Ref(id, x.order, 0)] else []
  {
    assert [x][1..] == [];
  }

  lemma NoneKept(x: Day, y: Day, reflow: set<string>)
    requires x.day in reflow && y.day in reflow
    ensures Kept([x, y], reflow) == []
  {
    assert [x, y][1..] == [y] && [y][1..] == [];
    assert Kept([y], reflow) == [];
  }

  lemma SubmitsOne(a: AnimeId, f: string, at: int)
    ensures Submitted(MoveAway(a, f, at)) == {f} && EntryIds(MoveAway(a, f, at)) == {a}
  {
    var entries := MoveAway(a, f, at);
    assert entries[0] in entries && entries[0].placements[0] in entries[0].placements;
  }

  lemma AffectedByOne(records: seq<Record>, e: Entry, r: Record)
    requires r in records && r.active == 1 && r.id == e.animeId && forall s | s in records && s.id == e.animeId :: s == r
    ensures Affected(records, [e]) == (set x | x in e.placements && x.day in DESTINATIONS :: x.day)
                                      + set x | x in r.days && x.day in DESTINATIONS :: x.day
  {
    assert [e][0] in [e];
  }

  lemma TwoColumnsAffected(a: AnimeId, b: AnimeId, d: string, e: string, f: string, at: int)
    requires a != b && ThreeDays(d, e, f)
    ensures Affected(TwoColumns(a, b, d, e, at), MoveAway(a, f, at)) == {d, e, f}
  {
    var records := TwoColumns(a, b, d, e, at);
    AffectedByOne(records, Entry(a, at, [Day(f, 1)]), records[0]);
    assert records[0].days[0] in records[0].days && records[0].days[1] in records[0].days;
    assert Day(f, 1) in [Day(f, 1)];
  }

  lemma LonePosition(p: Placements, a: AnimeId, b: AnimeId, f: string)
    requires OnDay(Get(p, a), f) == [Day(f, 1)] && OnDay(Get(p, b), f) == []
    ensures Distinct(Positions(p, [a, b], f))
  {
    assert [Day(f, 1)][1..] == [];
    assert OrdersFn(p, f)(a) == [1] && OrdersFn(p, f)(b) == [];
    assert Positions(p, [a, b], f) == OrdersFn(p, f)(a) + Positions(p, [b], f);
    assert [b][1..] == [];
    assert Positions(p, [b], f) == OrdersFn(p, f)(b) + Positions(p, [], f);
  }

  lemma ReflowOfTwo(records: seq<Record>, entries: seq<Entry>, keys: seq<AnimeId>, d: string, e: string, f: string)
    requires d != f && e != f && Affected(records, entries) == {d, e, f} && Submitted(entries) == {f}
    requires Distinct(Positions(Desired(records, entries), keys, f))
    ensures Reflow(records, entries, keys) == {d, e}
  {
  }

  lemma TwoColumnsReflow(a: AnimeId, b: AnimeId, d: string, e: string, f: string, at: int)
    requires a != b && ThreeDays(d, e, f)
    ensures Reflow(TwoColumns(a, b, d, e, at), MoveAway(a, f, at), [a, b]) == {d, e}
  {
    TwoColumnsAffected(a, b, d, e, f, at);
    SubmitsOne(a, f, at);
    assert Distinct(Positions(Desired(TwoColumns(a, b, d, e, at), MoveAway(a, f, at)), [a, b], f)) by {
      TwoColumnsDesired(a, b, d, e, f, at);
      OfOneDay(a, Day(f, 1), f);
      OfTwoDays(b, Day(d, 1), Day(e, 1), f);
      LonePosition(Desired(TwoColumns(a, b, d, e, at), MoveAway(a, f, at)), a, b, f);
    }
    ReflowOfTwo(TwoColumns(a, b, d, e, at), MoveAway(a, f, at), [a, b], d, e, f);
  }

  lemma LoneGather(p: Placements, a: AnimeId, b: AnimeId, d: string, r: Ref)
    requires RefsOf(a, Get(p, a), d, 0) == [] && RefsOf(b, Get(p, b), d, 0) == [r]
    ensures Gather(p, [a, b], d) == [r]
  {
    assert [a, b][1..] == [b] && [b][1..] == [];
    assert Gather(p, [a, b], d) == RefsFn(p, d)(a) + Gather(p, [b], d);
    assert Gather(p, [b], d) == RefsFn(p, d)(b) + Gather(p, [], d);
  }

  lemma LoneMerge(r: Ref, changed: set<AnimeId>)
    ensures MergeQueue([r], changed) == [r]
  {
    MergePermutes([r], changed);
    var queue := MergeQueue([r], changed);
    assert |queue| == |multiset(queue)| == 1;
    assert queue[0] in multiset(queue);
  }

  lemma LoneCard(p: Placements, a: AnimeId, b: AnimeId, d: string, r: Ref)
    requires RefsOf(a, Get(p, a), d, 0) == [] && RefsOf(b, Get(p, b), d, 0) == [r]
    ensures Numbered(b, d, MergeQueue(Gather(p, [a, b], d), {a}), 0) == [Day(d, 1)]
  {
    LoneGather(p, a, b, d, r);
    LoneMerge(r, {a});
    RefsOfShape(b, Get(p, b), d, 0);
    assert r in [r] && r.animeId == b;
    assert [r][1..] == [];
  }

  lemma TwoRebuilt(p: Placements, b: AnimeId, queues: map<string, seq<Ref>>, x: string, y: string)
    requires NumberedFn(b, queues)(x) == [Day(x, 1)] && NumberedFn(b, queues)(y) == [Day(y, 1)] && Kept(Get(p, b), {x, y}) == []
    ensures Rebuilt(p, {x, y}, [x, y], queues, b) == [Day(x, 1), Day(y, 1)]
  {
    var fn := NumberedFn(b, queues);
    assert [x, y][1..] == [y] && [y][1..] == [];
    assert Flat([x, y], fn) == fn(x) + Flat([y], fn);
    assert Flat([y], fn) == fn(y) + Flat([], fn);
  }

  lemma LoneCards(p: Placements, a: AnimeId, b: AnimeId, x: string, y: string, other: Day, first: string, second: string)
    requires a != b && x != y && Get(p, a) == [other] && other.day !in {x, y}
    requires Get(p, b) == [Day(first, 1), Day(second, 1)] && ((first == x && second == y) || (first == y && second == x))
    ensures Rebuilt(p, {x, y}, [x, y], DraftQueues(p, [a, b], {a}, {x, y}), b) == [Day(x, 1), Day(y, 1)]
  {
    OfOneDay(a, other, x);
    OfOneDay(a, other, y);
    OfTwoDays(b, Day(first, 1), Day(second, 1), x);
    OfTwoDays(b, Day(first, 1), Day(second, 1), y);
    NoneKept(Day(first, 1), Day(second, 1), {x, y});
    var k := if first == x then 0 else 1;
    LoneCard(p, a, b, x, Ref(b, 1, k));
    LoneCard(p, a, b, y, Ref(b, 1, 1 - k));
    TwoRebuilt(p, b, DraftQueues(p, [a, b], {a}, {x, y}), x, y);
  }

  lemma EnumeratesTwo<K(!new)>(x: K, y: K, all: set<K>)
    requires x != y && all == {x, y}
    ensures Enumerates([x, y], all)
  {
  }

  lemma TwoDayBoard(records: seq<Record>, entries: seq<Entry>, a: AnimeId, b: AnimeId, x: string, y: string,
                    other: Day, first: string, second: string)
    returns (q: Placements)
    requires a != b && x != y && other.day !in {x, y} && ((first == x && second == y) || (first == y && second == x))
    requires Desired(records, entries) == map[a := [other], b := [Day(first, 1), Day(second, 1)]]
    requires Reflow(records, entries, [a, b]) == {x, y} && EntryIds(entries) == {a}
    ensures Materializes(q, records, entries, [a, b], [x, y])
    ensures Get(q, b) == [Day(x, 1), Day(y, 1)]
  {
    var p := Desired(records, entries);
    EnumeratesTwo(a, b, p.Keys);
    EnumeratesTwo(x, y, {x, y});
    LoneCards(p, a, b, x, y, other, first, second);
    q := Board(records, entries, [a, b], [x, y]);
    BoardMaterializes(records, entries, [a, b], [x, y]);
  }

  lemma TwoColumnsBoard(a: AnimeId, b: AnimeId, d: string, e: string, f: string, at: int, x: string, y: string) returns (q: Placements)
    requires a != b && ThreeDays(d, e, f) && ((x == d && y == e) || (x == e && y == d))
    ensures Materializes(q, TwoColumns(a, b, d, e, at), MoveAway(a, f, at), [a, b], [x, y])
    ensures Get(q, b) == [Day(x, 1), Day(y, 1)]
  {
    TwoColumnsDesired(a, b, d, e, f, at);
    TwoColumnsReflow(a, b, d, e, f, at);
    SubmitsOne(a, f, at);
    assert {d, e} == {x, y};
    q := TwoDayBoard(TwoColumns(a, b, d, e, at), MoveAway(a, f, at), a, b, x, y, Day(f, 1), d, e);
  }

  /** The draft does not touch `b`, which keeps both its places. Walking `d` before `e` leaves `b` alone; walking
      `e` before `d` swaps the two days in its list, and so writes and restamps it. */
  lemma WalkDecidesWrites(a: AnimeId, b: AnimeId, d: string, e: string, f: string, at: int) returns (q1: Placements, q2: Placements)
    requires a != b && ThreeDays(d, e, f)
    ensures var records, entries := TwoColumns(a, b, d, e, at), MoveAway(a, f, at);
            && Materializes(q1, records, entries, [a, b], [d, e]) && Materializes(q2, records, entries, [a, b], [e, d])
            && !Changes(ById(records), q1, b) && Changes(ById(records), q2, b)
  {
    TwoColumnsDesired(a, b, d, e, f, at);
    q1 := TwoColumnsBoard(a, b, d, e, f, at, d, e);
    q2 := TwoColumnsBoard(a, b, d, e, f, at, e, d);
  }

  // ---------------------------------------------------------------- a token that does not move

  /** Two animes without cards, `a` written last at `ahead` and `b` at `behind`. */
  function TwoBlank(a: AnimeId, b: AnimeId, ahead: int, behind: int): seq<Record> {
    [Record(a, 1, [], ahead), Record(b, 1, [], behind)]
  }

  lemma TwoBlankDesired(a: AnimeId, b: AnimeId, f: string, ahead: int, behind: int)
    requires a != b
    ensures Desired(TwoBlank(a, b, ahead, behind), MoveAway(b, f, behind)) == map[a := [], b := [Day(f, 1)]]
    ensures ById(TwoBlank(a, b, ahead, behind)) == map[a := TwoBlank(a, b, ahead, behind)[0], b := TwoBlank(a, b, ahead, behind)[1]]
    ensures 0 <= behind < ahead ==> BoardToken(TwoBlank(a, b, ahead, behind)) == ahead
  {
    var records := TwoBlank(a, b, ahead, behind);
    assert records[..1] == [records[0]] && records[..1][..0] == [];
    assert MoveAway(b, f, behind)[..0] == [];
    assert FromRecords([records[0]]) == map[a := records[0].days];
    assert ById([records[0]]) == map[a := records[0]];
  }

  lemma TwoBlankReflow(a: AnimeId, b: AnimeId, f: string, ahead: int, behind: int)
    requires a != b && f in DESTINATIONS
    ensures Reflow(TwoBlank(a, b, ahead, behind), MoveAway(b, f, behind), [a, b]) == {}
  {
    var p := Desired(TwoBlank(a, b, ahead, behind), MoveAway(b, f, behind));
    TwoBlankDesired(a, b, f, ahead, behind);
    SubmitsOne(b, f, behind);
    OfOneDay(b, Day(f, 1), f);
    assert OrdersFn(p, f)(a) == [];
    assert Positions(p, [a, b], f) == OrdersFn(p, f)(a) + Positions(p, [b], f);
    assert [Day(f, 1)][1..] == [] && [b][1..] == [];
    assert OrdersFn(p, f)(b) == [1];
    assert Positions(p, [b], f) == OrdersFn(p, f)(b) + Positions(p, [], f);
  }

  lemma {:induction false} KeptAll(days: seq<Day>)
    ensures Kept(days, {}) == days
  {
    if days != [] {
      KeptAll(days[1..]);
    }
  }

  /** With no day to reflow the board is the one asked for. */
  lemma NothingReflowed(records: seq<Record>, entries: seq<Entry>, keys: seq<AnimeId>) returns (q: Placements)
    requires Enumerates(keys, Desired(records, entries).Keys) && Reflow(records, entries, keys) == {}
    ensures Normalizes(q, records, entries)
    ensures forall id :: Get(q, id) == Get(Desired(records, entries), id)
  {
    var p := Desired(records, entries);
    q := Board(records, entries, keys, []);
    BoardMaterializes(records, entries, keys, []);
    forall id ensures Get(q, id) == Get(p, id) {
      KeptAll(Get(p, id));
      assert Get(q, id) == Rebuilt(p, {}, [], DraftQueues(p, keys, EntryIds(entries), {}), id);
    }
  }

  lemma TwoBlankBoard(a: AnimeId, b: AnimeId, f: string, ahead: int, behind: int) returns (q: Placements)
    requires a != b && f in DESTINATIONS
    ensures Normalizes(q, TwoBlank(a, b, ahead, behind), MoveAway(b, f, behind))
    ensures forall id :: Get(q, id) == if id == b then [Day(f, 1)] else []
  {
    TwoBlankDesired(a, b, f, ahead, behind);
    TwoBlankReflow(a, b, f, ahead, behind);
    EnumeratesTwo(a, b, Desired(TwoBlank(a, b, ahead, behind), MoveAway(b, f, behind)).Keys);
    q := NothingReflowed(TwoBlank(a, b, ahead, behind), MoveAway(b, f, behind), [a, b]);
  }

  lemma LoneOperation(records: seq<Record>, q: Placements, op: Operation)
    requires op.id in ById(records) && Changes(ById(records), q, op.id) && op == OperationFor(ById(records), q, op.id)
    requires forall id | id != op.id :: !Changes(ById(records), q, id)
    ensures BatchFor([op], records, q)
  {
    assert [op][0].id == op.id;
    assert Writes([op], op.id);
  }

  /** A draft that gives `b` its first card while the clock is behind the board (say `a` at 100, `b` at 10 and the
      clock at 5, so that `b` is stamped 11) is written, and yet every other editor's token still matches. */
  lemma TokenMayStay(a: AnimeId, b: AnimeId, f: string, ahead: int, behind: int, now: int) returns (q: Placements, ops: seq<Operation>)
    requires a != b && f in DESTINATIONS && 0 <= behind < ahead && now < ahead
    ensures var records := TwoBlank(a, b, ahead, behind);
            && Normalizes(q, records, MoveAway(b, f, behind)) && BatchFor(ops, records, q) && ops != []
            && BoardToken(After(records, Stamped(ops, now))) == BoardToken(records)
  {
    var records := TwoBlank(a, b, ahead, behind);
    TwoBlankDesired(a, b, f, ahead, behind);
    q := TwoBlankBoard(a, b, f, ahead, behind);
    var op := Operation(b, behind, [Day(f, 1)]);
    LoneOperation(records, q, op);
    ops := [op];
    TokenMovesExactly(records, q, ops, now);
  }
}
