/** Shapes and sequence facts that several components share. */
module Basics {

  datatype Option<+T> = None | Some(value: T)

  datatype Result<+T, +E> = Ok(value: T) | Err(error: E)

  function Min(a: int, b: int): int {
    if a <= b then a else b
  }

  function Max(a: int, b: int): int {
    if a <= b then b else a
  }

  lemma ConcatAssociates<T>(a: seq<T>, b: seq<T>, c: seq<T>)
    ensures (a + b) + c == a + (b + c)
  {
  }

  lemma CountConcat<T>(a: seq<T>, b: seq<T>, x: T)
    ensures multiset(a + b)[x] == multiset(a)[x] + multiset(b)[x]
  {
  }

  ghost predicate Distinct<T>(s: seq<T>) {
    forall i, j | 0 <= i < j < |s| :: s[i] != s[j]
  }

  lemma HeadOrTail<T>(s: seq<T>, x: T)
    requires s != []
    ensures x in s <==> x == s[0] || x in s[1..]
    ensures Distinct(s) ==> Distinct(s[1..]) && s[0] !in s[1..]
  {
    assert s == [s[0]] + s[1..];
  }

  // ---------------------------------------------------------------- picking out of a list

  ghost predicate PicksAt<T, U>(at: seq<nat>, result: seq<U>, all: seq<T>, keeps: T -> bool, shown: T -> U) {
    && |at| == |result|
    && (forall j, k | 0 <= j < k < |at| :: at[j] < at[k])
    && (forall k | 0 <= k < |at| :: at[k] < |all| && keeps(all[at[k]]) && result[k] == shown(all[at[k]]))
    && (forall i: nat | i < |all| && keeps(all[i]) :: i in at)
  }

  /** `result` shows what `keeps` picks out of `all`: in the order of `all`, and once for each place picked. */
  ghost predicate Picks<T, U>(result: seq<U>, all: seq<T>, keeps: T -> bool, shown: T -> U) {
    exists at: seq<nat> :: PicksAt(at, result, all, keeps, shown)
  }

  function Itself<T>(): T -> T {
    x => x
  }

  lemma PicksNothing<T, U>(keeps: T -> bool, shown: T -> U)
    ensures Picks([], [], keeps, shown)
  {
    assert PicksAt([], [], [], keeps, shown);
  }

  lemma PicksSnoc<T, U>(result: seq<U>, all: seq<T>, keeps: T -> bool, shown: T -> U, x: T)
    requires Picks(result, all, keeps, shown)
    ensures Picks(result + if keeps(x) then [shown(x)] else [], all + [x], keeps, shown)
  {
    var at: seq<nat> :| PicksAt(at, result, all, keeps, shown);
    var more := at + if keeps(x) then [|all|] else [];
    forall i: nat | i < |all + [x]| && keeps((all + [x])[i]) ensures i in more {
      if i < |all| {
        assert i in at;
      } else {
        assert more[|at|] == i;
      }
    }
    assert PicksAt(more, result + if keeps(x) then [shown(x)] else [], all + [x], keeps, shown);
  }

  ghost predicate Picked<T, U>(all: seq<T>, keeps: T -> bool, shown: T -> U, u: U) {
    exists i :: 0 <= i < |all| && keeps(all[i]) && shown(all[i]) == u
  }

  lemma PlacePicked<T, U>(at: seq<nat>, result: seq<U>, all: seq<T>, keeps: T -> bool, shown: T -> U, i: nat) returns (k: nat)
    requires PicksAt(at, result, all, keeps, shown) && i < |all| && keeps(all[i])
    ensures k < |at| && at[k] == i
  {
    assert i in at;
    k :| 0 <= k < |at| && at[k] == i;
  }

  lemma AllPicked<T, U>(result: seq<U>, all: seq<T>, keeps: T -> bool, shown: T -> U, u: U)
    requires Picks(result, all, keeps, shown) && Picked(all, keeps, shown, u)
    ensures u in result
  {
    var at: seq<nat> :| PicksAt(at, result, all, keeps, shown);
    var i: nat :| 0 <= i < |all| && keeps(all[i]) && shown(all[i]) == u;
    var k := PlacePicked(at, result, all, keeps, shown, i);
    assert result[k] == u;
  }

  lemma OnlyPicked<T, U>(result: seq<U>, all: seq<T>, keeps: T -> bool, shown: T -> U, u: U)
    requires Picks(result, all, keeps, shown) && u in result
    ensures Picked(all, keeps, shown, u)
  {
    var at: seq<nat> :| PicksAt(at, result, all, keeps, shown);
    var k :| 0 <= k < |result| && result[k] == u;
    assert keeps(all[at[k]]) && shown(all[at[k]]) == u;
  }

  lemma PickedMembers<T, U>(result: seq<U>, all: seq<T>, keeps: T -> bool, shown: T -> U, u: U)
    requires Picks(result, all, keeps, shown)
    ensures u in result <==> Picked(all, keeps, shown, u)
  {
    if u in result { OnlyPicked(result, all, keeps, shown, u); }
    if Picked(all, keeps, shown, u) { AllPicked(result, all, keeps, shown, u); }
  }

  ghost predicate FirstPick<T>(all: seq<T>, keeps: T -> bool, i: nat) {
    i < |all| && keeps(all[i]) && forall j | 0 <= j < i :: !keeps(all[j])
  }

  ghost predicate LastPick<T>(all: seq<T>, keeps: T -> bool, i: nat) {
    i < |all| && keeps(all[i]) && forall j | i < j < |all| :: !keeps(all[j])
  }

  ghost predicate NoPick<T>(all: seq<T>, keeps: T -> bool) {
    forall j | 0 <= j < |all| :: !keeps(all[j])
  }

  lemma PlaceWithin<T, U>(at: seq<nat>, result: seq<U>, all: seq<T>, keeps: T -> bool, shown: T -> U, i: nat)
    requires PicksAt(at, result, all, keeps, shown) && i < |all| && keeps(all[i])
    ensures result != [] && at[0] <= i <= at[|at| - 1]
  {
    var k := PlacePicked(at, result, all, keeps, shown, i);
    assert k == 0 || at[0] < at[k];
    assert k == |at| - 1 || at[k] < at[|at| - 1];
  }

  lemma SomePicked<T, U>(result: seq<U>, all: seq<T>, keeps: T -> bool, shown: T -> U, i: nat)
    requires Picks(result, all, keeps, shown) && i < |all| && keeps(all[i])
    ensures result != []
  {
    var at: seq<nat> :| PicksAt(at, result, all, keeps, shown);
    PlaceWithin(at, result, all, keeps, shown, i);
  }

  lemma EndsPicked<T, U>(result: seq<U>, all: seq<T>, keeps: T -> bool, shown: T -> U) returns (first: nat, last: nat)
    requires Picks(result, all, keeps, shown) && result != []
    ensures FirstPick(all, keeps, first) && result[0] == shown(all[first])
    ensures LastPick(all, keeps, last) && result[|result| - 1] == shown(all[last])
  {
    var at: seq<nat> :| PicksAt(at, result, all, keeps, shown);
    first, last := at[0], at[|at| - 1];
    forall i: nat | i < |all| && keeps(all[i]) ensures at[0] <= i <= at[|at| - 1] {
      PlaceWithin(at, result, all, keeps, shown, i);
    }
  }

  lemma NothingPicked<T, U>(result: seq<U>, all: seq<T>, keeps: T -> bool, shown: T -> U)
    requires Picks(result, all, keeps, shown)
    ensures result == [] <==> NoPick(all, keeps)
  {
    if result != [] {
      var first, last := EndsPicked(result, all, keeps, shown);
    } else {
      forall i: nat | i < |all| ensures !keeps(all[i]) {
        if keeps(all[i]) { SomePicked(result, all, keeps, shown, i); }
      }
    }
  }

  lemma FirstPicked<T, U>(result: seq<U>, all: seq<T>, keeps: T -> bool, shown: T -> U, i: nat)
    requires Picks(result, all, keeps, shown) && FirstPick(all, keeps, i)
    ensures result != [] && result[0] == shown(all[i])
  {
    SomePicked(result, all, keeps, shown, i);
    var first, last := EndsPicked(result, all, keeps, shown);
    assert first == i;
  }

  lemma LastPicked<T, U>(result: seq<U>, all: seq<T>, keeps: T -> bool, shown: T -> U, i: nat)
    requires Picks(result, all, keeps, shown) && LastPick(all, keeps, i)
    ensures result != [] && result[|result| - 1] == shown(all[i])
  {
    SomePicked(result, all, keeps, shown, i);
    var first, last := EndsPicked(result, all, keeps, shown);
    assert last == i;
  }

  /** There is one such list: the first of its places is the first place picked, and so on. */
  lemma {:induction false} PicksUnique<T, U>(a: seq<U>, b: seq<U>, all: seq<T>, keeps: T -> bool, shown: T -> U)
    requires Picks(a, all, keeps, shown) && Picks(b, all, keeps, shown)
    ensures a == b
  {
    var x: seq<nat> :| PicksAt(x, a, all, keeps, shown);
    var y: seq<nat> :| PicksAt(y, b, all, keeps, shown);
    PlacesUnique(x, y);
  }

  lemma LeastPlace(x: seq<nat>, i: nat)
    requires (forall j, k | 0 <= j < k < |x| :: x[j] < x[k]) && i in x
    ensures x[0] <= i && (i in x[1..] <==> i != x[0])
  {
    HeadOrTail(x, i);
  }

  lemma {:induction false} PlacesUnique(x: seq<nat>, y: seq<nat>)
    requires (forall j, k | 0 <= j < k < |x| :: x[j] < x[k]) && (forall j, k | 0 <= j < k < |y| :: y[j] < y[k])
    requires forall i :: i in x <==> i in y
    ensures x == y
  {
    if x != [] || y != [] {
      assert x != [] ==> x[0] in y;
      assert y != [] ==> y[0] in x;
      LeastPlace(x, y[0]);
      LeastPlace(y, x[0]);
      forall i ensures i in x[1..] <==> i in y[1..] {
        HeadOrTail(x, i);
        HeadOrTail(y, i);
        if i in x { LeastPlace(x, i); LeastPlace(y, i); }
      }
      PlacesUnique(x[1..], y[1..]);
      assert x == [x[0]] + x[1..] && y == [y[0]] + y[1..];
    }
  }

  /** `keys` lists `all`, each member once: one of the orders in which a Go map may be walked. */
  ghost predicate Enumerates<K(!new)>(keys: seq<K>, all: set<K>) {
    Distinct(keys) && forall k :: k in keys <==> k in all
  }

  lemma {:induction false} Enumeration<K(!new)>(all: set<K>) returns (keys: seq<K>)
    ensures Enumerates(keys, all)
  {
    keys := [];
    if all != {} {
      var k :| k in all;
      var rest := Enumeration(all - {k});
      keys := [k] + rest;
    }
  }

  // ---------------------------------------------------------------- concatenation over keys

  function Flat<K, V>(keys: seq<K>, f: K -> seq<V>): seq<V> {
    if keys == [] then [] else f(keys[0]) + Flat(keys[1..], f)
  }

  lemma {:induction false} FlatConcat<K, V>(a: seq<K>, b: seq<K>, f: K -> seq<V>)
    ensures Flat(a + b, f) == Flat(a, f) + Flat(b, f)
  {
    if a == [] {
      assert a + b == b;
    } else {
      assert (a + b)[1..] == a[1..] + b;
      FlatConcat(a[1..], b, f);
    }
  }

  lemma FlatSnoc<K, V>(keys: seq<K>, k: K, f: K -> seq<V>)
    ensures Flat(keys + [k], f) == Flat(keys, f) + f(k)
  {
    FlatConcat(keys, [k], f);
    assert Flat([k], f) == f(k) + Flat([], f);
  }

  lemma {:induction false} InFlat<K, V>(keys: seq<K>, f: K -> seq<V>, v: V)
    ensures v in Flat(keys, f) <==> exists k :: k in keys && v in f(k)
  {
    if keys != [] {
      InFlat(keys[1..], f, v);
      assert keys == [keys[0]] + keys[1..];
    }
  }

  lemma FlatRemove<K, V>(b: seq<K>, j: nat, f: K -> seq<V>)
    requires j < |b|
    ensures multiset(Flat(b, f)) == multiset(f(b[j])) + multiset(Flat(b[..j] + b[j + 1..], f))
  {
    assert b == b[..j] + ([b[j]] + b[j + 1..]);
    FlatConcat(b[..j], [b[j]] + b[j + 1..], f);
    FlatConcat([b[j]], b[j + 1..], f);
    FlatConcat(b[..j], b[j + 1..], f);
    assert Flat([b[j]], f) == f(b[j]) + Flat([], f);
  }

  lemma RemoveDistinct<K>(b: seq<K>, j: nat)
    requires j < |b| && Distinct(b)
    ensures var rest := b[..j] + b[j + 1..];
            Distinct(rest) && forall k :: k in rest <==> k in b && k != b[j]
  {
    var rest := b[..j] + b[j + 1..];
    forall k ensures k in rest <==> k in b && k != b[j] {
      if k in b && k != b[j] {
        var i :| 0 <= i < |b| && b[i] == k;
        assert rest[if i < j then i else i - 1] == k;
      }
    }
  }

  lemma {:induction false} FlatOfNothing<K, V>(keys: seq<K>, f: K -> seq<V>)
    requires forall k | k in keys :: f(k) == []
    ensures Flat(keys, f) == []
  {
    if keys != [] {
      assert keys == [keys[0]] + keys[1..];
      FlatOfNothing(keys[1..], f);
    }
  }

  /** What is gathered does not depend on the order of the walk, nor on keys that hold nothing. */
  lemma {:induction false} FlatPermutes<K, V>(a: seq<K>, b: seq<K>, f: K -> seq<V>)
    requires Distinct(a) && Distinct(b)
    requires forall k | k in a && k !in b :: f(k) == []
    requires forall k | k in b && k !in a :: f(k) == []
    ensures multiset(Flat(a, f)) == multiset(Flat(b, f))
  {
    if a == [] {
      FlatOfNothing(b, f);
    } else {
      RemoveDistinct(a, 0);
      assert a[..0] + a[1..] == a[1..];
      if a[0] in b {
        var j :| 0 <= j < |b| && b[j] == a[0];
        FlatRemove(b, j, f);
        RemoveDistinct(b, j);
        FlatPermutes(a[1..], b[..j] + b[j + 1..], f);
      } else {
        FlatPermutes(a[1..], b, f);
      }
    }
  }
}
