/**
 Adding up bytes by key. Whatever the keys are, nothing is lost and nothing is counted twice.
 */
module Grouping {
  import opened Outcome

  datatype Usage = Usage(up: int, down: int) {
    function Plus(other: Usage): Usage {
      Usage(up + other.up, down + other.down)
    }

    function Total(): int {
      up + down
    }
  }

  const NONE := Usage(0, 0)

  /** The sum of every item, by the key of the item; items without a key are left out. */
  function Grouped<A, K(==)>(items: seq<A>, key: A -> Option<K>, bytes: A -> Usage): map<K, Usage> {
    if items == [] then map[]
    else
      var last := items[|items| - 1];
      var m := Grouped(items[..|items| - 1], key, bytes);
      if key(last).None? then m else AddTo(m, key(last).value, bytes(last))
  }

  function AddTo<K(==)>(m: map<K, Usage>, k: K, u: Usage): map<K, Usage> {
    m[k := (if k in m then m[k] else NONE).Plus(u)]
  }

  /** The sum over the items of one key. */
  function SumFor<A, K(==)>(items: seq<A>, key: A -> Option<K>, bytes: A -> Usage, k: K): Usage {
    if items == [] then NONE
    else
      var last := items[|items| - 1];
      SumFor(items[..|items| - 1], key, bytes, k).Plus(if key(last) == Some(k) then bytes(last) else NONE)
  }

  /** The sum over all items that have a key. */
  function SumKnown<A, K>(items: seq<A>, key: A -> Option<K>, bytes: A -> Usage): Usage {
    if items == [] then NONE
    else
      var last := items[|items| - 1];
      SumKnown(items[..|items| - 1], key, bytes).Plus(if key(last).Some? then bytes(last) else NONE)
  }

  /** Keys that leave out the same items know the same bytes. */
  lemma {:induction false} SumKnownSame<A, J, K>(items: seq<A>, a: A -> Option<J>, b: A -> Option<K>, bytes: A -> Usage)
    requires forall i :: 0 <= i < |items| ==> (a(items[i]).Some? <==> b(items[i]).Some?)
    ensures SumKnown(items, a, bytes) == SumKnown(items, b, bytes)
    decreases |items|
  {
    if items != [] {
      var last := items[|items| - 1];
      assert a(last).Some? <==> b(last).Some?;
      SumKnownSame(items[..|items| - 1], a, b, bytes);
    }
  }

  ghost predicate HasKey<A, K(!new)>(items: seq<A>, key: A -> Option<K>, k: K) {
    exists i :: 0 <= i < |items| && key(items[i]) == Some(k)
  }

  function At<K(==)>(m: map<K, Usage>, k: K): Usage {
    if k in m then m[k] else NONE
  }

  /** A key's entry is the sum over the items of the key. */
  lemma {:induction false} GroupedAt<A, K>(items: seq<A>, key: A -> Option<K>, bytes: A -> Usage, k: K)
    ensures At(Grouped(items, key, bytes), k) == SumFor(items, key, bytes, k)
    decreases |items|
  {
    if items != [] {
      GroupedAt(items[..|items| - 1], key, bytes, k);
    }
  }

  lemma SumForNone<A, K>(key: A -> Option<K>, bytes: A -> Usage, k: K)
    ensures SumFor([], key, bytes, k) == NONE
  {
  }

  lemma SumForOneMore<A, K>(items: seq<A>, x: A, key: A -> Option<K>, bytes: A -> Usage, k: K)
    ensures SumFor(items + [x], key, bytes, k) == SumFor(items, key, bytes, k).Plus(if key(x) == Some(k) then bytes(x) else NONE)
  {
    assert (items + [x])[..|items|] == items;
  }

  lemma {:induction false} SumForConcat<A, K>(a: seq<A>, b: seq<A>, key: A -> Option<K>, bytes: A -> Usage, k: K)
    ensures SumFor(a + b, key, bytes, k) == SumFor(a, key, bytes, k).Plus(SumFor(b, key, bytes, k))
    decreases |b|
  {
    hide SumFor;
    if b == [] {
      SumForNone(key, bytes, k);
      assert a + b == a;
    } else {
      var init, last := b[..|b| - 1], b[|b| - 1];
      SumForConcat(a, init, key, bytes, k);
      SumForOneMore(a + init, last, key, bytes, k);
      SumForOneMore(init, last, key, bytes, k);
      assert a + b == (a + init) + [last] && b == init + [last];
    }
  }

  /** The items that are not dropped. */
  function Without<A>(items: seq<A>, drop: A -> bool): seq<A> {
    if items == [] then []
    else Without(items[..|items| - 1], drop) + (if drop(items[|items| - 1]) then [] else [items[|items| - 1]])
  }

  lemma {:induction false} WithoutNone<A>(items: seq<A>, drop: A -> bool)
    requires forall i :: 0 <= i < |items| ==> !drop(items[i])
    ensures Without(items, drop) == items
    decreases |items|
  {
    if items != [] {
      WithoutNone(items[..|items| - 1], drop);
    }
  }

  /** Dropping items without a key drops no bytes. */
  lemma {:induction false} WithoutCounts<A(!new), K>(items: seq<A>, drop: A -> bool, key: A -> Option<K>, bytes: A -> Usage, k: K)
    requires forall x :: drop(x) ==> key(x) == None
    ensures SumFor(Without(items, drop), key, bytes, k) == SumFor(items, key, bytes, k)
    decreases |items|
  {
    if items != [] {
      var init, last := items[..|items| - 1], items[|items| - 1];
      WithoutCounts(init, drop, key, bytes, k);
      if drop(last) {
        assert Without(items, drop) == Without(init, drop);
      } else {
        SumForOneMore(Without(init, drop), last, key, bytes, k);
      }
    }
  }

  /** One item per key. */
  function Mapped<K, A>(keys: seq<K>, make: K -> A): (items: seq<A>)
    ensures |items| == |keys| && forall i :: 0 <= i < |keys| ==> items[i] == make(keys[i])
  {
    if keys == [] then [] else Mapped(keys[..|keys| - 1], make) + [make(keys[|keys| - 1])]
  }

  lemma MappedOneMore<K, A>(keys: seq<K>, make: K -> A, key: A -> Option<K>, bytes: A -> Usage, k: K)
    requires keys != []
    ensures var init, last := keys[..|keys| - 1], make(keys[|keys| - 1]);
            SumFor(Mapped(keys, make), key, bytes, k)
            == SumFor(Mapped(init, make), key, bytes, k).Plus(if key(last) == Some(k) then bytes(last) else NONE)
  {
    SumForOneMore(Mapped(keys[..|keys| - 1], make), make(keys[|keys| - 1]), key, bytes, k);
    hide SumFor;
  }

  lemma {:induction false} SumForMisses<A, K>(items: seq<A>, key: A -> Option<K>, bytes: A -> Usage, k: K)
    requires forall i :: 0 <= i < |items| ==> key(items[i]) != Some(k)
    ensures SumFor(items, key, bytes, k) == NONE
    decreases |items|
  {
    if items != [] {
      assert key(items[|items| - 1]) != Some(k);
      SumForMisses(items[..|items| - 1], key, bytes, k);
    }
  }

  lemma {:induction false} MappedHits<K, A>(keys: seq<K>, make: K -> A, key: A -> Option<K>, bytes: A -> Usage, k: K, i: nat)
    requires i < |keys| && key(make(keys[i])) == Some(k)
    requires forall j :: 0 <= j < |keys| && j != i ==> key(make(keys[j])) != Some(k)
    ensures SumFor(Mapped(keys, make), key, bytes, k) == bytes(make(keys[i]))
    decreases |keys|
  {
    hide SumFor, Mapped;
    var n := |keys| - 1;
    MappedOneMore(keys, make, key, bytes, k);
    if i == n {
      SumForMisses(Mapped(keys[..n], make), key, bytes, k);
    } else {
      MappedHits(keys[..n], make, key, bytes, k, i);
    }
  }

  /** An item made for a key counts there or nowhere. */
  lemma MappedCounts<K, A>(keys: seq<K>, make: K -> A, key: A -> Option<K>, bytes: A -> Usage, k: K)
    requires forall i :: 0 <= i < |keys| ==> key(make(keys[i])) == None || key(make(keys[i])) == Some(keys[i])
    requires forall i, j :: 0 <= i < j < |keys| ==> keys[i] != keys[j]
    ensures SumFor(Mapped(keys, make), key, bytes, k) == if k in keys && key(make(k)) == Some(k) then bytes(make(k)) else NONE
  {
    hide SumFor, Mapped;
    if k in keys && key(make(k)) == Some(k) {
      var i :| 0 <= i < |keys| && keys[i] == k;
      MappedHits(keys, make, key, bytes, k, i);
    } else {
      SumForMisses(Mapped(keys, make), key, bytes, k);
    }
  }

  /** Keys without items have no entry. */
  lemma {:induction false} GroupedKeys<A, K(!new)>(items: seq<A>, key: A -> Option<K>, bytes: A -> Usage, k: K)
    ensures k in Grouped(items, key, bytes) <==> HasKey(items, key, k)
    decreases |items|
  {
    if items != [] {
      var init, last := items[..|items| - 1], items[|items| - 1];
      GroupedKeys(init, key, bytes, k);
      HasKeyPrefix(items, key, k);
    }
  }

  lemma HasKeyPrefix<A, K(!new)>(items: seq<A>, key: A -> Option<K>, k: K)
    requires items != []
    ensures HasKey(items, key, k) <==> HasKey(items[..|items| - 1], key, k) || key(items[|items| - 1]) == Some(k)
  {
    var init := items[..|items| - 1];
    if HasKey(init, key, k) {
      var i :| 0 <= i < |init| && key(init[i]) == Some(k);
      assert key(items[i]) == Some(k);
    }
    if HasKey(items, key, k) {
      var i :| 0 <= i < |items| && key(items[i]) == Some(k);
      assert i < |init| ==> key(init[i]) == Some(k);
    }
  }

  // ---------- Sums over a map ----------

  ghost function MapSum<K>(m: map<K, Usage>): Usage
    decreases |m.Keys|
  {
    if m.Keys == {} then NONE
    else
      var k :| k in m.Keys;
      m[k].Plus(MapSum(m - {k}))
  }

  lemma MapSumPick<K>(m: map<K, Usage>) returns (k: K)
    requires m.Keys != {}
    ensures k in m && MapSum(m) == m[k].Plus(MapSum(m - {k}))
  {
    k :| k in m.Keys && MapSum(m) == m[k].Plus(MapSum(m - {k}));
  }

  /** Any key can be taken out first. */
  lemma {:induction false} MapSumWithout<K>(m: map<K, Usage>, k: K)
    requires k in m
    ensures MapSum(m) == m[k].Plus(MapSum(m - {k}))
    decreases |m.Keys|
  {
    hide MapSum;
    assert k in m.Keys;
    var j := MapSumPick(m);
    if j != k {
      assert (m - {j})[k] == m[k] && (m - {k})[j] == m[j];
      MapSumWithout(m - {j}, k);
      MapSumWithout(m - {k}, j);
      assert m - {j} - {k} == m - {k} - {j};
    }
  }

  lemma MapSumAdd<K>(m: map<K, Usage>, k: K, u: Usage)
    ensures MapSum(AddTo(m, k, u)) == MapSum(m).Plus(u)
  {
    var n := AddTo(m, k, u);
    MapSumWithout(n, k);
    if k in m {
      MapSumWithout(m, k);
      assert n - {k} == m - {k};
    } else {
      assert n - {k} == m;
    }
  }

  /** Grouping conserves the bytes of the items that have a key. */
  lemma {:induction false} GroupedConserves<A, K>(items: seq<A>, key: A -> Option<K>, bytes: A -> Usage)
    ensures MapSum(Grouped(items, key, bytes)) == SumKnown(items, key, bytes)
    decreases |items|
  {
    if items == [] {
      EmptySum<K>();
    } else {
      var init, last := items[..|items| - 1], items[|items| - 1];
      GroupedConserves(init, key, bytes);
      if key(last).Some? {
        MapSumAdd(Grouped(init, key, bytes), key(last).value, bytes(last));
      }
    }
  }

  lemma EmptySum<K>()
    ensures MapSum<K>(map[]) == NONE
  {
    var m: map<K, Usage> := map[];
    assert m.Keys == {};
  }

  // ---------- Sums over a listing of the map ----------

  function ListSum<K>(keys: seq<K>, m: map<K, Usage>): Usage
    requires forall i :: 0 <= i < |keys| ==> keys[i] in m
  {
    if keys == [] then NONE else ListSum(keys[..|keys| - 1], m).Plus(m[keys[|keys| - 1]])
  }

  ghost predicate ListsKeys<K>(keys: seq<K>, m: map<K, Usage>) {
    && (forall i :: 0 <= i < |keys| ==> keys[i] in m)
    && (forall i, j :: 0 <= i < j < |keys| ==> keys[i] != keys[j])
    && (forall k :: k in m ==> k in keys)
  }

  /** In whatever order the keys are listed, each once, the sum is that of the map. */
  lemma {:induction false} ListSumIsMapSum<K>(keys: seq<K>, m: map<K, Usage>)
    requires ListsKeys(keys, m)
    ensures ListSum(keys, m) == MapSum(m)
    decreases |keys|
  {
    if keys == [] {
      assert m == map[];
      EmptySum<K>();
    } else {
      var n := |keys| - 1;
      var init, rest := keys[..n], m - {keys[n]};
      forall k | k in rest ensures k in init {
        var i :| 0 <= i < |keys| && keys[i] == k;
        assert init[i] == k;
      }
      ListSumIsMapSum(init, rest);
      SameListSum(init, rest, m);
      MapSumWithout(m, keys[n]);
    }
  }

  lemma {:induction false} SameListSum<K>(keys: seq<K>, a: map<K, Usage>, b: map<K, Usage>)
    requires forall i :: 0 <= i < |keys| ==> keys[i] in a && keys[i] in b && a[keys[i]] == b[keys[i]]
    ensures ListSum(keys, a) == ListSum(keys, b)
    decreases |keys|
  {
    if keys != [] {
      SameListSum(keys[..|keys| - 1], a, b);
    }
  }
}
