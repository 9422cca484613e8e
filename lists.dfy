/** Sequences seen as the item lists of ordered dictionaries. */
module Lists {

  /** No element occurs twice. */
  predicate Distinct<T(==)>(s: seq<T>) {
    forall i, j :: 0 <= i < j < |s| ==> s[i] != s[j]
  }

  /** The set of elements of a sequence. */
  function Elems<T>(s: seq<T>): set<T> {
    set x | x in s
  }

  lemma ElemsConcat<T>(a: seq<T>, b: seq<T>)
    ensures Elems(a + b) == Elems(a) + Elems(b)
  {
  }

  /** The keys of a list of dictionary items, in order. */
  function Keys<K, V>(items: seq<(K, V)>): (r: seq<K>)
    ensures |r| == |items|
    ensures forall i :: 0 <= i < |items| ==> r[i] == items[i].0
  {
    if items == [] then [] else Keys(items[..|items| - 1]) + [items[|items| - 1].0]
  }

  /** The values of a list of dictionary items, in order. */
  function Values<K, V>(items: seq<(K, V)>): (r: seq<V>)
    ensures |r| == |items|
    ensures forall i :: 0 <= i < |items| ==> r[i] == items[i].1
  {
    if items == [] then [] else Values(items[..|items| - 1]) + [items[|items| - 1].1]
  }

  /** A list of items is the item list of a dictionary when its keys are distinct. */
  predicate DistinctKeys<K(==), V>(items: seq<(K, V)>) {
    forall i, j :: 0 <= i < j < |items| ==> items[i].0 != items[j].0
  }

  /** The dictionary built from a list of items; a later item overrides an earlier one. */
  function ToMap<K, V>(items: seq<(K, V)>): (m: map<K, V>)
    ensures m.Keys == Elems(Keys(items))
  {
    if items == [] then map[]
    else
      var init := items[..|items| - 1];
      assert Keys(items) == Keys(init) + [items[|items| - 1].0];
      ToMap(init)[items[|items| - 1].0 := items[|items| - 1].1]
  }

  /** In a dictionary item list, every item is what the dictionary holds for its key. */
  lemma {:induction false} ToMapAt<K, V>(items: seq<(K, V)>, i: nat)
    requires DistinctKeys(items) && i < |items|
    ensures items[i].0 in ToMap(items) && ToMap(items)[items[i].0] == items[i].1
  {
    var n := |items| - 1;
    if i < n {
      ToMapAt(items[..n], i);
    }
  }

  /** Position i splits s into what comes before, s[i], and what comes after. */
  lemma SliceAt<T>(s: seq<T>, i: nat)
    requires i < |s|
    ensures s[i..] == [s[i]] + s[i + 1..] && s[..i + 1] == s[..i] + [s[i]]
  {
  }

  lemma DistinctPrefix<T>(s: seq<T>, n: nat)
    requires Distinct(s) && n <= |s|
    ensures Distinct(s[..n])
  {
  }

  lemma DistinctConcat<T>(a: seq<T>, b: seq<T>)
    ensures Distinct(a + b) <==> Distinct(a) && Distinct(b) && forall x :: x in a ==> x !in b
  {
    var c := a + b;
    assert forall i :: 0 <= i < |a| ==> c[i] == a[i];
    assert forall i :: 0 <= i < |b| ==> c[|a| + i] == b[i];
    if Distinct(a) && Distinct(b) && forall x :: x in a ==> x !in b {
      forall i, j | 0 <= i < j < |c| ensures c[i] != c[j] {
        if j < |a| {
        } else if i >= |a| {
          assert c[i] == b[i - |a|] && c[j] == b[j - |a|];
        } else {
          assert c[i] in a && c[j] in b;
        }
      }
    }
    if Distinct(c) {
      forall i, j | 0 <= i < |a| && 0 <= j < |b| ensures a[i] != b[j] {
        assert c[i] == a[i] && c[|a| + j] == b[j];
      }
      assert Distinct(a) by {
        forall i, j | 0 <= i < j < |a| ensures a[i] != a[j] {
          assert c[i] == a[i] && c[j] == a[j];
        }
      }
      assert Distinct(b) by {
        forall i, j | 0 <= i < j < |b| ensures b[i] != b[j] {
          assert c[|a| + i] == b[i] && c[|a| + j] == b[j];
        }
      }
    }
  }

  lemma DistinctSnoc<T>(s: seq<T>, x: T)
    ensures Distinct(s + [x]) <==> Distinct(s) && x !in s
  {
    var t := s + [x];
    assert forall i :: 0 <= i < |s| ==> t[i] == s[i];
    assert t[|s|] == x;
  }

  /** list(reversed(s)). */
  function Reversed<T>(s: seq<T>): (r: seq<T>)
    ensures |r| == |s| && forall i :: 0 <= i < |s| ==> r[i] == s[|s| - 1 - i]
  {
    seq(|s|, i requires 0 <= i < |s| => s[|s| - 1 - i])
  }

  /** A map is the dictionary of a list of items with distinct keys when it agrees with every item. */
  lemma ToMapByPoints<K, V>(items: seq<(K, V)>, m: map<K, V>)
    requires DistinctKeys(items) && m.Keys == Elems(Keys(items))
    requires forall i :: 0 <= i < |items| ==> m[items[i].0] == items[i].1
    ensures ToMap(items) == m
  {
    var t := ToMap(items);
    forall i | 0 <= i < |items| ensures t[items[i].0] == items[i].1 {
      ToMapAt(items, i);
    }
    forall k | k in m ensures t[k] == m[k] {
      SameAtKey(items, t, m, k);
    }
    MapExt(t, m);
  }

  lemma SameAtKey<K, V>(items: seq<(K, V)>, t: map<K, V>, m: map<K, V>, k: K)
    requires t.Keys == Elems(Keys(items)) && m.Keys == Elems(Keys(items)) && k in m
    requires forall i :: 0 <= i < |items| ==> t[items[i].0] == items[i].1 && m[items[i].0] == items[i].1
    ensures t[k] == m[k]
  {
    var i := KeyAt(items, k);
  }

  lemma MapExt<K, V>(t: map<K, V>, m: map<K, V>)
    requires t.Keys == m.Keys && forall k :: k in m ==> t[k] == m[k]
    ensures t == m
  {
  }

  /** The position of key k in a list of items. */
  function KeyAt<K(==), V>(d: seq<(K, V)>, k: K): (i: nat)
    requires k in Elems(Keys(d))
    ensures i < |d| && d[i].0 == k
  {
    if d[0].0 == k then 0
    else
      assert k in Elems(Keys(d[1..])) by {
        var j :| 0 <= j < |d| && Keys(d)[j] == k;
        assert Keys(d[1..])[j - 1] == k;
      }
      KeyAt(d[1..], k) + 1
  }

  /** d[k] = v on a dictionary's item list: overwrite the value in place, or append a new item. */
  function Assign<K(==), V>(d: seq<(K, V)>, k: K, v: V): (r: seq<(K, V)>)
    requires DistinctKeys(d)
    ensures DistinctKeys(r) && ToMap(r) == ToMap(d)[k := v]
    ensures Elems(Keys(r)) == Elems(Keys(d)) + {k}
    ensures k !in Elems(Keys(d)) ==> r == d + [(k, v)]
  {
    if k in Elems(Keys(d)) then
      var i := KeyAt(d, k);
      var r := d[i := (k, v)];
      assert Keys(r) == Keys(d);
      forall j | 0 <= j < |r| ensures ToMap(d)[k := v][r[j].0] == r[j].1 {
        ToMapAt(d, j);
      }
      ToMapByPoints(r, ToMap(d)[k := v]);
      r
    else
      var r := d + [(k, v)];
      assert Keys(r) == Keys(d) + [k];
      assert ToMap(r) == ToMap(d)[k := v] by {
        assert r[..|r| - 1] == d;
      }
      r
  }

  /** The dictionary a comprehension builds from a stream of items: first position, last value. */
  function FromItems<K(==), V>(items: seq<(K, V)>): (r: seq<(K, V)>)
    ensures DistinctKeys(r) && ToMap(r) == ToMap(items)
  {
    if items == [] then []
    else
      var n := |items| - 1;
      assert items[..n + 1] == items;
      Assign(FromItems(items[..n]), items[n].0, items[n].1)
  }

  /** A stream whose keys are already distinct is its own dictionary, in the same order. */
  lemma {:induction false} FromDistinctItems<K, V>(items: seq<(K, V)>)
    requires DistinctKeys(items)
    ensures FromItems(items) == items
  {
    if items != [] {
      var n := |items| - 1;
      var init := items[..n];
      LastKeyNew(items);
      FromDistinctItems(init);
      assert FromItems(items) == Assign(init, items[n].0, items[n].1) by {
        assert items[..n + 1] == items;
      }
      assert init + [(items[n].0, items[n].1)] == items;
    }
  }

  /** In a dictionary item list, the items before the last have distinct keys, none of them the last key. */
  lemma LastKeyNew<K, V>(items: seq<(K, V)>)
    requires DistinctKeys(items) && items != []
    ensures DistinctKeys(items[..|items| - 1])
    ensures items[|items| - 1].0 !in Elems(Keys(items[..|items| - 1]))
  {
    var n := |items| - 1;
    var init := items[..n];
    forall j | 0 <= j < n ensures Keys(init)[j] != items[n].0 {
      assert Keys(init)[j] == items[j].0;
    }
  }

  /** When every item with key k holds v, the dictionary holds v at k. */
  lemma {:induction false} ToMapAgree<K, V>(items: seq<(K, V)>, k: K, v: V)
    requires k in Elems(Keys(items))
    requires forall i :: 0 <= i < |items| && items[i].0 == k ==> items[i].1 == v
    ensures ToMap(items)[k] == v
  {
    var n := |items| - 1;
    if items[n].0 != k {
      assert Keys(items) == Keys(items[..n]) + [items[n].0];
      ToMapAgree(items[..n], k, v);
    }
  }

  /** m with the keys of order[..k], one after another, set to f of the key. */
  ghost function UpdateEach<K, V>(m: map<K, V>, order: seq<K>, f: K -> V, k: nat): map<K, V>
    requires k <= |order|
  {
    if k == 0 then m else UpdateEach(m, order, f, k - 1)[order[k - 1] := f(order[k - 1])]
  }

  /** Updating keys already present keeps the keys, and each visited key holds f of it. */
  lemma {:induction false} UpdateEachAt<K, V>(m: map<K, V>, order: seq<K>, f: K -> V, k: nat)
    requires Distinct(order) && Elems(order) <= m.Keys && k <= |order|
    ensures UpdateEach(m, order, f, k).Keys == m.Keys
    ensures forall j :: 0 <= j < k ==> UpdateEach(m, order, f, k)[order[j]] == f(order[j])
  {
    if k > 0 {
      UpdateEachAt(m, order, f, k - 1);
      assert order[k - 1] in Elems(order);
    }
  }

  /** Updating every key of a dictionary, in its order, maps each key to f of it. */
  lemma UpdateEachAll<K, V>(m: map<K, V>, order: seq<K>, f: K -> V)
    requires Distinct(order) && Elems(order) == m.Keys
    ensures UpdateEach(m, order, f, |order|) == map n | n in m :: f(n)
  {
    var u := UpdateEach(m, order, f, |order|);
    UpdateEachAt(m, order, f, |order|);
    forall n | n in m ensures u[n] == f(n) {
      var j :| 0 <= j < |order| && order[j] == n;
    }
    MapExt(u, map n | n in m :: f(n));
  }
}
