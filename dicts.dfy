/** Python dicts, which remember insertion order: the service iterates the
    results and objects dicts in that order, so a dict is the sequence of
    its items with distinct keys. */
module Dicts {
  import opened Common

  type Dict<K, V> = seq<(K, V)>

  predicate HasKey<K(==), V>(d: Dict<K, V>, k: K) {
    exists i :: 0 <= i < |d| && d[i].0 == k
  }

  predicate UniqueKeys<K(==), V>(d: Dict<K, V>) {
    forall i, j :: 0 <= i < j < |d| ==> d[i].0 != d[j].0
  }

  /** The position of key k in d, or -1 when k is absent. */
  function KeyIndex<K(==), V>(d: Dict<K, V>, k: K): (i: int)
    ensures -1 <= i < |d|
    ensures i >= 0 ==> d[i].0 == k && forall j :: 0 <= j < i ==> d[j].0 != k
    ensures i == -1 ==> forall j :: 0 <= j < |d| ==> d[j].0 != k
    decreases |d|
  {
    if |d| == 0 then -1
    else if d[0].0 == k then 0
    else
      var i := KeyIndex(d[1..], k);
      if i == -1 then -1 else i + 1
  }

  /** In a dict with distinct keys, the position of a key is where it stands. */
  lemma {:induction false} KeyIndexAt<K, V>(d: Dict<K, V>, j: int)
    requires UniqueKeys(d) && 0 <= j < |d|
    ensures KeyIndex(d, d[j].0) == j
  {
  }

  /** d.get(k): the value stored under k, None when k is absent. */
  function Get<K(==), V>(d: Dict<K, V>, k: K): (r: Option<V>)
    ensures r.Some? <==> HasKey(d, k)
  {
    var i := KeyIndex(d, k);
    if i >= 0 then Some(d[i].1) else None
  }

  /** d[k] = v: the value of an existing key is replaced where it stands,
      a new key is appended. */
  function Put<K(==), V>(d: Dict<K, V>, k: K, v: V): (r: Dict<K, V>) {
    var i := KeyIndex(d, k);
    if i >= 0 then d[i := (k, v)] else d + [(k, v)]
  }

  lemma {:induction false} PutUnique<K, V>(d: Dict<K, V>, k: K, v: V)
    requires UniqueKeys(d)
    ensures UniqueKeys(Put(d, k, v))
  {
    var i := KeyIndex(d, k);
    var r := Put(d, k, v);
    forall a, b | 0 <= a < b < |r| ensures r[a].0 != r[b].0 {
      if i == -1 && b == |d| {
        assert r[a] == d[a];
      } else {
        assert r[a].0 == d[a].0 && r[b].0 == d[b].0;
      }
    }
  }

  lemma {:induction false} PutGetOther<K, V>(d: Dict<K, V>, k: K, v: V, k': K)
    requires UniqueKeys(d) && k' != k
    ensures Get(Put(d, k, v), k') == Get(d, k')
  {
    PutUnique(d, k, v);
    var r := Put(d, k, v);
    var j := KeyIndex(d, k');
    if j >= 0 {
      assert r[j] == d[j];
      KeyIndexAt(r, j);
    } else {
      forall a | 0 <= a < |r| ensures r[a].0 != k' {
        if a < |d| {
          assert r[a].0 == d[a].0;
        }
      }
    }
  }

  /** Put keeps the keys distinct, stores v under k, leaves every other key
      alone, and grows the dict only for a new key, at its end. */
  lemma {:induction false} PutSpec<K, V>(d: Dict<K, V>, k: K, v: V)
    requires UniqueKeys(d)
    ensures UniqueKeys(Put(d, k, v))
    ensures Get(Put(d, k, v), k) == Some(v)
    ensures forall k' :: k' != k ==> Get(Put(d, k, v), k') == Get(d, k')
    ensures !HasKey(d, k) ==> Put(d, k, v) == d + [(k, v)]
    ensures HasKey(d, k) ==> |Put(d, k, v)| == |d|
  {
    PutUnique(d, k, v);
    var r := Put(d, k, v);
    var i := KeyIndex(d, k);
    if i >= 0 {
      KeyIndexAt(r, i);
    } else {
      KeyIndexAt(r, |d|);
    }
    forall k' | k' != k ensures Get(r, k') == Get(d, k') {
      PutGetOther(d, k, v, k');
    }
  }

  /** The dict a loop `d[k] = v` over the pairs builds from an empty dict. */
  function FromPairs<K(==), V>(ps: seq<(K, V)>): (d: Dict<K, V>)
    decreases |ps|
  {
    if |ps| == 0 then []
    else Put(FromPairs(ps[..|ps| - 1]), ps[|ps| - 1].0, ps[|ps| - 1].1)
  }

  /** The value of the last pair with key k: an independent reading of what
      a later duplicate overwriting an earlier one means. */
  function LastValue<K(==), V>(ps: seq<(K, V)>, k: K): (r: Option<V>)
    decreases |ps|
  {
    if |ps| == 0 then None
    else if ps[|ps| - 1].0 == k then Some(ps[|ps| - 1].1)
    else LastValue(ps[..|ps| - 1], k)
  }

  /** The dict built from a sequence of pairs has distinct keys, and each key
      holds the value of its last pair: later duplicates overwrite. */
  lemma {:induction false} FromPairsGet<K, V>(ps: seq<(K, V)>)
    ensures UniqueKeys(FromPairs(ps))
    ensures forall k :: Get(FromPairs(ps), k) == LastValue(ps, k)
    decreases |ps|
  {
    if |ps| > 0 {
      var init := ps[..|ps| - 1];
      FromPairsGet(init);
      PutSpec(FromPairs(init), ps[|ps| - 1].0, ps[|ps| - 1].1);
    }
  }

  /** A key is in the built dict exactly when some pair carries it. */
  lemma {:induction false} LastValueSome<K, V>(ps: seq<(K, V)>, k: K)
    ensures LastValue(ps, k).Some? <==> exists i :: 0 <= i < |ps| && ps[i].0 == k
    decreases |ps|
  {
    if |ps| > 0 {
      var init := ps[..|ps| - 1];
      LastValueSome(init, k);
      if ps[|ps| - 1].0 != k {
        assert forall i :: 0 <= i < |init| ==> init[i] == ps[i];
        if exists i :: 0 <= i < |ps| && ps[i].0 == k {
          var i :| 0 <= i < |ps| && ps[i].0 == k;
          assert init[i].0 == k;
        }
      }
    }
  }

  /** The value of the last pair with a key is the value of one of the
      pairs with that key. */
  lemma {:induction false} LastValueIn<K, V>(ps: seq<(K, V)>, k: K)
    requires LastValue(ps, k).Some?
    ensures (k, LastValue(ps, k).value) in ps
    decreases |ps|
  {
    if ps[|ps| - 1].0 != k {
      LastValueIn(ps[..|ps| - 1], k);
      assert ps[..|ps| - 1] <= ps;
    }
  }

  /** Every item of the built dict is one of the pairs it was built from. */
  lemma {:induction false} FromPairsItems<K, V>(ps: seq<(K, V)>)
    ensures forall m :: 0 <= m < |FromPairs(ps)| ==> FromPairs(ps)[m] in ps
    decreases |ps|
  {
    if |ps| > 0 {
      var init := ps[..|ps| - 1];
      var x := ps[|ps| - 1];
      FromPairsItems(init);
      var d := FromPairs(init);
      var i := KeyIndex(d, x.0);
      assert forall m :: 0 <= m < |Put(d, x.0, x.1)| ==>
        Put(d, x.0, x.1)[m] == (if m == i then x else if m < |d| then d[m] else x);
      assert forall p :: p in init ==> p in ps;
    }
  }

  /** The values of a dict in insertion order (d.values()). */
  function Values<K, V>(d: Dict<K, V>): (vs: seq<V>)
    ensures |vs| == |d|
    ensures forall i :: 0 <= i < |d| ==> vs[i] == d[i].1
  {
    seq(|d|, i requires 0 <= i < |d| => d[i].1)
  }
}
