/** A Python `dict` as the program uses it: keys in insertion order, and
    `d[k] = v` replacing the value in place when `k` is already present and
    appending a new entry otherwise. */
module Dict {
  import opened Base

  type Entries<K, V> = seq<(K, V)>

  /** `k in d`. */
  predicate HasKey<K(==), V>(e: Entries<K, V>, k: K)
    decreases |e|
  {
    e != [] && (e[|e| - 1].0 == k || HasKey(e[..|e| - 1], k))
  }

  /** The keys in insertion order, `list(d)`. */
  function Keys<K, V>(e: Entries<K, V>): (ks: seq<K>)
    ensures |ks| == |e| && forall i :: 0 <= i < |e| ==> ks[i] == e[i].0
    decreases |e|
  {
    if e == [] then [] else Keys(e[..|e| - 1]) + [e[|e| - 1].0]
  }

  predicate DistinctKeys<K(==), V>(e: Entries<K, V>) {
    forall i, j :: 0 <= i < j < |e| ==> e[i].0 != e[j].0
  }

  /** `d.get(k)`. */
  function Get<K(==), V>(e: Entries<K, V>, k: K): (r: Option<V>)
    ensures r.Some? <==> HasKey(e, k)
    decreases |e|
  {
    if e == [] then None
    else if e[|e| - 1].0 == k then Some(e[|e| - 1].1)
    else Get(e[..|e| - 1], k)
  }

  /** The position of a key that is present (its last one, which is its only
      one when the keys are distinct). */
  function IndexOf<K(==), V>(e: Entries<K, V>, k: K): (i: nat)
    requires HasKey(e, k)
    ensures i < |e| && e[i].0 == k && Get(e, k) == Some(e[i].1)
    decreases |e|
  {
    if e[|e| - 1].0 == k then |e| - 1 else IndexOf(e[..|e| - 1], k)
  }

  /** `d[k] = v`. */
  function Put<K(==), V>(e: Entries<K, V>, k: K, v: V): Entries<K, V>
  {
    if HasKey(e, k) then e[IndexOf(e, k) := (k, v)] else e + [(k, v)]
  }

  /** A key is present exactly when it sits at some position. */
  lemma {:induction false} HasKeyAt<K, V>(e: Entries<K, V>, k: K)
    ensures HasKey(e, k) <==> exists i :: 0 <= i < |e| && e[i].0 == k
    decreases |e|
  {
    if e != [] {
      var n := |e| - 1;
      HasKeyAt(e[..n], k);
      if exists i :: 0 <= i < |e| && e[i].0 == k {
        var i :| 0 <= i < |e| && e[i].0 == k;
        if i < n { assert e[..n][i].0 == k; }
      }
    }
  }

  /** In a dictionary with distinct keys the entry at a position is the one
      `Get` finds for its key. */
  lemma {:induction false} GetAt<K, V>(e: Entries<K, V>, i: nat)
    requires DistinctKeys(e) && i < |e|
    ensures Get(e, e[i].0) == Some(e[i].1)
    decreases |e|
  {
    if i < |e| - 1 {
      GetAt(e[..|e| - 1], i);
    }
  }

  /** Replacing the value at a position keeps the key order. */
  lemma {:induction false} KeysUpdate<K, V>(e: Entries<K, V>, i: nat, v: V)
    requires i < |e|
    ensures Keys(e[i := (e[i].0, v)]) == Keys(e)
    decreases |e|
  {
    var n := |e| - 1;
    if i < n {
      assert e[i := (e[i].0, v)][..n] == e[..n][i := (e[i].0, v)];
      KeysUpdate(e[..n], i, v);
    } else {
      assert e[i := (e[i].0, v)][..n] == e[..n];
    }
  }

  /** Assignment keeps the keys distinct, stores the value, leaves every other
      key alone, and keeps the position of the keys already present. */
  lemma PutSpec<K, V>(e: Entries<K, V>, k: K, v: V)
    requires DistinctKeys(e)
    ensures DistinctKeys(Put(e, k, v))
    ensures Get(Put(e, k, v), k) == Some(v)
    ensures forall k' :: k' != k ==> Get(Put(e, k, v), k') == Get(e, k')
    ensures HasKey(e, k) ==> Keys(Put(e, k, v)) == Keys(e)
    ensures !HasKey(e, k) ==> Keys(Put(e, k, v)) == Keys(e) + [k]
  {
    var r := Put(e, k, v);
    if HasKey(e, k) {
      var i := IndexOf(e, k);
      KeysUpdate(e, i, v);
      GetAt(r, i);
      forall k' | k' != k ensures Get(r, k') == Get(e, k') {
        HasKeyAt(e, k');
        if HasKey(e, k') {
          var j :| 0 <= j < |e| && e[j].0 == k';
          GetAt(e, j);
          GetAt(r, j);
        } else {
          HasKeyAt(r, k');
        }
      }
    } else {
      HasKeyAt(e, k);
      assert r[..|e|] == e;
      forall k' | k' != k ensures Get(r, k') == Get(e, k') {
      }
    }
  }

  /** The dictionary after assigning each pair in turn. */
  function PutAll<K(==), V>(e: Entries<K, V>, pairs: seq<(K, V)>): Entries<K, V>
    decreases |pairs|
  {
    if pairs == [] then e else Put(PutAll(e, pairs[..|pairs| - 1]), pairs[|pairs| - 1].0, pairs[|pairs| - 1].1)
  }

  /** After a run of assignments a key holds the value of its last assignment,
      read off the pairs from the back just like a lookup, or its old value
      when it was never assigned. */
  lemma {:induction false} PutAllGet<K, V>(e: Entries<K, V>, pairs: seq<(K, V)>, k: K)
    requires DistinctKeys(e)
    ensures DistinctKeys(PutAll(e, pairs))
    ensures Get(PutAll(e, pairs), k) == if HasKey(pairs, k) then Get(pairs, k) else Get(e, k)
    decreases |pairs|
  {
    if pairs != [] {
      var n := |pairs| - 1;
      PutAllGet(e, pairs[..n], k);
      PutSpec(PutAll(e, pairs[..n]), pairs[n].0, pairs[n].1);
    }
  }

  /** A lookup in a list of pairs finds the last pair with that key. */
  lemma {:induction false} GetLast<K, V>(pairs: seq<(K, V)>, i: nat)
    requires i < |pairs| && forall j :: i < j < |pairs| ==> pairs[j].0 != pairs[i].0
    ensures Get(pairs, pairs[i].0) == Some(pairs[i].1)
    decreases |pairs|
  {
    if i < |pairs| - 1 {
      GetLast(pairs[..|pairs| - 1], i);
    }
  }
}
