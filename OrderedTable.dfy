/**
 * A JavaScript `Map<number, V>` as a value: entries in insertion order.
 * `set` on a present key replaces the entry where it stands, `set` on an absent
 * key appends, `delete` removes the entry, and `values()` lists entries in order.
 */
module OrderedTable {
  import opened Wrappers

  datatype Entry<V> = Entry(key: int, value: V)

  type Table<V> = seq<Entry<V>>

  /** The keys in iteration order. */
  function Keys<V>(t: Table<V>): (ks: seq<int>)
    ensures |ks| == |t|
    ensures forall i :: 0 <= i < |t| ==> ks[i] == t[i].key
  {
    seq(|t|, i requires 0 <= i < |t| => t[i].key)
  }

  /** `Array.from(map.values())`. */
  function Values<V>(t: Table<V>): (vs: seq<V>)
    ensures |vs| == |t|
    ensures forall i :: 0 <= i < |t| ==> vs[i] == t[i].value
  {
    seq(|t|, i requires 0 <= i < |t| => t[i].value)
  }

  /** A Map never holds the same key twice. */
  ghost predicate DistinctKeys<V>(t: Table<V>) {
    forall i, j :: 0 <= i < j < |t| ==> t[i].key != t[j].key
  }

  /** Where `k` stands in the iteration order, or -1. */
  function IndexOf<V>(t: Table<V>, k: int): (i: int)
    ensures -1 <= i < |t|
    ensures i == -1 <==> k !in Keys(t)
    ensures 0 <= i ==> t[i].key == k
    ensures forall j :: 0 <= j < i ==> t[j].key != k
  {
    if t == [] then -1
    else if t[0].key == k then 0
    else
      var j := IndexOf(t[1..], k);
      assert Keys(t) == [t[0].key] + Keys(t[1..]);
      if j == -1 then -1 else j + 1
  }

  /** The first entry with key `k` is the one `IndexOf` finds. */
  lemma IndexOfFirst<V>(t: Table<V>, k: int, i: int)
    requires 0 <= i < |t| && t[i].key == k
    requires forall j :: 0 <= j < i ==> t[j].key != k
    ensures IndexOf(t, k) == i
  {
    assert Keys(t)[i] == k;
  }

  /** `map.get(k)`. */
  function Get<V>(t: Table<V>, k: int): (r: Option<V>)
    ensures r.None? <==> k !in Keys(t)
    ensures r.Some? ==> Entry(k, r.value) in t
  {
    var i := IndexOf(t, k);
    if i < 0 then None else Some(t[i].value)
  }

  /** With distinct keys, every entry is what `get` returns for its key. */
  lemma GetEntry<V>(t: Table<V>, i: int)
    requires DistinctKeys(t)
    requires 0 <= i < |t|
    ensures Get(t, t[i].key) == Some(t[i].value)
  {
    var j := IndexOf(t, t[i].key);
    assert j >= 0 && t[j].key == t[i].key;
  }

  /** `map.set(k, v)`. */
  function Set<V>(t: Table<V>, k: int, v: V): (r: Table<V>)
    ensures Get(r, k) == Some(v)
    ensures forall j :: j != k ==> Get(r, j) == Get(t, j)
    ensures k !in Keys(t) ==> r == t + [Entry(k, v)]
    ensures k in Keys(t) ==> Keys(r) == Keys(t) && Values(r) == Values(t)[IndexOf(t, k) := v]
    ensures DistinctKeys(t) ==> DistinctKeys(r)
  {
    var i := IndexOf(t, k);
    var r := if i < 0 then t + [Entry(k, v)] else t[i := Entry(k, v)];
    IndexOfFirst(r, k, if i < 0 then |t| else i);
    forall j | j != k ensures Get(r, j) == Get(t, j) {
      var a := IndexOf(t, j);
      if a == -1 {
        assert j !in Keys(r);
      } else {
        IndexOfFirst(r, j, a);
      }
    }
    r
  }

  /** `map.delete(k)` applied to the table; the boolean it returns is `k in Keys(t)`. */
  function Delete<V>(t: Table<V>, k: int): (r: Table<V>)
    ensures forall j :: j != k ==> Get(r, j) == Get(t, j)
    ensures DistinctKeys(t) ==> Get(r, k) == None && DistinctKeys(r)
    ensures k !in Keys(t) ==> r == t
    ensures k in Keys(t) ==> |r| == |t| - 1 &&
                             r == t[..IndexOf(t, k)] + t[IndexOf(t, k) + 1..]
  {
    var i := IndexOf(t, k);
    if i < 0 then t
    else
      var r := t[..i] + t[i + 1..];
      forall j | j != k ensures Get(r, j) == Get(t, j) {
        RemoveKeepsOtherGets(t, i, j);
      }
      RemoveKeepsDistinct(t, i);
      r
  }

  lemma RemoveKeepsOtherGets<V>(t: Table<V>, i: int, j: int)
    requires 0 <= i < |t| && t[i].key != j
    ensures Get(t[..i] + t[i + 1..], j) == Get(t, j)
  {
    var r := t[..i] + t[i + 1..];
    assert forall m :: 0 <= m < i ==> r[m] == t[m];
    assert forall m :: i <= m < |r| ==> r[m] == t[m + 1];
    var a := IndexOf(t, j);
    if a == -1 {
      assert j !in Keys(r);
    } else if a < i {
      IndexOfFirst(r, j, a);
    } else {
      IndexOfFirst(r, j, a - 1);
    }
  }

  lemma RemoveKeepsDistinct<V>(t: Table<V>, i: int)
    requires 0 <= i < |t|
    ensures DistinctKeys(t) ==> DistinctKeys(t[..i] + t[i + 1..])
    ensures DistinctKeys(t) ==> t[i].key !in Keys(t[..i] + t[i + 1..])
  {
    var r := t[..i] + t[i + 1..];
    assert forall m :: 0 <= m < i ==> r[m] == t[m];
    assert forall m :: i <= m < |r| ==> r[m] == t[m + 1];
  }

  /** Listing the values gives exactly the values reachable by `get`, with no key listed twice. */
  lemma ValuesAreGets<V>(t: Table<V>)
    requires DistinctKeys(t)
    ensures forall i :: 0 <= i < |t| ==> Get(t, Keys(t)[i]) == Some(Values(t)[i])
    ensures forall k :: k in Keys(t) ==> Get(t, k).value in Values(t)
  {
    forall i | 0 <= i < |t| ensures Get(t, Keys(t)[i]) == Some(Values(t)[i]) {
      GetEntry(t, i);
    }
    forall k | k in Keys(t) ensures Get(t, k).value in Values(t) {
      var i := IndexOf(t, k);
      assert Values(t)[i] == Get(t, k).value;
    }
  }
}
