/**
 * A Python `dict` as the pipeline uses it: insertion-ordered, one entry per key,
 * and `d[k] = v` overwrites the value of an existing key in place (its position
 * stays where the key was first inserted) or appends a new entry.
 */
module PyDict {
  import opened Wrappers

  type Dict<K, V> = seq<(K, V)>

  function Keys<K, V>(d: Dict<K, V>): (ks: seq<K>)
    ensures |ks| == |d|
    ensures forall i :: 0 <= i < |d| ==> ks[i] == d[i].0
  {
    seq(|d|, i requires 0 <= i < |d| => d[i].0)
  }

  predicate DistinctKeys<K(==), V>(d: Dict<K, V>) {
    forall i, j :: 0 <= i < j < |d| ==> d[i].0 != d[j].0
  }

  /** The position of the entry for `k`: the first one with that key, or -1. */
  function IndexOf<K(==), V>(d: Dict<K, V>, k: K): (i: int)
    ensures -1 <= i < |d|
    ensures 0 <= i ==> d[i].0 == k && forall j :: 0 <= j < i ==> d[j].0 != k
    ensures i < 0 ==> forall j :: 0 <= j < |d| ==> d[j].0 != k
  {
    if |d| == 0 then -1
    else if d[0].0 == k then 0
    else
      var j := IndexOf(d[1..], k);
      if j < 0 then -1 else j + 1
  }

  /** `d.get(k)` */
  function Get<K(==), V>(d: Dict<K, V>, k: K): (r: Option<V>)
    ensures r.None? <==> k !in Keys(d)
  {
    var i := IndexOf(d, k);
    if i < 0 then None
    else
      assert Keys(d)[i] == k;
      Some(d[i].1)
  }

  /** `d[k] = v`: an existing entry is overwritten where it stands, a new key is appended. */
  function Put<K(==), V>(d: Dict<K, V>, k: K, v: V): (r: Dict<K, V>)
    ensures Get(r, k) == Some(v)
    ensures k in Keys(d) ==> |r| == |d| && forall i :: 0 <= i < |d| ==> r[i].0 == d[i].0
    ensures k !in Keys(d) ==> r == d + [(k, v)]
  {
    var i := IndexOf(d, k);
    if i < 0 then
      var r := d + [(k, v)];
      IndexOfFirst(r, k, |d|);
      r
    else
      var r := d[i := (k, v)];
      IndexOfFirst(r, k, i);
      r
  }

  /** The first entry with key `k` is the one `IndexOf` finds. */
  lemma {:induction false} IndexOfFirst<K, V>(d: Dict<K, V>, k: K, i: nat)
    requires i < |d| && d[i].0 == k
    requires forall j :: 0 <= j < i ==> d[j].0 != k
    ensures IndexOf(d, k) == i
  {
    if i > 0 {
      IndexOfFirst(d[1..], k, i - 1);
    }
  }

  /** A key no entry carries has no position. */
  lemma IndexOfAbsent<K, V>(d: Dict<K, V>, k: K)
    requires forall j :: 0 <= j < |d| ==> d[j].0 != k
    ensures IndexOf(d, k) == -1
  {
  }

  /** The keys after `d[k] = v` are the old keys and `k`. */
  lemma PutKeys<K, V>(d: Dict<K, V>, k: K, v: V, y: K)
    ensures y in Keys(Put(d, k, v)) <==> y in Keys(d) || y == k
  {
    var r := Put(d, k, v);
    if y in Keys(r) {
      var i :| 0 <= i < |r| && Keys(r)[i] == y;
      if i < |d| {
        assert Keys(d)[i] == y;
      }
    }
    if y in Keys(d) {
      var i :| 0 <= i < |d| && Keys(d)[i] == y;
      assert Keys(r)[i] == y;
    }
    if y == k && k !in Keys(d) {
      assert Keys(r)[|d|] == y;
    }
  }

  /** `d[k] = v` leaves every other key's value alone. */
  lemma PutOther<K, V>(d: Dict<K, V>, k: K, v: V, k': K)
    requires k' != k
    ensures Get(Put(d, k, v), k') == Get(d, k')
  {
    var r := Put(d, k, v);
    var i := IndexOf(d, k');
    if i >= 0 {
      IndexOfFirst(r, k', i);
    } else {
      IndexOfAbsent(r, k');
    }
  }

  /**
   * A dictionary that holds `f(y).value` for exactly the keys `ks` still does so,
   * for `ks + [k]`, after `d[k] = f(k).value`.
   */
  lemma PutLookup<K, V, E>(d: Dict<K, V>, ks: seq<K>, k: K, f: K -> Result<V, E>)
    requires f(k).Ok?
    requires forall y :: y in Keys(d) <==> y in ks
    requires forall y :: y in ks ==> f(y).Ok? && Get(d, y) == Some(f(y).value)
    ensures var r := Put(d, k, f(k).value);
            && (forall y :: y in Keys(r) <==> y in ks || y == k)
            && forall y :: y in ks || y == k ==> Get(r, y) == Some(f(y).value)
  {
    var r := Put(d, k, f(k).value);
    forall y ensures y in Keys(r) <==> y in ks || y == k {
      PutKeys(d, k, f(k).value, y);
    }
    forall y | y in ks && y != k ensures Get(r, y) == Some(f(y).value) {
      PutOther(d, k, f(k).value, y);
    }
  }

  /** Keys stay distinct under `d[k] = v`. */
  lemma PutDistinct<K, V>(d: Dict<K, V>, k: K, v: V)
    requires DistinctKeys(d)
    ensures DistinctKeys(Put(d, k, v))
  {
    var r := Put(d, k, v);
    forall i, j | 0 <= i < j < |r| ensures r[i].0 != r[j].0 {
      if j == |d| {
        assert Keys(d)[i] == r[i].0;
      }
    }
  }

  /** `d.values()`, in key order. */
  function Values<K, V>(d: Dict<K, V>): (vs: seq<V>)
    ensures |vs| == |d|
    ensures forall i :: 0 <= i < |d| ==> vs[i] == d[i].1
  {
    if |d| == 0 then [] else [d[0].1] + Values(d[1..])
  }

  /** `for k in ks: d[k] = f(k)`, starting from an empty dict. */
  function Collect<K(==), V>(ks: seq<K>, f: K -> V): Dict<K, V> {
    if |ks| == 0 then []
    else Put(Collect(ks[..|ks| - 1], f), ks[|ks| - 1], f(ks[|ks| - 1]))
  }

  /** Exactly the keys visited are present, once each. */
  lemma {:induction false} CollectKeys<K, V>(ks: seq<K>, f: K -> V)
    ensures DistinctKeys(Collect(ks, f))
    ensures forall k :: k in Keys(Collect(ks, f)) <==> k in ks
  {
    if |ks| > 0 {
      var init := ks[..|ks| - 1];
      var k := ks[|ks| - 1];
      CollectKeys(init, f);
      var d := Collect(init, f);
      PutDistinct(d, k, f(k));
      assert ks == init + [k];
      forall y ensures y in Keys(Collect(ks, f)) <==> y in ks {
        PutKeys(d, k, f(k), y);
      }
    }
  }

  /** A visited key other than the last was visited before it. */
  lemma CollectSplit<K>(ks: seq<K>, x: K)
    requires x in ks
    ensures x == ks[|ks| - 1] || x in ks[..|ks| - 1]
  {
    assert ks == ks[..|ks| - 1] + [ks[|ks| - 1]];
  }

  /** Storing the last key leaves the others' entries alone. */
  lemma CollectOther<K, V>(ks: seq<K>, f: K -> V, x: K)
    requires |ks| > 0
    requires x != ks[|ks| - 1]
    ensures Get(Collect(ks, f), x) == Get(Collect(ks[..|ks| - 1], f), x)
  {
    var k := ks[|ks| - 1];
    PutOther(Collect(ks[..|ks| - 1], f), k, f(k), x);
  }

  /** Each visited key maps to its own value. */
  lemma {:induction false} CollectGet<K, V>(ks: seq<K>, f: K -> V, x: K)
    requires x in ks
    ensures Get(Collect(ks, f), x) == Some(f(x))
  {
    CollectSplit(ks, x);
    if x != ks[|ks| - 1] {
      CollectOther(ks, f, x);
      CollectGet(ks[..|ks| - 1], f, x);
    }
  }
}
