/** Group-by-key-and-sum reductions.

    The dashboard accumulates into a plain JavaScript object,
    `acc[k] = (acc[k] || 0) + v`, and later walks it with `Object.keys`,
    `Object.values` or `Object.entries`, which list keys in insertion
    order. Such an object is modelled here as an association list of
    buckets, in the order their keys were first inserted. */
module Grouping {
  import opened Wrappers
  import opened Sums

  /** One slot `acc[key]`: the running total and the number of
      contributions to it. */
  datatype Bucket<K> = Bucket(key: K, total: real, count: nat)

  predicate HasKey<K(==)>(b: seq<Bucket<K>>, k: K) {
    exists i :: 0 <= i < |b| && b[i].key == k
  }

  predicate UniqueKeys<K(==)>(b: seq<Bucket<K>>) {
    forall i, j :: 0 <= i < j < |b| ==> b[i].key != b[j].key
  }

  predicate NoDup<K(==)>(s: seq<K>) {
    forall i, j :: 0 <= i < j < |s| ==> s[i] != s[j]
  }

  function SumTotals<K>(b: seq<Bucket<K>>): real {
    if |b| == 0 then 0.0 else b[0].total + SumTotals(b[1..])
  }

  function SumCounts<K>(b: seq<Bucket<K>>): nat {
    if |b| == 0 then 0 else b[0].count + SumCounts(b[1..])
  }

  /** `x => key(x) == k` */
  function KeyIs<T, K(==)>(key: T -> K, k: K): T -> bool {
    x => key(x) == k
  }

  /** The sum of `val` over the elements whose key is `k`. */
  function SumWhere<T, K(==)>(s: seq<T>, key: T -> K, val: T -> real, k: K): real {
    SumOf(s, Keep(KeyIs(key, k), val))
  }

  /** The number of elements whose key is `k`. */
  function CountWhere<T, K(==)>(s: seq<T>, key: T -> K, k: K): nat {
    CountOf(s, KeyIs(key, k))
  }

  /** The distinct keys of `s`, in order of first appearance. */
  function Keys<T, K(==)>(s: seq<T>, key: T -> K): seq<K>
    decreases |s|
  {
    if |s| == 0 then []
    else
      var ks := Keys(s[..|s| - 1], key);
      if key(s[|s| - 1]) in ks then ks else ks + [key(s[|s| - 1])]
  }

  /** `acc[k] = (acc[k] || 0) + v`: adds to the bucket of `k` if there is
      one, otherwise appends a new bucket at the end. */
  function AddTo<K(==)>(b: seq<Bucket<K>>, k: K, v: real): (r: seq<Bucket<K>>)
    ensures HasKey(b, k) ==> |r| == |b|
    ensures !HasKey(b, k) ==> |r| == |b| + 1 && r[|b|] == Bucket(k, v, 1)
    ensures forall i :: 0 <= i < |b| ==> r[i].key == b[i].key
    ensures SumTotals(r) == SumTotals(b) + v
    ensures SumCounts(r) == SumCounts(b) + 1
  {
    if |b| == 0 then [Bucket(k, v, 1)]
    else if b[0].key == k then [b[0].(total := b[0].total + v, count := b[0].count + 1)] + b[1..]
    else
      var rest := AddTo(b[1..], k, v);
      assert HasKey(b, k) <==> HasKey(b[1..], k) by {
        if HasKey(b, k) {
          var i :| 0 <= i < |b| && b[i].key == k;
          assert b[1..][i - 1].key == k;
        }
      }
      [b[0]] + rest
  }

  /** With distinct keys, adding touches only the bucket of `k`, and the
      keys stay distinct. */
  lemma AddToUnique<K>(b: seq<Bucket<K>>, k: K, v: real)
    requires UniqueKeys(b)
    ensures var r := AddTo(b, k, v);
      && UniqueKeys(r)
      && forall i :: 0 <= i < |b| ==>
        && r[i].total == b[i].total + (if b[i].key == k then v else 0.0)
        && r[i].count == b[i].count + (if b[i].key == k then 1 else 0)
  {
    AddToTotals(b, k, v);
    AddToKeepsUnique(b, k, v);
  }

  lemma {:induction false} AddToTotals<K>(b: seq<Bucket<K>>, k: K, v: real)
    requires UniqueKeys(b)
    ensures forall i :: 0 <= i < |b| ==>
      && AddTo(b, k, v)[i].total == b[i].total + (if b[i].key == k then v else 0.0)
      && AddTo(b, k, v)[i].count == b[i].count + (if b[i].key == k then 1 else 0)
    decreases |b|
  {
    if |b| > 0 {
      if b[0].key == k {
        forall i | 0 < i < |b| ensures b[i].key != k {
          assert b[0].key != b[i].key;
        }
      } else {
        AddToTotals(b[1..], k, v);
        assert AddTo(b, k, v) == [b[0]] + AddTo(b[1..], k, v);
      }
    }
  }

  lemma AddToKeepsUnique<K>(b: seq<Bucket<K>>, k: K, v: real)
    requires UniqueKeys(b)
    ensures UniqueKeys(AddTo(b, k, v))
  {
    var r := AddTo(b, k, v);
    forall i, j | 0 <= i < j < |r| ensures r[i].key != r[j].key {
      if j == |b| {
        assert r[i].key == b[i].key;
      }
    }
  }

  /** `b` lists exactly the keys of `s`, in order of first appearance,
      each with the sum and the count of the values carrying it. */
  ghost predicate Summarises<T, K>(b: seq<Bucket<K>>, s: seq<T>, key: T -> K, val: T -> real) {
    && |b| == |Keys(s, key)|
    && (forall i :: 0 <= i < |b| ==> b[i].key == Keys(s, key)[i])
    && (forall i :: 0 <= i < |b| ==>
          b[i].total == SumWhere(s, key, val, b[i].key) && b[i].count == CountWhere(s, key, b[i].key))
  }

  /** The whole reduction: one bucket per distinct key, in order of first
      appearance, holding the sum and the count of that key's values.
      Bucket totals add up to the grand total and counts to the length. */
  function Group<T, K(==)>(s: seq<T>, key: T -> K, val: T -> real): (r: seq<Bucket<K>>)
    ensures Summarises(r, s, key, val)
    ensures UniqueKeys(r)
    ensures SumTotals(r) == SumOf(s, val)
    ensures SumCounts(r) == |s|
    decreases |s|
  {
    if |s| == 0 then []
    else
      var b := Group(s[..|s| - 1], key, val);
      GroupStep(s, key, val, b);
      AddTo(b, key(s[|s| - 1]), val(s[|s| - 1]))
  }

  /** Adding the last element to the grouping of the rest of `s` groups `s`. */
  lemma GroupStep<T, K>(s: seq<T>, key: T -> K, val: T -> real, b: seq<Bucket<K>>)
    requires |s| > 0
    requires Summarises(b, s[..|s| - 1], key, val) && UniqueKeys(b)
    ensures Summarises(AddTo(b, key(s[|s| - 1]), val(s[|s| - 1])), s, key, val)
    ensures UniqueKeys(AddTo(b, key(s[|s| - 1]), val(s[|s| - 1])))
  {
    var x := s[|s| - 1];
    var r := AddTo(b, key(x), val(x));
    AddToKeepsUnique(b, key(x), val(x));
    GroupStepKeys(s, key, b, val(x));
    OldBucketsStep(s, key, val, b);
    if !HasKey(b, key(x)) {
      NewBucketStep(s, key, val);
    }
    forall i | 0 <= i < |r|
      ensures r[i].total == SumWhere(s, key, val, r[i].key) && r[i].count == CountWhere(s, key, r[i].key)
    {
      if i == |b| {
        assert r[i].key == key(x);
      }
    }
  }

  /** The buckets after adding the last element list the keys of `s`. */
  lemma GroupStepKeys<T, K>(s: seq<T>, key: T -> K, b: seq<Bucket<K>>, v: real)
    requires |s| > 0
    requires |b| == |Keys(s[..|s| - 1], key)|
    requires forall i :: 0 <= i < |b| ==> b[i].key == Keys(s[..|s| - 1], key)[i]
    ensures var r := AddTo(b, key(s[|s| - 1]), v);
      && |r| == |Keys(s, key)|
      && (forall i :: 0 <= i < |r| ==> r[i].key == Keys(s, key)[i])
    ensures HasKey(b, key(s[|s| - 1])) <==> key(s[|s| - 1]) in Keys(s[..|s| - 1], key)
  {
    var x := s[|s| - 1];
    var ks := Keys(s[..|s| - 1], key);
    assert HasKey(b, key(x)) <==> key(x) in ks by {
      if key(x) in ks {
        var i :| 0 <= i < |ks| && ks[i] == key(x);
        assert b[i].key == key(x);
      }
    }
  }

  /** The buckets already there take the last element into account. */
  lemma OldBucketsStep<T, K>(s: seq<T>, key: T -> K, val: T -> real, b: seq<Bucket<K>>)
    requires |s| > 0
    requires Summarises(b, s[..|s| - 1], key, val) && UniqueKeys(b)
    ensures var r := AddTo(b, key(s[|s| - 1]), val(s[|s| - 1]));
      forall i :: 0 <= i < |b| ==>
        r[i].total == SumWhere(s, key, val, r[i].key) && r[i].count == CountWhere(s, key, r[i].key)
  {
    var r := AddTo(b, key(s[|s| - 1]), val(s[|s| - 1]));
    AddToUnique(b, key(s[|s| - 1]), val(s[|s| - 1]));
    forall i | 0 <= i < |b|
      ensures r[i].total == SumWhere(s, key, val, r[i].key) && r[i].count == CountWhere(s, key, r[i].key)
    {
      WhereStep(s, key, val, b[i].key);
    }
  }

  /** A key seen for the first time gets a bucket of the last element alone. */
  lemma NewBucketStep<T, K>(s: seq<T>, key: T -> K, val: T -> real)
    requires |s| > 0
    requires key(s[|s| - 1]) !in Keys(s[..|s| - 1], key)
    ensures SumWhere(s, key, val, key(s[|s| - 1])) == val(s[|s| - 1])
    ensures CountWhere(s, key, key(s[|s| - 1])) == 1
  {
    var n := |s| - 1;
    KeysComplete(s[..n], key, key(s[n]));
    NoKeyNoSum(s[..n], key, val, key(s[n]));
    WhereStep(s, key, val, key(s[n]));
  }

  /** The keyed sum and count of `s` extend those of `s` without its last element. */
  lemma WhereStep<T, K>(s: seq<T>, key: T -> K, val: T -> real, k: K)
    requires |s| > 0
    ensures SumWhere(s, key, val, k)
      == SumWhere(s[..|s| - 1], key, val, k) + (if key(s[|s| - 1]) == k then val(s[|s| - 1]) else 0.0)
    ensures CountWhere(s, key, k)
      == CountWhere(s[..|s| - 1], key, k) + (if key(s[|s| - 1]) == k then 1 else 0)
  {
  }

  /** A key occurs in `Keys(s)` exactly when some element carries it. */
  lemma {:induction false} KeysComplete<T, K>(s: seq<T>, key: T -> K, k: K)
    ensures k in Keys(s, key) <==> exists i :: 0 <= i < |s| && key(s[i]) == k
    decreases |s|
  {
    if |s| > 0 {
      var n := |s| - 1;
      KeysComplete(s[..n], key, k);
      if exists i :: 0 <= i < |s| && key(s[i]) == k {
        var i :| 0 <= i < |s| && key(s[i]) == k;
        if i < n {
          assert key(s[..n][i]) == k;
        }
      }
      if exists i :: 0 <= i < n && key(s[..n][i]) == k {
        var i :| 0 <= i < n && key(s[..n][i]) == k;
        assert key(s[i]) == k;
      }
    }
  }

  /** `Keys(s)` lists no key twice. */
  lemma {:induction false} KeysUnique<T, K>(s: seq<T>, key: T -> K)
    ensures NoDup(Keys(s, key))
    decreases |s|
  {
    if |s| > 0 {
      KeysUnique(s[..|s| - 1], key);
    }
  }

  /** A key that no element carries has nothing summed or counted. */
  lemma {:induction false} NoKeyNoSum<T, K>(s: seq<T>, key: T -> K, val: T -> real, k: K)
    requires forall i :: 0 <= i < |s| ==> key(s[i]) != k
    ensures SumWhere(s, key, val, k) == 0.0
    ensures CountWhere(s, key, k) == 0
    decreases |s|
  {
    if |s| > 0 {
      NoKeyNoSum(s[..|s| - 1], key, val, k);
    }
  }

  /** Keys are listed in order of first appearance: for two listed keys,
      the earlier one occurs in `s` before any occurrence of the later one. */
  lemma {:induction false} KeysInFirstAppearanceOrder<T, K>(s: seq<T>, key: T -> K, i: nat, j: nat)
    requires i < j < |Keys(s, key)|
    ensures exists p :: (0 <= p < |s| && key(s[p]) == Keys(s, key)[i]
      && (forall q :: 0 <= q <= p ==> key(s[q]) != Keys(s, key)[j]))
    decreases |s|
  {
    var n := |s| - 1;
    var ks := Keys(s[..n], key);
    if j < |ks| {
      KeysInFirstAppearanceOrder(s[..n], key, i, j);
      var p :| 0 <= p < n && key(s[..n][p]) == ks[i]
        && (forall q :: 0 <= q <= p ==> key(s[..n][q]) != ks[j]);
      assert key(s[p]) == Keys(s, key)[i];
      forall q | 0 <= q <= p ensures key(s[q]) != Keys(s, key)[j] {
        assert s[q] == s[..n][q];
      }
    } else {
      KeysComplete(s[..n], key, ks[i]);
      KeysComplete(s[..n], key, key(s[n]));
      var p :| 0 <= p < n && key(s[..n][p]) == ks[i];
      assert key(s[p]) == Keys(s, key)[i];
      forall q | 0 <= q <= p ensures key(s[q]) != Keys(s, key)[j] {
        assert s[q] == s[..n][q];
      }
    }
  }

  /** `acc[k] || 0`: the total of the bucket of `k`, or zero. */
  function TotalFor<K(==)>(b: seq<Bucket<K>>, k: K): (r: real)
    ensures !HasKey(b, k) ==> r == 0.0
    ensures UniqueKeys(b) ==> forall i :: 0 <= i < |b| && b[i].key == k ==> r == b[i].total
  {
    if |b| == 0 then 0.0
    else if b[0].key == k then b[0].total
    else
      assert !HasKey(b, k) ==> !HasKey(b[1..], k) by {
        if HasKey(b[1..], k) {
          var i :| 0 <= i < |b[1..]| && b[1..][i].key == k;
          assert b[i + 1].key == k;
        }
      }
      TotalFor(b[1..], k)
  }

  /** The grouped total of any key, listed or not, is the keyed sum. */
  lemma GroupTotalFor<T, K>(s: seq<T>, key: T -> K, val: T -> real, k: K)
    ensures TotalFor(Group(s, key, val), k) == SumWhere(s, key, val, k)
  {
    var b := Group(s, key, val);
    if HasKey(b, k) {
      var i :| 0 <= i < |b| && b[i].key == k;
    } else {
      KeysComplete(s, key, k);
      NoKeyNoSum(s, key, val, k);
    }
  }
}
