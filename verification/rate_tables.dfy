/** Building a rate table from the `GET /tasa-cambio` list: each entry is
    written into a JavaScript object in list order, so for a repeated key
    the last entry wins. */
module RateTables {
  import opened Wrappers

  /** One row of the rate list; `rateToUSD` is what `parseFloat` makes of
      the row's rate (`None` is NaN). */
  datatype ExchangeRate = ExchangeRate(currency: string, rateToUSD: Option<real>)

  /** Some entry of `list` has key `k`. */
  predicate Listed<T>(list: seq<T>, key: T -> string, k: string) {
    exists i :: 0 <= i < |list| && key(list[i]) == k
  }

  /** Entry `i` is the last one of `list` with its key. */
  predicate LastOfKey<T>(list: seq<T>, key: T -> string, i: int) {
    0 <= i < |list| && forall j :: i < j < |list| ==> key(list[j]) != key(list[i])
  }

  /** `m` holds, for every key of `list`, the value of its last entry. */
  ghost predicate LastWinsMap<T, V>(m: map<string, V>, list: seq<T>, key: T -> string, val: T -> V) {
    && (forall k :: k in m <==> Listed(list, key, k))
    && (forall i :: LastOfKey(list, key, i) ==> key(list[i]) in m && m[key(list[i])] == val(list[i]))
  }

  /** `list.forEach(x => obj[key(x)] = val(x))` on an empty object. */
  function LastWins<T, V>(list: seq<T>, key: T -> string, val: T -> V): (m: map<string, V>)
    ensures LastWinsMap(m, list, key, val)
    decreases |list|
  {
    if |list| == 0 then map[]
    else
      var n := |list| - 1;
      var m := LastWins(list[..n], key, val);
      LastWinsStep(list, key, val, m);
      m[key(list[n]) := val(list[n])]
  }

  /** Writing the last entry over the table of the others gives the table
      of the whole list. */
  lemma LastWinsStep<T, V>(list: seq<T>, key: T -> string, val: T -> V, m: map<string, V>)
    requires |list| > 0 && LastWinsMap(m, list[..|list| - 1], key, val)
    ensures LastWinsMap(m[key(list[|list| - 1]) := val(list[|list| - 1])], list, key, val)
  {
    ListedStep(list, key);
    var x := list[|list| - 1];
    var m' := m[key(x) := val(x)];
    forall i | LastOfKey(list, key, i) ensures key(list[i]) in m' && m'[key(list[i])] == val(list[i]) {
      if i < |list| - 1 {
        LastOfKeyStep(list, key, i);
      }
    }
  }

  /** A key is listed in the whole list when it is listed before the last
      entry or is the last entry's key. */
  lemma ListedStep<T>(list: seq<T>, key: T -> string)
    requires |list| > 0
    ensures forall k :: Listed(list, key, k) <==> Listed(list[..|list| - 1], key, k) || k == key(list[|list| - 1])
  {
    var p := list[..|list| - 1];
    forall k ensures Listed(list, key, k) <==> Listed(p, key, k) || k == key(list[|list| - 1]) {
      if Listed(list, key, k) {
        var i :| 0 <= i < |list| && key(list[i]) == k;
        if i < |p| {
          assert key(p[i]) == k;
        }
      }
      if Listed(p, key, k) {
        var i :| 0 <= i < |p| && key(p[i]) == k;
        assert key(list[i]) == k;
      }
    }
  }

  /** An entry before the last that is the last of its key in the whole
      list is the last of its key among the others, and the last entry has
      another key. */
  lemma LastOfKeyStep<T>(list: seq<T>, key: T -> string, i: int)
    requires LastOfKey(list, key, i) && i < |list| - 1
    ensures LastOfKey(list[..|list| - 1], key, i)
    ensures key(list[|list| - 1]) != key(list[i])
  {
    var p := list[..|list| - 1];
    forall j | i < j < |p| ensures key(p[j]) != key(p[i]) {
      assert p[j] == list[j];
    }
  }
}
