/** Python dictionaries as the modelled code uses them: a sequence of
    (key, value) entries in insertion order with no key twice. Assigning an
    existing key keeps its position; a new key goes to the end. */
module Dicts {
  import opened Wrappers

  type Dict<K, V> = seq<(K, V)>

  function Keys<K, V>(d: Dict<K, V>): (ks: seq<K>)
    ensures |ks| == |d| && forall i :: 0 <= i < |d| ==> ks[i] == d[i].0
  {
    if |d| == 0 then [] else Keys(d[..|d| - 1]) + [d[|d| - 1].0]
  }

  function Values<K, V>(d: Dict<K, V>): (vs: seq<V>)
    ensures |vs| == |d| && forall i :: 0 <= i < |d| ==> vs[i] == d[i].1
  {
    if |d| == 0 then [] else Values(d[..|d| - 1]) + [d[|d| - 1].1]
  }

  predicate HasKey<K(==), V>(d: Dict<K, V>, k: K) {
    exists i :: 0 <= i < |d| && d[i].0 == k
  }

  /** What every Python dict satisfies. */
  predicate UniqueKeys<K(==), V>(d: Dict<K, V>) {
    forall i, j :: 0 <= i < j < |d| ==> d[i].0 != d[j].0
  }

  /** `d.get(k)` */
  function Lookup<K(==), V>(d: Dict<K, V>, k: K): (r: Option<V>)
    ensures r.Some? <==> HasKey(d, k)
    ensures r.Some? ==> exists i :: 0 <= i < |d| && d[i] == (k, r.value)
  {
    if |d| == 0 then None
    else if d[|d| - 1].0 == k then Some(d[|d| - 1].1)
    else
      var r := Lookup(d[..|d| - 1], k);
      assert forall i :: 0 <= i < |d| - 1 ==> d[..|d| - 1][i] == d[i];
      r
  }

  /** In a dict, the lookup of a stored key finds its own entry. */
  lemma LookupAt<K, V>(d: Dict<K, V>, i: nat)
    requires UniqueKeys(d) && i < |d|
    ensures Lookup(d, d[i].0) == Some(d[i].1)
  {
    var r := Lookup(d, d[i].0);
    var j :| 0 <= j < |d| && d[j] == (d[i].0, r.value);
  }

  /** `d[k] = v` */
  function Put<K(==), V>(d: Dict<K, V>, k: K, v: V): (r: Dict<K, V>)
    ensures HasKey(d, k) ==> |r| == |d|
    ensures !HasKey(d, k) ==> r == d + [(k, v)]
    ensures forall i :: 0 <= i < |d| ==> r[i] == (if d[i].0 == k then (k, v) else d[i])
  {
    if HasKey(d, k) then seq(|d|, i requires 0 <= i < |d| => if d[i].0 == k then (k, v) else d[i])
    else d + [(k, v)]
  }

  lemma PutFacts<K, V>(d: Dict<K, V>, k: K, v: V)
    requires UniqueKeys(d)
    ensures UniqueKeys(Put(d, k, v))
    ensures Lookup(Put(d, k, v), k) == Some(v)
    ensures forall x :: x != k ==> Lookup(Put(d, k, v), x) == Lookup(d, x)
  {
    var r := Put(d, k, v);
    assert forall i :: 0 <= i < |r| ==> r[i].0 == (if i < |d| then d[i].0 else k);
    forall x ensures HasKey(r, x) <==> HasKey(d, x) || x == k {
      if x == k && !HasKey(d, k) {
        assert r[|d|].0 == k;
      }
    }
    var p :| 0 <= p < |r| && r[p].0 == k;
    LookupAt(r, p);
    forall x | x != k ensures Lookup(r, x) == Lookup(d, x) {
      if HasKey(d, x) {
        var q :| 0 <= q < |d| && d[q].0 == x;
        LookupAt(d, q);
        LookupAt(r, q);
      }
    }
  }

  /** `{k: v for k, v in pairs}`: repeated assignment, so a repeated key
      keeps its first position and its last value. */
  function FromPairs<K(==), V>(ps: seq<(K, V)>): (d: Dict<K, V>)
    ensures UniqueKeys(d)
  {
    if |ps| == 0 then []
    else
      var d := FromPairs(ps[..|ps| - 1]);
      PutFacts(d, ps[|ps| - 1].0, ps[|ps| - 1].1);
      Put(d, ps[|ps| - 1].0, ps[|ps| - 1].1)
  }

  /** Without repeated keys a comprehension is just its pairs in order. */
  lemma {:induction false} FromPairsDistinct<K, V>(ps: seq<(K, V)>)
    requires UniqueKeys(ps)
    ensures FromPairs(ps) == ps
  {
    if |ps| > 0 {
      var init := ps[..|ps| - 1];
      FromPairsDistinct(init);
      assert !HasKey(init, ps[|ps| - 1].0);
      assert init + [ps[|ps| - 1]] == ps;
    }
  }

  /** `{k: w for k in d}` */
  function Fill<K, V, W>(d: Dict<K, V>, w: W): (r: Dict<K, W>)
    ensures |r| == |d| && forall i :: 0 <= i < |d| ==> r[i] == (d[i].0, w)
  {
    seq(|d|, i requires 0 <= i < |d| => (d[i].0, w))
  }

  /** `{k: v / t for k, v in d.items()}` */
  function Divide<K>(d: Dict<K, real>, t: real): (r: Dict<K, real>)
    requires t != 0.0
    ensures |r| == |d| && forall i :: 0 <= i < |d| ==> r[i] == (d[i].0, d[i].1 / t)
  {
    seq(|d|, i requires 0 <= i < |d| => (d[i].0, d[i].1 / t))
  }

  /** Both keep the keys of `d`, in order. */
  lemma SameKeys<K, V, W>(d: Dict<K, V>, r: Dict<K, W>)
    requires UniqueKeys(d) && |r| == |d| && forall i :: 0 <= i < |d| ==> r[i].0 == d[i].0
    ensures UniqueKeys(r) && Keys(r) == Keys(d)
  {
  }

  /** `set(d.keys())` */
  function KeySet<K(!new), V>(d: Dict<K, V>): (ks: set<K>)
    ensures forall k :: k in ks <==> HasKey(d, k)
  {
    set i | 0 <= i < |d| :: d[i].0
  }

  /** `{k: v for k, v in d.items() if k in ks}` */
  function Restrict<K, V>(d: Dict<K, V>, ks: set<K>): (r: Dict<K, V>)
    ensures |r| <= |d|
    ensures forall i :: 0 <= i < |r| ==> r[i] in d && r[i].0 in ks
    ensures forall i :: 0 <= i < |d| && d[i].0 in ks ==> d[i] in r
  {
    if |d| == 0 then []
    else
      var init := d[..|d| - 1];
      assert forall i :: 0 <= i < |d| - 1 ==> d[i] == init[i];
      if d[|d| - 1].0 in ks then Restrict(init, ks) + [d[|d| - 1]] else Restrict(init, ks)
  }

  lemma {:induction false} RestrictUnique<K, V>(d: Dict<K, V>, ks: set<K>)
    requires UniqueKeys(d)
    ensures UniqueKeys(Restrict(d, ks))
  {
    if |d| > 0 {
      var init := d[..|d| - 1];
      RestrictUnique(init, ks);
      var r := Restrict(init, ks);
      forall i | 0 <= i < |r| ensures r[i].0 != d[|d| - 1].0 {
        assert r[i] in init;
      }
    }
  }

  lemma RestrictKeys<K, V>(d: Dict<K, V>, ks: set<K>, k: K)
    ensures HasKey(Restrict(d, ks), k) <==> HasKey(d, k) && k in ks
  {
    var r := Restrict(d, ks);
    if HasKey(r, k) {
      var i :| 0 <= i < |r| && r[i].0 == k;
      assert r[i] in d;
    }
    if HasKey(d, k) && k in ks {
      var i :| 0 <= i < |d| && d[i].0 == k;
      assert d[i] in r;
    }
  }

  lemma SameKeysHasKey<K, V, W>(a: Dict<K, V>, b: Dict<K, W>, k: K)
    requires Keys(a) == Keys(b)
    ensures HasKey(a, k) <==> HasKey(b, k)
  {
    if HasKey(a, k) {
      var i :| 0 <= i < |a| && a[i].0 == k;
      assert Keys(b)[i] == k;
    }
    if HasKey(b, k) {
      var i :| 0 <= i < |b| && b[i].0 == k;
      assert Keys(a)[i] == k;
    }
  }

  /** `sum(xs)` */
  function Sum(xs: seq<real>): real {
    if |xs| == 0 then 0.0 else Sum(xs[..|xs| - 1]) + xs[|xs| - 1]
  }

  function Total<K>(d: Dict<K, real>): real {
    Sum(Values(d))
  }

  lemma {:induction false} SumNonNegative(xs: seq<real>)
    requires forall i :: 0 <= i < |xs| ==> xs[i] >= 0.0
    ensures Sum(xs) >= 0.0
  {
    if |xs| > 0 {
      SumNonNegative(xs[..|xs| - 1]);
    }
  }

  /** Every term of a sum of non-negative terms is at most the sum. */
  lemma {:induction false} SumBoundsTerm(xs: seq<real>, i: nat)
    requires forall j :: 0 <= j < |xs| ==> xs[j] >= 0.0
    requires i < |xs|
    ensures xs[i] <= Sum(xs)
  {
    var init := xs[..|xs| - 1];
    SumNonNegative(init);
    if i < |xs| - 1 {
      SumBoundsTerm(init, i);
    }
  }

  /** `1.0 / n`, the share of each of `n` equal parts. */
  function Share(n: nat): (p: real)
    requires n > 0
    ensures 0.0 < p <= 1.0 && p * n as real == 1.0
  {
    1.0 / n as real
  }

  /** A sum of `n` copies of `c`. */
  lemma {:induction false} SumConstant(xs: seq<real>, c: real)
    requires forall i :: 0 <= i < |xs| ==> xs[i] == c
    ensures Sum(xs) == |xs| as real * c
  {
    if |xs| > 0 {
      SumConstant(xs[..|xs| - 1], c);
    }
  }

  /** Dividing every term by `t` divides the sum. */
  lemma {:induction false} SumScaled(xs: seq<real>, ys: seq<real>, t: real)
    requires t != 0.0 && |ys| == |xs|
    requires forall i :: 0 <= i < |xs| ==> ys[i] == xs[i] / t
    ensures Sum(ys) == Sum(xs) / t
  {
    if |xs| > 0 {
      SumScaled(xs[..|xs| - 1], ys[..|ys| - 1], t);
    }
  }

  /** A sum whose terms are zero except one equal to `c` is `c`. */
  lemma {:induction false} SumOneHot(xs: seq<real>, k: nat, c: real)
    requires k < |xs| && xs[k] == c
    requires forall i :: 0 <= i < |xs| && i != k ==> xs[i] == 0.0
    ensures Sum(xs) == c
  {
    var init := xs[..|xs| - 1];
    if k < |xs| - 1 {
      SumOneHot(init, k, c);
    } else {
      SumConstant(init, 0.0);
    }
  }

  /** Termwise smaller terms give a smaller sum. */
  lemma {:induction false} SumMono(xs: seq<real>, ys: seq<real>)
    requires |xs| == |ys| && forall i :: 0 <= i < |xs| ==> xs[i] <= ys[i]
    ensures Sum(xs) <= Sum(ys)
  {
    if |xs| > 0 {
      SumMono(xs[..|xs| - 1], ys[..|ys| - 1]);
    }
  }

  /** Two different terms of a sum of non-negative terms are together at most the sum. */
  lemma {:induction false} SumBoundsTwoTerms(xs: seq<real>, i: nat, j: nat)
    requires forall k :: 0 <= k < |xs| ==> xs[k] >= 0.0
    requires i < |xs| && j < |xs| && i != j
    ensures xs[i] + xs[j] <= Sum(xs)
  {
    var init := xs[..|xs| - 1];
    if i == |xs| - 1 {
      SumBoundsTerm(init, j);
    } else if j == |xs| - 1 {
      SumBoundsTerm(init, i);
    } else {
      SumBoundsTwoTerms(init, i, j);
    }
  }
}
