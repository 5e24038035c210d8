/** An insertion-ordered `Dict[str, float]` of running totals, as the core
    builds with `d[k] = d.get(k, 0.0) + amount`, and Python's stable
    `sorted(d.items(), key=lambda x: x[1], reverse=True)` over it. */
module CategoryTotals {

  /** The dictionary's items in insertion order. */
  type Totals = seq<(string, real)>

  function Keys(m: Totals): (ks: seq<string>)
    ensures |ks| == |m|
    ensures forall i :: 0 <= i < |m| ==> ks[i] == m[i].0
  {
    seq(|m|, i requires 0 <= i < |m| => m[i].0)
  }

  /** No key occurs twice, as in every Python dict. */
  predicate DistinctKeys(m: Totals) {
    forall i, j :: 0 <= i < j < |m| ==> m[i].0 != m[j].0
  }

  /** `d.get(k, 0.0)` */
  function Get(m: Totals, k: string): real {
    if m == [] then 0.0
    else if m[0].0 == k then m[0].1
    else Get(m[1..], k)
  }

  /** The sum of the values, `sum(d.values())`. */
  function Sum(m: Totals): real {
    if m == [] then 0.0 else m[0].1 + Sum(m[1..])
  }

  /** `d[k] = d.get(k, 0.0) + v`: an existing key keeps its place and grows by
      `v`; a new key is appended with value `v`. */
  function Add(m: Totals, k: string, v: real): (r: Totals)
    ensures k in Keys(m) ==> Keys(r) == Keys(m)
    ensures k !in Keys(m) ==> Keys(r) == Keys(m) + [k]
    ensures Sum(r) == Sum(m) + v
  {
    if m == [] then [(k, v)]
    else if m[0].0 == k then [(k, m[0].1 + v)] + m[1..]
    else
      var r := [m[0]] + Add(m[1..], k, v);
      assert r[1..] == Add(m[1..], k, v);
      assert Keys(r) == [m[0].0] + Keys(Add(m[1..], k, v));
      assert Keys(m) == [m[0].0] + Keys(m[1..]);
      r
  }

  /** `Add` keeps the keys distinct, adds `v` under `k` and leaves every other
      key's value as it was. */
  lemma {:induction false} AddGet(m: Totals, k: string, v: real)
    ensures DistinctKeys(m) ==> DistinctKeys(Add(m, k, v))
    ensures DistinctKeys(m) ==> Get(Add(m, k, v), k) == Get(m, k) + v
    ensures forall k' :: k' != k ==> Get(Add(m, k, v), k') == Get(m, k')
  {
    if m != [] && m[0].0 != k {
      var rest := Add(m[1..], k, v);
      var r := Add(m, k, v);
      AddGet(m[1..], k, v);
      assert r[1..] == rest;
      if DistinctKeys(m) {
        assert DistinctKeys(m[1..]) by {
          forall i, j | 0 <= i < j < |m| - 1 ensures m[1..][i].0 != m[1..][j].0 {
            assert m[1..][i] == m[i + 1] && m[1..][j] == m[j + 1];
          }
        }
        assert Keys(m) == [m[0].0] + Keys(m[1..]);
        assert m[0].0 !in Keys(rest);
        forall i, j | 0 <= i < j < |r| ensures r[i].0 != r[j].0 {
          if i == 0 {
            assert r[j].0 == Keys(rest)[j - 1];
          } else {
            assert r[i] == rest[i - 1] && r[j] == rest[j - 1];
          }
        }
      }
    }
  }

  /** After `Add(m, k, v)` the keys are those of `m` and `k`. */
  lemma AddKeys(m: Totals, k: string, v: real, key: string)
    ensures key in Keys(Add(m, k, v)) <==> key in Keys(m) || key == k
  {
  }

  lemma {:induction false} GetOfMissing(m: Totals, k: string)
    requires k !in Keys(m)
    ensures Get(m, k) == 0.0
  {
    if m != [] {
      assert Keys(m) == [m[0].0] + Keys(m[1..]);
      GetOfMissing(m[1..], k);
    }
  }

  lemma {:induction false} GetAt(m: Totals, i: nat)
    requires DistinctKeys(m) && i < |m|
    ensures Get(m, m[i].0) == m[i].1
  {
    if i > 0 {
      GetAt(m[1..], i - 1);
    }
  }

  /** Every value is at least zero. */
  predicate NonNegative(m: Totals) {
    forall i :: 0 <= i < |m| ==> m[i].1 >= 0.0
  }

  lemma {:induction false} SumNonNegative(m: Totals)
    requires NonNegative(m)
    ensures Sum(m) >= 0.0
    ensures forall i :: 0 <= i < |m| ==> m[i].1 <= Sum(m)
  {
    if m != [] {
      SumNonNegative(m[1..]);
      assert forall i :: 1 <= i < |m| ==> m[i] == m[1..][i - 1];
    }
  }

  /** Values never increase along the sequence. */
  predicate SortedDesc(s: Totals) {
    forall i, j :: 0 <= i < j < |s| ==> s[i].1 >= s[j].1
  }

  /** Puts `x` after every item whose value is at least its own, so that among
      equal values the earlier item stays first. */
  function Insert(s: Totals, x: (string, real)): (r: Totals)
    ensures multiset(r) == multiset(s) + multiset{x}
    ensures |r| == |s| + 1
    ensures SortedDesc(s) ==> SortedDesc(r)
  {
    if s == [] then [x]
    else if s[|s| - 1].1 >= x.1 then s + [x]
    else
      var init, last := s[..|s| - 1], s[|s| - 1];
      assert s == init + [last];
      var r' := Insert(init, x);
      assert SortedDesc(s) ==> forall i :: 0 <= i < |r'| ==> r'[i].1 >= last.1 by {
        if SortedDesc(s) {
          forall i | 0 <= i < |r'| ensures r'[i].1 >= last.1 {
            assert r'[i] in multiset(r');
            if r'[i] != x {
              assert r'[i] in multiset(init);
              var j :| 0 <= j < |init| && init[j] == r'[i];
              assert s[j] == init[j];
            }
          }
        }
      }
      r' + [last]
  }

  /** `sorted(d.items(), key=lambda x: x[1], reverse=True)`: a stable sort by
      value, largest first. */
  function SortDesc(m: Totals): (r: Totals)
    ensures multiset(r) == multiset(m)
    ensures |r| == |m|
    ensures SortedDesc(r)
  {
    if m == [] then []
    else
      assert m == m[..|m| - 1] + [m[|m| - 1]];
      Insert(SortDesc(m[..|m| - 1]), m[|m| - 1])
  }

  function Min(a: nat, b: nat): nat {
    if a <= b then a else b
  }

  /** `sorted_items[:n]` */
  function Top(m: Totals, n: nat): (r: Totals)
    ensures |r| == Min(n, |m|)
  {
    SortDesc(m)[..Min(n, |m|)]
  }

  /** `sorted_items[:b][:a]` is `sorted_items[:a]` when `a <= b`. */
  lemma TopOfTop(m: Totals, a: nat, b: nat)
    requires a <= b
    ensures Top(m, b)[..Min(a, |Top(m, b)|)] == Top(m, a)
  {
    var s := SortDesc(m);
    assert Top(m, b) == s[..Min(b, |m|)];
  }

  /** Each of the `n` largest items is at least as large as every item of
      `m` whose key is not among theirs. */
  lemma TopDominates(m: Totals, n: nat, k: string, v: real)
    requires (k, v) in m
    requires forall t :: t in Top(m, n) ==> t.0 != k
    ensures forall t :: t in Top(m, n) ==> t.1 >= v
  {
    var s := SortDesc(m);
    assert (k, v) in multiset(s);
    var j :| 0 <= j < |s| && s[j] == (k, v);
    assert j >= Min(n, |m|);
    forall t | t in Top(m, n) ensures t.1 >= v {
      var i :| 0 <= i < Min(n, |m|) && Top(m, n)[i] == t;
      assert s[i] == t;
    }
  }
}
