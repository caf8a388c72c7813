/** Generic facts about the entity pools: order-preserving filtering (what the
    source's reverse-index splice loops compute) and the id discipline that a
    single ever-increasing counter gives four pools. */
module Pools {

  /** The elements of `s` that satisfy `keep`, in their original order. */
  function Filter<T>(s: seq<T>, keep: T -> bool): (r: seq<T>)
    ensures |r| <= |s|
    decreases |s|
  {
    if |s| == 0 then []
    else Filter(s[..|s| - 1], keep) + (if keep(s[|s| - 1]) then [s[|s| - 1]] else [])
  }

  /** The filtered sequence holds exactly the elements that satisfy `keep`. */
  lemma {:induction false} FilterMembers<T>(s: seq<T>, keep: T -> bool)
    ensures forall x :: x in Filter(s, keep) ==> x in s && keep(x)
    ensures forall x :: x in s && keep(x) ==> x in Filter(s, keep)
    decreases |s|
  {
    if |s| > 0 {
      var init := s[..|s| - 1];
      FilterMembers(init, keep);
      forall x | x in s && keep(x) ensures x in Filter(s, keep) {
        if x != s[|s| - 1] {
          var j :| 0 <= j < |s| && s[j] == x;
          assert x in init;
        }
      }
      forall x | x in Filter(s, keep) ensures x in s && keep(x) {
        if x in Filter(init, keep) {
          var j :| 0 <= j < |init| && init[j] == x;
          assert s[j] == x;
        }
      }
    }
  }

  /** Filtering keeps a sequence whole exactly when every element passes. */
  lemma {:induction false} FilterAll<T>(s: seq<T>, keep: T -> bool)
    ensures Filter(s, keep) == s <==> forall x :: x in s ==> keep(x)
    decreases |s|
  {
    if |s| > 0 {
      var init := s[..|s| - 1];
      FilterAll(init, keep);
      if forall x :: x in s ==> keep(x) {
        assert forall x :: x in init ==> x in s;
        assert s == init + [s[|s| - 1]];
      } else {
        FilterMembers(s, keep);
        var x :| x in s && !keep(x);
        assert x !in Filter(s, keep);
      }
    }
  }

  /** `f` applied to every element. */
  function Map<T, U>(s: seq<T>, f: T -> U): (r: seq<U>)
    ensures |r| == |s|
    ensures forall i :: 0 <= i < |s| ==> r[i] == f(s[i])
  {
    seq(|s|, i requires 0 <= i < |s| => f(s[i]))
  }

  /** Dropping the last element of the input drops the last element's
      contribution to the filtered, mapped output. */
  lemma FilterMapLast<T, U>(s: seq<T>, i: nat, f: T -> U, keep: U -> bool)
    requires 0 < i <= |s|
    ensures Filter(Map(s[..i], f), keep)
         == Filter(Map(s[..i - 1], f), keep) + (if keep(f(s[i - 1])) then [f(s[i - 1])] else [])
  {
    var m := Map(s[..i], f);
    assert m[..|m| - 1] == Map(s[..i - 1], f);
  }

  /** One step of a reverse splice loop that removes element i-1: the part
      already processed grows by nothing, as the filter prescribes. */
  lemma SpliceOut<T>(s: seq<T>, i: nat, f: T -> T, keep: T -> bool)
    requires 0 < i <= |s| && !keep(f(s[i - 1]))
    ensures (s[..i - 1] + s[i..])[..i - 1] == s[..i - 1]
    ensures Filter(Map(s[..i - 1], f), keep) + (s[..i - 1] + s[i..])[i - 1..]
         == Filter(Map(s[..i], f), keep) + s[i..]
  {
    FilterMapLast(s, i, f, keep);
    assert (s[..i - 1] + s[i..])[i - 1..] == s[i..];
  }

  /** One step of a reverse splice loop that updates element i-1 in place and
      keeps it. */
  lemma SpliceKeep<T>(s: seq<T>, i: nat, f: T -> T, keep: T -> bool)
    requires 0 < i <= |s| && keep(f(s[i - 1]))
    ensures s[i - 1 := f(s[i - 1])][..i - 1] == s[..i - 1]
    ensures Filter(Map(s[..i - 1], f), keep) + s[i - 1 := f(s[i - 1])][i - 1..]
         == Filter(Map(s[..i], f), keep) + s[i..]
  {
    FilterMapLast(s, i, f, keep);
    var a := Filter(Map(s[..i - 1], f), keep);
    assert s[i - 1 := f(s[i - 1])][i - 1..] == [f(s[i - 1])] + s[i..];
    assert a + ([f(s[i - 1])] + s[i..]) == (a + [f(s[i - 1])]) + s[i..];
  }

  /** How many elements of the first i satisfy `hit` after mapping. */
  function CountHits<T>(s: seq<T>, i: nat, f: T -> T, hit: T -> bool): nat
    requires i <= |s|
  {
    |Filter(Map(s[..i], f), hit)|
  }

  /** The count grows by one exactly when element i-1 is hit. */
  lemma CountLast<T>(s: seq<T>, i: nat, f: T -> T, hit: T -> bool)
    requires 0 < i <= |s|
    ensures CountHits(s, i, f, hit) == CountHits(s, i - 1, f, hit) + (if hit(f(s[i - 1])) then 1 else 0)
  {
    FilterMapLast(s, i, f, hit);
  }

  /** The count only looks at the first i elements. */
  lemma CountPrefix<T>(s: seq<T>, t: seq<T>, i: nat, f: T -> T, hit: T -> bool)
    requires i <= |s| && i <= |t| && s[..i] == t[..i]
    ensures CountHits(s, i, f, hit) == CountHits(t, i, f, hit)
  {
  }

  /** The sequence after one step of a reverse splice loop at index i-1: the
      updated element stays in place when kept and is spliced out otherwise. */
  function Spliced<T>(s: seq<T>, i: nat, f: T -> T, keep: T -> bool): (r: seq<T>)
    requires 0 < i <= |s|
    ensures i - 1 <= |r| && r[..i - 1] == s[..i - 1]
  {
    if keep(f(s[i - 1])) then
      SpliceKeep(s, i, f, keep);
      s[i - 1 := f(s[i - 1])]
    else
      SpliceOut(s, i, f, keep);
      s[..i - 1] + s[i..]
  }

  /** One step of a reverse splice loop moves element i-1 from the part left
      to process into the filtered part, and takes its hit off the count left. */
  lemma SpliceStep<T>(s: seq<T>, i: nat, f: T -> T, keep: T -> bool, hit: T -> bool)
    requires 0 < i <= |s|
    ensures Filter(Map(Spliced(s, i, f, keep)[..i - 1], f), keep) + Spliced(s, i, f, keep)[i - 1..]
         == Filter(Map(s[..i], f), keep) + s[i..]
    ensures CountHits(s, i, f, hit) == CountHits(Spliced(s, i, f, keep), i - 1, f, hit) + (if hit(f(s[i - 1])) then 1 else 0)
  {
    var s' := Spliced(s, i, f, keep);
    if keep(f(s[i - 1])) {
      SpliceKeep(s, i, f, keep);
    } else {
      SpliceOut(s, i, f, keep);
    }
    CountLast(s, i, f, hit);
    CountPrefix(s, s', i - 1, f, hit);
  }

  /** Strictly increasing. */
  predicate Ascending(xs: seq<int>)
  {
    forall i, j :: 0 <= i < j < |xs| ==> xs[i] < xs[j]
  }

  /** Every element is below `n`. */
  predicate Below(xs: seq<int>, n: int)
  {
    forall i :: 0 <= i < |xs| ==> xs[i] < n
  }

  /** No element of `xs` occurs in `ys`. */
  predicate Disjoint(xs: seq<int>, ys: seq<int>)
  {
    forall i, j :: 0 <= i < |xs| && 0 <= j < |ys| ==> xs[i] != ys[j]
  }

  /** The consecutive integers n, n+1, ..., m-1. */
  function Range(n: int, m: int): (r: seq<int>)
    requires n <= m
    ensures |r| == m - n
    ensures forall i :: 0 <= i < |r| ==> r[i] == n + i
  {
    seq(m - n, i requires 0 <= i < m - n => n + i)
  }

  /** The id discipline of a family of pools fed by one counter whose next
      value is `n`: ids increase along each pool, are all below `n`, and no id
      occurs in two pools. Together this makes every live id unique. */
  predicate Fresh(pools: seq<seq<int>>, n: int)
  {
    && (forall p :: 0 <= p < |pools| ==> Ascending(pools[p]) && Below(pools[p], n))
    && (forall p, q :: 0 <= p < |pools| && 0 <= q < |pools| && p != q ==> Disjoint(pools[p], pools[q]))
  }

  /** Under the discipline, no id occurs twice anywhere. */
  lemma FreshIdsUnique(pools: seq<seq<int>>, n: int)
    requires Fresh(pools, n)
    ensures forall p, i, q, j ::
      (0 <= p < |pools| && 0 <= q < |pools| && 0 <= i < |pools[p]| && 0 <= j < |pools[q]| &&
       (p != q || i != j)) ==> pools[p][i] != pools[q][j]
  {
    forall p, i, q, j |
      0 <= p < |pools| && 0 <= q < |pools| && 0 <= i < |pools[p]| && 0 <= j < |pools[q]| && (p != q || i != j)
      ensures pools[p][i] != pools[q][j]
    {
      if p != q {
        assert Disjoint(pools[p], pools[q]);
      } else {
        assert Ascending(pools[p]);
      }
    }
  }

  /** Appending the counter's next values n..m-1 to one pool, and advancing the
      counter to m, keeps the discipline. */
  lemma AppendFresh(pools: seq<seq<int>>, p: int, n: int, m: int)
    requires Fresh(pools, n) && 0 <= p < |pools| && n <= m
    ensures Fresh(pools[p := pools[p] + Range(n, m)], m)
  {
    var pools' := pools[p := pools[p] + Range(n, m)];
    forall q | 0 <= q < |pools'|
      ensures Ascending(pools'[q]) && Below(pools'[q], m)
    {
      if q == p {
        assert Below(pools[p], n);
      }
    }
    forall q, r | 0 <= q < |pools'| && 0 <= r < |pools'| && q != r
      ensures Disjoint(pools'[q], pools'[r])
    {
      assert Disjoint(pools[q], pools[r]);
      assert Below(pools[q], n) && Below(pools[r], n);
    }
  }

  /** Replacing every pool by an ascending selection of the ids it already
      held keeps the discipline. */
  lemma ShrinkFresh(pools: seq<seq<int>>, xs: seq<seq<int>>, n: int)
    requires Fresh(pools, n) && |xs| == |pools|
    requires forall p :: 0 <= p < |xs| ==> Ascending(xs[p])
    requires forall p, x :: 0 <= p < |xs| && x in xs[p] ==> x in pools[p]
    ensures Fresh(xs, n)
  {
    forall p, i | 0 <= p < |xs| && 0 <= i < |xs[p]| ensures xs[p][i] < n {
      assert xs[p][i] in xs[p];
      var k :| 0 <= k < |pools[p]| && pools[p][k] == xs[p][i];
      assert Below(pools[p], n);
    }
    forall p, q | 0 <= p < |xs| && 0 <= q < |xs| && p != q
      ensures Disjoint(xs[p], xs[q])
    {
      assert Disjoint(pools[p], pools[q]);
      forall i, j | 0 <= i < |xs[p]| && 0 <= j < |xs[q]|
        ensures xs[p][i] != xs[q][j]
      {
        assert xs[p][i] in xs[p] && xs[q][j] in xs[q];
        var k :| 0 <= k < |pools[p]| && pools[p][k] == xs[p][i];
        var l :| 0 <= l < |pools[q]| && pools[q][l] == xs[q][j];
      }
    }
  }

  /** The same for a family of four pools, one selection each. */
  lemma ShrinkFour(pools: seq<seq<int>>, a: seq<int>, b: seq<int>, c: seq<int>, d: seq<int>, n: int)
    requires Fresh(pools, n) && |pools| == 4
    requires Ascending(a) && Ascending(b) && Ascending(c) && Ascending(d)
    requires forall x :: x in a ==> x in pools[0]
    requires forall x :: x in b ==> x in pools[1]
    requires forall x :: x in c ==> x in pools[2]
    requires forall x :: x in d ==> x in pools[3]
    ensures Fresh([a, b, c, d], n)
  {
    ShrinkFresh(pools, [a, b, c, d], n);
  }

  /** Filtering keeps ascending keys ascending and introduces no new keys. */
  lemma FilterKeys<T>(s: seq<T>, keep: T -> bool, key: T -> int)
    ensures Ascending(Map(s, key)) ==> Ascending(Map(Filter(s, keep), key))
    ensures forall x :: x in Map(Filter(s, keep), key) ==> x in Map(s, key)
    decreases |s|
  {
    var r := Filter(s, keep);
    FilterMembers(s, keep);
    forall x | x in Map(r, key) ensures x in Map(s, key) {
      var i :| 0 <= i < |r| && Map(r, key)[i] == x;
      assert r[i] in s;
      var j :| 0 <= j < |s| && s[j] == r[i];
      assert Map(s, key)[j] == x;
    }
    if |s| > 0 && Ascending(Map(s, key)) {
      var init := s[..|s| - 1];
      assert Map(init, key) == Map(s, key)[..|s| - 1];
      FilterKeys(init, keep, key);
      var ri := Filter(init, keep);
      assert forall x :: x in Map(ri, key) ==> x < key(s[|s| - 1]) by {
        forall x | x in Map(ri, key) ensures x < key(s[|s| - 1]) {
          assert x in Map(init, key);
          var j :| 0 <= j < |init| && Map(init, key)[j] == x;
          assert Map(s, key)[j] == x;
        }
      }
      if keep(s[|s| - 1]) {
        assert r == ri + [s[|s| - 1]];
        forall i, j | 0 <= i < j < |r| ensures Map(r, key)[i] < Map(r, key)[j] {
          if j == |r| - 1 {
            assert Map(r, key)[i] == Map(ri, key)[i];
            assert Map(r, key)[i] in Map(ri, key);
          } else {
            assert Map(r, key)[i] == Map(ri, key)[i] && Map(r, key)[j] == Map(ri, key)[j];
          }
        }
      } else {
        assert r == ri;
      }
    }
  }

  /** Mapping with a function that preserves keys preserves the key sequence. */
  lemma MapSameKeys<T>(s: seq<T>, f: T -> T, key: T -> int)
    requires forall x :: key(f(x)) == key(x)
    ensures Map(Map(s, f), key) == Map(s, key)
  {
  }
}
