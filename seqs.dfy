/** Sequence operations the storefront uses through JavaScript's array methods:
    `filter`, `reduce` with `+`, and de-duplication through a `Set`. */
module Seqs {

  /** A sequence is the part before `k`, the element at `k` and the part after it. */
  lemma SplitAt<T>(xs: seq<T>, k: nat)
    requires k < |xs|
    ensures xs == xs[..k] + ([xs[k]] + xs[k + 1..])
    ensures xs[k + 1..|xs|] == xs[k + 1..]
  {
  }

  /** Element `i` of the sequence without position `k` is element `i` or `i + 1` of the original. */
  lemma RemovedAt<T>(xs: seq<T>, k: nat, i: nat)
    requires k < |xs| && i < |xs| - 1
    ensures (xs[..k] + xs[k + 1..])[i] == xs[if i < k then i else i + 1]
  {
  }

  /** `xs.filter(keep)`: the elements that satisfy `keep`, in their original order. */
  function Filter<T>(keep: T -> bool, xs: seq<T>): (r: seq<T>)
    ensures |r| <= |xs|
  {
    if xs == [] then [] else (if keep(xs[0]) then [xs[0]] else []) + Filter(keep, xs[1..])
  }

  /** Every element the filter returns comes from the input and passes the test, and every
      input element that passes the test is returned. */
  lemma {:induction false} FilterSound<T>(keep: T -> bool, xs: seq<T>)
    ensures forall i :: 0 <= i < |Filter(keep, xs)| ==> Filter(keep, xs)[i] in xs && keep(Filter(keep, xs)[i])
    ensures forall i :: 0 <= i < |xs| && keep(xs[i]) ==> xs[i] in Filter(keep, xs)
  {
    if xs != [] {
      var r, rest := Filter(keep, xs), Filter(keep, xs[1..]);
      var head := if keep(xs[0]) then [xs[0]] else [];
      FilterSound(keep, xs[1..]);
      assert r == head + rest;
      forall i | 0 <= i < |r|
        ensures r[i] in xs && keep(r[i])
      {
        if i < |head| {
          assert r[i] == xs[0];
        } else {
          assert r[i] == rest[i - |head|];
          var j :| 0 <= j < |xs[1..]| && xs[1..][j] == r[i];
          assert xs[j + 1] == r[i];
        }
      }
      forall i | 0 <= i < |xs| && keep(xs[i])
        ensures xs[i] in r
      {
        if i == 0 {
          assert r[0] == xs[0];
        } else {
          assert xs[i] == xs[1..][i - 1];
          var j :| 0 <= j < |rest| && rest[j] == xs[i];
          assert r[|head| + j] == xs[i];
        }
      }
    }
  }

  /** Filtering distributes over concatenation: the relative order of the kept elements is preserved. */
  lemma {:induction false} FilterConcat<T>(keep: T -> bool, a: seq<T>, b: seq<T>)
    ensures Filter(keep, a + b) == Filter(keep, a) + Filter(keep, b)
  {
    if a == [] {
      assert a + b == b;
    } else {
      var head := if keep(a[0]) then [a[0]] else [];
      calc {
        Filter(keep, a + b);
        { assert (a + b)[0] == a[0] && (a + b)[1..] == a[1..] + b; }
        head + Filter(keep, a[1..] + b);
        { FilterConcat(keep, a[1..], b); }
        head + (Filter(keep, a[1..]) + Filter(keep, b));
        (head + Filter(keep, a[1..])) + Filter(keep, b);
      }
    }
  }

  /** When every element is kept, filtering changes nothing. */
  lemma {:induction false} FilterKeepsAll<T>(keep: T -> bool, xs: seq<T>)
    requires forall i :: 0 <= i < |xs| ==> keep(xs[i])
    ensures Filter(keep, xs) == xs
  {
    if xs != [] {
      FilterKeepsAll(keep, xs[1..]);
    }
  }

  /** A slice whose elements all pass the test is returned whole. */
  lemma FilterKeepsSlice<T>(keep: T -> bool, xs: seq<T>, lo: nat, hi: nat)
    requires lo <= hi <= |xs|
    requires forall i :: lo <= i < hi ==> keep(xs[i])
    ensures Filter(keep, xs[lo..hi]) == xs[lo..hi]
  {
    forall i | 0 <= i < hi - lo
      ensures keep(xs[lo..hi][i])
    {
      assert xs[lo..hi][i] == xs[lo + i];
    }
    FilterKeepsAll(keep, xs[lo..hi]);
  }

  /** When exactly the element at `k` fails the test, filtering removes just that element. */
  lemma FilterDropsOne<T>(keep: T -> bool, xs: seq<T>, k: nat)
    requires k < |xs| && !keep(xs[k])
    requires forall i :: 0 <= i < |xs| && i != k ==> keep(xs[i])
    ensures Filter(keep, xs) == xs[..k] + xs[k + 1..]
  {
    var before, after := xs[..k], xs[k + 1..];
    FilterKeepsSlice(keep, xs, 0, k);
    FilterKeepsSlice(keep, xs, k + 1, |xs|);
    SplitAt(xs, k);
    assert Filter(keep, [xs[k]]) == [] by {
      assert [xs[k]][1..] == [];
    }
    calc {
      Filter(keep, xs);
      Filter(keep, before + ([xs[k]] + after));
      { FilterConcat(keep, before, [xs[k]] + after); }
      Filter(keep, before) + Filter(keep, [xs[k]] + after);
      { FilterConcat(keep, [xs[k]], after); }
      before + ([] + after);
      { assert [] + after == after; }
      before + after;
    }
  }

  /** Filtering a three-element sequence, element by element. */
  lemma FilterOfThree<T>(keep: T -> bool, x: T, y: T, z: T)
    ensures Filter(keep, [x, y, z])
            == (if keep(x) then [x] else []) + (if keep(y) then [y] else []) + (if keep(z) then [z] else [])
  {
    assert [z][1..] == [];
    assert Filter(keep, [z]) == (if keep(z) then [z] else []);
    assert [y, z][1..] == [z];
    assert Filter(keep, [y, z]) == (if keep(y) then [y] else []) + Filter(keep, [z]);
    assert [x, y, z][1..] == [y, z];
  }

  /** `xs.reduce((sum, x) => sum + f(x), 0)`: a left fold, adding the last element last. */
  function Sum<T>(f: T -> int, xs: seq<T>): (r: int)
    ensures (forall i :: 0 <= i < |xs| ==> f(xs[i]) >= 0) ==> r >= 0
  {
    if xs == [] then 0 else Sum(f, xs[..|xs| - 1]) + f(xs[|xs| - 1])
  }

  /** When every term is at least one, the sum is at least the number of terms. */
  lemma {:induction false} SumAtLeastLength<T>(f: T -> int, xs: seq<T>)
    ensures (forall i :: 0 <= i < |xs| ==> f(xs[i]) >= 1) ==> Sum(f, xs) >= |xs|
  {
    if xs != [] {
      SumAtLeastLength(f, xs[..|xs| - 1]);
    }
  }

  lemma SumSingleton<T>(f: T -> int, x: T)
    ensures Sum(f, [x]) == f(x)
  {
    assert [x][..0] == [];
  }

  /** The fold over a concatenation is the sum of the two folds. */
  lemma {:induction false} SumConcat<T>(f: T -> int, a: seq<T>, b: seq<T>)
    ensures Sum(f, a + b) == Sum(f, a) + Sum(f, b)
  {
    if b == [] {
      assert a + b == a;
    } else {
      assert (a + b)[..|a + b| - 1] == a + b[..|b| - 1];
      SumConcat(f, a, b[..|b| - 1]);
    }
  }

  /** Replacing one element changes the fold by exactly the difference of the two values. */
  lemma SumUpdate<T>(f: T -> int, xs: seq<T>, k: nat, x: T)
    requires k < |xs|
    ensures Sum(f, xs[k := x]) == Sum(f, xs) - f(xs[k]) + f(x)
  {
    assert xs == xs[..k] + [xs[k]] + xs[k + 1..];
    assert xs[k := x] == xs[..k] + [x] + xs[k + 1..];
    SumConcat(f, xs[..k] + [xs[k]], xs[k + 1..]);
    SumConcat(f, xs[..k], [xs[k]]);
    SumConcat(f, xs[..k] + [x], xs[k + 1..]);
    SumConcat(f, xs[..k], [x]);
  }

  /** Removing one element lowers the fold by that element's value. */
  lemma SumRemove<T>(f: T -> int, xs: seq<T>, k: nat)
    requires k < |xs|
    ensures Sum(f, xs[..k] + xs[k + 1..]) == Sum(f, xs) - f(xs[k])
  {
    var before, after := xs[..k], xs[k + 1..];
    SplitAt(xs, k);
    SumConcat(f, before, [xs[k]] + after);
    SumConcat(f, [xs[k]], after);
    SumSingleton(f, xs[k]);
    SumConcat(f, before, after);
  }

  predicate NoDuplicates<T(==)>(xs: seq<T>)
  {
    forall i, j :: 0 <= i < j < |xs| ==> xs[i] != xs[j]
  }

  /** The position of the first occurrence of `x` in `xs`. */
  function FirstIndex<T(==)>(xs: seq<T>, x: T): (k: nat)
    requires x in xs
    ensures k < |xs| && xs[k] == x && x !in xs[..k]
  {
    if xs[0] == x then 0 else 1 + FirstIndex(xs[1..], x)
  }

  /** The first occurrence is the only occurrence with no earlier one. */
  lemma FirstIndexUnique<T>(xs: seq<T>, x: T, k: nat)
    requires k < |xs| && xs[k] == x && x !in xs[..k]
    ensures FirstIndex(xs, x) == k
  {
  }

  /** `Array.from(new Set(xs))`: each value once, in the order it is first inserted. */
  function Distinct<T(==)>(xs: seq<T>): (r: seq<T>)
    ensures |r| <= |xs|
  {
    if xs == [] then []
    else
      var d := Distinct(xs[..|xs| - 1]);
      if xs[|xs| - 1] in d then d else d + [xs[|xs| - 1]]
  }

  /** Every value of `xs` comes out of the set exactly once, and nothing else does. */
  lemma {:induction false} DistinctSound<T>(xs: seq<T>)
    ensures forall i :: 0 <= i < |Distinct(xs)| ==> Distinct(xs)[i] in xs
    ensures forall i :: 0 <= i < |xs| ==> xs[i] in Distinct(xs)
    ensures NoDuplicates(Distinct(xs))
  {
    if xs != [] {
      var init := xs[..|xs| - 1];
      DistinctSound(init);
      assert xs == init + [xs[|xs| - 1]];
      forall i | 0 <= i < |xs| ensures xs[i] in Distinct(xs) {
        if i < |xs| - 1 {
          assert xs[i] == init[i];
        }
      }
    }
  }

  /** Inserting one more value adds it at the end unless it is already there. */
  lemma DistinctSnoc<T>(xs: seq<T>, x: T)
    ensures Distinct(xs + [x]) == if x in Distinct(xs) then Distinct(xs) else Distinct(xs) + [x]
  {
    assert (xs + [x])[..|xs|] == xs;
  }

  /** A sequence without duplicates passes through the set unchanged. */
  lemma {:induction false} DistinctOfNoDuplicates<T>(xs: seq<T>)
    requires NoDuplicates(xs)
    ensures Distinct(xs) == xs
  {
    if xs != [] {
      var init, last := xs[..|xs| - 1], xs[|xs| - 1];
      DistinctOfNoDuplicates(init);
      DistinctSnoc(init, last);
      assert init + [last] == xs;
    }
  }

  /** Appending two values that are already listed leaves the de-duplication as it was. */
  lemma DistinctAppendSeen<T>(xs: seq<T>, x: T, y: T)
    requires Distinct(xs) == xs && x in xs && y in xs
    ensures Distinct(xs + [x, y]) == xs
  {
    DistinctSnoc(xs, x);
    DistinctSnoc(xs + [x], y);
    assert xs + [x] + [y] == xs + [x, y];
  }

  /** Values come out of the set in the order of their first occurrence in `xs`. */
  lemma {:induction false} DistinctFirstSeenOrder<T>(xs: seq<T>)
    ensures forall i, j :: 0 <= i < j < |Distinct(xs)| ==>
              Distinct(xs)[i] in xs && Distinct(xs)[j] in xs &&
              FirstIndex(xs, Distinct(xs)[i]) < FirstIndex(xs, Distinct(xs)[j])
  {
    if xs != [] {
      var n := |xs| - 1;
      var init := xs[..n];
      assert xs == init + [xs[n]];
      DistinctFirstSeenOrder(init);
      DistinctSound(init);
      var d := Distinct(init);
      var r := Distinct(xs);
      assert r == if xs[n] in d then d else d + [xs[n]];
      forall x | x in init
        ensures x in xs && FirstIndex(xs, x) == FirstIndex(init, x)
      {
        var k := FirstIndex(init, x);
        assert xs[k] == x;
        assert xs[..k] == init[..k];
        FirstIndexUnique(xs, x, k);
      }
      if xs[n] !in d {
        assert xs[..n] == init;
        FirstIndexUnique(xs, xs[n], n);
      }
      forall i, j | 0 <= i < j < |r|
        ensures r[i] in xs && r[j] in xs
        ensures FirstIndex(xs, r[i]) < FirstIndex(xs, r[j])
      {
        assert r[i] == d[i] && r[i] in init;
        if j < |d| {
          assert r[j] == d[j] && r[j] in init;
        } else {
          assert r[j] == xs[n];
        }
      }
    } else {
      assert Distinct(xs) == [];
    }
  }
}
