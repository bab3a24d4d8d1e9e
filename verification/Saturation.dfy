/**
 Saturating totals of 64-bit counters, and what grouping does to them.  Used for
 both group-by summaries (src/reporting/summary.rs, src/quota.rs).
 */
module Saturation {

  const U64_MAX: nat := 0xFFFF_FFFF_FFFF_FFFF

  function Sat(n: nat): (r: nat)
    ensures r <= 18_446_744_073_709_551_615
    ensures n <= 18_446_744_073_709_551_615 ==> r == n
    ensures n > 18_446_744_073_709_551_615 ==> r == 18_446_744_073_709_551_615
  {
    if n > U64_MAX then U64_MAX else n
  }

  /** `u64::saturating_add`. */
  function SatAdd(a: nat, b: nat): nat {
    Sat(a + b)
  }

  /** The exact sum. */
  function Sum<T>(items: seq<T>, f: T -> nat): nat {
    if items == [] then 0 else Sum(items[..|items| - 1], f) + f(items[|items| - 1])
  }

  function Only<T, K(==)>(items: seq<T>, key: T -> K, k: K): seq<T> {
    if items == [] then []
    else
      var n := |items| - 1;
      Only(items[..n], key, k) + (if key(items[n]) == k then [items[n]] else [])
  }

  function Except<T, K(==)>(items: seq<T>, key: T -> K, k: K): seq<T> {
    if items == [] then []
    else
      var n := |items| - 1;
      Except(items[..n], key, k) + (if key(items[n]) == k then [] else [items[n]])
  }

  lemma SumAppend<T>(items: seq<T>, x: T, f: T -> nat)
    ensures Sum(items + [x], f) == Sum(items, f) + f(x)
  {
  }

  lemma SumOfOne<T>(x: T, f: T -> nat)
    ensures Sum([x], f) == f(x)
  {
    assert [x][..0] == [];
  }

  /** Saturating at every step is saturating once. */
  lemma SatAppend<T>(items: seq<T>, x: T, f: T -> nat)
    ensures SatAdd(Sat(Sum(items, f)), f(x)) == SatAdd(Sat(Sum(items, f)), Sat(f(x))) == Sat(Sum(items + [x], f))
  {
    SumAppend(items, x, f);
    hide Sum;
  }

  lemma OnlyAppend<T, K>(items: seq<T>, x: T, key: T -> K, k: K)
    ensures Only(items + [x], key, k) == Only(items, key, k) + (if key(x) == k then [x] else [])
  {
  }

  // ---------------------------------------------------- grouping loses nothing

  lemma {:induction false} GroupSplits<T, K>(items: seq<T>, f: T -> nat, key: T -> K, k: K)
    ensures Sum(items, f) == Sum(Only(items, key, k), f) + Sum(Except(items, key, k), f)
    decreases |items|
  {
    if items == [] {
    } else {
      var n := |items| - 1;
      var only, others := Only(items[..n], key, k), Except(items[..n], key, k);
      GroupSplits(items[..n], f, key, k);
      if key(items[n]) == k {
        SumAppend(only, items[n], f);
        assert others + [] == others;
      } else {
        SumAppend(others, items[n], f);
        assert only + [] == only;
      }
    }
  }

  lemma {:induction false} ExceptMembers<T, K>(items: seq<T>, key: T -> K, k: K, x: T)
    ensures x in Except(items, key, k) <==> x in items && key(x) != k
    decreases |items|
  {
    if items == [] {
    } else {
      var n := |items| - 1;
      ExceptMembers(items[..n], key, k, x);
      assert items == items[..n] + [items[n]];
    }
  }

  lemma {:induction false} OthersKept<T, K>(items: seq<T>, key: T -> K, k: K, j: K)
    requires j != k
    ensures Only(Except(items, key, k), key, j) == Only(items, key, j)
    decreases |items|
  {
    if items == [] {
    } else {
      var n := |items| - 1;
      OthersKept(items[..n], key, k, j);
      OnlyAppend(Except(items[..n], key, k), items[n], key, j);
      assert Except(items[..n], key, k) + [] == Except(items[..n], key, k);
      assert Only(items[..n], key, j) + [] == Only(items[..n], key, j);
    }
  }

  predicate NoDuplicates<K(==)>(order: seq<K>) {
    forall i, j :: 0 <= i < j < |order| ==> order[i] != order[j]
  }

  /** The sums of the groups, listed in `order`. */
  function GroupSums<T, K(==)>(items: seq<T>, f: T -> nat, key: T -> K, order: seq<K>): nat {
    if order == [] then 0 else Sum(Only(items, key, order[0]), f) + GroupSums(items, f, key, order[1..])
  }

  lemma {:induction false} GroupSumsIgnore<T, K>(items: seq<T>, f: T -> nat, key: T -> K, k: K, order: seq<K>)
    requires k !in order
    ensures GroupSums(Except(items, key, k), f, key, order) == GroupSums(items, f, key, order)
    decreases |order|
  {
    if order == [] {
    } else {
      OthersKept(items, key, k, order[0]);
      GroupSumsIgnore(items, f, key, k, order[1..]);
    }
  }

  /** MAIN: listing every group once, the group sums add up to the whole. */
  lemma {:induction false} GroupsAddUp<T, K>(items: seq<T>, f: T -> nat, key: T -> K, order: seq<K>)
    requires NoDuplicates(order) && forall x :: x in items ==> key(x) in order
    ensures GroupSums(items, f, key, order) == Sum(items, f)
    decreases |order|
  {
    assert items != [] ==> items[0] in items;
    if order == [] {
    } else {
      var rest := Except(items, key, order[0]);
      GroupSplits(items, f, key, order[0]);
      assert order == [order[0]] + order[1..];
      forall x | x in rest
        ensures key(x) in order[1..]
      {
        ExceptMembers(items, key, order[0], x);
        assert key(x) in order;
      }
      assert order[0] !in order[1..];
      GroupsAddUp(rest, f, key, order[1..]);
      GroupSumsIgnore(items, f, key, order[0], order[1..]);
    }
  }

  // ------------------------------------------------------- saturating the rows

  /** Adding up rows with saturation. */
  function SatTotal<R>(rows: seq<R>, field: R -> nat): nat {
    if rows == [] then 0 else SatAdd(field(rows[0]), SatTotal(rows[1..], field))
  }

  /** MAIN: saturating in every row and again over the rows is saturating once. */
  lemma {:induction false} RowsSaturateOnce<T, K, R>(items: seq<T>, f: T -> nat, key: T -> K, order: seq<K>,
                                                      rows: seq<R>, field: R -> nat)
    requires |rows| == |order|
    requires forall i :: 0 <= i < |rows| ==> field(rows[i]) == Sat(Sum(Only(items, key, order[i]), f))
    ensures SatTotal(rows, field) == Sat(GroupSums(items, f, key, order))
    decreases |rows|
  {
    if rows == [] {
    } else {
      forall i | 0 <= i < |rows| - 1
        ensures field(rows[1..][i]) == Sat(Sum(Only(items, key, order[1..][i]), f))
      {
        assert rows[1..][i] == rows[i + 1] && order[1..][i] == order[i + 1];
      }
      RowsSaturateOnce(items, f, key, order[1..], rows[1..], field);
    }
  }

  // --------------------------------------------------------- order of the items

  lemma {:induction false} SumRemove<T>(items: seq<T>, i: nat, f: T -> nat)
    requires i < |items|
    ensures Sum(items, f) == Sum(items[..i] + items[i + 1..], f) + f(items[i])
    decreases |items|
  {
    var n := |items| - 1;
    if i == n {
      assert items[..i] + items[i + 1..] == items[..n];
    } else {
      SumRemove(items[..n], i, f);
      var shorter := items[..n][..i] + items[..n][i + 1..];
      assert items[..i] + items[i + 1..] == shorter + [items[n]];
      SumAppend(shorter, items[n], f);
    }
  }

  lemma WithoutOne<T>(items: seq<T>, i: nat)
    requires i < |items|
    ensures multiset(items[..i] + items[i + 1..]) == multiset(items) - multiset{items[i]}
  {
    assert items == items[..i] + [items[i]] + items[i + 1..];
  }

  /** MAIN: a sum depends on which items there are, not on their order. */
  lemma {:induction false} SumIgnoresOrder<T>(items: seq<T>, items': seq<T>, f: T -> nat)
    requires multiset(items) == multiset(items')
    ensures Sum(items, f) == Sum(items', f)
    decreases |items|
  {
    assert |multiset(items)| == |items| && |multiset(items')| == |items'|;
    if items == [] {
    } else {
      var n := |items| - 1;
      assert items[n] in multiset(items');
      var i: nat :| i < |items'| && items'[i] == items[n];
      WithoutOne(items, n);
      WithoutOne(items', i);
      assert items[..n] + items[n + 1..] == items[..n];
      SumIgnoresOrder(items[..n], items'[..i] + items'[i + 1..], f);
      SumRemove(items', i, f);
    }
  }

  /** `f` on the items of one group, nothing elsewhere. */
  function Masked<T, K(==)>(f: T -> nat, key: T -> K, k: K): T -> nat {
    x => if key(x) == k then f(x) else 0
  }

  lemma {:induction false} GroupAsMask<T, K>(items: seq<T>, f: T -> nat, key: T -> K, k: K)
    ensures Sum(Only(items, key, k), f) == Sum(items, Masked(f, key, k))
    decreases |items|
  {
    if items == [] {
    } else {
      var n := |items| - 1;
      GroupAsMask(items[..n], f, key, k);
      if key(items[n]) == k {
        SumAppend(Only(items[..n], key, k), items[n], f);
      } else {
        assert Only(items[..n], key, k) + [] == Only(items[..n], key, k);
      }
    }
  }

  lemma GroupIgnoresOrder<T, K>(items: seq<T>, items': seq<T>, f: T -> nat, key: T -> K, k: K)
    requires multiset(items) == multiset(items')
    ensures Sum(Only(items, key, k), f) == Sum(Only(items', key, k), f)
  {
    GroupAsMask(items, f, key, k);
    GroupAsMask(items', f, key, k);
    SumIgnoresOrder(items, items', Masked(f, key, k));
  }

  lemma {:induction false} OnlyMembers<T, K>(items: seq<T>, key: T -> K, k: K, x: T)
    ensures x in Only(items, key, k) <==> x in items && key(x) == k
    decreases |items|
  {
    if items == [] {
    } else {
      var n := |items| - 1;
      OnlyMembers(items[..n], key, k, x);
      assert items == items[..n] + [items[n]];
    }
  }
}
