/** The order of `String` keys, and what a `BTreeMap` or `BTreeSet` does with it. */
module Ordering {

  /** The order of `String`: by code point, a prefix first. */
  predicate Less(a: string, b: string) {
    b != "" && (a == "" || a[0] < b[0] || (a[0] == b[0] && Less(a[1..], b[1..])))
  }

  lemma LessIrreflexive(a: string)
    ensures !Less(a, a)
  {
  }

  lemma {:induction false} LessTransitive(a: string, b: string, c: string)
    requires Less(a, b) && Less(b, c)
    ensures Less(a, c)
  {
    if a == "" {
    } else if a[0] == b[0] == c[0] {
      LessTransitive(a[1..], b[1..], c[1..]);
    }
  }

  lemma {:induction false} LessTotal(a: string, b: string)
    ensures Less(a, b) || a == b || Less(b, a)
  {
    if a == "" {
    } else if b != "" && a[0] == b[0] {
      LessTotal(a[1..], b[1..]);
      assert a == [a[0]] + a[1..] && b == [b[0]] + b[1..];
    }
  }

  /** The order of pairs of `String`s, the first one first. */
  predicate PairLess(a: (string, string), b: (string, string)) {
    Less(a.0, b.0) || (a.0 == b.0 && Less(a.1, b.1))
  }

  /** Each key before all later ones, as a `BTreeMap` iterates over its keys. */
  predicate Ordered<K(==)>(keys: seq<K>, less: (K, K) -> bool) {
    forall i, j :: 0 <= i < j < |keys| ==> less(keys[i], keys[j])
  }

  predicate Ascending(keys: seq<string>) {
    Ordered(keys, Less)
  }

  ghost predicate StrictOrder<K(!new)>(less: (K, K) -> bool) {
    (forall a :: !less(a, a)) && (forall a, b, c :: less(a, b) && less(b, c) ==> less(a, c))
  }

  lemma LessIsStrict()
    ensures StrictOrder(Less)
  {
    forall a: string
      ensures !Less(a, a)
    {
      LessIrreflexive(a);
    }
    forall a, b, c | Less(a, b) && Less(b, c)
      ensures Less(a, c)
    {
      LessTransitive(a, b, c);
    }
  }

  lemma PairLessIsStrict()
    ensures StrictOrder(PairLess)
  {
    LessIsStrict();
    hide Less;
  }

  /** Ordered lists of the same keys are the same list. */
  lemma {:induction false} OrderedUnique<K(!new)>(a: seq<K>, b: seq<K>, less: (K, K) -> bool)
    requires StrictOrder(less) && Ordered(a, less) && Ordered(b, less) && forall k :: k in a <==> k in b
    ensures a == b
    decreases |a|
  {
    assert b != [] ==> b[0] in b;
    if a == [] {
    } else {
      assert a[0] in a && a[0] in b && b[0] in a;
      assert a[0] == b[0];
      forall k
        ensures k in a[1..] <==> k in b[1..]
      {
        LaterKeys(a, k, less);
        LaterKeys(b, k, less);
      }
      OrderedUnique(a[1..], b[1..], less);
      assert a == [a[0]] + a[1..] && b == [b[0]] + b[1..];
    }
  }

  lemma LaterKeys<K(!new)>(a: seq<K>, k: K, less: (K, K) -> bool)
    requires StrictOrder(less) && Ordered(a, less) && a != []
    ensures k in a[1..] <==> k in a && k != a[0]
  {
    assert a == [a[0]] + a[1..];
  }

  lemma AscendingUnique(a: seq<string>, b: seq<string>)
    requires Ascending(a) && Ascending(b) && forall k :: k in a <==> k in b
    ensures a == b
  {
    LessIsStrict();
    OrderedUnique(a, b, Less);
  }

  /** A `BTreeSet`, taken apart. */
  method Sorted(keys: set<string>) returns (list: seq<string>)
    ensures Ascending(list) && forall k :: k in list <==> k in keys
  {
    hide Less;
    list := [];
    var rest := keys;
    while rest != {}
      invariant rest <= keys && Ascending(list)
      invariant forall k :: k in list <==> k in keys - rest
      invariant forall i, k :: 0 <= i < |list| && k in rest ==> Less(list[i], k)
      decreases |rest|
    {
      var k := Least(rest);
      list := list + [k];
      rest := rest - {k};
    }
  }

  /** The first key in iteration order. */
  method Least(keys: set<string>) returns (least: string)
    requires keys != {}
    ensures least in keys && forall k :: k in keys ==> k == least || Less(least, k)
  {
    least :| least in keys;
    var rest := keys - {least};
    while rest != {}
      invariant rest <= keys && least in keys
      invariant forall k :: k in keys - rest ==> k == least || Less(least, k)
      decreases |rest|
    {
      var k :| k in rest;
      rest := rest - {k};
      LessTotal(k, least);
      if Less(k, least) {
        forall j | j in keys - rest
          ensures j == k || Less(k, j)
        {
          if j != k && j != least {
            LessTransitive(k, least, j);
          }
        }
        least := k;
      }
    }
  }
}
