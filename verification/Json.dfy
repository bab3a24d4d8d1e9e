/**
 JSON trees as `serde_json::Value` holds them, and `canonicalize_value`
 (src/reporting/envelope.rs).  Canonical forms decide equality up to the order
 of object keys, at any depth.
 */
module Json {
  import opened Ordering
  import opened Wrappers

  const U64_MAX: nat := 0xFFFF_FFFF_FFFF_FFFF
  const I64_MIN_MAGNITUDE: nat := 0x8000_0000_0000_0000

  /** A float is given by the shortest decimal text that reads back as it. */
  datatype Number =
    | PosInt(value: nat)
    | NegInt(magnitude: nat)
    | Float(text: string)

  datatype Json =
    | Null
    | Bool(b: bool)
    | Num(n: Number)
    | Str(s: string)
    | Arr(items: seq<Json>)
    | Obj(entries: seq<Entry>)

  datatype Entry = Entry(key: string, value: Json)

  // ---------------------------------------------------------- well-formedness

  predicate IsNumberChar(c: char) {
    '0' <= c <= '9' || c in "-+.e"
  }

  /** A float's text always shows a fraction or an exponent, and starts with a digit or a sign. */
  predicate NumberWf(n: Number) {
    match n
    case PosInt(v) => v <= U64_MAX
    case NegInt(m) => 0 < m <= I64_MIN_MAGNITUDE
    case Float(t) =>
      t != "" && ('0' <= t[0] <= '9' || t[0] == '-') && (forall c :: c in t ==> IsNumberChar(c)) && ('.' in t || 'e' in t)
  }

  predicate DistinctKeys(es: seq<Entry>) {
    forall i, j :: 0 <= i < j < |es| ==> es[i].key != es[j].key
  }

  /** What a `Value` is: objects map each key once, numbers fit their machine types. */
  predicate Wf(v: Json) {
    match v
    case Num(n) => NumberWf(n)
    case Arr(items) => forall i :: 0 <= i < |items| ==> Wf(items[i])
    case Obj(es) => DistinctKeys(es) && forall i :: 0 <= i < |es| ==> Wf(es[i].value)
    case _ => true
  }

  /** Which trees those are: both literals, every string, integers of 64 bits, floats in decimal notation, lists of such trees. */
  lemma WellFormedMeans(b: bool, s: string, v: nat, items: seq<Json>, sign: string, whole: string, point: char, rest: string)
    requires sign in {"", "-"} && whole != "" && point in {'.', 'e'}
    requires (forall c :: c in whole ==> '0' <= c <= '9') && (forall c :: c in rest ==> '0' <= c <= '9' || c in "+-e")
    ensures Wf(Null) && Wf(Bool(b)) && Wf(Str(s)) && Wf(Num(Float(sign + whole + [point] + rest)))
    ensures Wf(Num(PosInt(v))) <==> v <= 18446744073709551615
    ensures Wf(Num(NegInt(v))) <==> 1 <= v <= 9223372036854775808
    ensures Wf(Arr(items)) <==> forall item :: item in items ==> Wf(item)
  {
    var t := sign + whole + [point] + rest;
    assert t[|sign + whole|] == point;
    assert whole[0] in whole && t[0] == if sign == "" then whole[0] else '-';
    forall c | c in t
      ensures IsNumberChar(c)
    {
      assert c in sign || c in whole || c == point || c in rest;
      assert sign == "-" ==> sign[0] == '-';
      assert "+-e"[0] == '+' && "+-e"[1] == '-' && "+-e"[2] == 'e' && "-+.e"[0] == '-' && "-+.e"[1] == '+';
      assert "-+.e"[2] == '.' && "-+.e"[3] == 'e';
    }
    forall i | 0 <= i < |items| && forall item :: item in items ==> Wf(item)
      ensures Wf(items[i])
    {
      assert items[i] in items;
    }
  }

  // -------------------------------------------------------------- field access

  function Lookup(es: seq<Entry>, key: string): (r: Option<Json>)
    ensures r.None? <==> forall i :: 0 <= i < |es| ==> es[i].key != key
    ensures r.Some? ==> Entry(key, r.value) in es
  {
    if es == [] then None
    else if es[0].key == key then Some(es[0].value)
    else Lookup(es[1..], key)
  }

  /** `Value::get`: nothing but an object has fields. */
  function Get(v: Json, key: string): Option<Json> {
    if v.Obj? then Lookup(v.entries, key) else None
  }

  function AsStr(v: Option<Json>): Option<string> {
    if v.Some? && v.value.Str? then Some(v.value.s) else None
  }

  function AsU64(v: Option<Json>): Option<nat> {
    if v.Some? && v.value.Num? && v.value.n.PosInt? then Some(v.value.n.value) else None
  }

  lemma LookupMember(es: seq<Entry>, x: Entry)
    requires DistinctKeys(es) && x in es
    ensures Lookup(es, x.key) == Some(x.value)
  {
  }

  // ------------------------------------------------------------------ equality

  predicate HasKey(es: seq<Entry>, key: string) {
    exists i :: 0 <= i < |es| && es[i].key == key
  }

  predicate SameKeys(es: seq<Entry>, fs: seq<Entry>) {
    (forall i :: 0 <= i < |es| ==> HasKey(fs, es[i].key)) &&
    (forall j :: 0 <= j < |fs| ==> HasKey(es, fs[j].key))
  }

  /** Equal but for the order in which objects list their keys. */
  predicate Same(a: Json, b: Json) {
    match a
    case Arr(vs) =>
      b.Arr? && |vs| == |b.items| && forall i :: 0 <= i < |vs| ==> Same(vs[i], b.items[i])
    case Obj(es) =>
      b.Obj? && SameKeys(es, b.entries) &&
      forall i, j :: 0 <= i < |es| && 0 <= j < |b.entries| && es[i].key == b.entries[j].key ==>
        Same(es[i].value, b.entries[j].value)
    case _ => a == b
  }

  // ------------------------------------------------------------ canonical form

  predicate Sorted(es: seq<Entry>) {
    forall i, j :: 0 <= i < j < |es| ==> Less(es[i].key, es[j].key)
  }

  /** Sorting by insertion: `e` goes before the first greater key. */
  function Insert(e: Entry, es: seq<Entry>): seq<Entry> {
    if es == [] then [e]
    else if Less(e.key, es[0].key) then [e] + es
    else [es[0]] + Insert(e, es[1..])
  }

  function Sort(es: seq<Entry>): seq<Entry> {
    if es == [] then [] else Insert(es[0], Sort(es[1..]))
  }

  function Canonicalize(v: Json): Json {
    match v
    case Arr(items) => Arr(seq(|items|, i requires 0 <= i < |items| => Canonicalize(items[i])))
    case Obj(es) => Obj(CanonicalEntries(es))
    case _ => v
  }

  function CanonicalEntries(es: seq<Entry>): seq<Entry> {
    if es == [] then []
    else Insert(Entry(es[0].key, Canonicalize(es[0].value)), CanonicalEntries(es[1..]))
  }

  function CanonicalEntry(e: Entry): Entry {
    Entry(e.key, Canonicalize(e.value))
  }

  function Each(es: seq<Entry>): seq<Entry> {
    seq(|es|, i requires 0 <= i < |es| => CanonicalEntry(es[i]))
  }

  lemma {:induction false} EachInsert(e: Entry, es: seq<Entry>)
    ensures Each(Insert(e, es)) == Insert(CanonicalEntry(e), Each(es))
    decreases |es|
  {
    hide Canonicalize;
    if es == [] {
    } else if !Less(e.key, es[0].key) {
      EachInsert(e, es[1..]);
      assert Each(es)[1..] == Each(es[1..]);
      assert Each(Insert(e, es)) == [CanonicalEntry(es[0])] + Each(Insert(e, es[1..]));
    }
  }

  /** The code sorts the entries first and canonicalises the values as it inserts them. */
  lemma {:induction false} SortsThenCanonicalizes(es: seq<Entry>)
    ensures CanonicalEntries(es) == Each(Sort(es))
    decreases |es|
  {
    if es == [] {
    } else {
      SortsThenCanonicalizes(es[1..]);
      EachInsert(es[0], Sort(es[1..]));
    }
  }

  // ------------------------------------------------------- sorting, as a set

  lemma {:induction false} InsertMembers(e: Entry, es: seq<Entry>, x: Entry)
    ensures x in Insert(e, es) <==> x == e || x in es
    decreases |es|
  {
    if es == [] {
    } else if !Less(e.key, es[0].key) {
      InsertMembers(e, es[1..], x);
    }
  }

  lemma {:induction false} InsertSorted(e: Entry, es: seq<Entry>)
    requires Sorted(es) && forall x :: x in es ==> x.key != e.key
    ensures Sorted(Insert(e, es))
    decreases |es|
  {
    if es == [] {
    } else if Less(e.key, es[0].key) {
      forall j | 0 < j < |es|
        ensures Less(e.key, es[j].key)
      {
        LessTransitive(e.key, es[0].key, es[j].key);
      }
    } else {
      InsertSorted(e, es[1..]);
      LessTotal(e.key, es[0].key);
      assert es[0] in es;
      var rest := Insert(e, es[1..]);
      forall j | 0 <= j < |rest|
        ensures Less(es[0].key, rest[j].key)
      {
        InsertMembers(e, es[1..], rest[j]);
        if rest[j] != e {
          var k :| 0 <= k < |es[1..]| && es[1..][k] == rest[j];
          assert es[k + 1] == rest[j];
        }
      }
    }
  }

  lemma {:induction false} CanonicalMembers(es: seq<Entry>, x: Entry)
    ensures x in CanonicalEntries(es) <==> exists i :: 0 <= i < |es| && x == CanonicalEntry(es[i])
    decreases |es|
  {
    hide Canonicalize, Insert;
    if es == [] {
    } else {
      InsertMembers(CanonicalEntry(es[0]), CanonicalEntries(es[1..]), x);
      CanonicalMembers(es[1..], x);
      if x in CanonicalEntries(es[1..]) {
        var i :| 0 <= i < |es[1..]| && x == CanonicalEntry(es[1..][i]);
        assert es[i + 1] == es[1..][i];
      }
      if i :| 0 <= i < |es| && x == CanonicalEntry(es[i]) && i > 0 {
        assert es[i] == es[1..][i - 1];
      }
    }
  }

  lemma {:induction false} CanonicalSorted(es: seq<Entry>)
    requires DistinctKeys(es)
    ensures Sorted(CanonicalEntries(es))
    decreases |es|
  {
    hide Canonicalize, Insert, Less;
    if es == [] {
    } else {
      var e := CanonicalEntry(es[0]);
      var rest := CanonicalEntries(es[1..]);
      CanonicalSorted(es[1..]);
      forall x | x in rest
        ensures x.key != e.key
      {
        CanonicalMembers(es[1..], x);
        var i :| 0 <= i < |es[1..]| && x == CanonicalEntry(es[1..][i]);
        assert es[1..][i] == es[i + 1];
      }
      InsertSorted(e, rest);
    }
  }

  /** A sorted list is determined by what is in it. */
  lemma {:induction false} SortedUnique(es: seq<Entry>, fs: seq<Entry>)
    requires Sorted(es) && Sorted(fs) && forall x :: x in es <==> x in fs
    ensures es == fs
    decreases |es|
  {
    hide Less;
    assert fs != [] ==> fs[0] in fs;
    if es == [] {
    } else {
      assert es[0] in es;
      HeadsAgree(es, fs);
      forall x
        ensures x in es[1..] <==> x in fs[1..]
      {
        TailMembers(es, x);
        TailMembers(fs, x);
      }
      SortedUnique(es[1..], fs[1..]);
      assert es == [es[0]] + es[1..] && fs == [fs[0]] + fs[1..];
    }
  }

  lemma HeadsAgree(es: seq<Entry>, fs: seq<Entry>)
    requires Sorted(es) && Sorted(fs) && es != [] && fs != [] && es[0] in fs && fs[0] in es
    ensures es[0] == fs[0]
  {
    if es[0] != fs[0] {
      var i :| 0 <= i < |es| && es[i] == fs[0];
      var j :| 0 <= j < |fs| && fs[j] == es[0];
      LessTransitive(es[0].key, fs[0].key, es[0].key);
      LessIrreflexive(es[0].key);
    }
  }

  lemma TailMembers(es: seq<Entry>, x: Entry)
    requires Sorted(es) && es != []
    ensures x in es[1..] <==> x in es && x != es[0]
  {
    if x in es[1..] {
      var i :| 0 <= i < |es[1..]| && es[1..][i] == x;
      assert es[i + 1] == x;
      LessIrreflexive(x.key);
    }
  }

  // ------------------------------------------- canonical forms decide equality

  lemma {:induction false} SameImpliesEqualCanonical(a: Json, b: Json)
    requires Wf(a) && Wf(b) && Same(a, b)
    ensures Canonicalize(a) == Canonicalize(b)
    decreases a
  {
    match a
    case Arr(vs) =>
      forall i | 0 <= i < |vs|
        ensures Canonicalize(vs[i]) == Canonicalize(b.items[i])
      {
        SameImpliesEqualCanonical(vs[i], b.items[i]);
      }
    case Obj(es) =>
      var fs := b.entries;
      forall i, j | 0 <= i < |es| && 0 <= j < |fs| && es[i].key == fs[j].key
        ensures CanonicalEntry(es[i]) == CanonicalEntry(fs[j])
      {
        SameImpliesEqualCanonical(es[i].value, fs[j].value);
      }
      SameEntries(es, fs);
    case _ =>
  }

  lemma SameEntries(es: seq<Entry>, fs: seq<Entry>)
    requires DistinctKeys(es) && DistinctKeys(fs) && SameKeys(es, fs)
    requires forall i, j :: 0 <= i < |es| && 0 <= j < |fs| && es[i].key == fs[j].key ==>
      CanonicalEntry(es[i]) == CanonicalEntry(fs[j])
    ensures CanonicalEntries(es) == CanonicalEntries(fs)
  {
    hide Canonicalize, CanonicalEntries, Less;
    CanonicalSorted(es);
    CanonicalSorted(fs);
    forall x
      ensures x in CanonicalEntries(es) <==> x in CanonicalEntries(fs)
    {
      CanonicalMembers(es, x);
      CanonicalMembers(fs, x);
      if i :| 0 <= i < |es| && x == CanonicalEntry(es[i]) {
        assert HasKey(fs, es[i].key);
      }
      if j :| 0 <= j < |fs| && x == CanonicalEntry(fs[j]) {
        assert HasKey(es, fs[j].key);
      }
    }
    SortedUnique(CanonicalEntries(es), CanonicalEntries(fs));
  }

  lemma {:induction false} EqualCanonicalImpliesSame(a: Json, b: Json)
    requires Wf(a) && Wf(b) && Canonicalize(a) == Canonicalize(b)
    ensures Same(a, b)
    decreases a
  {
    match a
    case Arr(vs) =>
      forall i | 0 <= i < |vs|
        ensures Same(vs[i], b.items[i])
      {
        assert Canonicalize(a).items[i] == Canonicalize(b).items[i];
        EqualCanonicalImpliesSame(vs[i], b.items[i]);
      }
    case Obj(es) =>
      var fs := b.entries;
      EqualEntries(es, fs);
      forall i, j | 0 <= i < |es| && 0 <= j < |fs| && es[i].key == fs[j].key
        ensures Same(es[i].value, fs[j].value)
      {
        assert CanonicalEntry(es[i]) == CanonicalEntry(fs[j]);
        EqualCanonicalImpliesSame(es[i].value, fs[j].value);
      }
    case _ =>
  }

  lemma EqualEntries(es: seq<Entry>, fs: seq<Entry>)
    requires DistinctKeys(es) && DistinctKeys(fs) && CanonicalEntries(es) == CanonicalEntries(fs)
    ensures SameKeys(es, fs)
    ensures forall i, j :: 0 <= i < |es| && 0 <= j < |fs| && es[i].key == fs[j].key ==>
      CanonicalEntry(es[i]) == CanonicalEntry(fs[j])
  {
    hide Canonicalize, CanonicalEntries, Less;
    forall i | 0 <= i < |es|
      ensures exists j :: 0 <= j < |fs| && CanonicalEntry(es[i]) == CanonicalEntry(fs[j])
    {
      CanonicalMembers(es, CanonicalEntry(es[i]));
      CanonicalMembers(fs, CanonicalEntry(es[i]));
    }
    forall j | 0 <= j < |fs|
      ensures exists i :: 0 <= i < |es| && CanonicalEntry(fs[j]) == CanonicalEntry(es[i])
    {
      CanonicalMembers(fs, CanonicalEntry(fs[j]));
      CanonicalMembers(es, CanonicalEntry(fs[j]));
    }
    forall i, j | 0 <= i < |es| && 0 <= j < |fs| && es[i].key == fs[j].key
      ensures CanonicalEntry(es[i]) == CanonicalEntry(fs[j])
    {
      var k :| 0 <= k < |fs| && CanonicalEntry(es[i]) == CanonicalEntry(fs[k]);
      assert fs[k].key == fs[j].key;
    }
  }

  /** MAIN: canonical forms are equal exactly for trees equal up to key order. */
  lemma CanonicalDecidesEquality(a: Json, b: Json)
    requires Wf(a) && Wf(b)
    ensures Canonicalize(a) == Canonicalize(b) <==> Same(a, b)
  {
    if Same(a, b) {
      SameImpliesEqualCanonical(a, b);
    }
    if Canonicalize(a) == Canonicalize(b) {
      EqualCanonicalImpliesSame(a, b);
    }
  }

  // ------------------------------------------------------------- idempotence

  /** Keys sorted in every object. */
  predicate IsCanonical(v: Json) {
    match v
    case Arr(items) => forall i :: 0 <= i < |items| ==> IsCanonical(items[i])
    case Obj(es) => Sorted(es) && forall i :: 0 <= i < |es| ==> IsCanonical(es[i].value)
    case _ => true
  }

  lemma {:induction false} CanonicalizeIsCanonical(v: Json)
    requires Wf(v)
    ensures IsCanonical(Canonicalize(v)) && Wf(Canonicalize(v))
  {
    match v
    case Arr(items) =>
      forall i | 0 <= i < |items|
        ensures IsCanonical(Canonicalize(items[i])) && Wf(Canonicalize(items[i]))
      {
        CanonicalizeIsCanonical(items[i]);
      }
    case Obj(es) =>
      forall i | 0 <= i < |es|
        ensures IsCanonical(CanonicalEntry(es[i]).value) && Wf(CanonicalEntry(es[i]).value)
      {
        CanonicalizeIsCanonical(es[i].value);
      }
      EntriesCanonical(es);
    case _ =>
  }

  lemma EntriesCanonical(es: seq<Entry>)
    requires DistinctKeys(es)
    requires forall i :: 0 <= i < |es| ==> IsCanonical(CanonicalEntry(es[i]).value) && Wf(CanonicalEntry(es[i]).value)
    ensures IsCanonical(Obj(CanonicalEntries(es))) && Wf(Obj(CanonicalEntries(es)))
  {
    hide Canonicalize, CanonicalEntries;
    var fs := CanonicalEntries(es);
    CanonicalSorted(es);
    forall k | 0 <= k < |fs|
      ensures IsCanonical(fs[k].value) && Wf(fs[k].value)
    {
      CanonicalMembers(es, fs[k]);
    }
    forall i, j | 0 <= i < j < |fs|
      ensures fs[i].key != fs[j].key
    {
      LessIrreflexive(fs[i].key);
    }
  }

  lemma {:induction false} CanonicalIsFixed(v: Json)
    requires IsCanonical(v)
    ensures Canonicalize(v) == v
  {
    match v
    case Arr(items) =>
      forall i | 0 <= i < |items|
        ensures Canonicalize(items[i]) == items[i]
      {
        CanonicalIsFixed(items[i]);
      }
    case Obj(es) =>
      forall i | 0 <= i < |es|
        ensures Canonicalize(es[i].value) == es[i].value
      {
        CanonicalIsFixed(es[i].value);
      }
      SortedIsFixed(es);
    case _ =>
  }

  lemma {:induction false} SortedIsFixed(es: seq<Entry>)
    requires Sorted(es) && forall i :: 0 <= i < |es| ==> Canonicalize(es[i].value) == es[i].value
    ensures CanonicalEntries(es) == es
    decreases |es|
  {
    hide Canonicalize, Less;
    if es == [] {
    } else {
      SortedIsFixed(es[1..]);
      if |es| > 1 {
        assert es[1..][0] == es[1];
      }
      assert es == [es[0]] + es[1..];
    }
  }

  /** MAIN: canonicalising twice is canonicalising once. */
  lemma CanonicalizeIdempotent(v: Json)
    requires Wf(v)
    ensures Canonicalize(Canonicalize(v)) == Canonicalize(v)
  {
    CanonicalizeIsCanonical(v);
    CanonicalIsFixed(Canonicalize(v));
  }

  // ------------------------------------------------- equality, seen by a reader

  /** Looking up a key gives the same value in equal objects. */
  lemma SameLookup(a: Json, b: Json, key: string)
    requires Wf(a) && Wf(b) && Same(a, b)
    ensures Get(a, key).Some? == Get(b, key).Some?
    ensures Get(a, key).Some? ==> Same(Get(a, key).value, Get(b, key).value)
  {
  }
}
