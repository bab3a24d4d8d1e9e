/**
 The policy transparency log (src/policy_sign.rs) and the appending of entries
 (src/bin/llmctl/policy.rs).  `hash` stands for the hex SHA-256 of a text; no
 property of it is assumed except where a lemma says so.
 */
module PolicyLog {
  import opened Wrappers
  import opened Json
  import opened JsonText

  type Hash = string -> string

  datatype Reason = MissingEntryHash | IndexMismatch | PreviousHashMismatch | EntryHashMismatch

  datatype Verification =
    | Valid(entries: nat, head: Option<string>)
    | Broken(entries: nat, failedIndex: nat, reason: Reason)

  // -------------------------------------------------------------- entry hashes

  function WithoutKey(es: seq<Entry>, key: string): seq<Entry> {
    if es == [] then []
    else (if es[0].key == key then [] else [es[0]]) + WithoutKey(es[1..], key)
  }

  /** An entry without its `entry_hash`. */
  function Body(entry: Json): Json {
    if entry.Obj? then Obj(WithoutKey(entry.entries, "entry_hash")) else entry
  }

  function BodyText(entry: Json): string {
    CanonicalJson(Body(entry))
  }

  function EntryHash(hash: Hash, entry: Json): string {
    hash(BodyText(entry))
  }

  function RecordedHash(entry: Json): Option<string> {
    AsStr(Get(entry, "entry_hash"))
  }

  // ------------------------------------------------------------- verification

  /** What is first found wrong with the entry at `index`. */
  function Fault(hash: Hash, entry: Json, index: nat, previous: Option<string>): Option<Reason> {
    if RecordedHash(entry).None? then Some(MissingEntryHash)
    else if AsU64(Get(entry, "index")) != Some(index) then Some(IndexMismatch)
    else if AsStr(Get(entry, "previous_hash")) != previous then Some(PreviousHashMismatch)
    else if RecordedHash(entry).value != EntryHash(hash, entry) then Some(EntryHashMismatch)
    else None
  }

  /** The hash the last entry records, if there is one. */
  function Head(log: seq<Json>): Option<string> {
    if log == [] then None else RecordedHash(log[|log| - 1])
  }

  function FaultAt(hash: Hash, log: seq<Json>, i: nat): Option<Reason>
    requires i < |log|
  {
    Fault(hash, log[i], i, Head(log[..i]))
  }

  /** Every entry is in its place, names its predecessor, and hashes to what it records. */
  predicate Chained(hash: Hash, log: seq<Json>) {
    forall i :: 0 <= i < |log| ==> FaultAt(hash, log, i).None?
  }

  /**
   Valid exactly for chained logs; otherwise the report names the first entry
   that breaks the chain, and the first thing wrong with it.
   */
  method VerifyPolicyLogValues(hash: Hash, log: seq<Json>) returns (r: Verification)
    ensures r.entries == |log|
    ensures r.Valid? <==> Chained(hash, log)
    ensures r.Valid? ==> r.head == Head(log)
    ensures r.Broken? ==> r.failedIndex < |log| && Chained(hash, log[..r.failedIndex])
    ensures r.Broken? ==> FaultAt(hash, log, r.failedIndex) == Some(r.reason)
  {
    hide EntryHash, Lookup;
    var previousHash: Option<string> := None;
    for index := 0 to |log|
      invariant previousHash == Head(log[..index])
      invariant Chained(hash, log[..index])
    {
      var entry := log[index];
      assert Fault(hash, entry, index, previousHash) == FaultAt(hash, log, index);
      var actualHash := AsStr(Get(entry, "entry_hash"));
      if actualHash.None? {
        return Broken(|log|, index, MissingEntryHash);
      }
      if AsU64(Get(entry, "index")) != Some(index) {
        return Broken(|log|, index, IndexMismatch);
      }
      if AsStr(Get(entry, "previous_hash")) != previousHash {
        return Broken(|log|, index, PreviousHashMismatch);
      }
      var expectedHash := EntryHash(hash, entry);
      if actualHash.value != expectedHash {
        return Broken(|log|, index, EntryHashMismatch);
      }
      ChainedExtends(hash, log, index);
      previousHash := Some(actualHash.value);
    }
    assert log[..|log|] == log;
    r := Valid(|log|, previousHash);
  }

  lemma FaultOfPrefix(hash: Hash, log: seq<Json>, n: nat, i: nat)
    requires i < n <= |log|
    ensures FaultAt(hash, log[..n], i) == FaultAt(hash, log, i)
  {
  }

  lemma ChainedExtends(hash: Hash, log: seq<Json>, n: nat)
    requires n < |log| && Chained(hash, log[..n]) && FaultAt(hash, log, n).None?
    ensures Chained(hash, log[..n + 1])
  {
    hide FaultAt;
    var longer := log[..n + 1];
    forall i: nat | i <= n
      ensures FaultAt(hash, longer, i).None?
    {
      FaultOfPrefix(hash, log, n + 1, i);
      if i < n {
        FaultOfPrefix(hash, log, n, i);
      }
    }
  }

  // ------------------------------------------------------ entries and their bodies

  lemma {:induction false} WithoutMembers(es: seq<Entry>, key: string, x: Entry)
    ensures x in WithoutKey(es, key) <==> x in es && x.key != key
    decreases |es|
  {
    if es == [] {
    } else {
      WithoutMembers(es[1..], key, x);
    }
  }

  lemma {:induction false} WithoutDistinct(es: seq<Entry>, key: string)
    requires DistinctKeys(es)
    ensures DistinctKeys(WithoutKey(es, key))
    decreases |es|
  {
    if es == [] {
    } else {
      var rest := WithoutKey(es[1..], key);
      WithoutDistinct(es[1..], key);
      forall k | 0 <= k < |rest|
        ensures rest[k].key != es[0].key
      {
        WithoutMembers(es[1..], key, rest[k]);
        var i :| 0 <= i < |es[1..]| && es[1..][i] == rest[k];
        assert es[1..][i] == es[i + 1];
      }
    }
  }

  lemma BodyWf(entry: Json)
    requires Wf(entry)
    ensures Wf(Body(entry))
  {
    if entry.Obj? {
      var fs := Body(entry).entries;
      WithoutDistinct(entry.entries, "entry_hash");
      forall k | 0 <= k < |fs|
        ensures Wf(fs[k].value)
      {
        WithoutMembers(entry.entries, "entry_hash", fs[k]);
      }
    }
  }

  /** Removing `entry_hash` leaves every other field as it was. */
  lemma BodyGet(entry: Json, key: string)
    requires Wf(entry) && key != "entry_hash"
    ensures Get(Body(entry), key) == Get(entry, key)
  {
    if entry.Obj? {
      var es, fs := entry.entries, Body(entry).entries;
      WithoutDistinct(es, "entry_hash");
      var x, y := Lookup(es, key), Lookup(fs, key);
      if x.Some? {
        WithoutMembers(es, "entry_hash", Entry(key, x.value));
        LookupMember(fs, Entry(key, x.value));
      }
      if y.Some? {
        WithoutMembers(es, "entry_hash", Entry(key, y.value));
        LookupMember(es, Entry(key, y.value));
      }
    }
  }

  lemma SameByLookup(es: seq<Entry>, fs: seq<Entry>)
    requires DistinctKeys(es) && DistinctKeys(fs)
    requires forall key :: Lookup(es, key).Some? == Lookup(fs, key).Some?
    requires forall key :: Lookup(es, key).Some? && Lookup(fs, key).Some? ==>
      Same(Lookup(es, key).value, Lookup(fs, key).value)
    ensures Same(Obj(es), Obj(fs))
  {
    hide Lookup;
    forall i | 0 <= i < |es|
      ensures HasKey(fs, es[i].key) && Lookup(es, es[i].key) == Some(es[i].value)
    {
      LookupMember(es, es[i]);
      assert Lookup(fs, es[i].key).Some?;
    }
    forall j | 0 <= j < |fs|
      ensures HasKey(es, fs[j].key) && Lookup(fs, fs[j].key) == Some(fs[j].value)
    {
      LookupMember(fs, fs[j]);
      assert Lookup(es, fs[j].key).Some?;
    }
  }

  /** Entries with equal recorded hashes and equal bodies are equal. */
  lemma SameFromBodies(a: Json, b: Json)
    requires Wf(a) && Wf(b) && Same(Body(a), Body(b))
    requires RecordedHash(a).Some? && RecordedHash(a) == RecordedHash(b)
    ensures Same(a, b)
  {
    BodyWf(a);
    BodyWf(b);
    hide Body, Same, Lookup, Wf;
    assert DistinctKeys(a.entries) && DistinctKeys(b.entries) by { WfDistinct(a); WfDistinct(b); }
    forall key
      ensures Lookup(a.entries, key).Some? == Lookup(b.entries, key).Some?
      ensures Lookup(a.entries, key).Some? && Lookup(b.entries, key).Some? ==>
        Same(Lookup(a.entries, key).value, Lookup(b.entries, key).value)
    {
      if key == "entry_hash" {
        SameStrings(Lookup(a.entries, key).value, Lookup(b.entries, key).value);
      } else {
        BodyGet(a, key);
        BodyGet(b, key);
        SameLookup(Body(a), Body(b), key);
      }
    }
    SameByLookup(a.entries, b.entries);
    assert a == Obj(a.entries) && b == Obj(b.entries);
  }

  lemma WfDistinct(v: Json)
    requires Wf(v) && v.Obj?
    ensures DistinctKeys(v.entries)
  {
  }

  lemma SameStrings(a: Json, b: Json)
    requires a.Str? && b.Str? && a.s == b.s
    ensures Same(a, b)
  {
  }

  // ----------------------------------------------------- the head commits to the log

  predicate AllWf(log: seq<Json>) {
    forall i :: 0 <= i < |log| ==> Wf(log[i])
  }

  /** No two different bodies among these entries share a hash. */
  predicate NoCollision(hash: Hash, a: seq<Json>, b: seq<Json>) {
    forall i, j :: 0 <= i < |a| && 0 <= j < |b| && hash(BodyText(a[i])) == hash(BodyText(b[j])) ==>
      BodyText(a[i]) == BodyText(b[j])
  }

  lemma SameFields(a: Json, b: Json, key: string)
    requires Wf(a) && Wf(b) && Same(Body(a), Body(b)) && key != "entry_hash"
    ensures AsU64(Get(a, key)) == AsU64(Get(b, key)) && AsStr(Get(a, key)) == AsStr(Get(b, key))
  {
    BodyWf(a);
    BodyWf(b);
    BodyGet(a, key);
    BodyGet(b, key);
    SameLookup(Body(a), Body(b), key);
  }

  /** Chained entries with the same recorded hash are the same entry at the same place. */
  lemma EntriesAgree(hash: Hash, a: Json, i: nat, p: Option<string>, b: Json, j: nat, q: Option<string>)
    requires Wf(a) && Wf(b) && Fault(hash, a, i, p).None? && Fault(hash, b, j, q).None?
    requires RecordedHash(a) == RecordedHash(b)
    requires hash(BodyText(a)) == hash(BodyText(b)) ==> BodyText(a) == BodyText(b)
    ensures i == j && p == q && Same(a, b)
  {
    BodyWf(a);
    BodyWf(b);
    CanonicalTextDecidesEquality(Body(a), Body(b));
    hide BodyText, Body, Same, Wf;
    SameFields(a, b, "index");
    SameFields(a, b, "previous_hash");
    SameFromBodies(a, b);
  }

  lemma ChainedPrefix(hash: Hash, log: seq<Json>, n: nat)
    requires n <= |log| && Chained(hash, log)
    ensures Chained(hash, log[..n])
  {
    hide FaultAt;
    forall i: nat | i < n
      ensures FaultAt(hash, log[..n], i).None?
    {
      FaultOfPrefix(hash, log, n, i);
    }
  }

  lemma ChainedHasHead(hash: Hash, log: seq<Json>)
    requires Chained(hash, log)
    ensures Head(log).Some? <==> log != []
  {
    if log != [] {
      assert FaultAt(hash, log, |log| - 1).None?;
    }
  }

  lemma LastEntriesAgree(hash: Hash, a: seq<Json>, b: seq<Json>)
    requires a != [] && b != [] && AllWf(a) && AllWf(b) && Chained(hash, a) && Chained(hash, b)
    requires Head(a) == Head(b) && NoCollision(hash, a, b)
    ensures |a| == |b| && Head(a[..|a| - 1]) == Head(b[..|b| - 1]) && Same(a[|a| - 1], b[|b| - 1])
  {
    hide BodyText, Same, Wf, RecordedHash;
    var m, n := |a| - 1, |b| - 1;
    assert FaultAt(hash, a, m).None? && FaultAt(hash, b, n).None?;
    hide Fault;
    EntriesAgree(hash, a[m], m, Head(a[..m]), b[n], n, Head(b[..n]));
  }

  /** MAIN: two chained logs with the same head are the same log, up to key order. */
  lemma {:induction false} HeadCommitsToLog(hash: Hash, a: seq<Json>, b: seq<Json>)
    requires AllWf(a) && AllWf(b) && Chained(hash, a) && Chained(hash, b)
    requires Head(a) == Head(b) && NoCollision(hash, a, b)
    ensures |a| == |b| && forall i :: 0 <= i < |a| ==> Same(a[i], b[i])
    decreases |a|
  {
    hide FaultAt, Chained, BodyText, Same, Wf, Head;
    ChainedHasHead(hash, a);
    ChainedHasHead(hash, b);
    if a == [] {
    } else {
      var n := |a| - 1;
      LastEntriesAgree(hash, a, b);
      ChainedPrefix(hash, a, n);
      ChainedPrefix(hash, b, n);
      HeadCommitsToLog(hash, a[..n], b[..n]);
      forall i | 0 <= i < |a|
        ensures Same(a[i], b[i])
      {
        if i < n {
          assert a[i] == a[..n][i] && b[i] == b[..n][i];
        }
      }
    }
  }

  /** A changed entry is noticed, or the head moves, or two bodies collide. */
  lemma TamperingShows(hash: Hash, log: seq<Json>, i: nat, entry: Json)
    requires i < |log| && AllWf(log) && Chained(hash, log) && Wf(entry) && !Same(log[i], entry)
    ensures var tampered := log[i := entry];
      !Chained(hash, tampered) || Head(tampered) != Head(log) || !NoCollision(hash, log, tampered)
  {
    hide Same, Wf, Chained, NoCollision, Head;
    var tampered := log[i := entry];
    if Chained(hash, tampered) && Head(tampered) == Head(log) && NoCollision(hash, log, tampered) {
      HeadCommitsToLog(hash, log, tampered);
    }
  }

  /**
   A good entry that is moved, follows another predecessor, or has its own hash
   replaced or removed is reported with the reason that says so.
   */
  lemma WhatIsReported(hash: Hash, entry: Json, i: nat, p: Option<string>, j: nat, q: Option<string>, other: Json)
    requires Fault(hash, entry, i, p).None?
    ensures j != i ==> Fault(hash, entry, j, q) == Some(IndexMismatch)
    ensures q != p ==> Fault(hash, entry, i, q) == Some(PreviousHashMismatch)
    ensures AsStr(Get(other, "entry_hash")).None? <==> Fault(hash, other, j, q) == Some(MissingEntryHash)
    ensures AsU64(Get(other, "index")) == Some(i) && AsStr(Get(other, "previous_hash")) == p &&
            AsStr(Get(other, "entry_hash")).Some? && AsStr(Get(other, "entry_hash")).value != EntryHash(hash, other) ==>
      Fault(hash, other, i, p) == Some(EntryHashMismatch)
  {
  }

  // ----------------------------------------------------------------- appending

  function TextOrNull(s: Option<string>): Json {
    if s.Some? then Str(s.value) else Null
  }

  /** The fields of a new entry, before it is hashed. */
  function NewFields(index: nat, loggedAt: string, artifact: string, signature: Option<string>, previous: Option<string>): seq<Entry> {
    [
      Entry("schema_version", Num(PosInt(1))),
      Entry("kind", Str("policy-transparency-log-entry")),
      Entry("index", Num(PosInt(index))),
      Entry("logged_at", Str(loggedAt)),
      Entry("artifact_sha256", Str(artifact)),
      Entry("signature_sha256", TextOrNull(signature)),
      Entry("previous_hash", TextOrNull(previous))
    ]
  }

  /** What a reader of the entry finds in it. */
  predicate Records(entry: Json, index: nat, loggedAt: string, artifact: string, signature: Option<string>, previous: Option<string>) {
    AsU64(Get(entry, "schema_version")) == Some(1) &&
    AsStr(Get(entry, "kind")) == Some("policy-transparency-log-entry") &&
    AsU64(Get(entry, "index")) == Some(index) &&
    AsStr(Get(entry, "logged_at")) == Some(loggedAt) &&
    AsStr(Get(entry, "artifact_sha256")) == Some(artifact) &&
    AsStr(Get(entry, "signature_sha256")) == signature && (signature.None? ==> Get(entry, "signature_sha256") == Some(Null)) &&
    AsStr(Get(entry, "previous_hash")) == previous && (previous.None? ==> Get(entry, "previous_hash") == Some(Null))
  }

  function Hashed(hash: Hash, fields: seq<Entry>): Json {
    Obj(fields + [Entry("entry_hash", Str(EntryHash(hash, Obj(fields))))])
  }

  /** Verifies the log, then appends an entry that names its head. */
  method AppendPolicyLogEntry(hash: Hash, log: seq<Json>, loggedAt: string, artifact: string, signature: Option<string>)
    returns (r: Option<seq<Json>>)
    ensures r.Some? <==> Chained(hash, log)
    ensures r.Some? ==> |r.value| == |log| + 1 && r.value[..|log|] == log && Chained(hash, r.value)
    ensures r.Some? ==> Body(r.value[|log|]) == Obj(NewFields(|log|, loggedAt, artifact, signature, Head(log)))
    ensures r.Some? ==> Head(r.value) == Some(EntryHash(hash, r.value[|log|]))
    ensures r.Some? ==> Records(r.value[|log|], |log|, loggedAt, artifact, signature, Head(log))
  {
    hide Chained, Fault, NewFields, Records;
    var verification := VerifyPolicyLogValues(hash, log);
    if !verification.Valid? {
      return None;
    }
    var fields := NewFields(|log|, loggedAt, artifact, signature, Head(log));
    var entryHash := EntryHash(hash, Obj(fields));
    var entry := Obj(fields + [Entry("entry_hash", Str(entryHash))]);
    NewEntryFits(hash, |log|, loggedAt, artifact, signature, Head(log));
    NewEntryRecords(hash, |log|, loggedAt, artifact, signature, Head(log));
    AppendKeepsChain(hash, log, entry);
    r := Some(log + [entry]);
  }

  lemma {:induction false} LookupAppend(es: seq<Entry>, e: Entry, key: string)
    ensures Lookup(es + [e], key) ==
      if Lookup(es, key).Some? then Lookup(es, key) else if e.key == key then Some(e.value) else None
    decreases |es|
  {
    if es == [] {
      assert es + [e] == [e];
    } else if es[0].key != key {
      LookupAppend(es[1..], e, key);
      assert (es + [e])[1..] == es[1..] + [e];
    }
  }

  lemma {:induction false} WithoutAbsent(es: seq<Entry>, key: string)
    requires forall i :: 0 <= i < |es| ==> es[i].key != key
    ensures WithoutKey(es, key) == es
    decreases |es|
  {
    if es == [] {
    } else {
      WithoutAbsent(es[1..], key);
      assert es == [es[0]] + es[1..];
    }
  }

  lemma {:induction false} WithoutAppend(es: seq<Entry>, e: Entry, key: string)
    requires e.key == key && forall i :: 0 <= i < |es| ==> es[i].key != key
    ensures WithoutKey(es + [e], key) == es
    decreases |es|
  {
    if es == [] {
      assert es + [e] == [e];
    } else {
      WithoutAppend(es[1..], e, key);
      assert (es + [e])[1..] == es[1..] + [e];
    }
  }

  lemma NewKeyLengths(index: nat, loggedAt: string, artifact: string, signature: Option<string>, previous: Option<string>)
    ensures var es := NewFields(index, loggedAt, artifact, signature, previous);
      |es| == 7 && |es[0].key| == 14 && |es[1].key| == 4 && |es[2].key| == 5 && |es[3].key| == 9 &&
      |es[4].key| == 15 && |es[5].key| == 16 && |es[6].key| == 13
    ensures var es := NewFields(index, loggedAt, artifact, signature, previous);
      es[0] == Entry("schema_version", Num(PosInt(1))) && es[1] == Entry("kind", Str("policy-transparency-log-entry")) &&
      es[2] == Entry("index", Num(PosInt(index))) && es[3] == Entry("logged_at", Str(loggedAt)) &&
      es[4] == Entry("artifact_sha256", Str(artifact)) && es[5] == Entry("signature_sha256", TextOrNull(signature)) &&
      es[6] == Entry("previous_hash", TextOrNull(previous))
  {
  }

  /** The looked-up fields of a new entry's body. */
  lemma NewFieldsFound(index: nat, loggedAt: string, artifact: string, signature: Option<string>, previous: Option<string>, k: nat)
    ensures var es := NewFields(index, loggedAt, artifact, signature, previous);
      |es| == 7 && (k < 7 ==> Lookup(es, es[k].key) == Some(es[k].value)) &&
      (forall i :: 0 <= i < |es| ==> |es[i].key| != 10)
  {
    hide TextOrNull, NewFields, Lookup;
    var es := NewFields(index, loggedAt, artifact, signature, previous);
    NewKeyLengths(index, loggedAt, artifact, signature, previous);
    forall i, j | 0 <= i < j < |es|
      ensures es[i].key != es[j].key
    {
      assert |es[i].key| != |es[j].key|;
    }
    if k < 7 {
      LookupMember(es, es[k]);
    }
  }

  lemma NewEntryHas(hash: Hash, index: nat, loggedAt: string, artifact: string, signature: Option<string>, previous: Option<string>, k: nat)
    requires k < 7
    ensures var fields := NewFields(index, loggedAt, artifact, signature, previous);
      |fields| == 7 && Get(Hashed(hash, fields), fields[k].key) == Some(fields[k].value)
  {
    var fields := NewFields(index, loggedAt, artifact, signature, previous);
    hide NewFields, Lookup, Get, Hashed;
    NewFieldsFound(index, loggedAt, artifact, signature, previous, k);
    assert |"entry_hash"| == 10;
    HashedFields(hash, fields, fields[k].key);
  }

  lemma NewEntryRecords(hash: Hash, index: nat, loggedAt: string, artifact: string, signature: Option<string>, previous: Option<string>)
    ensures Records(Hashed(hash, NewFields(index, loggedAt, artifact, signature, previous)), index, loggedAt, artifact, signature, previous)
  {
    NewKeyLengths(index, loggedAt, artifact, signature, previous);
    hide NewFields, Hashed, Get;
    NewEntryHas(hash, index, loggedAt, artifact, signature, previous, 0);
    NewEntryHas(hash, index, loggedAt, artifact, signature, previous, 1);
    NewEntryHas(hash, index, loggedAt, artifact, signature, previous, 2);
    NewEntryHas(hash, index, loggedAt, artifact, signature, previous, 3);
    NewEntryHas(hash, index, loggedAt, artifact, signature, previous, 4);
    NewEntryHas(hash, index, loggedAt, artifact, signature, previous, 5);
    NewEntryHas(hash, index, loggedAt, artifact, signature, previous, 6);
  }

  lemma HashedFields(hash: Hash, fields: seq<Entry>, key: string)
    requires forall i :: 0 <= i < |fields| ==> fields[i].key != "entry_hash"
    ensures Body(Hashed(hash, fields)) == Obj(fields) == Body(Obj(fields))
    ensures RecordedHash(Hashed(hash, fields)) == Some(EntryHash(hash, Obj(fields)))
    ensures key != "entry_hash" ==> Get(Hashed(hash, fields), key) == Lookup(fields, key)
  {
    hide EntryHash, Lookup;
    var e := Entry("entry_hash", Str(EntryHash(hash, Obj(fields))));
    WithoutAbsent(fields, "entry_hash");
    WithoutAppend(fields, e, "entry_hash");
    LookupAppend(fields, e, key);
    LookupAppend(fields, e, "entry_hash");
    assert Lookup(fields, "entry_hash").None?;
  }

  lemma NewEntryFits(hash: Hash, index: nat, loggedAt: string, artifact: string, signature: Option<string>, previous: Option<string>)
    ensures var fields := NewFields(index, loggedAt, artifact, signature, previous);
      var entry := Hashed(hash, fields);
      Body(entry) == Obj(fields) && Fault(hash, entry, index, previous).None? &&
      RecordedHash(entry) == Some(EntryHash(hash, entry))
  {
    var fields := NewFields(index, loggedAt, artifact, signature, previous);
    NewEntryRecords(hash, index, loggedAt, artifact, signature, previous);
    NewFieldsFound(index, loggedAt, artifact, signature, previous, 0);
    hide NewFields, CanonicalJson, Lookup, Get, Hashed, Body;
    assert |"entry_hash"| == 10;
    HashedFields(hash, fields, "index");
  }

  lemma AppendKeepsChain(hash: Hash, log: seq<Json>, entry: Json)
    requires Chained(hash, log) && Fault(hash, entry, |log|, Head(log)).None?
    ensures Chained(hash, log + [entry]) && Head(log + [entry]) == RecordedHash(entry)
  {
    hide Fault, Chained;
    var longer := log + [entry];
    assert longer[..|log|] == log && longer[..|log| + 1] == longer;
    ChainedExtends(hash, longer, |log|);
  }
}
