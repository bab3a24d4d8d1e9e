/**
 Report envelopes (src/reporting/envelope.rs): a payload beside metadata that
 records the hash of its canonical text.
 */
module Envelope {
  import opened Wrappers
  import opened Json
  import opened JsonText

  const REPORT_SCHEMA_VERSION: nat := 1

  type Hash = string -> string

  datatype ReportKind = MonthlyAudit | PerRequestAudit | PerRequestData | DataExport | Chargeback | RetentionPlan

  datatype Reason =
    | MissingMetadata
    | MissingPayload
    | MissingSha256
    | UnsupportedSchemaVersion
    | MissingReportKind
    | PayloadMismatch

  datatype Verification = Verification(
    valid: bool,
    expectedSha256: Option<string>,
    actualSha256: Option<string>,
    reportKind: Option<string>,
    schemaVersion: Option<nat>,
    reason: Option<Reason>
  )

  function KindName(kind: ReportKind): string {
    match kind
    case MonthlyAudit => "monthly_audit"
    case PerRequestAudit => "per_request_audit"
    case PerRequestData => "per_request_data"
    case DataExport => "data_export"
    case Chargeback => "chargeback"
    case RetentionPlan => "retention_plan"
  }

  function CanonicalSha256(hash: Hash, payload: Json): string {
    hash(CanonicalJson(payload))
  }

  // -------------------------------------------------------- comparing hashes

  function AsciiLower(c: char): char {
    if 'A' <= c <= 'Z' then (c as int + 32) as char else c
  }

  predicate EqIgnoreAsciiCase(a: string, b: string) {
    |a| == |b| && forall i :: 0 <= i < |a| ==> AsciiLower(a[i]) == AsciiLower(b[i])
  }

  predicate IsLowerHex(s: string) {
    forall i :: 0 <= i < |s| ==> '0' <= s[i] <= '9' || 'a' <= s[i] <= 'f'
  }

  // ------------------------------------------------------------- verification

  function Invalid(expected: Option<string>, reportKind: Option<string>, schemaVersion: Option<nat>, reason: Reason): Verification {
    Verification(false, expected, None, reportKind, schemaVersion, Some(reason))
  }

  function VerifyEnvelopeValue(hash: Hash, envelope: Json): Verification {
    var metadata := Get(envelope, "metadata");
    if metadata.None? || !metadata.value.Obj? then Invalid(None, None, None, MissingMetadata)
    else
      var expected := AsStr(Get(metadata.value, "sha256"));
      var kind := AsStr(Get(metadata.value, "report_kind"));
      var version := AsU64(Get(metadata.value, "schema_version"));
      var payload := Get(envelope, "payload");
      if payload.None? then Invalid(expected, kind, version, MissingPayload)
      else if expected.None? then Invalid(None, kind, version, MissingSha256)
      else if version != Some(REPORT_SCHEMA_VERSION) then Invalid(expected, kind, version, UnsupportedSchemaVersion)
      else if kind.None? then Invalid(expected, None, version, MissingReportKind)
      else
        var actual := CanonicalSha256(hash, payload.value);
        var valid := EqIgnoreAsciiCase(expected.value, actual);
        Verification(valid, expected, Some(actual), kind, version, if valid then None else Some(PayloadMismatch))
  }

  // ------------------------------------------------------------ construction

  function ReportMetadata(kind: ReportKind, generatedAt: string, producer: string, contractVersion: nat,
                          contractHashes: seq<Entry>, sha256: string): Json {
    Obj([
      Entry("report_kind", Str(KindName(kind))),
      Entry("generated_at", Str(generatedAt)),
      Entry("schema_version", Num(PosInt(REPORT_SCHEMA_VERSION))),
      Entry("producer", Str(producer)),
      Entry("contract_schema_version", Num(PosInt(contractVersion))),
      Entry("contract_hashes", Obj(contractHashes)),
      Entry("sha256", Str(sha256))
    ])
  }

  function ReportEnvelopeAt(hash: Hash, kind: ReportKind, payload: Json, generatedAt: string, producer: string,
                            contractVersion: nat, contractHashes: seq<Entry>): Json {
    Obj([
      Entry("metadata", ReportMetadata(kind, generatedAt, producer, contractVersion, contractHashes, CanonicalSha256(hash, payload))),
      Entry("payload", payload)
    ])
  }

  // -------------------------------------------------------------------- lemmas

  lemma LowerHexIgnoresCase(a: string, b: string)
    requires IsLowerHex(a) && IsLowerHex(b)
    ensures EqIgnoreAsciiCase(a, b) <==> a == b
  {
  }

  /** Hashes compare alike in either case of their letters, and in nothing else. */
  lemma CaseIsIgnored(a: string, b: string)
    ensures EqIgnoreAsciiCase(a, b) <==>
      |a| == |b| && forall i :: 0 <= i < |a| ==>
        a[i] == b[i] || ('A' <= a[i] <= 'Z' && b[i] as int == a[i] as int + 32) || ('A' <= b[i] <= 'Z' && a[i] as int == b[i] as int + 32)
  {
  }

  lemma MetadataKeys(kind: ReportKind, generatedAt: string, producer: string, contractVersion: nat,
                     contractHashes: seq<Entry>, sha256: string)
    ensures var m := ReportMetadata(kind, generatedAt, producer, contractVersion, contractHashes, sha256);
      m.Obj? && |m.entries| == 7 && m.entries[0] == Entry("report_kind", Str(KindName(kind))) &&
      m.entries[1] == Entry("generated_at", Str(generatedAt)) && m.entries[2] == Entry("schema_version", Num(PosInt(1))) &&
      m.entries[3] == Entry("producer", Str(producer)) &&
      m.entries[4] == Entry("contract_schema_version", Num(PosInt(contractVersion))) &&
      m.entries[5] == Entry("contract_hashes", Obj(contractHashes)) && m.entries[6] == Entry("sha256", Str(sha256))
  {
  }

  lemma MetadataKeyLengths(kind: ReportKind, generatedAt: string, producer: string, contractVersion: nat,
                           contractHashes: seq<Entry>, sha256: string)
    ensures var es := ReportMetadata(kind, generatedAt, producer, contractVersion, contractHashes, sha256).entries;
      |es| == 7 && |es[0].key| == 11 && |es[1].key| == 12 && |es[2].key| == 14 && |es[3].key| == 8 &&
      |es[4].key| == 23 && |es[5].key| == 15 && |es[6].key| == 6
  {
  }

  /** What a reader of the metadata finds in it. */
  predicate Records(m: Json, kind: ReportKind, generatedAt: string, producer: string, contractVersion: nat,
                    contractHashes: seq<Entry>, sha256: string) {
    m.Obj? && AsStr(Get(m, "report_kind")) == Some(KindName(kind)) && AsStr(Get(m, "generated_at")) == Some(generatedAt) &&
    AsU64(Get(m, "schema_version")) == Some(1) && AsStr(Get(m, "producer")) == Some(producer) &&
    AsU64(Get(m, "contract_schema_version")) == Some(contractVersion) &&
    Get(m, "contract_hashes") == Some(Obj(contractHashes)) && AsStr(Get(m, "sha256")) == Some(sha256)
  }

  lemma MetadataFields(kind: ReportKind, generatedAt: string, producer: string, contractVersion: nat,
                       contractHashes: seq<Entry>, sha256: string)
    ensures Records(ReportMetadata(kind, generatedAt, producer, contractVersion, contractHashes, sha256),
                    kind, generatedAt, producer, contractVersion, contractHashes, sha256)
  {
    hide KindName, ReportMetadata, Lookup;
    MetadataKeys(kind, generatedAt, producer, contractVersion, contractHashes, sha256);
    MetadataKeyLengths(kind, generatedAt, producer, contractVersion, contractHashes, sha256);
    var es := ReportMetadata(kind, generatedAt, producer, contractVersion, contractHashes, sha256).entries;
    FindsFirst(es, 0);
    FindsFirst(es, 1);
    FindsFirst(es, 2);
    FindsFirst(es, 3);
    FindsFirst(es, 4);
    FindsFirst(es, 5);
    FindsFirst(es, 6);
  }

  /** The six kinds have six names. */
  lemma KindNamesDiffer(a: ReportKind, b: ReportKind)
    ensures KindName(a) == KindName(b) <==> a == b
    ensures KindName(MonthlyAudit) == "monthly_audit" && KindName(PerRequestAudit) == "per_request_audit"
    ensures KindName(PerRequestData) == "per_request_data" && KindName(DataExport) == "data_export"
    ensures KindName(Chargeback) == "chargeback" && KindName(RetentionPlan) == "retention_plan"
  {
    assert |"monthly_audit"| == 13 && |"per_request_audit"| == 17 && |"per_request_data"| == 16;
    assert |"data_export"| == 11 && |"chargeback"| == 10 && |"retention_plan"| == 14;
  }

  /** An envelope that lacks something, or records something else, is reported with the reason that says so. */
  lemma WhatIsReported(hash: Hash, envelope: Json, metadata: Json)
    requires Get(envelope, "metadata") == Some(metadata) && metadata.Obj?
    ensures var payload, sha := Get(envelope, "payload"), AsStr(Get(metadata, "sha256"));
      var version, kind := AsU64(Get(metadata, "schema_version")), AsStr(Get(metadata, "report_kind"));
      var v := VerifyEnvelopeValue(hash, envelope);
      (payload.None? ==> v.reason == Some(MissingPayload)) &&
      (payload.Some? && sha.None? ==> v.reason == Some(MissingSha256)) &&
      (payload.Some? && sha.Some? && version != Some(1) ==> v.reason == Some(UnsupportedSchemaVersion)) &&
      (payload.Some? && sha.Some? && version == Some(1) && kind.None? ==> v.reason == Some(MissingReportKind)) &&
      (v.reason == Some(PayloadMismatch) <==>
        payload.Some? && sha.Some? && version == Some(1) && kind.Some? &&
        !EqIgnoreAsciiCase(sha.value, CanonicalSha256(hash, payload.value))) &&
      (v.reason == None <==> v.valid) &&
      v.expectedSha256 == sha && v.reportKind == kind && v.schemaVersion == version
  {
  }

  /** The first entry under a key is the one a lookup returns. */
  lemma {:induction false} FindsFirst(es: seq<Entry>, n: nat)
    requires n < |es| && forall i :: 0 <= i < n ==> |es[i].key| != |es[n].key|
    ensures Lookup(es, es[n].key) == Some(es[n].value)
    decreases n
  {
    if n == 0 {
    } else {
      assert |es[0].key| != |es[n].key|;
      FindsFirst(es[1..], n - 1);
    }
  }

  /** What is made holds the payload as it is, beside metadata that records its hash. */
  lemma MadeEnvelopeRecords(hash: Hash, kind: ReportKind, payload: Json, generatedAt: string, producer: string,
                            contractVersion: nat, contractHashes: seq<Entry>)
    ensures var made := ReportEnvelopeAt(hash, kind, payload, generatedAt, producer, contractVersion, contractHashes);
      Get(made, "payload") == Some(payload) && Get(made, "metadata").Some? &&
      Records(Get(made, "metadata").value, kind, generatedAt, producer, contractVersion, contractHashes, CanonicalSha256(hash, payload))
  {
    MetadataFields(kind, generatedAt, producer, contractVersion, contractHashes, CanonicalSha256(hash, payload));
    hide ReportMetadata, Records, CanonicalSha256, Lookup;
    var es := ReportEnvelopeAt(hash, kind, payload, generatedAt, producer, contractVersion, contractHashes).entries;
    assert |"metadata"| == 8 && |"payload"| == 7;
    assert es[0].key == "metadata" && es[1].key == "payload";
    FindsFirst(es, 0);
    FindsFirst(es, 1);
  }

  /** MAIN: what is made verifies, under whatever hash. */
  lemma MadeEnvelopeVerifies(hash: Hash, kind: ReportKind, payload: Json, generatedAt: string, producer: string,
                             contractVersion: nat, contractHashes: seq<Entry>)
    ensures var v := VerifyEnvelopeValue(hash, ReportEnvelopeAt(hash, kind, payload, generatedAt, producer, contractVersion, contractHashes));
      v.valid && v.reason == None && v.reportKind == Some(KindName(kind)) &&
      v.expectedSha256 == v.actualSha256 == Some(CanonicalSha256(hash, payload))
  {
    MadeEnvelopeRecords(hash, kind, payload, generatedAt, producer, contractVersion, contractHashes);
    hide ReportEnvelopeAt, Get, KindName, CanonicalSha256;
  }

  /** Valid means: the metadata is complete and the recorded hash is the payload's, in any case. */
  lemma ValidExactly(hash: Hash, envelope: Json)
    ensures VerifyEnvelopeValue(hash, envelope).valid <==>
      var metadata, payload := Get(envelope, "metadata"), Get(envelope, "payload");
      metadata.Some? && payload.Some? &&
      AsU64(Get(metadata.value, "schema_version")) == Some(1) && AsStr(Get(metadata.value, "report_kind")).Some? &&
      AsStr(Get(metadata.value, "sha256")).Some? &&
      EqIgnoreAsciiCase(AsStr(Get(metadata.value, "sha256")).value, CanonicalSha256(hash, payload.value))
  {
  }

  /**
   MAIN: under the metadata of a valid envelope, another payload verifies if and
   only if it is the same payload up to key order, at any depth.
   */
  lemma PayloadIsPinned(hash: Hash, envelope: Json, other: Json)
    requires VerifyEnvelopeValue(hash, envelope).valid
    requires Get(other, "metadata") == Get(envelope, "metadata") && Get(other, "payload").Some?
    requires Wf(Get(envelope, "payload").value) && Wf(Get(other, "payload").value)
    requires forall text :: IsLowerHex(hash(text))
    requires var p, q := Get(envelope, "payload").value, Get(other, "payload").value;
      CanonicalSha256(hash, p) == CanonicalSha256(hash, q) ==> CanonicalJson(p) == CanonicalJson(q)
    ensures VerifyEnvelopeValue(hash, other).valid <==> Same(Get(envelope, "payload").value, Get(other, "payload").value)
  {
    var p, q := Get(envelope, "payload").value, Get(other, "payload").value;
    ValidExactly(hash, envelope);
    ValidExactly(hash, other);
    CanonicalTextDecidesEquality(p, q);
    hide VerifyEnvelopeValue, Lookup, Get, Same, CanonicalJson, Wf, EqIgnoreAsciiCase, IsLowerHex;
    var expected := AsStr(Get(Get(envelope, "metadata").value, "sha256")).value;
    var a, b := CanonicalSha256(hash, p), CanonicalSha256(hash, q);
    LowerHexIgnoresCase(a, b);
    if EqIgnoreAsciiCase(expected, b) {
      IgnoreCaseChains(expected, a, b);
    }
  }

  lemma IgnoreCaseChains(s: string, a: string, b: string)
    requires EqIgnoreAsciiCase(s, a) && EqIgnoreAsciiCase(s, b)
    ensures EqIgnoreAsciiCase(a, b)
  {
  }
}
