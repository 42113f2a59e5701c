/** Qualification evidence packages: the writer and its two independent verifiers. */
module Evidence {
  import opened Base
  import opened Gates
  import Splits

  datatype FileName =
    | SummaryFile | ModelCardFile | ReportFile | MetricsFile | IntervalsFile | SplitFile | ProvenanceFile
    | ReleaseFile | ErrorCasesFile | SourceEvidenceFile | ManifestFile | OtherFile(name: string)

  const REQUIRED: set<FileName> := {
    SummaryFile, ModelCardFile, ReportFile, MetricsFile, IntervalsFile, SplitFile, ProvenanceFile,
    ReleaseFile, ErrorCasesFile, SourceEvidenceFile, ManifestFile}

  /** The field names the programs use; every other name is an OtherField. */
  datatype Key =
    | SchemaVersion | FilesKey | Sha256Key | SizeBytes | PathKey | DecisionKey | GateDecision | ReportStatusKey
    | ApprovalStatusKey | QualificationStatus | SourceType | DataStatus | DatasetFingerprint | ModelPackage
    | EvidencePackage | CustomerProvenance | GatesKey | Checks | StatusKey | MetricsKey
    | Tenant | Site | Line | Camera | Product | WindowStart | WindowEnd | LabelSource | Approver | Consent | Retention
    | OtherField(field: string) | OfFile(file: FileName) | OfMeasure(measure: Measure)

  /** A SHA-256 digest is kept as what it was taken of. */
  datatype Json =
    | Null | Bool(b: bool) | Num(x: real) | Str(s: string) | Sha(of: Content) | Arr(items: seq<Json>) | Obj(fields: map<Key, Json>)

  datatype Content = Doc(json: Json) | Text(text: string)

  /** The files directly inside a directory. */
  type Directory = map<FileName, Content>

  predicate Plain(n: FileName) {
    n.OtherFile? ==> n.name !in {"", ".", ".."} && '/' !in n.name
  }

  /** A directory entry never has a path for a name. */
  predicate DirOk(d: Directory) {
    forall n | n in d :: Plain(n)
  }

  type Fields = map<Key, Json>

  function GetOr(f: Fields, k: Key, default: Json): Json {
    if k in f then f[k] else default
  }

  function Get(f: Fields, k: Key): Json {
    GetOr(f, k, Null)
  }

  predicate Truthy(j: Json) {
    match j
    case Null => false
    case Bool(b) => b
    case Num(x) => x != 0.0
    case Str(s) => s != ""
    case Sha(_) => true
    case Arr(items) => items != []
    case Obj(fields) => fields != map[]
  }

  function FileEntry(c: Content, size: Content -> nat): Json {
    Obj(map[Sha256Key := Sha(c), SizeBytes := Num(size(c) as real)])
  }

  function Entries(d: Directory, skip: set<FileName>, size: Content -> nat): Fields {
    map n | n in d && n !in skip :: OfFile(n) := FileEntry(d[n], size)
  }

  lemma EntriesMeaning(d: Directory, skip: set<FileName>, size: Content -> nat, n: FileName)
    ensures OfFile(n) in Entries(d, skip, size) <==> n in d && n !in skip
    ensures n in d && n !in skip ==> Entries(d, skip, size)[OfFile(n)] == FileEntry(d[n], size)
  {
  }

  lemma SkippedFileDoesNotCount(d: Directory, skip: set<FileName>, size: Content -> nat, n: FileName, c: Content)
    requires n in skip
    ensures Entries(d[n := c], skip, size) == Entries(d, skip, size)
  {
  }

  /** The digest excludes the two files that carry it. */
  const SELF: set<FileName> := {ReleaseFile, ManifestFile}

  function CoreDigest(d: Directory, size: Content -> nat): Json {
    Sha(Doc(Obj(Entries(d, SELF, size))))
  }

  /** Equal core digests mean equal core files. */
  lemma DigestFixesCore(d: Directory, e: Directory, size: Content -> nat, n: FileName)
    requires CoreDigest(d, size) == CoreDigest(e, size) && n !in SELF
    ensures n in d <==> n in e
    ensures n in d && n in e ==> d[n] == e[n]
  {
    EntriesMeaning(d, SELF, size, n);
    EntriesMeaning(e, SELF, size, n);
    if n in d && n in e { SameEntrySameContent(d[n], e[n], size); }
  }

  lemma SameEntrySameContent(a: Content, b: Content, size: Content -> nat)
    requires FileEntry(a, size) == FileEntry(b, size)
    ensures a == b
  {
    assert FileEntry(a, size).fields[Sha256Key] == Sha(a) && FileEntry(b, size).fields[Sha256Key] == Sha(b);
  }

  // ---- the verifiers ----------------------------------------------------------------------------

  datatype Refusal =
    | Incomplete | Malformed | BadManifestSchema | InventoryIncomplete | UnsafePath | FileMismatch
    | BadSourceSchema | SourceMismatch | DigestMismatch | PackageMismatch | SummaryMismatch | MetricsMismatch
    | ReleasePackageMismatch | BadSourceType | SummarySource | ReleaseSource | FingerprintMismatch | NoConsent

  datatype Verdict = Verdict(
    digest: Json, decision: Json, gateDecision: Json, source: Json, fingerprint: Json, approval: Json,
    gates: Json, metrics: Json, package: Json)

  /** The ML side reports neither gates nor metrics. */
  datatype MlVerdict = MlVerdict(
    digest: Json, decision: Json, gateDecision: Json, source: Json, fingerprint: Json, approval: Json, package: Json)

  function MlView(v: Verdict): MlVerdict {
    MlVerdict(v.digest, v.decision, v.gateDecision, v.source, v.fingerprint, v.approval, v.package)
  }

  /** The fields of a file, when it holds a JSON object. */
  function Read(d: Directory, n: FileName): Option<Fields> {
    if n in d && d[n].Doc? && d[n].json.Obj? then Some(d[n].json.fields) else None
  }

  /** The declared inventory names exactly the files that are there. */
  predicate Covers(d: Directory, declared: Fields) {
    declared.Keys == (set n | n in d && n != ManifestFile :: OfFile(n))
  }

  predicate SafeNames(declared: Fields) {
    forall k | k in declared :: k.OfFile? && Plain(k.file)
  }

  predicate EntryMatches(d: Directory, k: Key, details: Json, size: Content -> nat) {
    k.OfFile? && k.file in d && details.Obj?
    && Get(details.fields, Sha256Key) == Sha(d[k.file]) && Get(details.fields, SizeBytes) == Num(size(d[k.file]) as real)
  }

  predicate EntriesMatch(d: Directory, declared: Fields, size: Content -> nat) {
    forall k | k in declared :: EntryMatches(d, k, declared[k], size)
  }

  /** The manifest against the directory; None when all holds. */
  function CheckManifest(d: Directory, manifest: Fields, size: Content -> nat): Option<Refusal> {
    var declared := Get(manifest, FilesKey);
    if Get(manifest, SchemaVersion) != Str("visionqc.evidence-manifest.v1") then Some(BadManifestSchema)
    else if !declared.Obj? || !Covers(d, declared.fields) then Some(InventoryIncomplete)
    else if !SafeNames(declared.fields) then Some(UnsafePath)
    else if !EntriesMatch(d, declared.fields, size) then Some(FileMismatch)
    else None
  }

  /** Completeness, the inventory and every file's digest. */
  function CheckInventory(d: Directory, size: Content -> nat): Option<Refusal> {
    if !(REQUIRED <= d.Keys) then Some(Incomplete)
    else
      var manifest := Read(d, ManifestFile);
      if manifest.None? then Some(Malformed) else CheckManifest(d, manifest.value, size)
  }

  /** Names in a covering inventory are names of directory entries: none is ever unsafe. */
  lemma UnsafePathNeverReported(d: Directory, size: Content -> nat)
    requires DirOk(d)
    ensures CheckInventory(d, size) != Some(UnsafePath)
  {
  }

  /** What the verifiers read: the four documents that make claims, and the gates in the metrics. */
  datatype Docs = Docs(release: Fields, summary: Fields, provenance: Fields, metrics: Fields, gates: Fields)

  function DocsOf(d: Directory): Option<Docs> {
    var release, summary := Read(d, ReleaseFile), Read(d, SummaryFile);
    var provenance, metrics := Read(d, ProvenanceFile), Read(d, MetricsFile);
    if release.None? || summary.None? || provenance.None? || metrics.None? then None
    else
      var gates := GetOr(metrics.value, GatesKey, Obj(map[]));
      if !gates.Obj? then None
      else Some(Docs(release.value, summary.value, provenance.value, metrics.value, gates.fields))
  }

  function ClaimedSource(c: Docs): Json {
    GetOr(c.provenance, SourceType, GetOr(c.provenance, DataStatus, Str("")))
  }

  predicate KnownSource(j: Json) {
    j.Str? && j.s in {"DEMO_SYNTHETIC", "OFFICIAL_BENCHMARK", "CUSTOMER_PILOT"}
  }

  /** Agreement of release, summary and provenance, as both verifiers check it. */
  function CheckAgreement(c: Docs): Option<Refusal> {
    var source := ClaimedSource(c);
    if Get(c.release, ModelPackage) != Get(c.provenance, ModelPackage) then Some(ReleasePackageMismatch)
    else if !KnownSource(source) then Some(BadSourceType)
    else if GetOr(c.summary, SourceType, source) != source then Some(SummarySource)
    else if GetOr(c.release, SourceType, source) != source then Some(ReleaseSource)
    else if Get(c.release, DatasetFingerprint) != Get(c.provenance, DatasetFingerprint) then Some(FingerprintMismatch)
    else None
  }

  function Claims(c: Docs, digest: Json): Verdict {
    Verdict(
      digest, Get(c.release, DecisionKey), GetOr(c.release, GateDecision, Get(c.gates, DecisionKey)),
      ClaimedSource(c), Get(c.provenance, DatasetFingerprint), Get(c.release, ApprovalStatusKey),
      GetOr(c.metrics, GatesKey, GetOr(c.release, GatesKey, Obj(map[]))), GetOr(c.metrics, MetricsKey, Obj(map[])),
      Get(c.provenance, ModelPackage))
  }

  const CUSTOMER_FIELDS: set<Key> :=
    {Tenant, Site, Line, Camera, Product, WindowStart, WindowEnd, LabelSource, Approver, Consent, Retention}

  predicate Consented(provenance: Fields) {
    var c := Get(provenance, CustomerProvenance);
    c.Obj? && Truthy(Get(c.fields, Consent)) && CUSTOMER_FIELDS <= c.fields.Keys
  }

  function BackendClaims(c: Docs, digest: Json, expected: Json): Result<Verdict, Refusal> {
    var decision, agreement := Get(c.release, DecisionKey), CheckAgreement(c);
    if Get(c.provenance, ModelPackage) != expected then Err(PackageMismatch)
    else if Get(c.release, EvidencePackage) != digest then Err(DigestMismatch)
    else if decision != Get(c.summary, QualificationStatus) then Err(SummaryMismatch)
    else if decision != Get(c.gates, DecisionKey) && decision != Get(c.gates, ReportStatusKey) then Err(MetricsMismatch)
    else if agreement.Some? then Err(agreement.value)
    else if ClaimedSource(c) == Str("CUSTOMER_PILOT") && !Consented(c.provenance) then Err(NoConsent)
    else Ok(Claims(c, digest))
  }

  /** The backend's verifier. */
  function VerifyBackend(d: Directory, expected: Json, size: Content -> nat): Result<Verdict, Refusal> {
    var inventory, docs := CheckInventory(d, size), DocsOf(d);
    if inventory.Some? then Err(inventory.value)
    else if docs.None? then Err(Malformed)
    else BackendClaims(docs.value, CoreDigest(d, size), expected)
  }

  /** Files of the host that the package only refers to. */
  type Host = map<string, Content>

  predicate SourceIntact(details: Json, host: Host, size: Content -> nat) {
    && details.Obj? && Get(details.fields, PathKey).Str? && Get(details.fields, PathKey).s in host
    && Get(details.fields, Sha256Key) == Sha(host[Get(details.fields, PathKey).s])
    && Get(details.fields, SizeBytes) == Num(size(host[Get(details.fields, PathKey).s]) as real)
  }

  predicate SourcesIntact(evidence: Fields, host: Host, size: Content -> nat) {
    var files := GetOr(evidence, FilesKey, Obj(map[]));
    files.Obj? && forall k | k in files.fields :: SourceIntact(files.fields[k], host, size)
  }

  predicate KnownSchema(evidence: Fields) {
    Get(evidence, SchemaVersion) == Str("visionqc.pilot-source-evidence.v1")
  }

  function MlReport(c: Docs, digest: Json): MlVerdict {
    MlVerdict(
      digest, Get(c.release, DecisionKey), GetOr(c.release, GateDecision, Get(c.gates, DecisionKey)),
      GetOr(c.summary, SourceType, Get(c.provenance, SourceType)), Get(c.provenance, DatasetFingerprint),
      Get(c.release, ApprovalStatusKey), Get(c.provenance, ModelPackage))
  }

  function MlClaims(c: Docs, digest: Json, expected: Option<Json>): Result<MlVerdict, Refusal> {
    var decision, agreement := Get(c.release, DecisionKey), CheckAgreement(c);
    if Get(c.release, EvidencePackage) != digest then Err(DigestMismatch)
    else if expected.Some? && Get(c.provenance, ModelPackage) != expected.value then Err(PackageMismatch)
    else if decision != Get(c.summary, QualificationStatus) then Err(SummaryMismatch)
    else if decision != Get(c.gates, ReportStatusKey) then Err(MetricsMismatch)
    else if agreement.Some? then Err(agreement.value)
    else Ok(MlReport(c, digest))
  }

  /** The ML side's verifier; without an expected package digest that check is skipped. */
  function VerifyMl(d: Directory, expected: Option<Json>, host: Host, size: Content -> nat): Result<MlVerdict, Refusal> {
    var inventory, sources, docs := CheckInventory(d, size), Read(d, SourceEvidenceFile), DocsOf(d);
    if inventory.Some? then Err(inventory.value)
    else if sources.None? then Err(Malformed)
    else if !KnownSchema(sources.value) then Err(BadSourceSchema)
    else if !SourcesIntact(sources.value, host, size) then Err(SourceMismatch)
    else if docs.None? then Err(Malformed)
    else MlClaims(docs.value, CoreDigest(d, size), expected)
  }

  lemma AcceptedDigest(d: Directory, expected: Json, size: Content -> nat)
    requires VerifyBackend(d, expected, size).Ok?
    ensures VerifyBackend(d, expected, size).value.digest == CoreDigest(d, size)
  {
    hide CheckInventory, CoreDigest, Consented, CheckAgreement;
  }

  /** An inventory that passes lists exactly the files that are there, each with its digest and size,
      and nothing that is required is missing. */
  lemma InventoryMeaning(d: Directory, size: Content -> nat, n: FileName)
    requires CheckInventory(d, size).None?
    ensures REQUIRED <= d.Keys && Read(d, ManifestFile).Some?
    ensures Get(Read(d, ManifestFile).value, SchemaVersion) == Str("visionqc.evidence-manifest.v1")
    ensures Get(Read(d, ManifestFile).value, FilesKey).Obj?
    ensures var listed := Get(Read(d, ManifestFile).value, FilesKey).fields;
      && (OfFile(n) in listed <==> n in d && n != ManifestFile)
      && (OfFile(n) in listed ==> listed[OfFile(n)].Obj? && Get(listed[OfFile(n)].fields, Sha256Key) == Sha(d[n]))
      && (OfFile(n) in listed ==> Get(listed[OfFile(n)].fields, SizeBytes) == Num(size(d[n]) as real))
  {
    var listed := Get(Read(d, ManifestFile).value, FilesKey).fields;
    assert OfFile(n) in listed ==> EntryMatches(d, OfFile(n), listed[OfFile(n)], size);
  }

  /** The source type, or the data status where an older provenance has only that. */
  predicate NamesSource(provenance: Fields, source: Json) {
    if SourceType in provenance then source == provenance[SourceType]
    else if DataStatus in provenance then source == provenance[DataStatus]
    else source == Str("")
  }

  /** Release, summary and provenance name the same package, the same known source and the same
      dataset; where the source is not repeated it counts as agreed. */
  predicate SameStory(c: Docs) {
    var source := ClaimedSource(c);
    && NamesSource(c.provenance, source)
    && source in {Str("DEMO_SYNTHETIC"), Str("OFFICIAL_BENCHMARK"), Str("CUSTOMER_PILOT")}
    && (SourceType in c.summary ==> c.summary[SourceType] == source) && (SourceType in c.release ==> c.release[SourceType] == source)
    && Get(c.release, ModelPackage) == Get(c.provenance, ModelPackage)
    && Get(c.release, DatasetFingerprint) == Get(c.provenance, DatasetFingerprint)
    && Get(c.release, DecisionKey) == Get(c.summary, QualificationStatus)
  }

  /** Acceptance by the backend means all of it: the inventory, documents that tell one story, the
      digest of the core, the expected package, a status the gates know, and consent for customer data. */
  lemma BackendAcceptsIff(d: Directory, expected: Json, size: Content -> nat)
    ensures VerifyBackend(d, expected, size).Ok? <==>
      && CheckInventory(d, size).None? && DocsOf(d).Some?
      && var c := DocsOf(d).value;
         SameStory(c) && Get(c.release, EvidencePackage) == CoreDigest(d, size) && Get(c.provenance, ModelPackage) == expected
         && Get(c.release, DecisionKey) in {Get(c.gates, DecisionKey), Get(c.gates, ReportStatusKey)}
         && (ClaimedSource(c) == Str("CUSTOMER_PILOT") ==> OwnerConsents(Get(c.provenance, CustomerProvenance)))
  {
    hide CheckInventory, CoreDigest, DocsOf;
  }

  /** The owner of the data is documented in every field and has consented. */
  predicate OwnerConsents(owner: Json) {
    owner.Obj? && Consent in owner.fields && Truthy(owner.fields[Consent])
    && forall k | k in {Tenant, Site, Line, Camera, Product, WindowStart, WindowEnd, LabelSource, Approver, Retention} :: k in owner.fields
  }

  /** The ML side accepts under the same conditions but for consent, which it does not ask for, the
      package, which it is only asked about, and the status, which has to be the report's; the
      listed sources have to be intact on its host. */
  lemma MlAcceptsIff(d: Directory, expected: Option<Json>, host: Host, size: Content -> nat)
    ensures VerifyMl(d, expected, host, size).Ok? <==>
      && CheckInventory(d, size).None? && DocsOf(d).Some? && Read(d, SourceEvidenceFile).Some?
      && KnownSchema(Read(d, SourceEvidenceFile).value) && SourcesIntact(Read(d, SourceEvidenceFile).value, host, size)
      && var c := DocsOf(d).value;
         SameStory(c) && Get(c.release, EvidencePackage) == CoreDigest(d, size)
         && (expected.Some? ==> Get(c.provenance, ModelPackage) == expected.value)
         && Get(c.release, DecisionKey) == Get(c.gates, ReportStatusKey)
  {
    hide CheckInventory, CoreDigest, DocsOf, SourcesIntact, KnownSchema;
  }

  /** What either side reports of an accepted package, field by field; where the release decision
      is silent on the gate decision it is taken from the gates, and where the metrics are silent on
      the gates they are taken from the release decision. */
  lemma AcceptanceReports(d: Directory, expected: Json, size: Content -> nat)
    requires VerifyBackend(d, expected, size).Ok?
    ensures DocsOf(d).Some?
    ensures var c, v := DocsOf(d).value, VerifyBackend(d, expected, size).value;
      && v.digest == CoreDigest(d, size) && v.decision == Get(c.release, DecisionKey) && v.approval == Get(c.release, ApprovalStatusKey)
      && v.gateDecision == (if GateDecision in c.release then c.release[GateDecision] else Get(c.gates, DecisionKey))
      && NamesSource(c.provenance, v.source) && v.fingerprint == Get(c.provenance, DatasetFingerprint) && v.package == expected
      && v.gates == (if GatesKey in c.metrics then Obj(c.gates) else if GatesKey in c.release then c.release[GatesKey] else Obj(map[]))
      && v.metrics == (if MetricsKey in c.metrics then c.metrics[MetricsKey] else Obj(map[]))
  {
    hide CheckInventory, CoreDigest, Consented, CheckAgreement;
  }

  lemma MlAcceptanceReports(d: Directory, expected: Option<Json>, host: Host, size: Content -> nat)
    requires VerifyMl(d, expected, host, size).Ok?
    ensures DocsOf(d).Some?
    ensures var c, v := DocsOf(d).value, VerifyMl(d, expected, host, size).value;
      && v.digest == CoreDigest(d, size) && v.decision == Get(c.release, DecisionKey) && v.approval == Get(c.release, ApprovalStatusKey)
      && v.gateDecision == (if GateDecision in c.release then c.release[GateDecision] else Get(c.gates, DecisionKey))
      && v.source == (if SourceType in c.summary then c.summary[SourceType] else Get(c.provenance, SourceType))
      && v.fingerprint == Get(c.provenance, DatasetFingerprint) && v.package == Get(c.provenance, ModelPackage)
  {
    hide CheckInventory, CoreDigest, SourcesIntact, CheckAgreement;
  }

  /** What it means for the ML side that a listed source is intact. */
  lemma AcceptedSourcesAreIntact(d: Directory, expected: Option<Json>, host: Host, size: Content -> nat, k: Key)
    requires VerifyMl(d, expected, host, size).Ok?
    ensures Read(d, SourceEvidenceFile).Some?
    ensures var listed := GetOr(Read(d, SourceEvidenceFile).value, FilesKey, Obj(map[]));
      listed.Obj? && (k in listed.fields ==>
        && listed.fields[k].Obj? && Get(listed.fields[k].fields, PathKey).Str? && Get(listed.fields[k].fields, PathKey).s in host
        && Get(listed.fields[k].fields, Sha256Key) == Sha(host[Get(listed.fields[k].fields, PathKey).s]))
  {
    hide CheckInventory, CoreDigest, DocsOf, MlClaims;
  }

  /** Acceptance against a registered digest forces every core file to be the one registered. */
  lemma AcceptanceFixesCore(d: Directory, e: Directory, expected: Json, size: Content -> nat, v: Verdict, n: FileName)
    requires VerifyBackend(d, expected, size) == Ok(v) && v.digest == CoreDigest(e, size) && n !in SELF
    ensures (n in d <==> n in e) && (n in d && n in e ==> d[n] == e[n])
  {
    AcceptedDigest(d, expected, size);
    DigestFixesCore(d, e, size, n);
  }

  /** The same holds for the ML side's verifier. */
  lemma MlAcceptanceFixesCore(d: Directory, e: Directory, expected: Option<Json>, host: Host, size: Content -> nat, v: MlVerdict, n: FileName)
    requires VerifyMl(d, expected, host, size) == Ok(v) && v.digest == CoreDigest(e, size) && n !in SELF
    ensures (n in d <==> n in e) && (n in d && n in e ==> d[n] == e[n])
  {
    AcceptedMlDigest(d, expected, host, size);
    DigestFixesCore(d, e, size, n);
  }

  lemma AcceptedMlDigest(d: Directory, expected: Option<Json>, host: Host, size: Content -> nat)
    requires VerifyMl(d, expected, host, size).Ok?
    ensures VerifyMl(d, expected, host, size).value.digest == CoreDigest(d, size)
  {
    hide CheckInventory, CoreDigest, SourcesIntact, CheckAgreement;
  }

  /** And with the core files everything read from them: whoever changed the release decision
      and the inventory since, the verdict still carries the registered gates, source, status
      and fingerprint. */
  lemma AcceptanceFixesClaims(d: Directory, e: Directory, expected: Json, size: Content -> nat, v: Verdict, c: Docs)
    requires VerifyBackend(d, expected, size) == Ok(v) && v.digest == CoreDigest(e, size)
    requires DocsOf(e) == Some(c) && GatesKey in c.metrics
    ensures v.decision == Get(c.summary, QualificationStatus)
    ensures v.gates == Obj(c.gates) && v.source == ClaimedSource(c)
    ensures v.fingerprint == Get(c.provenance, DatasetFingerprint) && Get(c.provenance, ModelPackage) == expected
    ensures v.source == Str("CUSTOMER_PILOT") ==> Consented(c.provenance)
  {
    hide CheckInventory, CoreDigest, Consented, CheckAgreement;
    AcceptedDigest(d, expected, size);
    AcceptedConsent(d, expected, size);
    DigestFixesCore(d, e, size, SummaryFile);
    DigestFixesCore(d, e, size, ProvenanceFile);
    DigestFixesCore(d, e, size, MetricsFile);
    SameFileSameFields(d, e, SummaryFile);
    SameFileSameFields(d, e, ProvenanceFile);
    SameFileSameFields(d, e, MetricsFile);
  }

  lemma AcceptedStatus(d: Directory, expected: Json, size: Content -> nat)
    requires VerifyBackend(d, expected, size).Ok?
    ensures Read(d, SummaryFile).Some?
    ensures VerifyBackend(d, expected, size).value.decision == Get(Read(d, SummaryFile).value, QualificationStatus)
  {
    hide CheckInventory, CoreDigest, Consented, CheckAgreement;
  }

  /** The status reported is the one in the registered summary. */
  lemma AcceptanceFixesStatus(d: Directory, e: Directory, expected: Json, size: Content -> nat, v: Verdict)
    requires VerifyBackend(d, expected, size) == Ok(v) && v.digest == CoreDigest(e, size)
    ensures Read(e, SummaryFile).Some? && v.decision == Get(Read(e, SummaryFile).value, QualificationStatus)
  {
    hide VerifyBackend, CoreDigest, Read;
    AcceptedDigest(d, expected, size);
    AcceptedStatus(d, expected, size);
    DigestFixesCore(d, e, size, SummaryFile);
    SameFileSameFields(d, e, SummaryFile);
  }

  lemma AcceptedConsent(d: Directory, expected: Json, size: Content -> nat)
    requires VerifyBackend(d, expected, size).Ok?
    ensures DocsOf(d).Some? && (ClaimedSource(DocsOf(d).value) == Str("CUSTOMER_PILOT") ==> Consented(DocsOf(d).value.provenance))
  {
    hide CheckInventory, CoreDigest, Consented, CheckAgreement;
  }

  lemma SameFileSameFields(d: Directory, e: Directory, n: FileName)
    requires (n in d <==> n in e) && (n in d && n in e ==> d[n] == e[n])
    ensures Read(d, n) == Read(e, n)
  {
  }

  // ---- the writer -------------------------------------------------------------------------------------

  datatype Customer = Customer(
    tenant: string, site: string, line: string, camera: string, product: string, start: string, end: string,
    labelSource: string, approver: string, consent: bool, retention: string)

  /** `split` and `sourceEvidence` are None when missing or empty; `package` is the digest of a
      package that has been verified; `texts` are the documents nothing is read from. */
  datatype Request = Request(
    source: Source, metrics: Option<map<Measure, real>>, split: Option<seq<(Splits.Split, seq<Splits.Row>)>>,
    package: Option<string>, receipt: bool, sourceEvidence: Option<Fields>, fingerprint: Option<string>,
    demoFingerprint: string, customer: Option<Customer>, texts: map<FileName, Content>)

  datatype Blocker =
    | NoPackage | NoSplit | NoMetrics | NoFingerprint | NoReceipt | NoProvenance | NoSourceEvidence | NotConsented

  function When(condition: bool, b: Blocker): seq<Blocker> {
    if condition then [b] else []
  }

  predicate SourceEvidenceAvailable(r: Request) {
    r.sourceEvidence.Some? && Truthy(Get(r.sourceEvidence.value, FilesKey))
  }

  function Blockers(r: Request): seq<Blocker> {
    var external := r.source != DemoSynthetic;
    When(external && r.package.None?, NoPackage) + When(external && r.split.None?, NoSplit)
    + When(external && r.metrics.None?, NoMetrics) + When(external && r.fingerprint.None?, NoFingerprint)
    + When(external && !r.receipt, NoReceipt) + When(r.source == CustomerPilot && r.customer.None?, NoProvenance)
    + When(external && !SourceEvidenceAvailable(r), NoSourceEvidence)
    + When(r.source == CustomerPilot && r.customer.Some? && !r.customer.value.consent, NotConsented)
  }

  function ProvenanceValid(r: Request): Option<bool> {
    if r.source != CustomerPilot then Some(true)
    else if r.customer.None? then None
    else Some(r.customer.value.consent)
  }

  predicate Complete(r: Request) {
    r.source != DemoSynthetic && r.package.Some? && r.split.Some? && r.metrics.Some? && SourceEvidenceAvailable(r)
    && (r.source == CustomerPilot ==> ProvenanceValid(r) == Some(true))
  }

  function GateInputs(r: Request): Inputs {
    Inputs(if r.metrics.Some? then r.metrics.value else map[], r.package.Some?, r.split.Some?, Complete(r), r.source,
      ProvenanceValid(r))
  }

  function GateOutcome(r: Request): GateResult {
    Evaluate(GateInputs(r))
  }

  function Optional(s: Option<string>): Json {
    if s.Some? then Str(s.value) else Null
  }

  function Fingerprint(r: Request): Option<string> {
    if r.source == DemoSynthetic && r.fingerprint.None? then Some(r.demoFingerprint) else r.fingerprint
  }

  function CustomerDoc(c: Customer): Json {
    Obj(map[Tenant := Str(c.tenant), Site := Str(c.site), Line := Str(c.line), Camera := Str(c.camera),
            Product := Str(c.product), WindowStart := Str(c.start), WindowEnd := Str(c.end),
            LabelSource := Str(c.labelSource), Approver := Str(c.approver), Consent := Bool(c.consent),
            Retention := Str(c.retention)])
  }

  /** Everything the documents state, computed before any of them is written. */
  datatype Facts = Facts(
    report: Json, decision: Json, source: string, fingerprint: Json, package: Json, approval: Json, customer: Json,
    status: Json, checks: Json, metrics: Json, sources: Fields, texts: map<FileName, Content>)

  function StatusOf(c: Check): Json {
    Obj(map[StatusKey := Str(CheckName(c))])
  }

  function SourceEvidenceDoc(r: Request): Fields {
    if r.sourceEvidence.Some? then r.sourceEvidence.value
    else map[SchemaVersion := Str("visionqc.pilot-source-evidence.v1"), StatusKey := Str("NOT_AVAILABLE"), FilesKey := Obj(map[])]
  }

  function RunStatus(r: Request): string {
    if r.source == DemoSynthetic then "DEMO_ONLY" else if Blockers(r) != [] then "BLOCKED" else "COMPLETED"
  }

  function FactsOf(r: Request, g: GateResult): Facts {
    var values := if r.metrics.Some? then r.metrics.value else map[];
    Facts(
      Str(ReportStatus(r.source, g.decision)), Str(DecisionName(g.decision)), SourceName(r.source),
      Optional(Fingerprint(r)), Optional(r.package), Str(ApprovalStatus(r.source, g)),
      if r.customer.Some? then CustomerDoc(r.customer.value) else Null, Str(RunStatus(r)),
      Obj(map m | m in g.checks :: OfMeasure(m) := StatusOf(g.checks[m])),
      Obj(map m | m in values :: OfMeasure(m) := Num(values[m])), SourceEvidenceDoc(r), r.texts)
  }

  function GatesDoc(f: Facts): Fields {
    map[DecisionKey := f.decision, ReportStatusKey := f.report, SourceType := Str(f.source), Checks := f.checks]
  }

  function MetricsDoc(f: Facts): Fields {
    map[MetricsKey := f.metrics, GatesKey := Obj(GatesDoc(f))]
  }

  function SummaryDoc(f: Facts): Fields {
    map[QualificationStatus := f.report, GateDecision := f.decision, SourceType := Str(f.source),
        DataStatus := Str(f.source), ModelPackage := f.package]
  }

  function ProvenanceDoc(f: Facts): Fields {
    map[SourceType := Str(f.source), DataStatus := Str(f.source), DatasetFingerprint := f.fingerprint,
        ModelPackage := f.package, CustomerProvenance := f.customer, StatusKey := f.status]
  }

  function ReleaseDoc(f: Facts, digest: Json): Fields {
    map[DecisionKey := f.report, GateDecision := f.decision, SourceType := Str(f.source), DatasetFingerprint := f.fingerprint,
        ApprovalStatusKey := f.approval, EvidencePackage := digest, ModelPackage := f.package, GatesKey := Obj(GatesDoc(f))]
  }

  function ManifestDoc(d: Directory, size: Content -> nat): Fields {
    map[SchemaVersion := Str("visionqc.evidence-manifest.v1"), FilesKey := Obj(Entries(d, {ManifestFile}, size))]
  }

  function AsFile(f: Fields): Content {
    Doc(Obj(f))
  }

  /** The content of a core file; the texts are only carried along. */
  function CoreFile(f: Facts, n: FileName): Content {
    match n
    case SummaryFile => AsFile(SummaryDoc(f))
    case MetricsFile => AsFile(MetricsDoc(f))
    case ProvenanceFile => AsFile(ProvenanceDoc(f))
    case SourceEvidenceFile => AsFile(f.sources)
    case _ => if n in f.texts then f.texts[n] else Text("")
  }

  /** The nine core files; what the directory already held besides them stays. */
  function WithCore(d: Directory, f: Facts): Directory {
    WithFiles(d, f, REQUIRED - SELF)
  }

  function WithFiles(d: Directory, f: Facts, names: set<FileName>): Directory {
    d + map n | n in names :: CoreFile(f, n)
  }

  lemma OneMoreFile(d: Directory, f: Facts, names: set<FileName>, n: FileName)
    ensures WithFiles(d, f, names)[n := CoreFile(f, n)] == WithFiles(d, f, names + {n})
  {
  }

  /** The release decision, then the inventory of everything else. */
  function Sealed(core: Directory, release: Fields, size: Content -> nat): Directory {
    var released := core[ReleaseFile := AsFile(release)];
    released[ManifestFile := AsFile(ManifestDoc(released, size))]
  }

  function PackageOf(d: Directory, f: Facts, size: Content -> nat): Directory {
    var core := WithCore(d, f);
    Sealed(core, ReleaseDoc(f, CoreDigest(core, size)), size)
  }

  function Package(d: Directory, r: Request, size: Content -> nat): Directory {
    PackageOf(d, FactsOf(r, GateOutcome(r)), size)
  }

  /** The two integrity files do not disturb the digest written into one of them. */
  lemma DigestSurvivesSealing(core: Directory, release: Fields, size: Content -> nat)
    ensures CoreDigest(Sealed(core, release, size), size) == CoreDigest(core, size)
  {
    var released := core[ReleaseFile := AsFile(release)];
    SkippedFileDoesNotCount(core, SELF, size, ReleaseFile, AsFile(release));
    SkippedFileDoesNotCount(released, SELF, size, ManifestFile, AsFile(ManifestDoc(released, size)));
  }

  lemma SealedInventoryAccepted(core: Directory, release: Fields, size: Content -> nat)
    requires DirOk(core) && REQUIRED - SELF <= core.Keys
    ensures CheckInventory(Sealed(core, release, size), size) == None
  {
    var released := core[ReleaseFile := AsFile(release)];
    SealedManifestAccepted(released, ManifestDoc(released, size), size);
    var p := Sealed(core, release, size);
    assert Read(p, ManifestFile) == Some(ManifestDoc(released, size));
    assert REQUIRED <= p.Keys;
  }

  lemma SealedManifestAccepted(released: Directory, manifest: Fields, size: Content -> nat)
    requires DirOk(released) && manifest == ManifestDoc(released, size)
    ensures CheckManifest(released[ManifestFile := AsFile(manifest)], manifest, size) == None
  {
    var declared := Entries(released, {ManifestFile}, size);
    assert Get(manifest, FilesKey) == Obj(declared);
    SealedEntries(released, released[ManifestFile := AsFile(manifest)], size);
  }

  lemma SealedEntries(released: Directory, p: Directory, size: Content -> nat)
    requires DirOk(released) && ManifestFile in p && p == released[ManifestFile := p[ManifestFile]]
    ensures var declared := Entries(released, {ManifestFile}, size);
      Covers(p, declared) && SafeNames(declared) && EntriesMatch(p, declared, size)
  {
    var declared := Entries(released, {ManifestFile}, size);
    forall k | k in declared ensures EntryMatches(p, k, declared[k], size) && Plain(k.file) {
      assert p[k.file] == released[k.file];
    }
  }

  lemma CoreIsComplete(d: Directory, f: Facts)
    requires DirOk(d)
    ensures DirOk(WithCore(d, f)) && REQUIRED - SELF <= WithCore(d, f).Keys
  {
  }

  lemma CoreReads(d: Directory, f: Facts)
    ensures var core := WithCore(d, f);
      && Read(core, SummaryFile) == Some(SummaryDoc(f)) && Read(core, ProvenanceFile) == Some(ProvenanceDoc(f))
      && Read(core, MetricsFile) == Some(MetricsDoc(f)) && Read(core, SourceEvidenceFile) == Some(f.sources)
  {
    hide SummaryDoc, ProvenanceDoc, MetricsDoc, GatesDoc;
  }

  lemma SealedReads(core: Directory, release: Fields, size: Content -> nat, n: FileName)
    ensures Read(Sealed(core, release, size), ReleaseFile) == Some(release)
    ensures n !in SELF ==> Read(Sealed(core, release, size), n) == Read(core, n)
  {
  }

  function WrittenDocs(f: Facts, digest: Json): Docs {
    Docs(ReleaseDoc(f, digest), SummaryDoc(f), ProvenanceDoc(f), MetricsDoc(f), GatesDoc(f))
  }

  lemma DocsOfSealed(core: Directory, f: Facts, release: Fields, size: Content -> nat)
    requires Read(core, SummaryFile) == Some(SummaryDoc(f)) && Read(core, ProvenanceFile) == Some(ProvenanceDoc(f))
    requires Read(core, MetricsFile) == Some(MetricsDoc(f)) && Read(core, SourceEvidenceFile) == Some(f.sources)
    ensures DocsOf(Sealed(core, release, size)) == Some(Docs(release, SummaryDoc(f), ProvenanceDoc(f), MetricsDoc(f), GatesDoc(f)))
    ensures Read(Sealed(core, release, size), SourceEvidenceFile) == Some(f.sources)
  {
    SealedReads(core, release, size, SummaryFile);
    SealedReads(core, release, size, ProvenanceFile);
    SealedReads(core, release, size, MetricsFile);
    SealedReads(core, release, size, SourceEvidenceFile);
    assert GetOr(MetricsDoc(f), GatesKey, Obj(map[])) == Obj(GatesDoc(f));
  }

  /** What both verifiers report about an untouched package. */
  function Written(f: Facts, digest: Json): Verdict {
    Verdict(digest, f.report, f.decision, Str(f.source), f.fingerprint, f.approval, Obj(GatesDoc(f)), f.metrics, f.package)
  }

  lemma ClaimsAreWritten(f: Facts, digest: Json)
    ensures Claims(WrittenDocs(f, digest), digest) == Written(f, digest)
    ensures ClaimedSource(WrittenDocs(f, digest)) == Str(f.source)
  {
  }

  lemma WrittenDocsAgree(f: Facts, digest: Json)
    requires KnownSource(Str(f.source))
    ensures CheckAgreement(WrittenDocs(f, digest)) == None
  {
    ClaimsAreWritten(f, digest);
  }

  lemma BackendReadsWrittenDocs(f: Facts, digest: Json, expected: Json)
    requires KnownSource(Str(f.source))
    ensures var v := BackendClaims(WrittenDocs(f, digest), digest, expected);
      && (v.Ok? <==> expected == f.package && (f.source == "CUSTOMER_PILOT" ==> Consented(ProvenanceDoc(f))))
      && (v.Ok? ==> v.value == Written(f, digest))
  {
    ClaimsAreWritten(f, digest);
    WrittenDocsAgree(f, digest);
  }

  lemma MlReadsWrittenDocs(f: Facts, digest: Json, expected: Option<Json>)
    requires KnownSource(Str(f.source))
    ensures var v := MlClaims(WrittenDocs(f, digest), digest, expected);
      && (v.Ok? <==> (expected.Some? ==> expected.value == f.package))
      && (v.Ok? ==> v.value == MlView(Written(f, digest)))
  {
    ClaimsAreWritten(f, digest);
    WrittenDocsAgree(f, digest);
  }

  /** Whatever release decision it is sealed with, a package presents it beside its own core
      documents, under an accepted inventory and the digest of its core. */
  lemma SealedIsReadable(d: Directory, f: Facts, release: Fields, size: Content -> nat)
    requires DirOk(d)
    ensures var p := Sealed(WithCore(d, f), release, size);
      && CheckInventory(p, size) == None && Read(p, SourceEvidenceFile) == Some(f.sources)
      && CoreDigest(p, size) == CoreDigest(WithCore(d, f), size) && Read(p, ReleaseFile) == Some(release)
      && DocsOf(p) == Some(Docs(release, SummaryDoc(f), ProvenanceDoc(f), MetricsDoc(f), GatesDoc(f)))
  {
    var core := WithCore(d, f);
    CoreIsComplete(d, f);
    CoreReads(d, f);
    SealedInventoryAccepted(core, release, size);
    DigestSurvivesSealing(core, release, size);
    SealedReads(core, release, size, ReleaseFile);
    DocsOfSealed(core, f, release, size);
  }

  /** A written package presents its own documents, an accepted inventory and its own digest. */
  lemma PackageIsReadable(d: Directory, f: Facts, size: Content -> nat)
    requires DirOk(d)
    ensures var p := PackageOf(d, f, size);
      && CheckInventory(p, size) == None && Read(p, SourceEvidenceFile) == Some(f.sources)
      && DocsOf(p) == Some(WrittenDocs(f, CoreDigest(p, size)))
      && Read(p, ReleaseFile) == Some(ReleaseDoc(f, CoreDigest(p, size)))
  {
    hide Sealed, WithCore, CheckInventory, CoreDigest, DocsOf, Read;
    SealedIsReadable(d, f, ReleaseDoc(f, CoreDigest(WithCore(d, f), size)), size);
  }

  lemma SourceNamesDiffer(s: Source)
    ensures SourceName(s) == "CUSTOMER_PILOT" <==> s == CustomerPilot
    ensures SourceName(s) == "DEMO_SYNTHETIC" <==> s == DemoSynthetic
    ensures KnownSource(Str(SourceName(s)))
  {
    assert SourceName(s)[0] == (match s case DemoSynthetic => 'D' case OfficialBenchmark => 'O' case CustomerPilot => 'C');
    assert "CUSTOMER_PILOT"[0] == 'C' && "DEMO_SYNTHETIC"[0] == 'D';
  }

  predicate CustomerConsents(r: Request) {
    r.source == CustomerPilot ==> r.customer.Some? && r.customer.value.consent
  }

  lemma ConsentOfPackage(f: Facts, customer: Option<Customer>)
    requires f.customer == if customer.Some? then CustomerDoc(customer.value) else Null
    ensures Consented(ProvenanceDoc(f)) <==> customer.Some? && customer.value.consent
  {
    assert Get(ProvenanceDoc(f), CustomerProvenance) == f.customer;
    if customer.Some? { CustomerDocIsComplete(customer.value); }
  }

  lemma CustomerDocIsComplete(c: Customer)
    ensures CUSTOMER_FIELDS <= CustomerDoc(c).fields.Keys && Get(CustomerDoc(c).fields, Consent) == Bool(c.consent)
  {
  }

  /** A release decision with these two claims put in the place of what was written. */
  function Claiming(f: Facts, digest: Json, gate: string, approval: string): Fields {
    ReleaseDoc(f, digest)[GateDecision := Str(gate)][ApprovalStatusKey := Str(approval)]
  }

  /** The gate decision and the approval status are in no core file: sealed again with any others,
      the package is accepted under the same digest and the verdict carries them. */
  lemma ReleaseClaimsAreFree(d: Directory, r: Request, g: GateResult, gate: string, approval: string, size: Content -> nat)
    requires DirOk(d) && CustomerConsents(r)
    ensures var f := FactsOf(r, g);
      var digest := CoreDigest(WithCore(d, f), size);
      var p := Sealed(WithCore(d, f), Claiming(f, digest, gate, approval), size);
      && CoreDigest(p, size) == digest
      && VerifyBackend(p, Optional(r.package), size) == Ok(Written(f, digest).(gateDecision := Str(gate), approval := Str(approval)))
  {
    hide WithCore, Sealed, CheckInventory, CoreDigest, DocsOf, Read;
    var f := FactsOf(r, g);
    var digest := CoreDigest(WithCore(d, f), size);
    SealedIsReadable(d, f, Claiming(f, digest, gate, approval), size);
    SourceNamesDiffer(r.source);
    ConsentOfPackage(f, r.customer);
    ClaimingIsAccepted(f, digest, gate, approval);
  }

  lemma ClaimingIsAccepted(f: Facts, digest: Json, gate: string, approval: string)
    requires KnownSource(Str(f.source)) && (f.source == "CUSTOMER_PILOT" ==> Consented(ProvenanceDoc(f)))
    ensures var release := Claiming(f, digest, gate, approval);
      BackendClaims(Docs(release, SummaryDoc(f), ProvenanceDoc(f), MetricsDoc(f), GatesDoc(f)), digest, f.package)
        == Ok(Written(f, digest).(gateDecision := Str(gate), approval := Str(approval)))
  {
    var release := Claiming(f, digest, gate, approval);
    var c := Docs(release, SummaryDoc(f), ProvenanceDoc(f), MetricsDoc(f), GatesDoc(f));
    ReleaseKeeps(f, digest, gate, approval);
    assert ClaimedSource(c) == Str(f.source);
    assert CheckAgreement(c) == None;
  }

  lemma ReleaseKeeps(f: Facts, digest: Json, gate: string, approval: string)
    ensures var release := Claiming(f, digest, gate, approval);
      && Get(release, DecisionKey) == f.report && Get(release, SourceType) == Str(f.source)
      && GetOr(release, SourceType, Str(f.source)) == Str(f.source)
      && Get(release, DatasetFingerprint) == f.fingerprint && Get(release, EvidencePackage) == digest
      && Get(release, ModelPackage) == f.package && GateDecision in release && release[GateDecision] == Str(gate)
      && Get(release, ApprovalStatusKey) == Str(approval)
  {
  }

  /** As long as the release decision is the one written, so are the two claims. */
  lemma IntactReleaseFixesClaims(d: Directory, expected: Json, size: Content -> nat, f: Facts, digest: Json)
    requires VerifyBackend(d, expected, size).Ok? && Read(d, ReleaseFile) == Some(ReleaseDoc(f, digest))
    ensures var v := VerifyBackend(d, expected, size).value; v.gateDecision == f.decision && v.approval == f.approval
  {
    hide CheckInventory, CoreDigest, Consented, CheckAgreement;
  }

  /** The backend accepts an untouched package exactly when it expects the package digest it was
      written with and customer data is consented to; it then reports what was written. */
  lemma BackendRoundTrip(d: Directory, r: Request, expected: Json, size: Content -> nat)
    requires DirOk(d)
    ensures var p := Package(d, r, size);
      var v := VerifyBackend(p, expected, size);
      && (v.Ok? <==> expected == Optional(r.package) && CustomerConsents(r))
      && (v.Ok? ==> v.value == Written(FactsOf(r, GateOutcome(r)), CoreDigest(p, size)))
  {
    BackendRoundTripFor(d, r, GateOutcome(r), expected, size);
  }

  lemma BackendRoundTripFor(d: Directory, r: Request, g: GateResult, expected: Json, size: Content -> nat)
    requires DirOk(d)
    ensures var p := PackageOf(d, FactsOf(r, g), size);
      var v := VerifyBackend(p, expected, size);
      && (v.Ok? <==> expected == Optional(r.package) && CustomerConsents(r))
      && (v.Ok? ==> v.value == Written(FactsOf(r, g), CoreDigest(p, size)))
  {
    var f := FactsOf(r, g);
    PackageIsReadable(d, f, size);
    SourceNamesDiffer(r.source);
    ConsentOfPackage(f, r.customer);
    BackendReadsWrittenDocs(f, CoreDigest(PackageOf(d, f, size), size), expected);
  }

  /** What a written package says of its request, number by number: the verdict the backend reports
      carries every measured metric and every check under its name, the status, decision and
      approval of the gates, and the source, fingerprint and package of the request. */
  lemma VerdictTellsTheRequest(d: Directory, r: Request, size: Content -> nat, m: Measure)
    requires DirOk(d) && CustomerConsents(r)
    ensures var v, g := VerifyBackend(Package(d, r, size), Optional(r.package), size), GateOutcome(r);
      && v.Ok? && v.value.metrics.Obj? && v.value.gates.Obj? && Get(v.value.gates.fields, Checks).Obj?
      && v.value.decision == Str(ReportStatus(r.source, g.decision)) && v.value.gateDecision == Str(DecisionName(g.decision))
      && v.value.approval == Str(ApprovalStatus(r.source, g)) && v.value.source == Str(SourceName(r.source))
      && v.value.package == (if r.package.Some? then Str(r.package.value) else Null)
      && v.value.fingerprint == (if r.fingerprint.Some? then Str(r.fingerprint.value)
                                 else if r.source == DemoSynthetic then Str(r.demoFingerprint) else Null)
      && (OfMeasure(m) in v.value.metrics.fields <==> r.metrics.Some? && m in r.metrics.value)
      && (OfMeasure(m) in v.value.metrics.fields ==> v.value.metrics.fields[OfMeasure(m)] == Num(r.metrics.value[m]))
      && (m in g.checks ==>
            var check := Get(Get(v.value.gates.fields, Checks).fields, OfMeasure(m));
            check.Obj? && Get(check.fields, StatusKey) == Str(CheckName(g.checks[m])))
  {
    hide VerifyBackend, Package, CoreDigest, Evaluate, CustomerDoc, SourceEvidenceDoc, RunStatus;
    BackendRoundTrip(d, r, Optional(r.package), size);
    var f := FactsOf(r, GateOutcome(r));
    assert Get(GatesDoc(f), Checks) == f.checks;
    if m in GateOutcome(r).checks { assert f.checks.fields[OfMeasure(m)] == StatusOf(GateOutcome(r).checks[m]); }
  }

  /** What else a written package carries: the texts it was given and every file that was there before
      under another name, and nothing more. */
  lemma PackageCarriesTheRest(d: Directory, r: Request, size: Content -> nat, n: FileName)
    ensures var p := Package(d, r, size);
      && (n in {ModelCardFile, ReportFile, IntervalsFile, SplitFile, ErrorCasesFile} && n in r.texts ==> n in p && p[n] == r.texts[n])
      && (n in d && n !in REQUIRED ==> n in p && p[n] == d[n])
      && (n in p ==> n in REQUIRED || n in d)
  {
    hide PackageOf, GateOutcome, ReportStatus, ApprovalStatus, SourceName, DecisionName, Optional, Fingerprint, RunStatus;
    hide SourceEvidenceDoc, CustomerDoc, StatusOf;
    RestOfPackage(d, FactsOf(r, GateOutcome(r)), size, n);
  }

  /** It lists the sources it was given, and names the owner of the data field by field. */
  lemma PackageNamesItsSources(d: Directory, r: Request, size: Content -> nat)
    requires DirOk(d)
    ensures var p := Package(d, r, size);
      && (r.sourceEvidence.Some? ==> Read(p, SourceEvidenceFile) == r.sourceEvidence)
      && Read(p, ProvenanceFile).Some?
      && (r.customer.Some? ==> OwnedBy(Get(Read(p, ProvenanceFile).value, CustomerProvenance), r.customer.value))
  {
    hide PackageOf, CoreDigest, Evaluate, CheckInventory, CustomerDoc, OwnedBy, Read;
    var f := FactsOf(r, GateOutcome(r));
    PackageIsReadable(d, f, size);
    ReadProvenance(PackageOf(d, f, size));
    if r.customer.Some? { OwnerIsNamed(f, r.customer.value); }
  }

  lemma ReadProvenance(p: Directory)
    ensures DocsOf(p).Some? ==> Read(p, ProvenanceFile) == Some(DocsOf(p).value.provenance)
  {
  }

  lemma OwnerIsNamed(f: Facts, c: Customer)
    requires f.customer == CustomerDoc(c)
    ensures OwnedBy(Get(ProvenanceDoc(f), CustomerProvenance), c)
  {
    assert Get(ProvenanceDoc(f), CustomerProvenance) == f.customer;
  }

  lemma RestOfPackage(d: Directory, f: Facts, size: Content -> nat, n: FileName)
    ensures var p := PackageOf(d, f, size);
      && (n in {ModelCardFile, ReportFile, IntervalsFile, SplitFile, ErrorCasesFile} && n in f.texts ==> n in p && p[n] == f.texts[n])
      && (n in d && n !in REQUIRED ==> n in p && p[n] == d[n])
      && (n in p ==> n in REQUIRED || n in d)
  {
    hide CoreDigest, SummaryDoc, MetricsDoc, ProvenanceDoc, ReleaseDoc, ManifestDoc;
  }

  /** The document names this owner, field by field. */
  predicate OwnedBy(owner: Json, c: Customer) {
    owner.Obj? && owner.fields == map[
      Tenant := Str(c.tenant), Site := Str(c.site), Line := Str(c.line), Camera := Str(c.camera), Product := Str(c.product),
      WindowStart := Str(c.start), WindowEnd := Str(c.end), LabelSource := Str(c.labelSource), Approver := Str(c.approver),
      Consent := Bool(c.consent), Retention := Str(c.retention)]
  }

  /** The ML side accepts an untouched package exactly when the source evidence it lists has the
      known schema and is still intact on this host, and the expected package digest, if any, is
      the one written; it then reports what the
      backend reports, gates and metrics aside. */
  lemma MlRoundTrip(d: Directory, r: Request, expected: Option<Json>, host: Host, size: Content -> nat)
    requires DirOk(d)
    ensures var p := Package(d, r, size);
      var v := VerifyMl(p, expected, host, size);
      && (v.Ok? <==> (KnownSchema(SourceEvidenceDoc(r)) && SourcesIntact(SourceEvidenceDoc(r), host, size)
                      && (expected.Some? ==> expected.value == Optional(r.package))))
      && (v.Ok? ==> v.value == MlView(Written(FactsOf(r, GateOutcome(r)), CoreDigest(p, size))))
  {
    MlRoundTripFor(d, r, GateOutcome(r), expected, host, size);
  }

  lemma MlRoundTripFor(d: Directory, r: Request, g: GateResult, expected: Option<Json>, host: Host, size: Content -> nat)
    requires DirOk(d)
    ensures var p := PackageOf(d, FactsOf(r, g), size);
      var v := VerifyMl(p, expected, host, size);
      && (v.Ok? <==> (KnownSchema(SourceEvidenceDoc(r)) && SourcesIntact(SourceEvidenceDoc(r), host, size)
                      && (expected.Some? ==> expected.value == Optional(r.package))))
      && (v.Ok? ==> v.value == MlView(Written(FactsOf(r, g), CoreDigest(p, size))))
  {
    var f := FactsOf(r, g);
    PackageIsReadable(d, f, size);
    SourceNamesDiffer(r.source);
    MlReadsWrittenDocs(f, CoreDigest(PackageOf(d, f, size), size), expected);
  }

  /** A package without listed sources passes on any host. */
  lemma NoSourcesNothingToCheck(r: Request, host: Host, size: Content -> nat)
    requires r.sourceEvidence.None?
    ensures KnownSchema(SourceEvidenceDoc(r)) && SourcesIntact(SourceEvidenceDoc(r), host, size)
  {
    assert GetOr(SourceEvidenceDoc(r), FilesKey, Obj(map[])) == Obj(map[]);
  }

  /** All the evidence a GO needs is there: a verified package, a split without leakage, the sources,
      and metrics that meet the six bounds. */
  predicate Proven(r: Request) {
    && r.package.Some? && r.split.Some? && r.sourceEvidence.Some? && Truthy(Get(r.sourceEvidence.value, FilesKey))
    && r.metrics.Some?
    && forall m | m in {ImageAuroc, DefectErrorAutoReleaseRate, ReviewHoldRecall, HoldRecall, NormalReviewHoldRate, WarmP95Ms} ::
         m in r.metrics.value && Suffices(m, r.metrics.value[m])
  }

  /** Proven on customer data whose owner consents. */
  predicate Earned(r: Request) {
    r.source == CustomerPilot && r.customer.Some? && r.customer.value.consent && Proven(r)
  }

  lemma EarnedIff(r: Request)
    ensures Earned(r) <==> r.source == CustomerPilot && Complete(r) && MeetsEveryGate(GateInputs(r))
    ensures Proven(r) && r.source == OfficialBenchmark <==> r.source == OfficialBenchmark && Complete(r) && MeetsEveryGate(GateInputs(r))
  {
  }

  /** What approval is offered: it waits for a name exactly for earned evidence, for customer data
      exactly for a proven benchmark, and a demonstration stays one. */
  lemma PendingApprovalIffEarned(r: Request)
    ensures ApprovalStatus(r.source, GateOutcome(r)) == "PENDING_APPROVAL" <==> Earned(r)
    ensures ApprovalStatus(r.source, GateOutcome(r)) == "READY_FOR_CUSTOMER_DATA" <==> r.source == OfficialBenchmark && Proven(r)
    ensures ApprovalStatus(r.source, GateOutcome(r)) == "DEMO_ONLY" <==> r.source == DemoSynthetic
  {
    hide Evaluate, MeetsEveryGate, Earned, Proven;
    GoIffEveryGate(GateInputs(r));
    EarnedIff(r);
    assert "PENDING_APPROVAL"[0] == 'P' && "DEMO_ONLY"[0] == 'D' && "READY_FOR_CUSTOMER_DATA"[0] == 'R' && "DRAFT_ONLY"[0] == 'D';
  }

  /** A run is reported as completed, in the word of its provenance, exactly when it is no
      demonstration and nothing is missing: package, split, metrics, fingerprint, receipt, sources,
      and for customer data a consenting owner. */
  lemma CompletedIff(r: Request)
    ensures RunStatus(r) == "COMPLETED" <==>
      && r.source != DemoSynthetic && r.package.Some? && r.split.Some? && r.metrics.Some? && r.fingerprint.Some? && r.receipt
      && r.sourceEvidence.Some? && Truthy(Get(r.sourceEvidence.value, FilesKey))
      && (r.source == CustomerPilot ==> r.customer.Some? && r.customer.value.consent)
    ensures RunStatus(r) == "DEMO_ONLY" <==> r.source == DemoSynthetic
  {
    assert "COMPLETED"[0] == 'C' && "DEMO_ONLY"[0] == 'D' && "BLOCKED"[0] == 'B';
  }

  /** A GO can still be blocked, but only by a missing dataset fingerprint or receipt. */
  lemma GoIsBlockedOnlyByDatasetIdentity(r: Request)
    requires GateOutcome(r).decision == Go
    ensures Blockers(r) == When(r.fingerprint.None?, NoFingerprint) + When(!r.receipt, NoReceipt)
  {
    GoIffEveryGate(GateInputs(r));
  }

  datatype WriteResult = Leakage(overlaps: seq<Splits.Overlap>) | Done(decision: Json, digest: Json, package: Json)

  lemma NineFiles()
    ensures {} + {SummaryFile} + {MetricsFile} + {IntervalsFile} + {SplitFile} + {ProvenanceFile} + {ErrorCasesFile}
      + {SourceEvidenceFile} + {ModelCardFile} + {ReportFile} == REQUIRED - SELF
  {
  }

  class EvidenceDirectory {
    var files: Directory

    constructor (files: Directory)
      ensures this.files == files
    {
      this.files := files;
    }

    method Write(n: FileName, c: Content)
      modifies this
      ensures files == old(files)[n := c]
    {
      files := files[n := c];
    }

    /** Write the core files, digest them, then add the release decision and the inventory. */
    method WritePackage(r: Request, size: Content -> nat) returns (result: WriteResult)
      modifies this
      ensures result.Leakage? <==> r.split.Some? && !Splits.Unrepeated(Splits.AllRows(r.split.value))
      ensures result.Leakage? ==> files == old(files)
      ensures result.Done? ==> files == Package(old(files), r, size)
      ensures result.Done? ==>
        var f := FactsOf(r, GateOutcome(r)); result == Done(f.report, CoreDigest(files, size), f.package)
    {
      if r.split.Some? {
        var checked := Splits.ValidateSplitManifest(r.split.value);
        if checked.Err? {
          return Leakage(checked.error);
        }
      }
      var g := EvaluatePilotGates(GateInputs(r));
      var digest := WriteFacts(FactsOf(r, g), size);
      return Done(Str(ReportStatus(r.source, g.decision)), digest, Optional(r.package));
    }

    method WriteFacts(f: Facts, size: Content -> nat) returns (digest: Json)
      modifies this
      ensures files == PackageOf(old(files), f, size) && digest == CoreDigest(files, size)
    {
      WriteCore(f);
      digest := CoreDigest(files, size);
      DigestSurvivesSealing(files, ReleaseDoc(f, digest), size);
      Write(ReleaseFile, AsFile(ReleaseDoc(f, digest)));
      Write(ManifestFile, AsFile(ManifestDoc(files, size)));
    }

    /** One core file more than the ones written so far. */
    method WriteCoreFile(f: Facts, n: FileName, ghost d: Directory, ghost done: set<FileName>)
      requires files == WithFiles(d, f, done)
      modifies this
      ensures files == WithFiles(d, f, done + {n})
    {
      OneMoreFile(d, f, done, n);
      Write(n, CoreFile(f, n));
    }

    method WriteCore(f: Facts)
      modifies this
      ensures files == WithCore(old(files), f)
    {
      ghost var d := files;
      assert files == WithFiles(d, f, {});
      hide WithFiles, CoreFile;
      WriteCoreFile(f, SummaryFile, d, {});
      WriteCoreFile(f, MetricsFile, d, {} + {SummaryFile});
      ghost var two := {} + {SummaryFile} + {MetricsFile};
      WriteCoreFile(f, IntervalsFile, d, two);
      WriteCoreFile(f, SplitFile, d, two + {IntervalsFile});
      ghost var four := two + {IntervalsFile} + {SplitFile};
      WriteCoreFile(f, ProvenanceFile, d, four);
      WriteCoreFile(f, ErrorCasesFile, d, four + {ProvenanceFile});
      ghost var six := four + {ProvenanceFile} + {ErrorCasesFile};
      WriteCoreFile(f, SourceEvidenceFile, d, six);
      WriteCoreFile(f, ModelCardFile, d, six + {SourceEvidenceFile});
      ghost var eight := six + {SourceEvidenceFile} + {ModelCardFile};
      WriteCoreFile(f, ReportFile, d, eight);
      NineFiles();
    }
  }
}
