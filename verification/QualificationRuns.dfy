/** What the qualification lifecycle promises over whole runs, and the service that runs it. */
module QualificationRuns {
  import opened Base
  import opened Gates
  import opened Evidence
  import opened Qualification

  const EMPTY := Registry([], [])

  /** In every reachable registry, rollbacks included: no two ACTIVE items for one tenant and
      product, and evaluation, approval and activation by three different people. */
  lemma OneActiveThreeActors(es: seq<Event>, size: Content -> nat, i: nat, j: nat)
    requires i < |Run(EMPTY, es, size).items| && j < |Run(EMPTY, es, size).items|
    ensures var x, y := Run(EMPTY, es, size).items[i], Run(EMPTY, es, size).items[j];
      && (x.stage == Active && y.stage == Active && x.tenant == y.tenant && x.product == y.product ==> i == j)
      && (x.stage == Active ==>
            && x.evaluatedBy.Some? && x.approvedBy.Some? && x.activatedBy.Some?
            && |{x.evaluatedBy.value, x.approvedBy.value, x.activatedBy.value}| == 3)
  {
    RunKeeps(EMPTY, es, size);
    var items := Run(EMPTY, es, size).items;
    assert ActorsOk(items[i]);
    if i < j { assert !Rivals(items[i], items[j]); }
    if j < i { assert !Rivals(items[j], items[i]); }
  }

  // ---- entries -----------------------------------------------------------------------------------

  predicate Enters(g: Registry, h: Registry, i: nat) {
    i < |h.items| && Released(h.items[i]) && !(i < |g.items| && g.items[i].stage == h.items[i].stage)
  }

  /** The call that moved an item into APPROVED or ACTIVE. */
  predicate EntryOk(g: Registry, e: Event, i: nat, size: Content -> nat) {
    && (e.Approve? || e.Activate? || e.Rollback?) && e.i == i && i < |g.items|
    && g.items[i].tenant == e.who.tenant && DatasetUsable(g, g.items[i], e.who)
    && VerifiedEvidence(g.items[i], e.d, true, size).Some?
    && (e.Approve? ==> GatesPass(g.items[i].gates) && g.items[i].stage == Evaluated)
    && g.items[i].evaluatedBy != Some(e.who.actor)
    && (e.Activate? ==> g.items[i].stage == Approved && g.items[i].approvedBy != Some(e.who.actor)
                        && e.pack.Some? && Runs(e.pack.value, g.items[i]))
    && (e.Rollback? ==> g.items[i].stage == Retired && g.items[i].approvedBy != Some(e.who.actor)
                        && e.pack.Some? && e.pack.value.key == g.items[i].pack && e.pack.value.package == g.items[i].package)
  }

  /** There is no other way in: every entry is an approval, an activation or a rollback of that
      very item, on usable customer data and evidence accepted just now, with the registered digest,
      a GO, pending approval and a customer source. */
  lemma EveryEntryIsVerified(g: Registry, e: Event, size: Content -> nat, i: nat)
    requires RegistryOk(g) && Enters(g, Step(g, e, size), i)
    ensures EntryOk(g, e, i, size)
    ensures CoreDigest(e.d, size) == g.items[i].evidence && VerifyBackend(e.d, Str(g.items[i].package), size).Ok?
    ensures Approvable(VerifyBackend(e.d, Str(g.items[i].package), size).value)
    ensures e.Approve? ==>
      && g.items[i].gates.Obj? && DecisionKey in g.items[i].gates.fields && g.items[i].gates.fields[DecisionKey] == Str("GO")
      && (Checks in g.items[i].gates.fields ==>
            var checks := g.items[i].gates.fields[Checks];
            checks.Obj? && forall k | k in checks.fields ::
              checks.fields[k].Obj? && StatusKey in checks.fields[k].fields && checks.fields[k].fields[StatusKey] == Str("PASS"))
  {
    hide Step, RegistryOk, VerifyBackend, CoreDigest;
    EntryIsChecked(g, e, size, i);
    VerifiedEvidenceMeaning(g.items[i], e.d, size);
  }

  lemma EntryIsChecked(g: Registry, e: Event, size: Content -> nat, i: nat)
    requires RegistryOk(g) && Enters(g, Step(g, e, size), i)
    ensures EntryOk(g, e, i, size)
  {
    match e
    case Register(_, _, _, _, _, _) =>
    case Revoke(_, _) =>
    case Create(_, _, _) =>
    case Evaluate(who, k, d) =>
    case Approve(who, k, d) =>
    case Activate(who, k, d, pack) =>
      if Owns(g, who, k) && MayActivate(g, who, g.items[k], d, pack, size) { ActivatedKeeps(g, who, k); }
    case Retire(who, k) =>
    case Rollback(who, k, d, pack) =>
      if Owns(g, who, k) && MayRollback(g, who, g.items[k], d, pack, size) { ActivatedKeeps(g, who, k); }
  }

  lemma VerifiedEvidenceMeaning(x: Item, d: Directory, size: Content -> nat)
    requires VerifiedEvidence(x, d, true, size).Some?
    ensures var v := VerifiedEvidence(x, d, true, size).value;
      VerifyBackend(d, Str(x.package), size) == Ok(v) && CoreDigest(d, size) == x.evidence && Approvable(v)
  {
    hide VerifyBackend, CoreDigest;
    AcceptedDigest(d, Str(x.package), size);
  }

  // ---- revocation ----------------------------------------------------------------------------------

  /** Tenant and fingerprint of the item are those of a revoked registration. */
  predicate Withdrawn(g: Registry, x: Item, j: nat) {
    && j < |g.datasets| && g.datasets[j].status == Revoked
    && x.tenant == g.datasets[j].tenant && x.fingerprint == Some(g.datasets[j].fingerprint)
  }

  lemma WithdrawnDataIsUnusable(g: Registry, x: Item, who: Principal, j: nat)
    requires RegistryOk(g) && Withdrawn(g, x, j) && who.tenant == x.tenant
    ensures !DatasetUsable(g, x, who)
  {
  }

  /** Once its data is revoked, no call moves an item into APPROVED or ACTIVE, whether it was
      bound to the registration or only carries its fingerprint. */
  lemma RevokedNeverEnters(g: Registry, e: Event, size: Content -> nat, i: nat, j: nat)
    requires RegistryOk(g) && i < |Step(g, e, size).items| && Withdrawn(g, Step(g, e, size).items[i], j)
    ensures !Enters(g, Step(g, e, size), i)
  {
    var h := Step(g, e, size);
    StepKeeps(g, e, size);
    if Enters(g, h, i) {
      EntryIsChecked(g, e, size, i);
      assert SameIdentity(g.items[i], h.items[i]);
      WithdrawnDataIsUnusable(g, g.items[i], e.who, j);
    }
  }

  /** Revocation is permanent: whatever follows, an item on the revoked data is APPROVED or ACTIVE
      only if it already was when the data was revoked. */
  lemma {:induction false} RevocationIsPermanent(g: Registry, es: seq<Event>, size: Content -> nat, i: nat, j: nat)
    requires RegistryOk(g) && j < |g.datasets| && g.datasets[j].status == Revoked
    requires i < |Run(g, es, size).items|
    requires Run(g, es, size).items[i].tenant == g.datasets[j].tenant
    requires Run(g, es, size).items[i].fingerprint == Some(g.datasets[j].fingerprint)
    ensures j < |Run(g, es, size).datasets| && Run(g, es, size).datasets[j].status == Revoked
    ensures Released(Run(g, es, size).items[i]) ==> i < |g.items| && g.items[i].stage == Run(g, es, size).items[i].stage
  {
    RunKeeps(g, es, size);
    assert DatasetKept(g.datasets[j], Run(g, es, size).datasets[j]);
    if es != [] {
      var before, e := Run(g, es[..|es| - 1], size), es[|es| - 1];
      RunKeeps(g, es[..|es| - 1], size);
      assert DatasetKept(g.datasets[j], before.datasets[j]);
      RevokedNeverEnters(before, e, size, i, j);
      StepKeeps(before, e, size);
      if i < |before.items| {
        assert SameIdentity(before.items[i], Run(g, es, size).items[i]);
        RevocationIsPermanent(g, es[..|es| - 1], size, i, j);
      }
    }
  }

  // ---- evidence written by the writer ----------------------------------------------------------------

  /** The item was registered with the core digest of a package the writer produced. */
  predicate WrittenBy(x: Item, d0: Directory, f: Facts, size: Content -> nat) {
    x.evidence == CoreDigest(PackageOf(d0, f, size), size)
  }

  lemma VerifiedIsAccepted(x: Item, d: Directory, approval: bool, size: Content -> nat)
    requires VerifiedEvidence(x, d, approval, size).Some?
    ensures var v := VerifiedEvidence(x, d, approval, size).value;
      VerifyBackend(d, Str(x.package), size) == Ok(v) && v.digest == x.evidence
      && (approval ==> v.source == Str("CUSTOMER_PILOT"))
  {
  }

  lemma WrittenDocsSay(f: Facts, digest: Json)
    ensures var c := WrittenDocs(f, digest);
      && GatesKey in c.metrics && c.gates == GatesDoc(f) && Get(c.summary, QualificationStatus) == f.report
      && ClaimedSource(c) == Str(f.source)
  {
  }

  /** The verdict carries the gates, the status and the source of these facts. */
  predicate Tells(v: Verdict, f: Facts) {
    v.gates == Obj(GatesDoc(f)) && v.decision == f.report && v.source == Str(f.source)
  }

  /** All that verification of the item can report from this directory is what was written. */
  predicate Says(x: Item, d: Directory, f: Facts, size: Content -> nat) {
    && (VerifiedEvidence(x, d, false, size).Some? ==> Tells(VerifiedEvidence(x, d, false, size).value, f))
    && (VerifiedEvidence(x, d, true, size).Some? ==> Tells(VerifiedEvidence(x, d, true, size).value, f))
  }

  /** Whatever the directory holds by now, verified evidence still says what was written. */
  lemma VerdictIsWritten(x: Item, d: Directory, approval: bool, d0: Directory, f: Facts, size: Content -> nat)
    requires DirOk(d0) && WrittenBy(x, d0, f, size) && VerifiedEvidence(x, d, approval, size).Some?
    ensures Tells(VerifiedEvidence(x, d, approval, size).value, f)
  {
    var e := PackageOf(d0, f, size);
    var digest := CoreDigest(e, size);
    PackageIsReadable(d0, f, size);
    VerifiedIsAccepted(x, d, approval, size);
    WrittenDocsSay(f, digest);
    AcceptanceFixesClaims(d, e, Str(x.package), size, VerifiedEvidence(x, d, approval, size).value, WrittenDocs(f, digest));
  }

  lemma WrittenEvidenceSays(x: Item, d: Directory, d0: Directory, f: Facts, size: Content -> nat)
    requires DirOk(d0) && WrittenBy(x, d0, f, size)
    ensures Says(x, d, f, size)
  {
    if VerifiedEvidence(x, d, false, size).Some? { VerdictIsWritten(x, d, false, d0, f, size); }
    if VerifiedEvidence(x, d, true, size).Some? { VerdictIsWritten(x, d, true, d0, f, size); }
  }

  /** What an item's cached evaluation says, and what its release required. */
  predicate Faithful(x: Item, f: Facts) {
    && ((x.stage == Draft && x.gates == Obj(map[]) && x.report == Str("INSUFFICIENT_EVIDENCE"))
        || (x.gates == Obj(GatesDoc(f)) && x.report == f.report))
    && (x.stage in {Approved, Active, Retired} ==> f.decision == Str("GO") && f.source == "CUSTOMER_PILOT")
  }

  lemma PassingGatesSayGo(f: Facts)
    requires GatesPass(Obj(GatesDoc(f)))
    ensures f.decision == Str("GO")
  {
  }

  lemma EvaluationIsFaithful(x: Item, v: Verdict, actor: string, f: Facts)
    requires Tells(v, f) && Truthy(f.report)
    ensures Faithful(EvaluatedItem(x, v, actor), f)
  {
  }

  lemma ApprovalIsFaithful(g: Registry, who: Principal, x: Item, d: Directory, f: Facts, size: Content -> nat)
    requires Says(x, d, f, size) && MayApprove(g, who, x, d, size) && Faithful(x, f)
    ensures Faithful(x.(stage := Approved, approvedBy := Some(who.actor)), f)
  {
    VerifiedIsAccepted(x, d, true, size);
    PassingGatesSayGo(f);
  }

  lemma StepIsFaithful(g: Registry, e: Event, size: Content -> nat, i: nat, f: Facts)
    requires RegistryOk(g) && Truthy(f.report) && i < |g.items| && Faithful(g.items[i], f)
    requires e.Evaluate? || e.Approve? ==> Says(g.items[i], e.d, f, size)
    ensures i < |Step(g, e, size).items| && Faithful(Step(g, e, size).items[i], f)
  {
    hide VerifiedEvidence, VerifyBackend, CoreDigest, RegistryOk, DatasetUsable, MayApprove, GatesDoc;
    match e
    case Register(_, _, _, _, _, _) =>
    case Revoke(_, _) =>
    case Create(_, _, _) =>
    case Evaluate(who, k, d) =>
      if i == k && VerifiedEvidence(g.items[i], d, false, size).Some? {
        EvaluationIsFaithful(g.items[i], VerifiedEvidence(g.items[i], d, false, size).value, who.actor, f);
      }
    case Approve(who, k, d) =>
      if i == k && MayApprove(g, who, g.items[i], d, size) { ApprovalIsFaithful(g, who, g.items[i], d, f, size); }
    case Activate(who, k, d, pack) =>
      if ActivateStep(g, who, k, d, pack, size) != g { ActivationIsFaithful(g, who, k, i, f); }
    case Retire(_, _) =>
    case Rollback(who, k, d, pack) =>
      if RollbackStep(g, who, k, d, pack, size) != g { ActivationIsFaithful(g, who, k, i, f); }
  }

  lemma NewItemIsFaithful(g: Registry, e: Event, size: Content -> nat, i: nat, f: Facts)
    requires RegistryOk(g) && |g.items| <= i < |Step(g, e, size).items|
    ensures Faithful(Step(g, e, size).items[i], f)
  {
    if e.Activate? && ActivateStep(g, e.who, e.i, e.d, e.pack, size) != g { ActivatedKeeps(g, e.who, e.i); }
    if e.Rollback? && RollbackStep(g, e.who, e.i, e.d, e.pack, size) != g { ActivatedKeeps(g, e.who, e.i); }
  }

  lemma ActivationIsFaithful(g: Registry, who: Principal, k: nat, i: nat, f: Facts)
    requires RegistryOk(g) && k < |g.items| && g.items[k].stage in {Approved, Retired}
    requires i < |g.items| && Faithful(g.items[i], f)
    ensures i < |Activated(g, who, k).items| && Faithful(Activated(g, who, k).items[i], f)
  {
    RetireCurrentMeaning(g.items, k, 0);
  }

  lemma {:induction false} RunIsFaithful(es: seq<Event>, size: Content -> nat, i: nat, d0: Directory, f: Facts)
    requires DirOk(d0) && Truthy(f.report)
    requires i < |Run(EMPTY, es, size).items| && WrittenBy(Run(EMPTY, es, size).items[i], d0, f, size)
    ensures Faithful(Run(EMPTY, es, size).items[i], f)
  {
    if es != [] {
      var before := Run(EMPTY, es[..|es| - 1], size);
      RunKeeps(EMPTY, es[..|es| - 1], size);
      StepKeeps(before, es[|es| - 1], size);
      if i < |before.items| {
        assert SameIdentity(before.items[i], Run(EMPTY, es, size).items[i]);
        RunIsFaithful(es[..|es| - 1], size, i, d0, f);
        var e := es[|es| - 1];
        if e.Evaluate? || e.Approve? { WrittenEvidenceSays(before.items[i], e.d, d0, f, size); }
        StepIsFaithful(before, e, size, i, f);
      } else {
        NewItemIsFaithful(before, es[|es| - 1], size, i, f);
      }
    }
  }

  /** An item registered with the digest of a written package is released only if that package
      was written from consented customer data that met every gate, whatever has been done to the
      directory, the release decision included, between any two calls. */
  lemma OnlyEarnedEvidenceIsReleased(es: seq<Event>, size: Content -> nat, i: nat, d0: Directory, r: Request)
    requires DirOk(d0) && i < |Run(EMPTY, es, size).items|
    requires Run(EMPTY, es, size).items[i].evidence == CoreDigest(Package(d0, r, size), size)
    requires Run(EMPTY, es, size).items[i].stage in {Approved, Active, Retired}
    ensures Earned(r) && CustomerConsents(r)
  {
    var g := GateOutcome(r);
    ReportIsNeverBare(r, g);
    RunIsFaithful(es, size, i, d0, FactsOf(r, g));
    SourceNamesDiffer(r.source);
    DecisionNamesDiffer(g.decision);
    EarnedIff(r);
    GoIffEveryGate(GateInputs(r));
  }

  lemma DecisionNamesDiffer(d: Decision)
    ensures DecisionName(d) == "GO" <==> d == Go
  {
    assert |DecisionName(d)| == (match d case Go => 2 case NoGo => 5 case Insufficient => 21);
  }

  lemma ReportIsNeverBare(r: Request, g: GateResult)
    ensures Truthy(FactsOf(r, g).report) && FactsOf(r, g).report != Str("GO")
  {
    ReportStatusIsScoped(r.source, g.decision, r.source, g.decision);
    assert ReportStatus(r.source, g.decision)[0] == (match r.source case DemoSynthetic => 'D' case OfficialBenchmark => 'B' case CustomerPilot => 'C');
  }

  // ---- the production gate ---------------------------------------------------------------------------------

  /** The status in the summary of a directory. */
  function StatusIn(e: Directory): Json {
    var summary := Read(e, SummaryFile);
    if summary.Some? then Get(summary.value, QualificationStatus) else Null
  }

  /** What evaluation caches of that status. */
  function Cached(status: Json): Json {
    if Truthy(status) then status else Str("INSUFFICIENT_EVIDENCE")
  }

  /** An evaluated item reports the status of the package it was registered with. */
  predicate StatusOk(x: Item, status: Json) {
    x.report == Cached(status) || (x.stage == Draft && x.report == Str("INSUFFICIENT_EVIDENCE"))
  }

  lemma EvaluationCachesStatus(x: Item, d: Directory, e: Directory, actor: string, size: Content -> nat)
    requires x.evidence == CoreDigest(e, size) && VerifiedEvidence(x, d, false, size).Some?
    ensures EvaluatedItem(x, VerifiedEvidence(x, d, false, size).value, actor).report == Cached(StatusIn(e))
  {
    hide VerifyBackend, CoreDigest, Read;
    VerifiedIsAccepted(x, d, false, size);
    AcceptanceFixesStatus(d, e, Str(x.package), size, VerifiedEvidence(x, d, false, size).value);
  }

  lemma StepKeepsStatus(g: Registry, e: Event, size: Content -> nat, i: nat, r: Directory)
    requires RegistryOk(g) && i < |g.items| && g.items[i].evidence == CoreDigest(r, size) && StatusOk(g.items[i], StatusIn(r))
    ensures i < |Step(g, e, size).items| && StatusOk(Step(g, e, size).items[i], StatusIn(r))
  {
    hide RegistryOk, CoreDigest, VerifiedEvidence, VerifyBackend, StatusIn, GatesPass, DatasetUsable;
    match e
    case Register(_, _, _, _, _, _) =>
    case Revoke(_, _) =>
    case Create(_, _, _) =>
    case Evaluate(who, k, d) =>
      if i == k && VerifiedEvidence(g.items[i], d, false, size).Some? { EvaluationCachesStatus(g.items[i], d, r, who.actor, size); }
    case Approve(_, _, _) =>
    case Activate(who, k, d, pack) =>
      if ActivateStep(g, who, k, d, pack, size) != g { ActivationKeepsReport(g, who, k, i); }
    case Retire(_, _) =>
    case Rollback(who, k, d, pack) =>
      if RollbackStep(g, who, k, d, pack, size) != g { ActivationKeepsReport(g, who, k, i); }
  }

  lemma ActivationKeepsReport(g: Registry, who: Principal, k: nat, i: nat)
    requires RegistryOk(g) && k < |g.items| && i < |g.items| && g.items[k].stage in {Approved, Retired}
    ensures i < |Activated(g, who, k).items| && Activated(g, who, k).items[i].report == g.items[i].report
    ensures g.items[i].stage == Draft <==> Activated(g, who, k).items[i].stage == Draft
  {
    RetireCurrentMeaning(g.items, k, 0);
  }

  lemma NewItemIsDraft(g: Registry, e: Event, size: Content -> nat, i: nat)
    requires RegistryOk(g) && |g.items| <= i < |Step(g, e, size).items|
    ensures Step(g, e, size).items[i].stage == Draft && Step(g, e, size).items[i].report == Str("INSUFFICIENT_EVIDENCE")
  {
    hide VerifyBackend, CoreDigest;
    if e.Activate? && ActivateStep(g, e.who, e.i, e.d, e.pack, size) != g { ActivatedKeeps(g, e.who, e.i); }
    if e.Rollback? && RollbackStep(g, e.who, e.i, e.d, e.pack, size) != g { ActivatedKeeps(g, e.who, e.i); }
  }

  lemma {:induction false} RunKeepsStatus(es: seq<Event>, size: Content -> nat, i: nat, r: Directory)
    requires i < |Run(EMPTY, es, size).items| && Run(EMPTY, es, size).items[i].evidence == CoreDigest(r, size)
    ensures StatusOk(Run(EMPTY, es, size).items[i], StatusIn(r))
  {
    if es != [] {
      hide Step, CoreDigest, StatusIn, RegistryOk;
      var before, e := Run(EMPTY, es[..|es| - 1], size), es[|es| - 1];
      RunKeeps(EMPTY, es[..|es| - 1], size);
      StepKeeps(before, e, size);
      if i < |before.items| {
        assert SameIdentity(before.items[i], Run(EMPTY, es, size).items[i]);
        RunKeepsStatus(es[..|es| - 1], size, i, r);
        StepKeepsStatus(before, e, size, i, r);
      } else {
        NewItemIsDraft(before, e, size, i);
      }
    }
  }

  /** What a production deployment asks of the qualification of each product. */
  predicate ProductionReady(x: Item) {
    x.stage == Active && x.report == Str("GO")
  }

  /** Whoever made the package: an item opens the production gate exactly when it is active and
      the summary it was registered with carries a bare GO. */
  lemma ProductionReadyIff(es: seq<Event>, size: Content -> nat, i: nat, r: Directory)
    requires i < |Run(EMPTY, es, size).items| && Run(EMPTY, es, size).items[i].evidence == CoreDigest(r, size)
    ensures var x := Run(EMPTY, es, size).items[i];
      ProductionReady(x) <==> x.stage == Active && StatusIn(r) == Str("GO")
  {
    RunKeepsStatus(es, size, i, r);
    assert |"INSUFFICIENT_EVIDENCE"| != |"GO"|;
  }

  /** The writer scopes every report status: no item registered with a written package opens it. */
  lemma WrittenEvidenceNeverOpensProduction(es: seq<Event>, size: Content -> nat, i: nat, d0: Directory, r: Request)
    requires DirOk(d0) && i < |Run(EMPTY, es, size).items|
    requires Run(EMPTY, es, size).items[i].evidence == CoreDigest(Package(d0, r, size), size)
    ensures !ProductionReady(Run(EMPTY, es, size).items[i])
  {
    hide Run, CoreDigest, ProductionReady;
    WrittenStatusIsScoped(d0, r, GateOutcome(r), size);
    ProductionReadyIff(es, size, i, Package(d0, r, size));
  }

  lemma WrittenStatusIsScoped(d0: Directory, r: Request, g: GateResult, size: Content -> nat)
    requires DirOk(d0)
    ensures var p := PackageOf(d0, FactsOf(r, g), size); StatusIn(p) != Str("GO")
  {
    hide PackageOf, CoreDigest;
    var f := FactsOf(r, g);
    PackageIsReadable(d0, f, size);
    WrittenDocsSay(f, CoreDigest(PackageOf(d0, f, size), size));
    ReportIsNeverBare(r, g);
  }

  // ---- earned evidence gets through -----------------------------------------------------------------------

  /** A draft bound to usable customer data and to the package written for this request. */
  predicate Candidate(g: Registry, who: Principal, x: Item, p: Directory, r: Request, size: Content -> nat) {
    && DatasetUsable(g, x, who) && CustomerDataset(g, x)
    && x.evidence == CoreDigest(p, size) && r.package == Some(x.package)
    && x.fingerprint.Some? && Fingerprint(r) == x.fingerprint
  }

  /** The facts an earned package states. */
  lemma EarnedFacts(r: Request, f: Facts)
    requires Earned(r) && f == FactsOf(r, GateOutcome(r))
    ensures f.decision == Str("GO") && f.approval == Str("PENDING_APPROVAL") && f.source == "CUSTOMER_PILOT"
    ensures GatesPass(Obj(GatesDoc(f))) && Truthy(f.report) && CustomerConsents(r)
  {
    var g := GateOutcome(r);
    EarnedIff(r);
    GoIffEveryGate(GateInputs(r));
    GoPassesEveryCheck(GateInputs(r));
    ReportIsNeverBare(r, g);
    forall k | k in f.checks.fields ensures IsPass(f.checks.fields[k]) {
      assert k.OfMeasure? && f.checks.fields[k] == StatusOf(g.checks[k.measure]);
      assert Get(StatusOf(Pass).fields, StatusKey) == Str("PASS");
    }
    PassFromChecks(f);
  }

  lemma PassFromChecks(f: Facts)
    requires f.decision == Str("GO") && f.checks.Obj? && forall k | k in f.checks.fields :: IsPass(f.checks.fields[k])
    ensures GatesPass(Obj(GatesDoc(f)))
  {
    assert GetOr(GatesDoc(f), Checks, Obj(map[])) == f.checks;
  }

  lemma EarnedEvidenceVerifies(g: Registry, who: Principal, x: Item, d0: Directory, r: Request, f: Facts, approval: bool, size: Content -> nat)
    requires DirOk(d0) && Earned(r) && f == FactsOf(r, GateOutcome(r))
    requires Candidate(g, who, x, PackageOf(d0, f, size), r, size)
    ensures var p := PackageOf(d0, f, size); VerifiedEvidence(x, p, approval, size) == Some(Written(f, CoreDigest(p, size)))
  {
    EarnedFacts(r, f);
    BackendRoundTripFor(d0, r, GateOutcome(r), Str(x.package), size);
    WrittenIsAcceptable(x, PackageOf(d0, f, size), f, approval, size);
  }

  lemma WrittenIsAcceptable(x: Item, p: Directory, f: Facts, approval: bool, size: Content -> nat)
    requires VerifyBackend(p, Str(x.package), size) == Ok(Written(f, CoreDigest(p, size))) && x.evidence == CoreDigest(p, size)
    requires x.source == Some(f.source) && x.fingerprint.Some? && f.fingerprint == Str(x.fingerprint.value) && x.dataset.Some?
    requires f.decision == Str("GO") && f.approval == Str("PENDING_APPROVAL") && f.source == "CUSTOMER_PILOT"
    ensures VerifiedEvidence(x, p, approval, size) == Some(Written(f, CoreDigest(p, size)))
  {
  }

  lemma EarnedIsEvaluated(g: Registry, i: nat, a: Principal, d0: Directory, r: Request, f: Facts, size: Content -> nat)
    requires DirOk(d0) && Earned(r) && f == FactsOf(r, GateOutcome(r)) && Owns(g, a, i) && g.items[i].stage == Draft
    requires Candidate(g, a, g.items[i], PackageOf(d0, f, size), r, size)
    ensures var y := g.items[i].(stage := Evaluated, report := f.report, gates := Obj(GatesDoc(f)), evaluatedBy := Some(a.actor));
      EvaluateStep(g, a, i, PackageOf(d0, f, size), size) == g.(items := g.items[i := y])
  {
    EarnedEvidenceVerifies(g, a, g.items[i], d0, r, f, false, size);
    EarnedFacts(r, f);
  }

  lemma EarnedIsApproved(g: Registry, i: nat, b: Principal, d0: Directory, r: Request, f: Facts, size: Content -> nat)
    requires DirOk(d0) && Earned(r) && f == FactsOf(r, GateOutcome(r)) && Owns(g, b, i)
    requires g.items[i].stage == Evaluated && g.items[i].gates == Obj(GatesDoc(f)) && g.items[i].evaluatedBy != Some(b.actor)
    requires Candidate(g, b, g.items[i], PackageOf(d0, f, size), r, size)
    ensures ApproveStep(g, b, i, PackageOf(d0, f, size), size)
         == g.(items := g.items[i := g.items[i].(stage := Approved, approvedBy := Some(b.actor))])
  {
    EarnedEvidenceVerifies(g, b, g.items[i], d0, r, f, true, size);
    EarnedFacts(r, f);
  }

  predicate Runs(pack: Pack, x: Item) {
    pack.key == x.pack && x.product in pack.products && pack.model == x.model && pack.version == x.version && pack.package == x.package
  }

  lemma EarnedIsActivated(g: Registry, i: nat, c: Principal, pack: Pack, d0: Directory, r: Request, f: Facts, size: Content -> nat)
    requires DirOk(d0) && Earned(r) && f == FactsOf(r, GateOutcome(r)) && Owns(g, c, i) && Runs(pack, g.items[i])
    requires g.items[i].stage == Approved && g.items[i].evaluatedBy != Some(c.actor) && g.items[i].approvedBy != Some(c.actor)
    requires Candidate(g, c, g.items[i], PackageOf(d0, f, size), r, size)
    ensures ActivateStep(g, c, i, PackageOf(d0, f, size), Some(pack), size) == Activated(g, c, i)
  {
    EarnedEvidenceVerifies(g, c, g.items[i], d0, r, f, true, size);
  }

  /** The converse: three different people of the tenant take a draft with an untouched earned
      package to ACTIVE, on the pack that runs its model. */
  lemma EarnedEvidenceIsReleasable(g: Registry, i: nat, a: Principal, b: Principal, c: Principal, pack: Pack,
                                   d0: Directory, r: Request, size: Content -> nat)
    requires RegistryOk(g) && DirOk(d0) && Earned(r)
    requires Owns(g, a, i) && a.tenant == b.tenant == c.tenant && a.actor != b.actor && b.actor != c.actor && a.actor != c.actor
    requires g.items[i].stage == Draft && Runs(pack, g.items[i])
    requires Candidate(g, a, g.items[i], Package(d0, r, size), r, size)
    ensures var p := Package(d0, r, size);
      var g1 := EvaluateStep(g, a, i, p, size);
      var g2 := ApproveStep(g1, b, i, p, size);
      var g3 := ActivateStep(g2, c, i, p, Some(pack), size);
      |g3.items| == |g.items| && g3.items[i].stage == Active && RegistryOk(g3)
  {
    var f := FactsOf(r, GateOutcome(r));
    var p := PackageOf(d0, f, size);
    EvaluateKeeps(g, a, i, p, size);
    EarnedIsEvaluated(g, i, a, d0, r, f, size);
    var g1 := EvaluateStep(g, a, i, p, size);
    ApproveKeeps(g1, b, i, p, size);
    EarnedIsApproved(g1, i, b, d0, r, f, size);
    var g2 := ApproveStep(g1, b, i, p, size);
    EarnedIsActivated(g2, i, c, pack, d0, r, f, size);
    ActivatedKeeps(g2, c, i);
  }

  // ---- evaluation ----------------------------------------------------------------------------------

  /** The backend's verifier accepts the directory as it is now, with the registered digest, and it
      names the source and fingerprint the item is registered with; only demo data goes unbound. */
  predicate Holds(x: Item, d: Directory, size: Content -> nat) {
    VerifyBackend(d, Str(x.package), size).Ok? && Agrees(x, VerifyBackend(d, Str(x.package), size).value)
  }

  predicate Agrees(x: Item, v: Verdict) {
    && v.digest == x.evidence
    && (x.source.Some? ==> v.source == Str(x.source.value))
    && (x.fingerprint.Some? ==> v.fingerprint == Str(x.fingerprint.value))
    && (v.source == Str("DEMO_SYNTHETIC") || x.dataset.Some?)
  }

  /** A GO that waits for approval makes the draft EVALUATED, anything else leaves it a draft;
      either way the gates and the status of the verdict and the evaluator are recorded, and
      nothing else is. */
  predicate EvaluatedBy(x: Item, y: Item, v: Verdict, actor: string) {
    && y == x.(stage := y.stage, report := y.report, gates := v.gates, evaluatedBy := Some(actor))
    && y.stage == (if v.gateDecision == Str("GO") && v.approval == Str("PENDING_APPROVAL") then Evaluated else Draft)
    && y.report == (if v.decision in {Null, Bool(false), Num(0.0), Str(""), Arr([]), Obj(map[])} then Str("INSUFFICIENT_EVIDENCE") else v.decision)
  }

  /** What an evaluation does, for every verdict. */
  lemma EvaluationDecides(g: Registry, who: Principal, i: nat, d: Directory, size: Content -> nat)
    requires i < |g.items|
    ensures var x, h := g.items[i], EvaluateStep(g, who, i, d, size);
      if x.tenant != who.tenant || x.stage != Draft || !Holds(x, d, size) then h == g
      else
        && |h.items| == |g.items| && h == g.(items := g.items[i := h.items[i]])
        && EvaluatedBy(x, h.items[i], VerifyBackend(d, Str(x.package), size).value, who.actor)
  {
    hide VerifyBackend, CoreDigest;
  }

  /** The call that made an item EVALUATED. */
  predicate EvaluationOk(g: Registry, e: Event, i: nat, size: Content -> nat) {
    && e.Evaluate? && e.i == i && i < |g.items| && g.items[i].tenant == e.who.tenant && g.items[i].stage == Draft
    && Holds(g.items[i], e.d, size)
    && var v := VerifyBackend(e.d, Str(g.items[i].package), size).value;
       v.gateDecision == Str("GO") && v.approval == Str("PENDING_APPROVAL")
  }

  /** An item becomes EVALUATED exactly by an evaluation of that draft in its own tenant, on a
      directory that is accepted and says GO and pending approval. */
  lemma EvaluatedIff(g: Registry, e: Event, size: Content -> nat, i: nat)
    requires RegistryOk(g) && i < |g.items| && g.items[i].stage != Evaluated
    ensures i < |Step(g, e, size).items|
    ensures Step(g, e, size).items[i].stage == Evaluated <==> EvaluationOk(g, e, i, size)
  {
    hide RegistryOk, VerifyBackend, Holds, RegisterStep, RevokeStep, CreateStep, EvaluateStep, VerifiedEvidence, DatasetUsable;
    NothingElseEvaluates(g, e, size, i);
    if e.Evaluate? {
      if e.i < |g.items| { EvaluationDecides(g, e.who, e.i, e.d, size); } else { NothingToEvaluate(g, e.who, e.i, e.d, size); }
    }
  }

  lemma NothingToEvaluate(g: Registry, who: Principal, i: nat, d: Directory, size: Content -> nat)
    requires i >= |g.items|
    ensures EvaluateStep(g, who, i, d, size) == g
  {
  }

  lemma NothingElseEvaluates(g: Registry, e: Event, size: Content -> nat, i: nat)
    requires RegistryOk(g) && i < |g.items|
    ensures i < |Step(g, e, size).items|
    ensures !e.Evaluate? && g.items[i].stage != Evaluated ==> Step(g, e, size).items[i].stage != Evaluated
    ensures !e.Evaluate? && g.items[i].stage == Draft ==> Step(g, e, size).items[i].stage == Draft
  {
    StepKeeps(g, e, size);
    hide RegistryOk, Kept, VerifiedEvidence, DatasetUsable, GatesPass;
    if e.Activate? && ActivateStep(g, e.who, e.i, e.d, e.pack, size) != g { ActivationKeepsReport(g, e.who, e.i, i); ActivationEvaluatesNone(g, e.who, e.i, i); }
    if e.Rollback? && RollbackStep(g, e.who, e.i, e.d, e.pack, size) != g { ActivationKeepsReport(g, e.who, e.i, i); ActivationEvaluatesNone(g, e.who, e.i, i); }
  }

  lemma ActivationEvaluatesNone(g: Registry, who: Principal, k: nat, i: nat)
    requires RegistryOk(g) && k < |g.items| && i < |g.items| && g.items[k].stage in {Approved, Retired}
    ensures i < |Activated(g, who, k).items| && (Activated(g, who, k).items[i].stage == Evaluated ==> g.items[i].stage == Evaluated)
  {
    RetireCurrentMeaning(g.items, k, 0);
  }

  /** On evidence registered from a written package, with the release decision still as it was
      written, an evaluation makes the draft EVALUATED exactly when the package is earned. */
  lemma IntactEvidenceIsEvaluatedIffEarned(g: Registry, who: Principal, i: nat, d: Directory, d0: Directory, r: Request, size: Content -> nat)
    requires DirOk(d0) && Owns(g, who, i) && g.items[i].stage == Draft && Holds(g.items[i], d, size)
    requires var p := Package(d0, r, size); g.items[i].evidence == CoreDigest(p, size) && Read(d, ReleaseFile) == Read(p, ReleaseFile)
    ensures EvaluateStep(g, who, i, d, size).items[i].stage == Evaluated <==> Earned(r)
  {
    hide VerifyBackend, CoreDigest, Read, EvaluateStep, PackageOf, FactsOf;
    EvaluationDecides(g, who, i, d, size);
    IntactReleaseSays(d, Str(g.items[i].package), d0, r, GateOutcome(r), size);
  }

  /** What an intact release decision claims, and when that is a GO that waits for approval. */
  lemma IntactReleaseSays(d: Directory, expected: Json, d0: Directory, r: Request, g: GateResult, size: Content -> nat)
    requires DirOk(d0) && g == GateOutcome(r) && VerifyBackend(d, expected, size).Ok?
    requires Read(d, ReleaseFile) == Read(PackageOf(d0, FactsOf(r, g), size), ReleaseFile)
    ensures var v := VerifyBackend(d, expected, size).value;
      v.gateDecision == Str("GO") && v.approval == Str("PENDING_APPROVAL") <==> Earned(r)
  {
    hide VerifyBackend, CoreDigest, Read, PackageOf;
    var f := FactsOf(r, g);
    PackageIsReadable(d0, f, size);
    IntactReleaseFixesClaims(d, expected, size, f, CoreDigest(PackageOf(d0, f, size), size));
    PendingApprovalIffEarned(r);
    DecisionNamesDiffer(g.decision);
    EarnedIff(r);
    GoIffEveryGate(GateInputs(r));
  }

  /** The release decision claims what it was written to claim at every evaluation of this item. */
  ghost predicate ReleaseIntact(es: seq<Event>, i: nat, p: Directory) {
    forall n | 0 <= n < |es| && es[n].Evaluate? && es[n].i == i :: Read(es[n].d, ReleaseFile) == Read(p, ReleaseFile)
  }

  /** Over every run: with the release decision intact at its evaluations, an item registered with a
      written package leaves the draft stage only if that package is earned. */
  lemma {:induction false} EvaluatedIsEarned(es: seq<Event>, size: Content -> nat, i: nat, d0: Directory, r: Request)
    requires DirOk(d0) && i < |Run(EMPTY, es, size).items| && Run(EMPTY, es, size).items[i].stage != Draft
    requires Run(EMPTY, es, size).items[i].evidence == CoreDigest(Package(d0, r, size), size)
    requires ReleaseIntact(es, i, Package(d0, r, size))
    ensures Earned(r)
  {
    hide Step, Package, Earned, CoreDigest, VerifyBackend, Holds, RegistryOk, Read;
    var init, e := es[..|es| - 1], es[|es| - 1];
    var before := Run(EMPTY, init, size);
    RunKeeps(EMPTY, init, size);
    StepKeeps(before, e, size);
    if i >= |before.items| {
      NewItemIsDraft(before, e, size, i);
      assert false;
    }
    assert SameIdentity(before.items[i], Run(EMPTY, es, size).items[i]);
    if before.items[i].stage != Draft {
      assert forall n | 0 <= n < |init| :: init[n] == es[n];
      EvaluatedIsEarned(init, size, i, d0, r);
    } else {
      LeavingDraftIsEarned(before, e, size, i, d0, r);
    }
  }

  lemma LeavingDraftIsEarned(g: Registry, e: Event, size: Content -> nat, i: nat, d0: Directory, r: Request)
    requires DirOk(d0) && RegistryOk(g) && i < |g.items| && g.items[i].stage == Draft
    requires i < |Step(g, e, size).items| && Step(g, e, size).items[i].stage != Draft
    requires g.items[i].evidence == CoreDigest(Package(d0, r, size), size)
    requires e.Evaluate? && e.i == i ==> Read(e.d, ReleaseFile) == Read(Package(d0, r, size), ReleaseFile)
    ensures Earned(r)
  {
    hide Package, Earned, CoreDigest, VerifyBackend, RegistryOk, Read, EvaluateStep, Holds;
    NothingElseEvaluates(g, e, size, i);
    if e.i < |g.items| { EvaluationDecides(g, e.who, e.i, e.d, size); } else { NothingToEvaluate(g, e.who, e.i, e.d, size); }
    IntactEvidenceIsEvaluatedIffEarned(g, e.who, i, e.d, d0, r, size);
  }

  /** The written package sealed again with a release decision that claims a GO and pending approval. */
  function Resealed(d0: Directory, f: Facts, size: Content -> nat): Directory {
    Sealed(WithCore(d0, f), Claiming(f, CoreDigest(WithCore(d0, f), size), "GO", "PENDING_APPROVAL"), size)
  }

  /** Without that condition it fails for every package that is not earned: the release decision is
      in no digest, so sealed again it makes the draft EVALUATED.  What evaluation recorded still
      keeps the item from ever being approved. */
  lemma ResealedEvidenceIsEvaluated(g: Registry, who: Principal, i: nat, d0: Directory, r: Request, size: Content -> nat)
    requires DirOk(d0) && CustomerConsents(r) && Owns(g, who, i) && Registers(g.items[i], r)
    requires g.items[i].evidence == CoreDigest(Package(d0, r, size), size)
    ensures var h := EvaluateStep(g, who, i, Resealed(d0, FactsOf(r, GateOutcome(r)), size), size);
      && |h.items| == |g.items| && h.items[i].stage == Evaluated
      && (GateOutcome(r).decision != Go ==> forall other, d :: ApproveStep(h, other, i, d, size) == h)
  {
    hide VerifyBackend, CoreDigest, Package, PackageOf, EvaluateStep, Sealed, WithCore, VerifiedEvidence, DatasetUsable;
    hide Gates.Evaluate, CustomerDoc, SourceEvidenceDoc, RunStatus, Consented, Claiming;
    var gate := GateOutcome(r);
    var f := FactsOf(r, gate);
    ReleaseClaimsAreFree(d0, r, gate, "GO", "PENDING_APPROVAL", size);
    DigestOfPackage(d0, r, size);
    DemoOrBound(g.items[i], r);
    EvaluationDecides(g, who, i, Resealed(d0, f, size), size);
    DecisionNamesDiffer(gate.decision);
    if gate.decision != Go && GatesPass(Obj(GatesDoc(f))) { PassingGatesSayGo(f); }
  }

  lemma DigestOfPackage(d0: Directory, r: Request, size: Content -> nat)
    ensures CoreDigest(Package(d0, r, size), size) == CoreDigest(WithCore(d0, FactsOf(r, GateOutcome(r))), size)
  {
    hide CoreDigest, Sealed, WithCore;
    var f := FactsOf(r, GateOutcome(r));
    DigestSurvivesSealing(WithCore(d0, f), ReleaseDoc(f, CoreDigest(WithCore(d0, f), size)), size);
  }

  /** The draft is registered for the package, source and fingerprint of this request. */
  predicate Registers(x: Item, r: Request) {
    && x.stage == Draft && r.package == Some(x.package)
    && (x.source.Some? ==> x.source.value == SourceName(r.source))
    && (x.fingerprint.Some? ==> Fingerprint(r) == x.fingerprint)
    && (r.source == DemoSynthetic || x.dataset.Some?)
  }

  lemma DemoOrBound(x: Item, r: Request)
    requires Registers(x, r)
    ensures SourceName(r.source) == "DEMO_SYNTHETIC" || x.dataset.Some?
  {
  }

  // ---- the service ---------------------------------------------------------------------------------------

  /** A registration as it was asked for: customer data without consent is kept, but not validated. */
  predicate AddedAs(d: Dataset, who: Principal, source: Source, provenance: Option<Provenance>, metadata: Option<Provenance>, fingerprint: string) {
    && d.tenant == who.tenant && d.source == source && d.fingerprint == fingerprint
    && d.provenance == (if provenance.Some? then provenance else metadata)
    && (d.status == Validated <==> source != CustomerPilot || (provenance.Some? && provenance.value.consent))
    && d.status != Revoked
  }

  /** What an item claims about its data agrees with an unrevoked registration; without one it may
      only be about demo data. */
  predicate MayBind(datasets: seq<Dataset>, x: Item) {
    if x.dataset.None? then x.source in {None, Some("DEMO_SYNTHETIC")}
    else
      && x.dataset.value < |datasets|
      && var d := datasets[x.dataset.value];
         d.status != Revoked && x.source in {None, Some(SourceName(d.source))} && x.fingerprint in {None, Some(d.fingerprint)}
  }

  /** A draft nobody has evaluated, with the identity and evidence asked for and bound to its data. */
  predicate DraftedAs(y: Item, x: Item, who: Principal, datasets: seq<Dataset>) {
    && y.tenant == who.tenant && y.product == x.product && y.model == x.model && y.version == x.version
    && y.package == x.package && y.evidence == x.evidence && y.pack == x.pack && y.dataset == x.dataset
    && y.stage == Draft && y.evaluatedBy.None? && y.approvedBy.None? && y.activatedBy.None?
    && (if x.dataset.None? then y.source == x.source && y.fingerprint == x.fingerprint
        else
          && x.dataset.value < |datasets|
          && y.source == Some(SourceName(datasets[x.dataset.value].source))
          && y.fingerprint == Some(datasets[x.dataset.value].fingerprint))
  }

  /** Whoever evaluated or approved the item. */
  function Actors(x: Item): set<string> {
    (if x.evaluatedBy.Some? then {x.evaluatedBy.value} else {}) + if x.approvedBy.Some? then {x.approvedBy.value} else {}
  }

  /** The directory holds as registered, and says customer data, GO and pending approval. */
  predicate Releasable(x: Item, d: Directory, size: Content -> nat) {
    && Holds(x, d, size)
    && var v := VerifyBackend(d, Str(x.package), size).value;
       v.gateDecision == Str("GO") && v.approval == Str("PENDING_APPROVAL") && v.source == Str("CUSTOMER_PILOT")
  }

  lemma HoldsIff(x: Item, d: Directory, size: Content -> nat)
    ensures VerifiedEvidence(x, d, false, size).Some? <==> Holds(x, d, size)
    ensures Holds(x, d, size) ==> VerifiedEvidence(x, d, false, size) == Some(VerifyBackend(d, Str(x.package), size).value)
  {
    hide VerifyBackend, CoreDigest;
  }

  lemma ReleasableIff(x: Item, d: Directory, size: Content -> nat)
    ensures VerifiedEvidence(x, d, true, size).Some? <==> Releasable(x, d, size)
  {
    hide VerifyBackend, CoreDigest;
  }

  /** The conditions of an activation: a third person, the pack that runs this very model, and data
      and evidence that are releasable now. */
  predicate CanBeActivated(g: Registry, who: Principal, x: Item, d: Directory, pack: Option<Pack>, size: Content -> nat) {
    && x.stage == Approved && who.actor !in Actors(x) && pack.Some? && Runs(pack.value, x)
    && DatasetUsable(g, x, who) && CustomerDataset(g, x) && Releasable(x, d, size)
  }

  /** Those of a rollback: the pack need only carry the same package under its key. */
  predicate CanBeRolledBack(g: Registry, who: Principal, x: Item, d: Directory, pack: Option<Pack>, size: Content -> nat) {
    && x.stage == Retired && who.actor !in Actors(x) && pack.Some? && pack.value.key == x.pack && pack.value.package == x.package
    && DatasetUsable(g, x, who) && CustomerDataset(g, x) && Releasable(x, d, size)
  }

  lemma MayActivateIff(g: Registry, who: Principal, x: Item, d: Directory, pack: Option<Pack>, size: Content -> nat)
    ensures MayActivate(g, who, x, d, pack, size) <==> CanBeActivated(g, who, x, d, pack, size)
  {
    hide VerifiedEvidence, Releasable, DatasetUsable, CustomerDataset;
    ReleasableIff(x, d, size);
  }

  lemma MayRollbackIff(g: Registry, who: Principal, x: Item, d: Directory, pack: Option<Pack>, size: Content -> nat)
    ensures MayRollback(g, who, x, d, pack, size) <==> CanBeRolledBack(g, who, x, d, pack, size)
  {
    hide VerifiedEvidence, Releasable, DatasetUsable, CustomerDataset;
    ReleasableIff(x, d, size);
  }

  /** Item i is active in the actor's name; at most the first rival of its tenant and product was
      retired for it, and nothing else has changed. */
  predicate BecameActive(before: seq<Item>, after: seq<Item>, i: nat, actor: string) {
    && i < |before| && |after| == |before|
    && after[i] == before[i].(stage := Active, activatedBy := Some(actor))
    && ((forall m | 0 <= m < |before| && m != i :: after[m] == before[m] && !Contends(before[m], before[i]))
        || exists k :: 0 <= k < |before| && k != i && Contends(before[k], before[i]) && after[k] == before[k].(stage := Retired)
             && forall m | 0 <= m < |before| && m != i && m != k :: after[m] == before[m])
  }

  class QualificationService {
    const size: Content -> nat
    var items: seq<Item>
    var datasets: seq<Dataset>

    constructor (size: Content -> nat)
      ensures this.size == size && State() == EMPTY
    {
      this.size := size;
      items, datasets := [], [];
    }

    function State(): Registry
      reads this
    {
      Registry(items, datasets)
    }

    method RegisterDataset(who: Principal, active: bool, source: Source, provenance: Option<Provenance>,
                           metadata: Option<Provenance>, bytes: Import)
      returns (r: Option<Refused>)
      modifies this
      ensures State() == Step(old(State()), Register(who, active, source, provenance, metadata, bytes), size)
      ensures r.Some? ==> State() == old(State())
      ensures var foreign := provenance.Some? && provenance.value.tenant != who.tenant;
        var taken := bytes.Inspected? && exists d :: d in old(datasets) && d.tenant == who.tenant && d.fingerprint == bytes.fingerprint;
        && (r == Some(Forbidden) <==> !active || (source != DemoSynthetic && !bytes.Missing? && foreign))
        && (r == Some(InvalidInput) <==> active && (source == DemoSynthetic || bytes.Missing? || (bytes.Unusable? && !foreign)))
        && (r == Some(Conflict) <==> active && source != DemoSynthetic && !foreign && taken)
        && (r.None? <==> active && source != DemoSynthetic && !foreign && bytes.Inspected? && !taken)
      ensures r.None? ==> (items == old(items) && |datasets| == |old(datasets)| + 1 && old(datasets) <= datasets
        && AddedAs(datasets[|old(datasets)|], who, source, provenance, metadata, bytes.fingerprint))
    {
      if !active {
        return Some(Forbidden);
      }
      if source == DemoSynthetic {
        return Some(InvalidInput);
      }
      if bytes.Missing? {
        return Some(InvalidInput);
      }
      if provenance.Some? && provenance.value.tenant != who.tenant {
        return Some(Forbidden);
      }
      if bytes.Unusable? {
        return Some(InvalidInput);
      }
      var status := Validated;
      if source == CustomerPilot && (provenance.None? || !provenance.value.consent) {
        status := Unconsented;
      }
      assert FingerprintTaken(State(), who.tenant, bytes.fingerprint) ==>
        exists d :: d in datasets && d.tenant == who.tenant && d.fingerprint == bytes.fingerprint;
      if FingerprintTaken(State(), who.tenant, bytes.fingerprint) {
        return Some(Conflict);
      }
      datasets := datasets + [Dataset(who.tenant, source, status, bytes.fingerprint, if provenance.Some? then provenance else metadata)];
      return None;
    }

    method RevokeDataset(who: Principal, j: nat) returns (r: Option<Refused>)
      modifies this
      ensures State() == Step(old(State()), Revoke(who, j), size)
      ensures r.Some? ==> State() == old(State())
      ensures r == Some(NotFound) <==> !(j < |old(datasets)| && old(datasets)[j].tenant == who.tenant)
      ensures r == Some(Conflict) <==> j < |old(datasets)| && old(datasets)[j].tenant == who.tenant && old(datasets)[j].status == Revoked
      ensures r.None? ==> items == old(items) && j < |old(datasets)| && datasets == old(datasets)[j := old(datasets)[j].(status := Revoked)]
    {
      if j >= |datasets| || datasets[j].tenant != who.tenant {
        return Some(NotFound);
      }
      if datasets[j].status == Revoked {
        return Some(Conflict);
      }
      datasets := datasets[j := datasets[j].(status := Revoked)];
      return None;
    }

    method CreateQualification(who: Principal, active: bool, x: Item) returns (r: Option<Refused>)
      modifies this
      ensures State() == Step(old(State()), Create(who, active, x), size)
      ensures r.Some? ==> State() == old(State())
      ensures r == Some(Forbidden) <==> !active
      ensures r == Some(NotFound) <==> (active && x.dataset.Some?
        && !(x.dataset.value < |old(datasets)| && old(datasets)[x.dataset.value].tenant == who.tenant))
      ensures r == Some(InvalidInput) <==> active && r != Some(NotFound) && !MayBind(old(datasets), x)
      ensures r == Some(Conflict) <==> (active && r != Some(NotFound) && MayBind(old(datasets), x)
        && exists y :: y in old(items) && y.tenant == who.tenant
             && (y.product, y.model, y.version) == (x.product, x.model, x.version))
      ensures r.None? ==> (datasets == old(datasets) && |items| == |old(items)| + 1 && old(items) <= items
        && DraftedAs(items[|old(items)|], x, who, datasets))
    {
      var item := Drafted(State(), who, active, x);
      if item.Err? {
        return Some(item.error);
      }
      if IdentityTaken(State(), who.tenant, x) {
        return Some(Conflict);
      }
      items := items + [item.value];
      return None;
    }

    method EvaluateQualification(who: Principal, i: nat, d: Directory) returns (r: Option<Refused>)
      modifies this
      ensures State() == Step(old(State()), Evaluate(who, i, d), size)
      ensures r.Some? ==> State() == old(State())
      ensures r == Some(NotFound) <==> !Owns(old(State()), who, i)
      ensures r == Some(Conflict) <==> Owns(old(State()), who, i) && old(items)[i].stage != Draft
      ensures r == Some(InvalidInput) <==> r != Some(NotFound) && old(items)[i].stage == Draft && !Holds(old(items)[i], d, size)
      ensures r.None? ==> (Holds(old(items)[i], d, size) && |items| == |old(items)|
        && State() == Registry(old(items)[i := items[i]], old(datasets))
        && EvaluatedBy(old(items)[i], items[i], VerifyBackend(d, Str(old(items)[i].package), size).value, who.actor))
    {
      hide VerifiedEvidence, Holds, EvaluatedBy, EvaluatedItem;
      if i >= |items| || items[i].tenant != who.tenant {
        return Some(NotFound);
      }
      HoldsIff(items[i], d, size);
      if items[i].stage != Draft {
        return Some(Conflict);
      }
      var evidence := VerifiedEvidence(items[i], d, false, size);
      if evidence.None? {
        return Some(InvalidInput);
      }
      var x := RecordEvaluation(items[i], evidence.value, who.actor);
      items := items[i := x];
      return None;
    }

    /** The fields an evaluation writes. */
    method RecordEvaluation(draft: Item, v: Verdict, actor: string) returns (x: Item)
      requires draft.stage == Draft
      ensures x == EvaluatedItem(draft, v, actor) && EvaluatedBy(draft, x, v, actor)
    {
      x := draft;
      if v.gateDecision == Str("GO") && v.approval == Str("PENDING_APPROVAL") {
        x := x.(stage := Evaluated);
      }
      x := x.(report := if Truthy(v.decision) then v.decision else Str("INSUFFICIENT_EVIDENCE"));
      x := x.(gates := v.gates, evaluatedBy := Some(actor));
    }

    method ApproveQualification(who: Principal, i: nat, d: Directory) returns (r: Option<Refused>)
      modifies this
      ensures State() == Step(old(State()), Approve(who, i, d), size)
      ensures r.Some? ==> State() == old(State())
      ensures r == Some(NotFound) <==> !Owns(old(State()), who, i)
      ensures r == Some(Conflict) <==> Owns(old(State()), who, i) && old(items)[i].stage != Evaluated
      ensures r == Some(Forbidden) <==>
        Owns(old(State()), who, i) && old(items)[i].stage == Evaluated && old(items)[i].evaluatedBy == Some(who.actor)
      ensures r.None? <==> (Owns(old(State()), who, i) && old(items)[i].stage == Evaluated && old(items)[i].evaluatedBy != Some(who.actor)
        && GatesPass(old(items)[i].gates) && DatasetUsable(old(State()), old(items)[i], who) && Releasable(old(items)[i], d, size))
      ensures r.None? ==> State() == Registry(old(items)[i := old(items)[i].(stage := Approved, approvedBy := Some(who.actor))], old(datasets))
    {
      if i < |items| { ReleasableIff(items[i], d, size); }
      hide VerifiedEvidence, Releasable;
      if i >= |items| || items[i].tenant != who.tenant {
        return Some(NotFound);
      }
      if items[i].stage != Evaluated {
        return Some(Conflict);
      }
      if items[i].evaluatedBy == Some(who.actor) {
        return Some(Forbidden);
      }
      if !GatesPass(items[i].gates) || !DatasetUsable(State(), items[i], who) {
        return Some(InvalidInput);
      }
      if VerifiedEvidence(items[i], d, true, size).None? {
        return Some(InvalidInput);
      }
      items := items[i := items[i].(stage := Approved, approvedBy := Some(who.actor))];
      return None;
    }

    /** Retire the rival, if any, and make this item the active one. */
    method MakeActive(who: Principal, i: nat)
      requires i < |items|
      modifies this`items
      ensures State() == Activated(old(State()), who, i)
      ensures BecameActive(old(items), items, i, who.actor)
    {
      ghost var before := items;
      var k := 0;
      while k < |items|
        invariant 0 <= k <= |items| && items == before
        invariant RetireCurrent(before, i, 0) == RetireCurrent(before, i, k)
        invariant forall m | 0 <= m < k && m != i :: !Contends(before[m], before[i])
      {
        if k != i && items[k].tenant == items[i].tenant && items[k].product == items[i].product && items[k].stage == Active {
          items := items[k := items[k].(stage := Retired)];
          items := items[i := items[i].(stage := Active, activatedBy := Some(who.actor))];
          return;
        }
        k := k + 1;
      }
      items := items[i := items[i].(stage := Active, activatedBy := Some(who.actor))];
    }

    /** What a release needs of the data and the directory as they are now. */
    method CheckRelease(x: Item, who: Principal, d: Directory) returns (r: Option<Refused>)
      ensures r in {None, Some(Forbidden), Some(InvalidInput)}
      ensures r.None? <==> DatasetUsable(State(), x, who) && CustomerDataset(State(), x) && VerifiedEvidence(x, d, true, size).Some?
      ensures r == Some(InvalidInput) ==> !Releasable(x, d, size)
    {
      ReleasableIff(x, d, size);
      hide VerifiedEvidence, Releasable, DatasetUsable, CustomerDataset;
      if !DatasetUsable(State(), x, who) || !CustomerDataset(State(), x) {
        return Some(Forbidden);
      }
      if VerifiedEvidence(x, d, true, size).None? {
        return Some(InvalidInput);
      }
      return None;
    }

    method ActivateQualification(who: Principal, i: nat, d: Directory, pack: Option<Pack>) returns (r: Option<Refused>)
      modifies this
      ensures State() == Step(old(State()), Activate(who, i, d, pack), size)
      ensures r.Some? ==> State() == old(State())
      ensures r == Some(NotFound) <==> !Owns(old(State()), who, i)
      ensures r == Some(Conflict) <==> Owns(old(State()), who, i) && old(items)[i].stage != Approved
      ensures r == Some(Unavailable) ==> pack.None?
      ensures r.None? <==> Owns(old(State()), who, i) && CanBeActivated(old(State()), who, old(items)[i], d, pack, size)
      ensures r.None? ==> datasets == old(datasets) && BecameActive(old(items), items, i, who.actor)
    {
      hide VerifiedEvidence, CanBeActivated, BecameActive, DatasetUsable, CustomerDataset;
      if i >= |items| || items[i].tenant != who.tenant {
        return Some(NotFound);
      }
      var x := items[i];
      MayActivateIff(State(), who, x, d, pack, size);
      if x.stage != Approved {
        return Some(Conflict);
      }
      if x.evaluatedBy == Some(who.actor) || x.approvedBy == Some(who.actor) {
        return Some(Forbidden);
      }
      if pack.None? {
        return Some(Unavailable);
      }
      if pack.value.key != x.pack || x.product !in pack.value.products {
        return Some(Forbidden);
      }
      if pack.value.model != x.model || pack.value.version != x.version || pack.value.package != x.package {
        return Some(Forbidden);
      }
      r := CheckRelease(x, who, d);
      if r.None? {
        MakeActive(who, i);
      }
    }

    method RetireQualification(who: Principal, i: nat) returns (r: Option<Refused>)
      modifies this
      ensures State() == Step(old(State()), Retire(who, i), size)
      ensures r.Some? ==> State() == old(State())
      ensures r == Some(NotFound) <==> !Owns(old(State()), who, i)
      ensures r.None? <==> Owns(old(State()), who, i) && old(items)[i].stage in {Approved, Active}
      ensures r.None? ==> State() == Registry(old(items)[i := old(items)[i].(stage := Retired)], old(datasets))
    {
      if i >= |items| || items[i].tenant != who.tenant {
        return Some(NotFound);
      }
      if items[i].stage != Approved && items[i].stage != Active {
        return Some(Conflict);
      }
      items := items[i := items[i].(stage := Retired)];
      return None;
    }

    method RollbackQualification(who: Principal, i: nat, d: Directory, pack: Option<Pack>) returns (r: Option<Refused>)
      modifies this
      ensures State() == Step(old(State()), Rollback(who, i, d, pack), size)
      ensures r.Some? ==> State() == old(State())
      ensures r == Some(NotFound) <==> !Owns(old(State()), who, i)
      ensures r == Some(Conflict) <==> Owns(old(State()), who, i) && old(items)[i].stage != Retired
      ensures r == Some(Unavailable) ==> pack.None?
      ensures r.None? <==> Owns(old(State()), who, i) && CanBeRolledBack(old(State()), who, old(items)[i], d, pack, size)
      ensures r.None? ==> datasets == old(datasets) && BecameActive(old(items), items, i, who.actor)
    {
      hide VerifiedEvidence, CanBeRolledBack, BecameActive, DatasetUsable, CustomerDataset;
      if i >= |items| || items[i].tenant != who.tenant {
        return Some(NotFound);
      }
      var x := items[i];
      MayRollbackIff(State(), who, x, d, pack, size);
      if x.stage != Retired {
        return Some(Conflict);
      }
      if x.evaluatedBy == Some(who.actor) || x.approvedBy == Some(who.actor) {
        return Some(Forbidden);
      }
      if pack.None? {
        return Some(Unavailable);
      }
      if pack.value.key != x.pack || pack.value.package != x.package {
        return Some(Forbidden);
      }
      r := CheckRelease(x, who, d);
      if r.None? {
        MakeActive(who, i);
      }
    }
  }
}
