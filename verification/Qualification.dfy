/** Model qualification: datasets, the lifecycle of a qualification, and what its evidence must
    say at every entry into APPROVED or ACTIVE. */
module Qualification {
  import opened Base
  import opened Gates
  import opened Evidence

  datatype Stage = Draft | Evaluated | Approved | Active | Retired

  datatype DatasetStatus = Unconsented | Validated | Revoked

  datatype Provenance = Provenance(tenant: string, consent: bool)

  datatype Dataset = Dataset(tenant: string, source: Source, status: DatasetStatus, fingerprint: string, provenance: Option<Provenance>)

  /** `evidence` is the registered core digest; `report` and `gates` are what evaluation cached. */
  datatype Item = Item(
    tenant: string, product: string, model: string, version: string, package: string, evidence: Json, pack: string,
    dataset: Option<nat>, source: Option<string>, fingerprint: Option<string>,
    stage: Stage, report: Json, gates: Json,
    evaluatedBy: Option<string>, approvedBy: Option<string>, activatedBy: Option<string>)

  datatype Registry = Registry(items: seq<Item>, datasets: seq<Dataset>)

  datatype Principal = Principal(tenant: string, actor: string)

  /** The manifest of the tenant's active deployment pack. */
  datatype Pack = Pack(key: string, products: set<string>, model: string, version: string, package: string)

  /** What the caller is told when a call is refused; a refused call changes nothing. */
  datatype Refused = NotFound | Conflict | Forbidden | InvalidInput | Unavailable

  /** The bytes to register: no path or upload; refused by location, limits, declared digest or
      storage; or inspected and stored. */
  datatype Import = Missing | Unusable | Inspected(fingerprint: string)

  /** Every call that reads evidence is given the directory as it is at that moment. */
  datatype Event =
    | Register(who: Principal, active: bool, source: Source, provenance: Option<Provenance>, metadata: Option<Provenance>, bytes: Import)
    | Revoke(who: Principal, j: nat)
    | Create(who: Principal, active: bool, item: Item)
    | Evaluate(who: Principal, i: nat, d: Directory)
    | Approve(who: Principal, i: nat, d: Directory)
    | Activate(who: Principal, i: nat, d: Directory, pack: Option<Pack>)
    | Retire(who: Principal, i: nat)
    | Rollback(who: Principal, i: nat, d: Directory, pack: Option<Pack>)

  // ---- evidence of one item ---------------------------------------------------------------------

  /** Integrity, the registered identity and, for approval, the release metadata. */
  function VerifiedEvidence(item: Item, d: Directory, approval: bool, size: Content -> nat): Option<Verdict> {
    var r := VerifyBackend(d, Str(item.package), size);
    if r.Err? || r.value.digest != item.evidence then None
    else if item.source.Some? && r.value.source != Str(item.source.value) then None
    else if item.fingerprint.Some? && r.value.fingerprint != Str(item.fingerprint.value) then None
    else if r.value.source != Str("DEMO_SYNTHETIC") && item.dataset.None? then None
    else if approval && !Approvable(r.value) then None
    else Some(r.value)
  }

  predicate Approvable(v: Verdict) {
    v.gateDecision == Str("GO") && v.approval == Str("PENDING_APPROVAL") && v.source == Str("CUSTOMER_PILOT")
  }

  predicate IsPass(check: Json) {
    check.Obj? && Get(check.fields, StatusKey) == Str("PASS")
  }

  /** The cached gates say GO and no check is short of PASS. */
  predicate GatesPass(gates: Json) {
    && gates.Obj? && Get(gates.fields, DecisionKey) == Str("GO")
    && var checks := GetOr(gates.fields, Checks, Obj(map[]));
       checks.Obj? && forall k | k in checks.fields :: IsPass(checks.fields[k])
  }

  predicate DatasetUsable(g: Registry, item: Item, who: Principal) {
    && item.source == Some("CUSTOMER_PILOT") && item.dataset.Some? && item.dataset.value < |g.datasets|
    && var d := g.datasets[item.dataset.value];
       d.tenant == who.tenant && d.status == Validated && Some(d.fingerprint) == item.fingerprint
       && d.provenance.Some? && d.provenance.value.tenant == who.tenant && d.provenance.value.consent
  }

  predicate CustomerDataset(g: Registry, item: Item) {
    item.dataset.Some? && item.dataset.value < |g.datasets| && g.datasets[item.dataset.value].source == CustomerPilot
  }

  predicate Owns(g: Registry, who: Principal, i: nat) {
    i < |g.items| && g.items[i].tenant == who.tenant
  }

  // ---- the calls -----------------------------------------------------------------------------------

  predicate FingerprintTaken(g: Registry, tenant: string, fingerprint: string) {
    exists j :: 0 <= j < |g.datasets| && g.datasets[j].tenant == tenant && g.datasets[j].fingerprint == fingerprint
  }

  /** The checks of a registration, in their order; `active` is whether the tenant is. */
  function RegisterRefusal(g: Registry, who: Principal, active: bool, source: Source, provenance: Option<Provenance>, bytes: Import): Option<Refused> {
    if !active then Some(Forbidden)
    else if source == DemoSynthetic || bytes.Missing? then Some(InvalidInput)
    else if provenance.Some? && provenance.value.tenant != who.tenant then Some(Forbidden)
    else if bytes.Unusable? then Some(InvalidInput)
    else if FingerprintTaken(g, who.tenant, bytes.fingerprint) then Some(Conflict)
    else None
  }

  function Registered(who: Principal, source: Source, provenance: Option<Provenance>, metadata: Option<Provenance>, fingerprint: string): Dataset {
    var status := if source == CustomerPilot && (provenance.None? || !provenance.value.consent) then Unconsented else Validated;
    Dataset(who.tenant, source, status, fingerprint, if provenance.Some? then provenance else metadata)
  }

  function RegisterStep(g: Registry, who: Principal, active: bool, source: Source, provenance: Option<Provenance>,
                        metadata: Option<Provenance>, bytes: Import): Registry {
    if RegisterRefusal(g, who, active, source, provenance, bytes).Some? || !bytes.Inspected? then g
    else g.(datasets := g.datasets + [Registered(who, source, provenance, metadata, bytes.fingerprint)])
  }

  function RevokeStep(g: Registry, who: Principal, j: nat): Registry {
    if j >= |g.datasets| || g.datasets[j].tenant != who.tenant || g.datasets[j].status == Revoked then g
    else g.(datasets := g.datasets[j := g.datasets[j].(status := Revoked)])
  }

  predicate IdentityTaken(g: Registry, tenant: string, item: Item) {
    exists i :: 0 <= i < |g.items| && g.items[i].tenant == tenant && g.items[i].product == item.product
      && g.items[i].model == item.model && g.items[i].version == item.version
  }

  /** A draft; what it claims about its dataset must agree with the registration. */
  function Drafted(g: Registry, who: Principal, active: bool, x: Item): Result<Item, Refused> {
    var blank := x.(tenant := who.tenant, stage := Draft, report := Str("INSUFFICIENT_EVIDENCE"), gates := Obj(map[]),
                    evaluatedBy := None, approvedBy := None, activatedBy := None);
    if !active then Err(Forbidden)
    else if x.dataset.None? then
      (if x.source == None || x.source == Some("DEMO_SYNTHETIC") then Ok(blank) else Err(InvalidInput))
    else if x.dataset.value >= |g.datasets| || g.datasets[x.dataset.value].tenant != who.tenant then Err(NotFound)
    else
      var d := g.datasets[x.dataset.value];
      if d.status == Revoked then Err(InvalidInput)
      else if x.source.Some? && x.source.value != SourceName(d.source) then Err(InvalidInput)
      else if x.fingerprint.Some? && x.fingerprint.value != d.fingerprint then Err(InvalidInput)
      else Ok(blank.(source := Some(SourceName(d.source)), fingerprint := Some(d.fingerprint)))
  }

  function CreateStep(g: Registry, who: Principal, active: bool, x: Item): Registry {
    var item := Drafted(g, who, active, x);
    if item.Err? || IdentityTaken(g, who.tenant, x) then g else g.(items := g.items + [item.value])
  }

  function EvaluatedItem(x: Item, v: Verdict, actor: string): Item {
    var stage := if v.gateDecision == Str("GO") && v.approval == Str("PENDING_APPROVAL") then Evaluated else Draft;
    x.(stage := stage, report := if Truthy(v.decision) then v.decision else Str("INSUFFICIENT_EVIDENCE"), gates := v.gates,
       evaluatedBy := Some(actor))
  }

  function EvaluateStep(g: Registry, who: Principal, i: nat, d: Directory, size: Content -> nat): Registry {
    if !Owns(g, who, i) || g.items[i].stage != Draft then g
    else
      var v := VerifiedEvidence(g.items[i], d, false, size);
      if v.None? then g else g.(items := g.items[i := EvaluatedItem(g.items[i], v.value, who.actor)])
  }

  predicate MayApprove(g: Registry, who: Principal, x: Item, d: Directory, size: Content -> nat) {
    && x.stage == Evaluated && x.evaluatedBy != Some(who.actor) && GatesPass(x.gates)
    && DatasetUsable(g, x, who) && VerifiedEvidence(x, d, true, size).Some?
  }

  function ApproveStep(g: Registry, who: Principal, i: nat, d: Directory, size: Content -> nat): Registry {
    if !Owns(g, who, i) || !MayApprove(g, who, g.items[i], d, size) then g
    else g.(items := g.items[i := g.items[i].(stage := Approved, approvedBy := Some(who.actor))])
  }

  /** At most one other item of the tenant's product is active; it makes room. */
  function RetireCurrent(items: seq<Item>, i: nat, k: nat): seq<Item>
    requires i < |items| && k <= |items|
    decreases |items| - k
  {
    if k == |items| then items
    else if k != i && items[k].tenant == items[i].tenant && items[k].product == items[i].product && items[k].stage == Active then
      items[k := items[k].(stage := Retired)]
    else RetireCurrent(items, i, k + 1)
  }

  function Activated(g: Registry, who: Principal, i: nat): Registry
    requires i < |g.items|
  {
    var items := RetireCurrent(g.items, i, 0);
    if |items| != |g.items| then g
    else g.(items := items[i := g.items[i].(stage := Active, activatedBy := Some(who.actor))])
  }

  predicate MayActivate(g: Registry, who: Principal, x: Item, d: Directory, pack: Option<Pack>, size: Content -> nat) {
    && x.stage == Approved && x.evaluatedBy != Some(who.actor) && x.approvedBy != Some(who.actor)
    && pack.Some? && pack.value.key == x.pack && x.product in pack.value.products
    && pack.value.model == x.model && pack.value.version == x.version && pack.value.package == x.package
    && DatasetUsable(g, x, who) && CustomerDataset(g, x) && VerifiedEvidence(x, d, true, size).Some?
  }

  function ActivateStep(g: Registry, who: Principal, i: nat, d: Directory, pack: Option<Pack>, size: Content -> nat): Registry {
    if !Owns(g, who, i) || !MayActivate(g, who, g.items[i], d, pack, size) then g else Activated(g, who, i)
  }

  function RetireStep(g: Registry, who: Principal, i: nat): Registry {
    if !Owns(g, who, i) || (g.items[i].stage != Approved && g.items[i].stage != Active) then g
    else g.(items := g.items[i := g.items[i].(stage := Retired)])
  }

  predicate MayRollback(g: Registry, who: Principal, x: Item, d: Directory, pack: Option<Pack>, size: Content -> nat) {
    && x.stage == Retired && x.evaluatedBy != Some(who.actor) && x.approvedBy != Some(who.actor)
    && pack.Some? && pack.value.key == x.pack && pack.value.package == x.package
    && DatasetUsable(g, x, who) && CustomerDataset(g, x) && VerifiedEvidence(x, d, true, size).Some?
  }

  function RollbackStep(g: Registry, who: Principal, i: nat, d: Directory, pack: Option<Pack>, size: Content -> nat): Registry {
    if !Owns(g, who, i) || !MayRollback(g, who, g.items[i], d, pack, size) then g else Activated(g, who, i)
  }

  function Step(g: Registry, e: Event, size: Content -> nat): Registry {
    match e
    case Register(who, active, source, provenance, metadata, bytes) =>
      RegisterStep(g, who, active, source, provenance, metadata, bytes)
    case Revoke(who, j) => RevokeStep(g, who, j)
    case Create(who, active, item) => CreateStep(g, who, active, item)
    case Evaluate(who, i, d) => EvaluateStep(g, who, i, d, size)
    case Approve(who, i, d) => ApproveStep(g, who, i, d, size)
    case Activate(who, i, d, pack) => ActivateStep(g, who, i, d, pack, size)
    case Retire(who, i) => RetireStep(g, who, i)
    case Rollback(who, i, d, pack) => RollbackStep(g, who, i, d, pack, size)
  }

  function Run(g: Registry, es: seq<Event>, size: Content -> nat): Registry {
    if es == [] then g else Step(Run(g, es[..|es| - 1], size), es[|es| - 1], size)
  }

  // ---- what every call keeps -----------------------------------------------------------------------------

  predicate Released(x: Item) {
    x.stage == Approved || x.stage == Active
  }

  /** Whoever evaluated, approved and activated are three different people. */
  predicate ActorsOk(x: Item) {
    && (x.stage != Draft ==> x.evaluatedBy.Some?)
    && (x.stage in {Approved, Active, Retired} ==> x.approvedBy.Some? && x.approvedBy != x.evaluatedBy)
    && (x.stage == Active ==> x.activatedBy.Some? && x.activatedBy != x.evaluatedBy && x.activatedBy != x.approvedBy)
  }

  predicate Rivals(x: Item, y: Item) {
    x.tenant == y.tenant && x.product == y.product && x.stage == Active && y.stage == Active
  }

  predicate OneActive(items: seq<Item>) {
    forall i, j | 0 <= i < j < |items| :: !Rivals(items[i], items[j])
  }

  predicate DatasetsOk(datasets: seq<Dataset>) {
    && (forall i, j | 0 <= i < j < |datasets| :: datasets[i].tenant != datasets[j].tenant || datasets[i].fingerprint != datasets[j].fingerprint)
    && (forall j | 0 <= j < |datasets| :: ConsentOk(datasets[j]))
  }

  /** Validated customer data comes with the tenant's own consented provenance. */
  predicate ConsentOk(d: Dataset) {
    d.source == CustomerPilot && d.status == Validated ==>
      d.provenance.Some? && d.provenance.value.tenant == d.tenant && d.provenance.value.consent
  }

  predicate BoundOk(x: Item, datasets: seq<Dataset>) {
    x.dataset.Some? ==>
      && x.dataset.value < |datasets|
      && datasets[x.dataset.value].tenant == x.tenant
      && x.source == Some(SourceName(datasets[x.dataset.value].source))
      && x.fingerprint == Some(datasets[x.dataset.value].fingerprint)
  }

  predicate ItemsOk(items: seq<Item>, datasets: seq<Dataset>) {
    forall i | 0 <= i < |items| :: ActorsOk(items[i]) && BoundOk(items[i], datasets)
  }

  predicate RegistryOk(g: Registry) {
    OneActive(g.items) && DatasetsOk(g.datasets) && ItemsOk(g.items, g.datasets)
  }

  /** What identifies an item and its evidence never changes. */
  predicate SameIdentity(x: Item, y: Item) {
    && y.tenant == x.tenant && y.product == x.product && y.package == x.package && y.evidence == x.evidence
    && y.dataset == x.dataset && y.source == x.source && y.fingerprint == x.fingerprint
  }

  predicate DatasetKept(d: Dataset, e: Dataset) {
    e.tenant == d.tenant && e.source == d.source && e.fingerprint == d.fingerprint && (d.status == Revoked ==> e.status == Revoked)
  }

  predicate Kept(g: Registry, h: Registry) {
    && |g.items| <= |h.items| && |g.datasets| <= |h.datasets|
    && (forall i | 0 <= i < |g.items| :: SameIdentity(g.items[i], h.items[i]))
    && (forall j | 0 <= j < |g.datasets| :: DatasetKept(g.datasets[j], h.datasets[j]))
  }

  lemma KeptTransitive(a: Registry, b: Registry, c: Registry)
    requires Kept(a, b) && Kept(b, c)
    ensures Kept(a, c)
  {
    forall j | 0 <= j < |a.datasets| ensures DatasetKept(a.datasets[j], c.datasets[j]) {
      assert DatasetKept(a.datasets[j], b.datasets[j]) && DatasetKept(b.datasets[j], c.datasets[j]);
    }
    forall i | 0 <= i < |a.items| ensures SameIdentity(a.items[i], c.items[i]) {
      assert SameIdentity(a.items[i], b.items[i]) && SameIdentity(b.items[i], c.items[i]);
    }
  }

  lemma RegisterKeeps(g: Registry, who: Principal, active: bool, source: Source, provenance: Option<Provenance>,
                      metadata: Option<Provenance>, bytes: Import)
    requires RegistryOk(g)
    ensures var h := RegisterStep(g, who, active, source, provenance, metadata, bytes); RegistryOk(h) && Kept(g, h)
  {
    var h := RegisterStep(g, who, active, source, provenance, metadata, bytes);
    forall j | 0 <= j < |h.datasets| ensures ConsentOk(h.datasets[j]) {
      if j < |g.datasets| { assert ConsentOk(g.datasets[j]); }
    }
    forall i | 0 <= i < |h.items| ensures ActorsOk(h.items[i]) && BoundOk(h.items[i], h.datasets) {
      assert BoundOk(g.items[i], g.datasets);
    }
  }

  lemma RevokeKeeps(g: Registry, who: Principal, j: nat)
    requires RegistryOk(g)
    ensures var h := RevokeStep(g, who, j); RegistryOk(h) && Kept(g, h)
  {
    var h := RevokeStep(g, who, j);
    forall k | 0 <= k < |h.datasets| ensures ConsentOk(h.datasets[k]) { assert ConsentOk(g.datasets[k]); }
    forall i | 0 <= i < |h.items| ensures ActorsOk(h.items[i]) && BoundOk(h.items[i], h.datasets) {
      assert BoundOk(g.items[i], g.datasets);
    }
  }

  lemma CreateKeeps(g: Registry, who: Principal, active: bool, x: Item)
    requires RegistryOk(g)
    ensures var h := CreateStep(g, who, active, x); RegistryOk(h) && Kept(g, h)
  {
    var h := CreateStep(g, who, active, x);
    forall i | 0 <= i < |h.items| ensures ActorsOk(h.items[i]) && BoundOk(h.items[i], h.datasets) {
      if i < |g.items| { assert ActorsOk(g.items[i]) && BoundOk(g.items[i], g.datasets); }
    }
    forall i, j | 0 <= i < j < |h.items| ensures !Rivals(h.items[i], h.items[j]) {
      if j < |g.items| { assert !Rivals(g.items[i], g.items[j]); }
    }
  }

  /** One item rewritten, and not made active. */
  lemma RewriteKeeps(g: Registry, i: nat, y: Item)
    requires RegistryOk(g) && i < |g.items| && SameIdentity(g.items[i], y) && y.stage != Active && ActorsOk(y)
    ensures RegistryOk(g.(items := g.items[i := y])) && Kept(g, g.(items := g.items[i := y]))
  {
    var items := g.items[i := y];
    forall k | 0 <= k < |items| ensures ActorsOk(items[k]) && BoundOk(items[k], g.datasets) {
      assert ActorsOk(g.items[k]) && BoundOk(g.items[k], g.datasets);
    }
    forall k, m | 0 <= k < m < |items| ensures !Rivals(items[k], items[m]) {
      assert !Rivals(g.items[k], g.items[m]);
    }
  }

  /** Making room retires at most the one rival and touches nothing else. */
  lemma {:induction false} RetireCurrentMeaning(items: seq<Item>, i: nat, k: nat)
    requires i < |items| && k <= |items| && OneActive(items)
    requires forall m | 0 <= m < k && m != i :: !Contends(items[m], items[i])
    ensures var r := RetireCurrent(items, i, k);
      && |r| == |items|
      && (forall m | 0 <= m < |items| :: r[m] == items[m] || (m != i && Contends(items[m], items[i]) && r[m] == items[m].(stage := Retired)))
      && (forall m | 0 <= m < |items| && m != i :: !Contends(r[m], items[i]))
    decreases |items| - k
  {
    if k < |items| {
      if k != i && Contends(items[k], items[i]) {
        forall m | 0 <= m < |items| && m != i && m != k ensures !Contends(items[m], items[i]) {
          if m < k { assert !Rivals(items[m], items[k]); } else { assert !Rivals(items[k], items[m]); }
        }
      } else {
        RetireCurrentMeaning(items, i, k + 1);
      }
    }
  }

  /** x is active for the product and tenant of y. */
  predicate Contends(x: Item, y: Item) {
    x.tenant == y.tenant && x.product == y.product && x.stage == Active
  }

  lemma ActivatedKeeps(g: Registry, who: Principal, i: nat)
    requires RegistryOk(g) && i < |g.items| && g.items[i].stage in {Approved, Retired}
    requires g.items[i].evaluatedBy != Some(who.actor) && g.items[i].approvedBy != Some(who.actor)
    ensures RegistryOk(Activated(g, who, i)) && Kept(g, Activated(g, who, i))
    ensures |Activated(g, who, i).items| == |g.items| && Activated(g, who, i).items[i].stage == Active
    ensures forall m | 0 <= m < |g.items| && m != i :: Released(Activated(g, who, i).items[m]) ==> Activated(g, who, i).items[m] == g.items[m]
  {
    var x := g.items[i];
    var r := RetireCurrent(g.items, i, 0);
    RetireCurrentMeaning(g.items, i, 0);
    var h := Activated(g, who, i);
    forall k | 0 <= k < |h.items| ensures ActorsOk(h.items[k]) && BoundOk(h.items[k], h.datasets) && SameIdentity(g.items[k], h.items[k]) {
      assert ActorsOk(g.items[k]) && BoundOk(g.items[k], g.datasets);
    }
    forall k, m | 0 <= k < m < |h.items| ensures !Rivals(h.items[k], h.items[m]) {
      assert !Rivals(g.items[k], g.items[m]);
      if k == i { assert !Contends(r[m], x); }
      if m == i { assert !Contends(r[k], x); }
    }
  }

  lemma EvaluateKeeps(g: Registry, who: Principal, i: nat, d: Directory, size: Content -> nat)
    requires RegistryOk(g)
    ensures var h := EvaluateStep(g, who, i, d, size); RegistryOk(h) && Kept(g, h)
  {
    if Owns(g, who, i) && g.items[i].stage == Draft {
      var v := VerifiedEvidence(g.items[i], d, false, size);
      if v.Some? { RewriteKeeps(g, i, EvaluatedItem(g.items[i], v.value, who.actor)); }
    }
  }

  lemma ApproveKeeps(g: Registry, who: Principal, i: nat, d: Directory, size: Content -> nat)
    requires RegistryOk(g)
    ensures var h := ApproveStep(g, who, i, d, size); RegistryOk(h) && Kept(g, h)
  {
    if Owns(g, who, i) && MayApprove(g, who, g.items[i], d, size) {
      assert ActorsOk(g.items[i]);
      RewriteKeeps(g, i, g.items[i].(stage := Approved, approvedBy := Some(who.actor)));
    }
  }

  lemma RetireKeeps(g: Registry, who: Principal, i: nat)
    requires RegistryOk(g)
    ensures var h := RetireStep(g, who, i); RegistryOk(h) && Kept(g, h)
  {
    if Owns(g, who, i) && Released(g.items[i]) {
      assert ActorsOk(g.items[i]);
      RewriteKeeps(g, i, g.items[i].(stage := Retired));
    }
  }

  lemma ActivateKeeps(g: Registry, who: Principal, i: nat, d: Directory, pack: Option<Pack>, size: Content -> nat)
    requires RegistryOk(g)
    ensures var h := ActivateStep(g, who, i, d, pack, size); RegistryOk(h) && Kept(g, h)
  {
    if Owns(g, who, i) && MayActivate(g, who, g.items[i], d, pack, size) { ActivatedKeeps(g, who, i); }
  }

  lemma RollbackKeeps(g: Registry, who: Principal, i: nat, d: Directory, pack: Option<Pack>, size: Content -> nat)
    requires RegistryOk(g)
    ensures var h := RollbackStep(g, who, i, d, pack, size); RegistryOk(h) && Kept(g, h)
  {
    if Owns(g, who, i) && MayRollback(g, who, g.items[i], d, pack, size) { ActivatedKeeps(g, who, i); }
  }

  lemma StepKeeps(g: Registry, e: Event, size: Content -> nat)
    requires RegistryOk(g)
    ensures var h := Step(g, e, size); RegistryOk(h) && Kept(g, h)
  {
    hide RegistryOk, Kept, RegisterStep, RevokeStep, CreateStep, EvaluateStep, ApproveStep, ActivateStep, RetireStep, RollbackStep;
    match e
    case Register(who, active, source, provenance, metadata, bytes) => RegisterKeeps(g, who, active, source, provenance, metadata, bytes);
    case Revoke(who, j) => RevokeKeeps(g, who, j);
    case Create(who, active, item) => CreateKeeps(g, who, active, item);
    case Evaluate(who, i, d) => EvaluateKeeps(g, who, i, d, size);
    case Approve(who, i, d) => ApproveKeeps(g, who, i, d, size);
    case Activate(who, i, d, pack) => ActivateKeeps(g, who, i, d, pack, size);
    case Retire(who, i) => RetireKeeps(g, who, i);
    case Rollback(who, i, d, pack) => RollbackKeeps(g, who, i, d, pack, size);
  }

  /** Over every run, rollbacks included: one ACTIVE item for each tenant and product, and three
      different people behind it. */
  lemma {:induction false} RunKeeps(g: Registry, es: seq<Event>, size: Content -> nat)
    requires RegistryOk(g)
    ensures RegistryOk(Run(g, es, size)) && Kept(g, Run(g, es, size))
  {
    if es != [] {
      RunKeeps(g, es[..|es| - 1], size);
      StepKeeps(Run(g, es[..|es| - 1], size), es[|es| - 1], size);
      KeptTransitive(g, Run(g, es[..|es| - 1], size), Run(g, es, size));
    }
  }
}
