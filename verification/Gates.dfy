/** The pilot release gates. */
module Gates {
  import opened Base

  datatype Source = DemoSynthetic | OfficialBenchmark | CustomerPilot

  datatype Rule = AtLeast(least: real) | AtMost(most: real) | MustHold

  datatype Check = Pass | Fail | Missing | NotApplicable

  datatype Decision = Go | NoGo | Insufficient

  datatype Measure =
    | ImageAuroc | DefectErrorAutoReleaseRate | ReviewHoldRecall | HoldRecall | NormalReviewHoldRate | WarmP95Ms
    | NoSplitLeakage | ModelPackageIntegrity | CustomerDataProvenance

  datatype Gate = Gate(name: Measure, rule: Rule)

  const PILOT_GATES := [
    Gate(ImageAuroc, AtLeast(0.90)),
    Gate(DefectErrorAutoReleaseRate, AtMost(0.05)),
    Gate(ReviewHoldRecall, AtLeast(0.95)),
    Gate(HoldRecall, AtLeast(0.80)),
    Gate(NormalReviewHoldRate, AtMost(0.25)),
    Gate(WarmP95Ms, AtMost(500.0)),
    Gate(NoSplitLeakage, MustHold),
    Gate(ModelPackageIntegrity, MustHold),
    Gate(CustomerDataProvenance, MustHold)]

  /** `metrics` holds the metrics that are not null. */
  datatype Inputs = Inputs(
    metrics: map<Measure, real>, packageVerified: bool, noLeakage: bool, complete: bool,
    source: Source, provenanceValid: Option<bool>)

  datatype GateResult = GateResult(
    decision: Decision, checks: map<Measure, Check>, missing: seq<Measure>, failed: seq<Measure>, eligible: bool)

  function CheckOf(g: Gate, x: Inputs): Check {
    match g.rule
    case MustHold =>
      if g.name == CustomerDataProvenance && x.source != CustomerPilot then NotApplicable
      else
        var value :=
          if g.name == ModelPackageIntegrity then Some(x.packageVerified)
          else if g.name == NoSplitLeakage then Some(x.noLeakage)
          else x.provenanceValid;
        if value.None? then Missing else if value.value then Pass else Fail
    case AtLeast(least) =>
      if g.name !in x.metrics then Missing else if x.metrics[g.name] >= least then Pass else Fail
    case AtMost(most) =>
      if g.name !in x.metrics then Missing else if x.metrics[g.name] <= most then Pass else Fail
  }

  function ChecksOf(gates: seq<Gate>, x: Inputs): map<Measure, Check> {
    if gates == [] then map[] else ChecksOf(gates[..|gates| - 1], x)[gates[|gates| - 1].name := CheckOf(gates[|gates| - 1], x)]
  }

  /** Names of the gates with this outcome, in gate order. */
  function NamesOf(gates: seq<Gate>, x: Inputs, outcome: Check): seq<Measure> {
    if gates == [] then []
    else
      var rest := NamesOf(gates[..|gates| - 1], x, outcome);
      if CheckOf(gates[|gates| - 1], x) == outcome then rest + [gates[|gates| - 1].name] else rest
  }

  lemma {:induction false} NamesOfEmptyIff(gates: seq<Gate>, x: Inputs, outcome: Check)
    ensures NamesOf(gates, x, outcome) == [] <==> forall g | g in gates :: CheckOf(g, x) != outcome
  {
    if gates != [] {
      NamesOfEmptyIff(gates[..|gates| - 1], x, outcome);
      assert gates == gates[..|gates| - 1] + [gates[|gates| - 1]];
    }
  }

  lemma {:induction false} ChecksOfMeaning(gates: seq<Gate>, x: Inputs)
    requires forall i, j | 0 <= i < j < |gates| :: gates[i].name != gates[j].name
    ensures forall g | g in gates :: g.name in ChecksOf(gates, x) && ChecksOf(gates, x)[g.name] == CheckOf(g, x)
    ensures forall n | n in ChecksOf(gates, x) :: exists g :: g in gates && g.name == n
  {
    if gates != [] {
      ChecksOfMeaning(gates[..|gates| - 1], x);
      assert gates == gates[..|gates| - 1] + [gates[|gates| - 1]];
    }
  }

  function Decide(complete: bool, missing: seq<Measure>, failed: seq<Measure>): Decision {
    if !complete || missing != [] then Insufficient else if failed != [] then NoGo else Go
  }

  function Evaluate(x: Inputs): GateResult {
    var missing, failed := NamesOf(PILOT_GATES, x, Missing), NamesOf(PILOT_GATES, x, Fail);
    var decision := Decide(x.complete, missing, failed);
    GateResult(decision, ChecksOf(PILOT_GATES, x), missing, failed,
      x.source == CustomerPilot && decision == Go && x.provenanceValid == Some(true))
  }

  /** All measured gates pass and the evidence is not from another source. */
  predicate MeetsEveryGate(x: Inputs) {
    && ImageAuroc in x.metrics && x.metrics[ImageAuroc] >= 0.90
    && DefectErrorAutoReleaseRate in x.metrics && x.metrics[DefectErrorAutoReleaseRate] <= 0.05
    && ReviewHoldRecall in x.metrics && x.metrics[ReviewHoldRecall] >= 0.95
    && HoldRecall in x.metrics && x.metrics[HoldRecall] >= 0.80
    && NormalReviewHoldRate in x.metrics && x.metrics[NormalReviewHoldRate] <= 0.25
    && WarmP95Ms in x.metrics && x.metrics[WarmP95Ms] <= 500.0
    && x.noLeakage && x.packageVerified
    && (x.source == CustomerPilot ==> x.provenanceValid == Some(true))
  }

  predicate Met(g: Gate, x: Inputs) {
    CheckOf(g, x) != Missing && CheckOf(g, x) != Fail
  }

  lemma MetMeansEveryGate(x: Inputs)
    requires forall g | g in PILOT_GATES :: Met(g, x)
    ensures MeetsEveryGate(x)
  {
    var g := PILOT_GATES;
    assert Met(g[0], x) && Met(g[1], x) && Met(g[2], x) && Met(g[3], x) && Met(g[4], x);
    assert Met(g[5], x) && Met(g[6], x) && Met(g[7], x) && Met(g[8], x);
  }

  lemma EveryGateMeansMet(x: Inputs, i: nat)
    requires MeetsEveryGate(x) && i < |PILOT_GATES|
    ensures Met(PILOT_GATES[i], x)
  {
  }

  lemma EveryGateListed(x: Inputs)
    ensures (forall g | g in PILOT_GATES :: Met(g, x)) <==> MeetsEveryGate(x)
  {
    if forall g | g in PILOT_GATES :: Met(g, x) { MetMeansEveryGate(x); }
    if MeetsEveryGate(x) {
      forall i | 0 <= i < |PILOT_GATES| ensures Met(PILOT_GATES[i], x) { EveryGateMeansMet(x, i); }
    }
  }

  /** GO exactly when the evidence is complete and every gate is met; approval additionally
      needs customer data with valid provenance. */
  lemma GoIffEveryGate(x: Inputs)
    ensures Evaluate(x).decision == Go <==> x.complete && MeetsEveryGate(x)
    ensures Evaluate(x).eligible <==> x.complete && MeetsEveryGate(x) && x.source == CustomerPilot
    ensures Evaluate(x).decision == Insufficient <==>
      !x.complete || exists m: Measure :: Known(m, x).None?
  {
    NamesOfEmptyIff(PILOT_GATES, x, Missing);
    NamesOfEmptyIff(PILOT_GATES, x, Fail);
    EveryGateListed(x);
    forall m: Measure ensures m in Evaluate(x).missing <==> Known(m, x).None? { ChecksAreExact(x, m); }
    if Evaluate(x).missing != [] { assert Evaluate(x).missing[0] in Evaluate(x).missing; }
  }

  /** The bound a metric has to meet. */
  predicate Suffices(m: Measure, value: real) {
    match m
    case ImageAuroc => value >= 0.90
    case DefectErrorAutoReleaseRate => value <= 0.05
    case ReviewHoldRecall => value >= 0.95
    case HoldRecall => value >= 0.80
    case NormalReviewHoldRate => value <= 0.25
    case WarmP95Ms => value <= 500.0
    case _ => true
  }

  /** What is known about a measure: nothing, or whether it is good enough. */
  function Known(m: Measure, x: Inputs): Option<bool> {
    match m
    case NoSplitLeakage => Some(x.noLeakage)
    case ModelPackageIntegrity => Some(x.packageVerified)
    case CustomerDataProvenance => if x.source == CustomerPilot then x.provenanceValid else Some(true)
    case _ => if m in x.metrics then Some(Suffices(m, x.metrics[m])) else None
  }

  predicate ChecksAs(c: Check, m: Measure, x: Inputs) {
    if m == CustomerDataProvenance && x.source != CustomerPilot then c == NotApplicable
    else c == match Known(m, x) case None => Missing case Some(ok) => if ok then Pass else Fail
  }

  lemma GateChecks(x: Inputs, i: nat)
    requires i < |PILOT_GATES|
    ensures ChecksAs(CheckOf(PILOT_GATES[i], x), PILOT_GATES[i].name, x)
  {
  }

  lemma GateFor(m: Measure) returns (g: Gate)
    ensures g in PILOT_GATES && g.name == m
  {
    var i := match m
      case ImageAuroc => 0 case DefectErrorAutoReleaseRate => 1 case ReviewHoldRecall => 2 case HoldRecall => 3
      case NormalReviewHoldRate => 4 case WarmP95Ms => 5 case NoSplitLeakage => 6 case ModelPackageIntegrity => 7
      case CustomerDataProvenance => 8;
    g := PILOT_GATES[i];
  }

  /** Every measure has a check, by what is known about it; the two lists name exactly the checks
      that miss evidence or fail. */
  lemma ChecksAreExact(x: Inputs, m: Measure)
    ensures var r := Evaluate(x);
      && m in r.checks && ChecksAs(r.checks[m], m, x)
      && (m in r.missing <==> r.checks[m] == Missing) && (m in r.failed <==> r.checks[m] == Fail)
  {
    var g := GateFor(m);
    var i :| 0 <= i < |PILOT_GATES| && PILOT_GATES[i] == g;
    GateChecks(x, i);
    GatesDiffer();
    hide CheckOf, ChecksOf, NamesOf, ChecksAs, PILOT_GATES;
    ChecksOfMeaning(PILOT_GATES, x);
    NamesOfMeaning(PILOT_GATES, x, Missing);
    NamesOfMeaning(PILOT_GATES, x, Fail);
  }

  lemma GatesDiffer()
    ensures forall i, j | 0 <= i < j < |PILOT_GATES| :: PILOT_GATES[i].name != PILOT_GATES[j].name
    ensures forall g, h | g in PILOT_GATES && h in PILOT_GATES && g.name == h.name :: g == h
  {
  }

  lemma {:induction false} NamesOfMeaning(gates: seq<Gate>, x: Inputs, outcome: Check)
    ensures forall m :: m in NamesOf(gates, x, outcome) <==> exists g :: g in gates && g.name == m && CheckOf(g, x) == outcome
  {
    if gates != [] {
      NamesOfMeaning(gates[..|gates| - 1], x, outcome);
      assert gates == gates[..|gates| - 1] + [gates[|gates| - 1]];
    }
  }

  /** For customer data a GO leaves no check short of PASS. */
  lemma GoPassesEveryCheck(x: Inputs)
    requires Evaluate(x).decision == Go && x.source == CustomerPilot
    ensures forall n | n in Evaluate(x).checks :: Evaluate(x).checks[n] == Pass
  {
    NamesOfEmptyIff(PILOT_GATES, x, Missing);
    NamesOfEmptyIff(PILOT_GATES, x, Fail);
    ChecksOfMeaning(PILOT_GATES, x);
  }

  method EvaluatePilotGates(x: Inputs) returns (r: GateResult)
    ensures r == Evaluate(x)
  {
    var checks: map<Measure, Check> := map[];
    var missing: seq<Measure>, failed: seq<Measure> := [], [];
    var i := 0;
    while i < |PILOT_GATES|
      invariant 0 <= i <= |PILOT_GATES|
      invariant checks == ChecksOf(PILOT_GATES[..i], x)
      invariant missing == NamesOf(PILOT_GATES[..i], x, Missing)
      invariant failed == NamesOf(PILOT_GATES[..i], x, Fail)
    {
      assert PILOT_GATES[..i + 1][..i] == PILOT_GATES[..i];
      var g := PILOT_GATES[i];
      var outcome := CheckOf(g, x);
      checks := checks[g.name := outcome];
      if outcome == Missing { missing := missing + [g.name]; }
      if outcome == Fail { failed := failed + [g.name]; }
      i := i + 1;
    }
    assert PILOT_GATES[..i] == PILOT_GATES;
    var decision := if !x.complete || missing != [] then Insufficient else if failed != [] then NoGo else Go;
    r := GateResult(decision, checks, missing, failed,
      x.source == CustomerPilot && decision == Go && x.provenanceValid == Some(true));
  }

  // ---- public names -------------------------------------------------------------------------

  function SourceName(s: Source): string {
    match s
    case DemoSynthetic => "DEMO_SYNTHETIC"
    case OfficialBenchmark => "OFFICIAL_BENCHMARK"
    case CustomerPilot => "CUSTOMER_PILOT"
  }

  function DecisionName(d: Decision): string {
    match d
    case Go => "GO"
    case NoGo => "NO-GO"
    case Insufficient => "INSUFFICIENT_EVIDENCE"
  }

  function CheckName(c: Check): string {
    match c
    case Pass => "PASS"
    case Fail => "FAIL"
    case Missing => "INSUFFICIENT_EVIDENCE"
    case NotApplicable => "NOT_APPLICABLE"
  }

  function Scope(s: Source): string {
    if s == OfficialBenchmark then "BENCHMARK" else "CUSTOMER_PILOT"
  }

  function Outcome(d: Decision): string {
    match d
    case Go => "PASS"
    case NoGo => "NO_GO"
    case Insufficient => "INSUFFICIENT_EVIDENCE"
  }

  function ReportStatus(s: Source, d: Decision): string {
    if s == DemoSynthetic then "DEMO_ONLY" else Scope(s) + "_" + Outcome(d)
  }

  function ApprovalStatus(s: Source, r: GateResult): string {
    if s == DemoSynthetic then "DEMO_ONLY"
    else if s == OfficialBenchmark && r.decision == Go then "READY_FOR_CUSTOMER_DATA"
    else if s == CustomerPilot && r.eligible then "PENDING_APPROVAL"
    else "DRAFT_ONLY"
  }

  /** The report status tells sources and decisions apart, and is never a bare GO. */
  lemma ReportStatusIsScoped(s: Source, d: Decision, t: Source, e: Decision)
    ensures ReportStatus(s, d) !in {"GO", "NO-GO", "INSUFFICIENT_EVIDENCE"}
    ensures s != DemoSynthetic && ReportStatus(s, d) == ReportStatus(t, e) ==> s == t && d == e
    ensures ReportStatus(s, d) == "DEMO_ONLY" <==> s == DemoSynthetic
  {
    assert ReportStatus(s, d)[0] == (match s case DemoSynthetic => 'D' case OfficialBenchmark => 'B' case CustomerPilot => 'C');
    assert ReportStatus(t, e)[0] == (match t case DemoSynthetic => 'D' case OfficialBenchmark => 'B' case CustomerPilot => 'C');
    assert |Outcome(d)| == (match d case Go => 4 case NoGo => 5 case Insufficient => 21);
    assert |Outcome(e)| == (match e case Go => 4 case NoGo => 5 case Insufficient => 21);
    assert |Scope(s)| == if s == OfficialBenchmark then 9 else 14;
  }

  predicate EndsWith(s: string, end: string) {
    |end| <= |s| && s[|s| - |end|..] == end
  }

  /** Outside demonstrations a report status ends in the word for its decision. */
  lemma ReportStatusSays(s: Source)
    requires s != DemoSynthetic
    ensures EndsWith(ReportStatus(s, Go), "_PASS") && EndsWith(ReportStatus(s, NoGo), "_NO_GO")
    ensures EndsWith(ReportStatus(s, Insufficient), "_INSUFFICIENT_EVIDENCE")
  {
    Ending(s, Go, "_PASS");
    Ending(s, NoGo, "_NO_GO");
    Ending(s, Insufficient, "_INSUFFICIENT_EVIDENCE");
  }

  lemma Ending(s: Source, d: Decision, end: string)
    requires s != DemoSynthetic && end == "_" + Outcome(d)
    ensures EndsWith(ReportStatus(s, d), end)
  {
    hide Scope, Outcome, EndsWith;
    Joined(Scope(s), "_", Outcome(d));
  }

  lemma Joined(a: string, b: string, c: string)
    ensures EndsWith(a + b + c, b + c)
  {
    assert a + b + c == a + (b + c);
  }
}
