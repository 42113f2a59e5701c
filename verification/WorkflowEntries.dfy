/** Which call, with which argument, takes an inspection into a status that a model or a person
    decides on. */
module WorkflowEntries {
  import opened Base
  import opened Domain
  import opened Workflow
  import opened WorkflowSafety
  import opened WorkflowRuns
  import Policy
  import Connector

  /** The inspection a call is about; a new one has no number yet. */
  function Subject(s: Service): Option<nat> {
    match s
    case CreateInspection(_, _, _, _) => None
    case ClaimReview(i, _, _) => Some(i)
    case DecideReview(i, _, _, _, _, _, _) => Some(i)
    case RequestAction(i, _, _, _, _, _) => Some(i)
    case ReplayAction(i, _, _) => Some(i)
    case CloseIncident(i) => Some(i)
    case WorkInference(i, _) => Some(i)
    case WorkAction(i, _, _) => Some(i)
  }

  /** A call leaves every inspection but its own alone. */
  lemma OthersUntouched(w: World, cfg: Settings, s: Service, j: nat)
    requires cfg.maxAttempts >= 1 && j < |w.cases| && Subject(s) != Some(j)
    ensures j < |Step(w, cfg, s).cases| && Step(w, cfg, s).cases[j] == w.cases[j]
  {
    hide MayDecide, MaybeInline, ProcessInference, ExecuteAction, Moves, Opened, ReplayedCase, AllSucceeded, Failing, Pendings;
  }

  /** Only a new inspection adds one, at the end. */
  lemma OnlyCreationAdds(w: World, cfg: Settings, s: Service)
    requires cfg.maxAttempts >= 1
    ensures |Step(w, cfg, s).cases| == |w.cases| || (s.CreateInspection? && |Step(w, cfg, s).cases| == |w.cases| + 1)
  {
    hide MayDecide, MaybeInline, ProcessInference, ExecuteAction, Moves, Opened, ReplayedCase, AllSucceeded, Failing, Pendings;
  }

  /** The status of inspection i after the call is this one, and it was not before. */
  predicate Enters(w: World, cfg: Settings, s: Service, i: nat, status: Status)
    requires cfg.maxAttempts >= 1
  {
    i < |Step(w, cfg, s).cases| && Step(w, cfg, s).cases[i].status == status && !(i < |w.cases| && w.cases[i].status == status)
  }

  /** An inspection that has an incident keeps one. */
  lemma IncidentStays(w: World, cfg: Settings, s: Service, i: nat)
    requires WorldOk(w) && cfg.maxAttempts >= 1 && i < |w.cases| && w.cases[i].incident.Some?
    ensures i < |Step(w, cfg, s).cases| && HasIncident(Step(w, cfg, s).cases[i].status)
  {
    hide CaseOk;
    StepKeeps(w, cfg, s);
    var v := Step(w, cfg, s);
    assert CaseKept(w.cases[i], v.cases[i]) && CaseIn(v.cases[i], i, v);
    IncidentMeansStatus(v.cases[i]);
  }

  lemma IncidentMeansStatus(c: Case)
    requires CaseOk(c)
    ensures c.incident.Some? <==> HasIncident(c.status)
    ensures c.task.Some? && c.task.value.open ==> UnderReview(c.status)
  {
  }

  /** Who may decide, condition by condition. */
  predicate Entitled(c: Case, actor: string, manager: bool, decision: Choice, expected: nat) {
    && c.task.Some? && c.task.value.open && c.task.value.version == expected
    && (c.task.value.assignee == None || c.task.value.assignee == Some(actor))
    && (decision in {Rework, Scrap, Investigate} ==> manager)
  }

  /** A decision of somebody entitled is carried out as decided: always for GOOD and
      UNABLE_TO_DETERMINE, and otherwise unless the call is rolled back, which needs a taken key or a
      connector that raises.  Nobody else changes anything. */
  lemma DecisionIsCarriedOut(w: World, cfg: Settings, i: nat, actor: string, manager: bool, decision: Choice, expected: nat,
                             incidentId: string, plans: seq<seq<Connector.Attempt>>)
    requires WorldOk(w) && cfg.maxAttempts >= 1 && i < |w.cases|
    ensures var v := Step(w, cfg, DecideReview(i, actor, manager, decision, expected, incidentId, plans));
      if !Entitled(w.cases[i], actor, manager, decision, expected) then v == w
      else
        || (v.cases == w.cases[i := v.cases[i]] && DecidedAs(w.cases[i], v.cases[i], actor, decision, incidentId, cfg.inline))
        || (v.cases == w.cases && v.keys == w.keys && decision in {Rework, Scrap, Investigate}
            && (cfg.inline || incidentId + ":mes:hold" in w.keys || incidentId + ":qms:create" in w.keys))
  {
    var c := w.cases[i];
    assert CaseIn(c, i, w);
    EntitledDecides(w, cfg, i, actor, manager, decision, expected, incidentId, plans);
    if Entitled(c, actor, manager, decision, expected) {
      IncidentMeansStatus(c);
      hide CaseOk, MaybeInline, DecidedAs, Moves, Opened, Step, OpenIncident;
      var t := Task(false, Some(actor), c.task.value.version + 1);
      assert Completed(c, actor) == c.(task := Some(t));
      if decision == Good {
        SimpleOutcome(c, actor, decision, ReleaseApproved, incidentId, cfg.inline);
      } else if decision == UnableToDetermine {
        SimpleOutcome(c, actor, decision, Escalated, incidentId, cfg.inline);
      } else {
        IncidentOpens(c, t, incidentId);
        OpeningOutcome(w, cfg, i, actor, decision, incidentId, plans);
      }
    }
  }

  lemma EntitledDecides(w: World, cfg: Settings, i: nat, actor: string, manager: bool, decision: Choice, expected: nat,
                        incidentId: string, plans: seq<seq<Connector.Attempt>>)
    requires cfg.maxAttempts >= 1 && i < |w.cases|
    ensures Step(w, cfg, DecideReview(i, actor, manager, decision, expected, incidentId, plans)) ==
      if Entitled(w.cases[i], actor, manager, decision, expected)
      then Decided(w, cfg, i, Completed(w.cases[i], actor), decision, incidentId, plans) else w
  {
    hide Decided;
  }

  lemma SimpleOutcome(c: Case, actor: string, decision: Choice, target: Status, incidentId: string, inline: bool)
    requires CaseOk(c) && UnderReview(c.status) && c.task.Some?
    requires (decision == Good && target == ReleaseApproved) || (decision == UnableToDetermine && target == Escalated)
    ensures var m := Moves(Completed(c, actor), [target]); m.Some? && DecidedAs(c, m.value, actor, decision, incidentId, inline)
  {
    MovesOnce(Completed(c, actor), target);
  }

  lemma OpeningOutcome(w: World, cfg: Settings, i: nat, actor: string, decision: Choice, incidentId: string, plans: seq<seq<Connector.Attempt>>)
    requires cfg.maxAttempts >= 1 && i < |w.cases| && CaseOk(w.cases[i]) && UnderReview(w.cases[i].status) && w.cases[i].task.Some?
    requires decision in {Rework, Scrap, Investigate}
    ensures var v := OpenIncident(w, cfg, i, Opened(Completed(w.cases[i], actor), incidentId), incidentId, plans);
      || (v.cases == w.cases[i := v.cases[i]] && DecidedAs(w.cases[i], v.cases[i], actor, decision, incidentId, cfg.inline))
      || (v.cases == w.cases && v.keys == w.keys
          && (cfg.inline || incidentId + ":mes:hold" in w.keys || incidentId + ":qms:create" in w.keys))
  {
    var c := w.cases[i];
    var m := OpenedCase(c, actor, incidentId);
    hide CaseOk, MaybeInline, DecidedAs, Carried, Opened;
    InlineCarries(m, w.stores, cfg, plans);
    var r := MaybeInline(m, w.stores, cfg, plans).0;
    if r.Some? { CarriedIsDecided(c, m, r.value, actor, decision, incidentId, cfg.inline); }
  }

  /** The case right after an incident was opened for it. */
  lemma OpenedCase(c: Case, actor: string, incidentId: string) returns (m: Case)
    requires CaseOk(c) && UnderReview(c.status) && c.task.Some?
    ensures Opened(Completed(c, actor), incidentId) == Some(m) && c.incident.None?
    ensures m == Completed(c, actor).(status := ActionPending, incident := Some(InitialActions(incidentId)),
      log := c.log + [Edge(c.status, NonconformanceConfirmed), Edge(NonconformanceConfirmed, ActionPending)])
  {
    var e := Completed(c, actor).(incident := Some(InitialActions(incidentId)));
    var a := e.(status := NonconformanceConfirmed, log := e.log + [Edge(e.status, NonconformanceConfirmed)]);
    m := a.(status := ActionPending, log := a.log + [Edge(NonconformanceConfirmed, ActionPending)]);
    assert [NonconformanceConfirmed, ActionPending][1..] == [ActionPending];
    MovesOnce(a, ActionPending);
    assert Moves(e, [NonconformanceConfirmed, ActionPending]) == Moves(a, [ActionPending]);
    assert m.log == c.log + [Edge(c.status, NonconformanceConfirmed), Edge(NonconformanceConfirmed, ActionPending)];
  }

  lemma CarriedIsDecided(c: Case, m: Case, d: Case, actor: string, decision: Choice, incidentId: string, inline: bool)
    requires c.task.Some? && c.incident.None? && decision in {Rework, Scrap, Investigate}
    requires m == Completed(c, actor).(status := ActionPending, incident := Some(InitialActions(incidentId)),
      log := c.log + [Edge(c.status, NonconformanceConfirmed), Edge(NonconformanceConfirmed, ActionPending)])
    requires Carried(m, d) && (!inline ==> d == m)
    ensures DecidedAs(c, d, actor, decision, incidentId, inline)
  {
  }

  // ---- what people decide ----------------------------------------------------------------------

  /** RELEASE_APPROVED is entered by no other call than an entitled GOOD decision on that very
      inspection, ESCALATED by none but an entitled UNABLE_TO_DETERMINE. */
  lemma ReleaseAndEscalationAreDecided(w: World, cfg: Settings, s: Service, i: nat, status: Status)
    requires WorldOk(w) && cfg.maxAttempts >= 1 && status in {ReleaseApproved, Escalated} && Enters(w, cfg, s, i, status)
    ensures s.DecideReview? && s.i == i && i < |w.cases| && UnderReview(w.cases[i].status)
    ensures s.decision == if status == ReleaseApproved then Good else UnableToDetermine
    ensures Entitled(w.cases[i], s.actor, s.manager, s.decision, s.expected)
  {
    hide WorldOk, Step;
    OnlyCreationAdds(w, cfg, s);
    if i < |w.cases| && Subject(s) != Some(i) { OthersUntouched(w, cfg, s, i); }
    if i < |w.cases| && w.cases[i].incident.Some? { IncidentStays(w, cfg, s, i); }
    match s
    case CreateInspection(product, station, policy, inf) => CreationLands(w, cfg, product, station, policy, inf);
    case ClaimReview(j, actor, expected) => ClaimKeepsStatus(w, cfg, j, actor, expected);
    case DecideReview(j, actor, manager, decision, expected, incidentId, plans) =>
      DecisionIsCarriedOut(w, cfg, i, actor, manager, decision, expected, incidentId, plans);
      EntitledReviews(w, i);
      DecidedStatus(w, cfg, s, i);
    case RequestAction(j, _, _, _, _, _) => NothingWithoutIncident(w, cfg, s, i);
    case ReplayAction(j, _, _) => NothingWithoutIncident(w, cfg, s, i);
    case CloseIncident(j) => NothingWithoutIncident(w, cfg, s, i);
    case WorkInference(j, inf) => InferenceLandsAt(w, cfg, i, inf);
    case WorkAction(j, k, plan) => NothingWithoutIncident(w, cfg, s, i);
  }

  lemma NothingWithoutIncident(w: World, cfg: Settings, s: Service, i: nat)
    requires cfg.maxAttempts >= 1 && i < |w.cases| && w.cases[i].incident.None? && Subject(s) == Some(i)
    requires s.RequestAction? || s.ReplayAction? || s.CloseIncident? || s.WorkAction?
    ensures Step(w, cfg, s) == w
  {
  }

  lemma ClaimKeepsStatus(w: World, cfg: Settings, i: nat, actor: string, expected: nat)
    requires cfg.maxAttempts >= 1
    ensures var v := Step(w, cfg, ClaimReview(i, actor, expected));
      |v.cases| == |w.cases| && forall j | 0 <= j < |w.cases| :: v.cases[j].status == w.cases[j].status
  {
  }

  lemma EntitledReviews(w: World, i: nat)
    requires WorldOk(w) && i < |w.cases|
    ensures w.cases[i].task.Some? && w.cases[i].task.value.open ==> UnderReview(w.cases[i].status) && w.cases[i].incident.None?
  {
    assert CaseIn(w.cases[i], i, w);
  }

  /** After a decision that changed the inspection, its status tells GOOD, UNABLE_TO_DETERMINE and
      the rest apart. */
  lemma DecidedStatus(w: World, cfg: Settings, s: Service, i: nat)
    requires WorldOk(w) && cfg.maxAttempts >= 1 && i < |w.cases| && s.DecideReview? && i < |Step(w, cfg, s).cases|
    requires DecidedAs(w.cases[i], Step(w, cfg, s).cases[i], s.actor, s.decision, s.incidentId, cfg.inline) && w.cases[i].incident.None?
    ensures var d := Step(w, cfg, s).cases[i];
      && (s.decision == Good ==> d.status == ReleaseApproved)
      && (s.decision == UnableToDetermine ==> d.status == Escalated)
      && (s.decision in {Rework, Scrap, Investigate} ==> HasIncident(d.status))
  {
    StepKeeps(w, cfg, s);
    var v := Step(w, cfg, s);
    assert CaseIn(v.cases[i], i, v);
    hide Step;
    IncidentMeansStatus(v.cases[i]);
  }

  /** Whoever is found released by a person, or escalated, was so by one decision of the run. */
  lemma {:induction false} ReleaseWasDecided(stores: Stores, cfg: Settings, ss: seq<Service>, i: nat) returns (n: nat)
    requires StoresOk(stores) && cfg.maxAttempts >= 1 && i < |Run(Fresh(stores), cfg, ss).cases|
    requires Run(Fresh(stores), cfg, ss).cases[i].status in {ReleaseApproved, Escalated}
    ensures n < |ss| && ss[n].DecideReview? && ss[n].i == i
    ensures ss[n].decision == if Run(Fresh(stores), cfg, ss).cases[i].status == ReleaseApproved then Good else UnableToDetermine
    ensures i < |Run(Fresh(stores), cfg, ss[..n]).cases|
      && Entitled(Run(Fresh(stores), cfg, ss[..n]).cases[i], ss[n].actor, ss[n].manager, ss[n].decision, ss[n].expected)
  {
    hide Step, WorldOk, Entitled;
    var before, last := ss[..|ss| - 1], ss[|ss| - 1];
    var w := Run(Fresh(stores), cfg, before);
    RunKeeps(Fresh(stores), cfg, before, |before|);
    var status := Run(Fresh(stores), cfg, ss).cases[i].status;
    if i < |w.cases| && w.cases[i].status == status {
      n := ReleaseWasDecided(stores, cfg, before, i);
      assert before[n] == ss[n] && before[..n] == ss[..n];
    } else {
      n := |ss| - 1;
      ReleaseAndEscalationAreDecided(w, cfg, last, i, status);
    }
  }

  // ---- what the score decides --------------------------------------------------------------------

  /** What an inference makes of a waiting inspection, whatever it was. */
  predicate Landed(d: Case, inf: Inference) {
    && d.status in {AutoReleased, ReviewRequired, BatchHeld}
    && (inf.ModelUnavailable? ==> d.status == ReviewRequired && d.score.None?)
    && (inf.Score? ==> d.score == Some(inf.score))
  }

  lemma InferenceLands(c: Case, inf: Inference)
    requires CaseOk(c) && c.status == Validated
    ensures var d := ProcessInference(c, inf); d.Some? ==> Landed(d.value, inf)
  {
    if inf.Score? { ScoreIsRouted(c, inf.score); Policy.RoutingIsExact(c.policy, c.product, c.station, inf.score); }
    if inf.ModelUnavailable? { FailedInferenceIsReviewed(c); }
  }

  lemma InferenceLandsAt(w: World, cfg: Settings, i: nat, inf: Inference)
    requires WorldOk(w) && cfg.maxAttempts >= 1 && i < |w.cases|
    ensures var v := Step(w, cfg, WorkInference(i, inf)); v.cases == w.cases || (|v.cases| == |w.cases| && Landed(v.cases[i], inf))
  {
    assert CaseIn(w.cases[i], i, w);
    hide CaseOk, ProcessInference;
    if w.cases[i].status == Validated { InferenceLands(w.cases[i], inf); } else { InferenceSkips(w.cases[i], inf); }
  }

  lemma InferenceSkips(c: Case, inf: Inference)
    requires c.status != Validated
    ensures ProcessInference(c, inf) == Some(c)
  {
  }

  lemma CreationLands(w: World, cfg: Settings, product: string, station: string, policy: Policy.Config, inf: Inference)
    requires cfg.maxAttempts >= 1
    ensures var v := Step(w, cfg, CreateInspection(product, station, policy, inf));
      v == w || (v.cases == w.cases + [v.cases[|w.cases|]]
                 && if cfg.inline then Landed(v.cases[|w.cases|], inf) else v.cases[|w.cases|].status == Validated)
  {
    var c := Case(product, station, policy, Validated, [Edge(Received, Validated)], None, [Waiting], None, None);
    if Policy.ConfigOk(policy) {
      assert CaseOk(c) by { PathStep([], Received, Validated); assert [] + [Edge(Received, Validated)] == [Edge(Received, Validated)]; }
      hide ProcessInference, CaseOk;
      InferenceLands(c, inf);
    }
  }

  /** In every committed state of every run the score explains the route: released below the review
      threshold of the resolved rule, held from its hold threshold on, in review between the two, or
      in review without a score because the model failed. */
  lemma RoutesAreExplained(stores: Stores, cfg: Settings, ss: seq<Service>, i: nat)
    requires StoresOk(stores) && cfg.maxAttempts >= 1 && i < |Run(Fresh(stores), cfg, ss).cases|
    ensures var c := Run(Fresh(stores), cfg, ss).cases[i];
      var r := Policy.Resolve(c.policy, c.product, c.station);
      && (c.status == AutoReleased ==> c.score.Some? && r.Ok? && c.score.value < r.value.review)
      && (c.status == BatchHeld ==> c.score.Some? && r.Ok? && c.score.value >= r.value.hold)
      && (c.status == ReviewRequired ==>
            (c.score.Some? && r.Ok? && r.value.review <= c.score.value < r.value.hold)
            || (c.score.None? && Edge(Inferencing, InferenceFailed) in c.log))
  {
    RunKeeps(Fresh(stores), cfg, ss, 0);
    assert CaseIn(Run(Fresh(stores), cfg, ss).cases[i], i, Run(Fresh(stores), cfg, ss));
  }

  /** A stored score is never changed, whatever follows. */
  lemma ScoreIsForever(stores: Stores, cfg: Settings, ss: seq<Service>, n: nat, i: nat)
    requires StoresOk(stores) && cfg.maxAttempts >= 1 && n <= |ss| && i < |Run(Fresh(stores), cfg, ss[..n]).cases|
    requires Run(Fresh(stores), cfg, ss[..n]).cases[i].score.Some?
    ensures i < |Run(Fresh(stores), cfg, ss).cases|
    ensures Run(Fresh(stores), cfg, ss).cases[i].score == Run(Fresh(stores), cfg, ss[..n]).cases[i].score
  {
    RunKeeps(Fresh(stores), cfg, ss, n);
    assert CaseKept(Run(Fresh(stores), cfg, ss[..n]).cases[i], Run(Fresh(stores), cfg, ss).cases[i]);
  }
}
