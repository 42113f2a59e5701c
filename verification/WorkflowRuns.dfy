/** What the quality workflow promises over whole runs of service calls. */
module WorkflowRuns {
  import opened Base
  import opened Domain
  import opened Workflow
  import opened WorkflowSafety
  import Policy
  import Connector

  function Fresh(stores: Stores): World {
    World([], map[], stores)
  }

  lemma {:induction false} RunKeeps(w: World, cfg: Settings, ss: seq<Service>, n: nat)
    requires WorldOk(w) && cfg.maxAttempts >= 1 && n <= |ss|
    ensures WorldOk(Run(w, cfg, ss)) && WorldOk(Run(w, cfg, ss[..n]))
    ensures WorldKept(Run(w, cfg, ss[..n]), Run(w, cfg, ss))
    ensures StoresGrow(Run(w, cfg, ss[..n]).stores, Run(w, cfg, ss).stores)
    decreases |ss|
  {
    if n == |ss| {
      assert ss[..n] == ss;
      if ss != [] {
        var before := ss[..|ss| - 1];
        RunKeeps(w, cfg, before, |before|);
        StepKeeps(Run(w, cfg, before), cfg, ss[|ss| - 1]);
      }
      Unchanged(Run(w, cfg, ss));
    } else {
      var before := ss[..|ss| - 1];
      assert before[..n] == ss[..n];
      RunKeeps(w, cfg, before, n);
      StepKeeps(Run(w, cfg, before), cfg, ss[|ss| - 1]);
      WorldKeptTransitive(Run(w, cfg, ss[..n]), Run(w, cfg, before), Run(w, cfg, ss));
      StoresGrowTransitive(Run(w, cfg, ss[..n]).stores, Run(w, cfg, before).stores, Run(w, cfg, ss).stores);
    }
  }

  lemma WorldKeptTransitive(a: World, b: World, c: World)
    requires WorldKept(a, b) && WorldKept(b, c)
    ensures WorldKept(a, c)
  {
    forall i | 0 <= i < |a.cases| ensures CaseKept(a.cases[i], c.cases[i]) {
      assert CaseKept(a.cases[i], b.cases[i]) && CaseKept(b.cases[i], c.cases[i]);
      CaseKeptTransitive(a.cases[i], b.cases[i], c.cases[i]);
    }
  }

  /** The workflow invariant, spelled out, in every state that any run commits. */
  lemma EveryCommittedStateAgrees(stores: Stores, cfg: Settings, ss: seq<Service>, i: nat)
    requires StoresOk(stores) && cfg.maxAttempts >= 1 && i < |Run(Fresh(stores), cfg, ss).cases|
    ensures var c := Run(Fresh(stores), cfg, ss).cases[i];
      && c.status !in {Received, Inferencing, Scored, InferenceFailed, NonconformanceConfirmed, Verifying, RejectedInput}
      && IsPath(c.log, c.status)
      && (c.status == Validated <==> Pendings(c.outbox) == 1)
      && (c.task.Some? && c.task.value.open <==> c.status == ReviewRequired || c.status == BatchHeld)
      && (c.incident.Some? <==> c.status in {ActionPending, ActionExecuting, ActionFailed, ActionCompleted, Closed})
      && (c.incident.Some? ==> StatusAgrees(c.status, c.incident.value))
      && (c.incident.Some? ==> forall k | 0 <= k < |c.incident.value| :: ActionOk(c.incident.value[k]))
  {
    RunKeeps(Fresh(stores), cfg, ss, 0);
    assert CaseIn(Run(Fresh(stores), cfg, ss).cases[i], i, Run(Fresh(stores), cfg, ss));
  }

  // ---- terminal statuses --------------------------------------------------------------------------

  /** What a longer log adds continues from where the shorter one ended. */
  lemma LongerLogLeaves(early: seq<Edge>, late: seq<Edge>, s: Status, t: Status)
    requires early < late && IsPath(early, s) && IsPath(late, t) && early != []
    ensures late[|early|].to in Next(s)
  {
    PathIsChain(early, s);
    PathIsChain(late, t);
    assert late[|early| - 1] == early[|early| - 1];
    assert late[|early| - 1].to == late[|early|].from;
  }

  lemma NothingLeavesTerminal(early: seq<Edge>, late: seq<Edge>, s: Status, t: Status)
    requires early <= late && IsPath(early, s) && IsPath(late, t) && early != [] && Next(s) == {}
    ensures late == early && t == s
  {
    if early < late { LongerLogLeaves(early, late, s, t); }
  }

  /** Every committed case has a log from RECEIVED to its status. */
  lemma ReachedCase(w: World, i: nat)
    requires WorldOk(w) && i < |w.cases|
    ensures IsPath(w.cases[i].log, w.cases[i].status) && w.cases[i].status != Received
  {
    assert CaseIn(w.cases[i], i, w);
  }

  lemma KeptCase(w: World, v: World, i: nat)
    requires WorldKept(w, v) && i < |w.cases|
    ensures i < |v.cases| && w.cases[i].log <= v.cases[i].log
  {
    assert CaseKept(w.cases[i], v.cases[i]);
  }

  /** A released or closed inspection never changes status again. */
  lemma TerminalIsForever(stores: Stores, cfg: Settings, ss: seq<Service>, n: nat, i: nat)
    requires StoresOk(stores) && cfg.maxAttempts >= 1 && n <= |ss| && i < |Run(Fresh(stores), cfg, ss[..n]).cases|
    requires Run(Fresh(stores), cfg, ss[..n]).cases[i].status in {AutoReleased, ReleaseApproved, Closed}
    ensures i < |Run(Fresh(stores), cfg, ss).cases|
    ensures var c, d := Run(Fresh(stores), cfg, ss[..n]).cases[i], Run(Fresh(stores), cfg, ss).cases[i];
      d.status == c.status && d.log == c.log
  {
    RunKeeps(Fresh(stores), cfg, ss, n);
    TerminalCaseIsForever(Run(Fresh(stores), cfg, ss[..n]), Run(Fresh(stores), cfg, ss), i);
  }

  lemma TerminalCaseIsForever(w: World, v: World, i: nat)
    requires WorldOk(w) && WorldOk(v) && WorldKept(w, v) && i < |w.cases|
    requires w.cases[i].status in {AutoReleased, ReleaseApproved, Closed}
    ensures i < |v.cases| && v.cases[i].status == w.cases[i].status && v.cases[i].log == w.cases[i].log
  {
    hide WorldOk, WorldKept, IsPath;
    KeptCase(w, v, i);
    ReachedCase(w, i);
    ReachedCase(v, i);
    NothingLeavesTerminal(w.cases[i].log, v.cases[i].log, w.cases[i].status, v.cases[i].status);
  }

  /** Automatic release, in any run: a stored score below the resolved review threshold, a
      single possible history, and no human or incident involved. */
  lemma AutomaticReleaseIsEarned(stores: Stores, cfg: Settings, ss: seq<Service>, i: nat)
    requires StoresOk(stores) && cfg.maxAttempts >= 1 && i < |Run(Fresh(stores), cfg, ss).cases|
    requires Run(Fresh(stores), cfg, ss).cases[i].status == AutoReleased
    ensures var c := Run(Fresh(stores), cfg, ss).cases[i];
      && RouteOk(c)
      && c.log == [Edge(Received, Validated), Edge(Validated, Inferencing), Edge(Inferencing, Scored), Edge(Scored, AutoReleased)]
      && c.incident.None? && (c.task.Some? ==> !c.task.value.open)
  {
    RunKeeps(Fresh(stores), cfg, ss, 0);
    var w := Run(Fresh(stores), cfg, ss);
    assert CaseIn(w.cases[i], i, w);
    ReleaseHasOneHistory(w.cases[i].log);
  }

  /** Only closing an incident closes an inspection, and at that step every action it has,
      requested ones included, has succeeded. */
  lemma ClosedOnlyByClosing(w: World, cfg: Settings, s: Service, i: nat)
    requires WorldOk(w) && cfg.maxAttempts >= 1 && i < |w.cases|
    requires i < |Step(w, cfg, s).cases|
    requires w.cases[i].status != Closed && Step(w, cfg, s).cases[i].status == Closed
    ensures s == CloseIncident(i)
    ensures w.cases[i].status == ActionCompleted && w.cases[i].incident.Some? && AllSucceeded(w.cases[i].incident.value)
    ensures Step(w, cfg, s).cases[i].log == w.cases[i].log + [Edge(ActionCompleted, Verifying), Edge(Verifying, Closed)]
  {
    assert CaseIn(w.cases[i], i, w);
    hide CaseOk, Decide, Request, Replay, Close, InferenceEvent, ActionEvent;
    match s
    case CreateInspection(product, station, policy, inf) =>
    case ClaimReview(j, actor, expected) =>
    case DecideReview(j, actor, manager, decision, expected, incidentId, plans) =>
      NotClosedByDeciding(w, cfg, j, actor, manager, decision, expected, incidentId, plans, i);
    case RequestAction(j, confirmed, connector, operation, key, plans) =>
      NotClosedByRequest(w, cfg, j, confirmed, connector, operation, key, plans, i);
    case ReplayAction(j, k, plans) =>
      NotClosedByReplay(w, cfg, j, k, plans, i);
    case CloseIncident(j) =>
      ClosedByClosing(w, j, i);
    case WorkInference(j, inf) =>
      NotClosedByInference(w, j, inf, i);
    case WorkAction(j, k, plan) =>
      NotClosedByAction(w, cfg, j, k, plan, i);
  }

  lemma ClosedByClosing(w: World, j: nat, i: nat)
    requires WorldOk(w) && i < |w.cases| && i < |Close(w, j).cases|
    requires w.cases[i].status != Closed && Close(w, j).cases[i].status == Closed
    ensures i == j && w.cases[i].status == ActionCompleted && w.cases[i].incident.Some? && AllSucceeded(w.cases[i].incident.value)
    ensures Close(w, j).cases[i].log == w.cases[i].log + [Edge(ActionCompleted, Verifying), Edge(Verifying, Closed)]
  {
    assert CaseIn(w.cases[i], i, w);
    if j == i { ClosedCaseIsOk(w.cases[i]); }
  }

  lemma NotClosedByInference(w: World, j: nat, inf: Inference, i: nat)
    requires WorldOk(w) && i < |w.cases| && w.cases[i].status != Closed
    ensures InferenceEvent(w, j, inf).cases[i].status != Closed
  {
    if j == i {
      assert CaseIn(w.cases[i], i, w);
      InferenceKeeps(w.cases[i], inf);
    }
  }

  lemma NotClosedByAction(w: World, cfg: Settings, j: nat, k: nat, plan: seq<Connector.Attempt>, i: nat)
    requires WorldOk(w) && cfg.maxAttempts >= 1 && i < |w.cases| && w.cases[i].status != Closed
    ensures ActionEvent(w, cfg, j, k, plan).cases[i].status != Closed
  {
    if j == i && w.cases[i].incident.Some? && k < |w.cases[i].incident.value| && w.cases[i].incident.value[k].status == Pending {
      assert CaseIn(w.cases[i], i, w);
      ExecuteIsOk(w.cases[i], k, w.stores, cfg, plan);
    }
  }

  lemma NotClosedByReplay(w: World, cfg: Settings, j: nat, k: nat, plans: seq<seq<Connector.Attempt>>, i: nat)
    requires WorldOk(w) && cfg.maxAttempts >= 1 && i < |w.cases| && w.cases[i].status != Closed
    ensures Replay(w, cfg, j, k, plans).cases[i].status != Closed
  {
    if j == i && w.cases[i].incident.Some? && k < |w.cases[i].incident.value| && Failing(w.cases[i].incident.value[k]) {
      ReplayIsReady(w, i, k);
      MaybeInlineIsOk(ReplayedCase(w.cases[i], k).value, w.stores, cfg, plans);
    }
  }

  lemma NotClosedByRequest(w: World, cfg: Settings, j: nat, confirmed: bool, connector: string, operation: string,
                           key: string, plans: seq<seq<Connector.Attempt>>, i: nat)
    requires WorldOk(w) && cfg.maxAttempts >= 1 && i < |w.cases| && w.cases[i].status != Closed
    ensures Request(w, cfg, j, confirmed, connector, operation, key, plans).cases[i].status != Closed
  {
    if j == i && w.cases[i].incident.Some? && confirmed && key !in w.keys {
      var c := w.cases[i];
      assert CaseIn(c, i, w);
      AddedActionKeeps(c, i, w.keys, w.stores, NewAction(connector, operation, key));
      MaybeInlineIsOk(c.(incident := Some(c.incident.value + [NewAction(connector, operation, key)])), w.stores, cfg, plans);
    }
  }

  lemma NotClosedByDeciding(w: World, cfg: Settings, j: nat, actor: string, manager: bool, decision: Choice, expected: nat,
                            incidentId: string, plans: seq<seq<Connector.Attempt>>, i: nat)
    requires WorldOk(w) && cfg.maxAttempts >= 1 && i < |w.cases| && w.cases[i].status != Closed
    ensures Decide(w, cfg, j, actor, manager, decision, expected, incidentId, plans).cases[i].status != Closed
  {
    if j < |w.cases| && MayDecide(w.cases[j], actor, manager, decision, expected) {
      OpenTaskIsUnderReview(w, j);
      var d := Completed(w.cases[j], actor);
      NotClosedByDecided(w, cfg, j, d, d.task.value, decision, incidentId, plans, i);
    }
  }

  lemma OpenTaskIsUnderReview(w: World, i: nat)
    requires WorldOk(w) && i < |w.cases| && w.cases[i].task.Some? && w.cases[i].task.value.open
    ensures UnderReview(w.cases[i].status)
  {
    assert CaseIn(w.cases[i], i, w);
  }

  lemma NotClosedByDecided(w: World, cfg: Settings, j: nat, d: Case, t: Task, decision: Choice, incidentId: string,
                           plans: seq<seq<Connector.Attempt>>, i: nat)
    requires WorldOk(w) && cfg.maxAttempts >= 1 && j < |w.cases| && UnderReview(w.cases[j].status) && !t.open
    requires d == w.cases[j].(task := Some(t)) && i < |w.cases| && w.cases[i].status != Closed
    ensures Decided(w, cfg, j, d, decision, incidentId, plans).cases[i].status != Closed
  {
    assert CaseIn(w.cases[j], j, w);
    if decision == Good { SimplyDecided(w.cases[j], t, ReleaseApproved); }
    else if decision == UnableToDetermine { SimplyDecided(w.cases[j], t, Escalated); }
    else {
      IncidentOpens(w.cases[j], t, incidentId);
      NotClosedByOpening(w, cfg, j, Opened(d, incidentId).value, incidentId, plans, i);
    }
  }

  lemma NotClosedByOpening(w: World, cfg: Settings, j: nat, m: Case, incidentId: string, plans: seq<seq<Connector.Attempt>>, i: nat)
    requires WorldOk(w) && cfg.maxAttempts >= 1 && j < |w.cases|
    requires CaseOk(m) && m.incident == Some(InitialActions(incidentId)) && m.status == ActionPending
    requires i < |w.cases| && w.cases[i].status != Closed
    ensures OpenIncident(w, cfg, j, Some(m), incidentId, plans).cases[i].status != Closed
  {
    hide CaseOk, RunPending, MaybeInline, Keyed;
    MaybeInlineIsOk(m, w.stores, cfg, plans);
  }

  // ---- external effects ------------------------------------------------------------------------------------

  function ActionAt(w: World, i: nat, k: nat): Option<Action> {
    if i < |w.cases| && w.cases[i].incident.Some? && k < |w.cases[i].incident.value| then Some(w.cases[i].incident.value[k]) else None
  }

  /** A succeeded action stays succeeded, and its reference stays that of the one record the
      external system holds under its key. */
  lemma SuccessIsForever(stores: Stores, cfg: Settings, ss: seq<Service>, n: nat, i: nat, k: nat)
    requires StoresOk(stores) && cfg.maxAttempts >= 1 && n <= |ss|
    requires var a := ActionAt(Run(Fresh(stores), cfg, ss[..n]), i, k); a.Some? && a.value.status == Succeeded
    ensures var a, v := ActionAt(Run(Fresh(stores), cfg, ss[..n]), i, k).value, Run(Fresh(stores), cfg, ss);
      && ActionAt(v, i, k).Some? && ActionAt(v, i, k).value.status == Succeeded
      && ActionAt(v, i, k).value.reference == a.reference
      && a.connector in v.stores && a.key in v.stores[a.connector].byKey
      && a.reference == Some(v.stores[a.connector].byKey[a.key].reference)
  {
    RunKeeps(Fresh(stores), cfg, ss, n);
    var w, v := Run(Fresh(stores), cfg, ss[..n]), Run(Fresh(stores), cfg, ss);
    assert CaseKept(w.cases[i], v.cases[i]) && CaseIn(v.cases[i], i, v);
    assert ActionKept(w.cases[i].incident.value[k], v.cases[i].incident.value[k]);
    assert Backed(v.cases[i].incident.value[k], v.stores);
  }

  /** Two succeeded actions on one external system never share a record. */
  lemma RecordsAreNotShared(stores: Stores, cfg: Settings, ss: seq<Service>, i: nat, k: nat, j: nat, m: nat)
    requires StoresOk(stores) && cfg.maxAttempts >= 1 && (i, k) != (j, m)
    requires var w := Run(Fresh(stores), cfg, ss);
      && ActionAt(w, i, k).Some? && ActionAt(w, j, m).Some?
      && ActionAt(w, i, k).value.status == Succeeded && ActionAt(w, j, m).value.status == Succeeded
      && ActionAt(w, i, k).value.connector == ActionAt(w, j, m).value.connector
    ensures var w := Run(Fresh(stores), cfg, ss); ActionAt(w, i, k).value.reference != ActionAt(w, j, m).value.reference
  {
    RunKeeps(Fresh(stores), cfg, ss, 0);
    var w := Run(Fresh(stores), cfg, ss);
    var a, b := ActionAt(w, i, k).value, ActionAt(w, j, m).value;
    assert CaseIn(w.cases[i], i, w) && CaseIn(w.cases[j], j, w);
    assert w.keys[a.key] == (i, k) && w.keys[b.key] == (j, m);
    assert Backed(a, w.stores) && Backed(b, w.stores);
    assert Connector.StoreOk(w.stores[a.connector]);
  }

  // ---- draining the outbox --------------------------------------------------------------------------------------

  function ActionsLoad(actions: seq<Action>): nat {
    if actions == [] then 0 else ActionsLoad(actions[..|actions| - 1]) + Pendings(actions[|actions| - 1].outbox)
  }

  function CaseLoad(c: Case): nat {
    Pendings(c.outbox) + if c.incident.Some? then ActionsLoad(c.incident.value) else 0
  }

  /** The PENDING rows of the outbox table. */
  function Load(cases: seq<Case>): nat {
    if cases == [] then 0 else Load(cases[..|cases| - 1]) + CaseLoad(cases[|cases| - 1])
  }

  lemma {:induction false} ActionsLoadUpdate(actions: seq<Action>, k: nat, b: Action)
    requires k < |actions|
    ensures ActionsLoad(actions[k := b]) + Pendings(actions[k].outbox) == ActionsLoad(actions) + Pendings(b.outbox)
  {
    var n := |actions| - 1;
    if k == n {
      assert actions[k := b][..n] == actions[..n];
    } else {
      ActionsLoadUpdate(actions[..n], k, b);
      assert actions[k := b][..n] == actions[..n][k := b];
    }
  }

  lemma {:induction false} LoadUpdate(cases: seq<Case>, i: nat, d: Case)
    requires i < |cases|
    ensures Load(cases[i := d]) + CaseLoad(cases[i]) == Load(cases) + CaseLoad(d)
  {
    var n := |cases| - 1;
    if i == n {
      assert cases[i := d][..n] == cases[..n];
    } else {
      LoadUpdate(cases[..n], i, d);
      assert cases[i := d][..n] == cases[..n][i := d];
    }
  }

  /** The worker took a pending row and the call did not raise. */
  predicate Processes(w: World, cfg: Settings, s: Service)
    requires cfg.maxAttempts >= 1
  {
    match s
    case WorkInference(i, inf) =>
      i < |w.cases| && Pendings(w.cases[i].outbox) > 0 && ProcessInference(w.cases[i], inf).Some?
    case WorkAction(i, k, plan) =>
      && ActionAt(w, i, k).Some? && Pendings(ActionAt(w, i, k).value.outbox) > 0
      && (ActionAt(w, i, k).value.status == Pending ==> ExecuteAction(w.cases[i], k, w.stores, cfg, plan).0.Some?)
    case _ => false
  }

  /** Every event the worker processes without an exception takes exactly one row off the outbox. */
  lemma ProcessingTakesOneRow(w: World, cfg: Settings, s: Service)
    requires WorldOk(w) && cfg.maxAttempts >= 1 && Processes(w, cfg, s)
    ensures Load(Step(w, cfg, s).cases) == Load(w.cases) - 1
  {
    if s.WorkInference? {
      var i := s.i;
      assert CaseIn(w.cases[i], i, w);
      InferenceKeeps(w.cases[i], s.inf);
      LoadUpdate(w.cases, i, ProcessInference(w.cases[i], s.inf).value);
    } else {
      ActionTakesOneRow(w, cfg, s.i, s.k, s.plan);
    }
  }

  lemma ActionTakesOneRow(w: World, cfg: Settings, i: nat, k: nat, plan: seq<Connector.Attempt>)
    requires WorldOk(w) && cfg.maxAttempts >= 1 && Processes(w, cfg, WorkAction(i, k, plan))
    ensures Load(ActionEvent(w, cfg, i, k, plan).cases) == Load(w.cases) - 1
  {
    var c := w.cases[i];
    var actions := c.incident.value;
    assert CaseIn(c, i, w);
    assert ActionOk(actions[k]) && actions[k].status == Pending;
    ExecuteKeeps(c, k, w.stores, cfg, plan);
    var outcome := Invoke(w.stores, actions[k], cfg, plan).1;
    ExecutedIsOk(actions[k], outcome);
    ActionsLoadUpdate(actions, k, Executed(actions[k], outcome).value);
    LoadUpdate(w.cases, i, ExecuteAction(c, k, w.stores, cfg, plan).0.value);
  }

  /** Consecutive worker turns, each of which processed its event. */
  predicate Drains(w: World, cfg: Settings, ss: seq<Service>)
    requires cfg.maxAttempts >= 1
    decreases |ss|
  {
    ss == [] || (Processes(w, cfg, ss[0]) && Drains(Step(w, cfg, ss[0]), cfg, ss[1..]))
  }

  /** Draining ends: there are never more processed events than pending rows, and when none is
      left every inspection rests. */
  lemma {:induction false} DrainingEnds(w: World, cfg: Settings, ss: seq<Service>)
    requires WorldOk(w) && cfg.maxAttempts >= 1 && Drains(w, cfg, ss)
    ensures |ss| <= Load(w.cases)
    decreases |ss|
  {
    if ss != [] {
      StepKeeps(w, cfg, ss[0]);
      ProcessingTakesOneRow(w, cfg, ss[0]);
      DrainingEnds(Step(w, cfg, ss[0]), cfg, ss[1..]);
    }
  }

  /** Nothing is pending exactly when no inspection awaits inference and no action awaits execution. */
  predicate Rests(c: Case) {
    && c.status !in {Validated, ActionPending, ActionExecuting}
    && (c.incident.Some? ==> !AnyPending(c.incident.value))
  }

  lemma {:induction false} ActionsLoadZero(actions: seq<Action>)
    requires forall k | 0 <= k < |actions| :: ActionOk(actions[k])
    ensures ActionsLoad(actions) == 0 <==> !AnyPending(actions)
  {
    if actions != [] {
      var n := |actions| - 1;
      assert forall k | 0 <= k < n :: actions[..n][k] == actions[k];
      ActionsLoadZero(actions[..n]);
      assert ActionOk(actions[n]);
      if actions[n].status != Pending && AnyPending(actions) {
        var k :| 0 <= k < |actions| && actions[k].status == Pending;
        assert actions[..n][k].status == Pending;
      }
      if AnyPending(actions[..n]) {
        var k :| 0 <= k < n && actions[..n][k].status == Pending;
        assert actions[k].status == Pending;
      }
    }
  }

  lemma CaseLoadZero(c: Case)
    requires CaseOk(c)
    ensures CaseLoad(c) == 0 <==> Rests(c)
  {
    if c.incident.Some? { ActionsLoadZero(c.incident.value); }
  }

  predicate AllRest(cases: seq<Case>) {
    forall i | 0 <= i < |cases| :: Rests(cases[i])
  }

  lemma AllRestInit(cases: seq<Case>)
    requires cases != []
    ensures AllRest(cases) <==> AllRest(cases[..|cases| - 1]) && Rests(cases[|cases| - 1])
  {
    var n := |cases| - 1;
    if AllRest(cases[..n]) && Rests(cases[n]) {
      forall i | 0 <= i < |cases| ensures Rests(cases[i]) {
        if i < n { assert Rests(cases[..n][i]); }
      }
    }
  }

  lemma {:induction false} LoadZeroIffAllRest(cases: seq<Case>)
    requires forall i | 0 <= i < |cases| :: CaseOk(cases[i])
    ensures Load(cases) == 0 <==> AllRest(cases)
  {
    if cases != [] {
      var n := |cases| - 1;
      assert forall i | 0 <= i < n :: cases[..n][i] == cases[i];
      LoadZeroIffAllRest(cases[..n]);
      CaseLoadZero(cases[n]);
      AllRestInit(cases);
    }
  }

  lemma EmptyOutboxIffAtRest(w: World)
    requires WorldOk(w)
    ensures Load(w.cases) == 0 <==> AllRest(w.cases)
  {
    forall i | 0 <= i < |w.cases| ensures CaseOk(w.cases[i]) { assert CaseIn(w.cases[i], i, w); }
    LoadZeroIffAllRest(w.cases);
  }

  /** The worker is never stuck on a sound state: some pending row can be processed, with the
      external systems answering at once. */
  lemma WorkIsAlwaysPossible(w: World, cfg: Settings) returns (s: Service)
    requires WorldOk(w) && cfg.maxAttempts >= 1 && Load(w.cases) > 0
    ensures Processes(w, cfg, s)
  {
    hide Processes, CaseOk, Load;
    EmptyOutboxIffAtRest(w);
    var i :| 0 <= i < |w.cases| && !Rests(w.cases[i]);
    assert CaseIn(w.cases[i], i, w);
    if w.cases[i].status == Validated {
      s := WorkInference(i, ModelUnavailable);
      InferenceIsPossible(w, cfg, i);
    } else {
      var k := SomethingPends(w.cases[i]);
      s := WorkAction(i, k, []);
      ActionIsPossible(w, cfg, i, k);
    }
  }

  lemma SomethingPends(c: Case) returns (k: nat)
    requires CaseOk(c) && !Rests(c) && c.status != Validated
    ensures c.incident.Some? && k < |c.incident.value| && c.incident.value[k].status == Pending
  {
    k :| k < |c.incident.value| && c.incident.value[k].status == Pending;
  }

  lemma InferenceIsPossible(w: World, cfg: Settings, i: nat)
    requires cfg.maxAttempts >= 1 && i < |w.cases| && CaseOk(w.cases[i]) && w.cases[i].status == Validated
    ensures Processes(w, cfg, WorkInference(i, ModelUnavailable))
  {
    UnavailableKeeps(w.cases[i]);
  }

  /** With the external systems answering at once, executing a pending action never raises. */
  lemma ActionIsPossible(w: World, cfg: Settings, i: nat, k: nat)
    requires cfg.maxAttempts >= 1 && i < |w.cases| && CaseOk(w.cases[i])
    requires w.cases[i].incident.Some? && k < |w.cases[i].incident.value| && w.cases[i].incident.value[k].status == Pending
    ensures Processes(w, cfg, WorkAction(i, k, []))
  {
    hide CaseOk, Moves, Settlement, Executed;
    ActionIsOk(w.cases[i], k);
    ExecuteKeeps(w.cases[i], k, w.stores, cfg, []);
  }

  // ---- inline processing -----------------------------------------------------------------------------------------

  predicate NonePendingBefore(actions: seq<Action>, k: nat) {
    forall j | 0 <= j < k && j < |actions| :: actions[j].status != Pending
  }

  predicate NothingPends(d: Option<Case>) {
    d.Some? ==> d.value.incident.Some? && !AnyPending(d.value.incident.value)
  }

  /** An execution leaves its own action settled and the others alone. */
  lemma ExecuteSettlesOne(c: Case, k: nat, stores: Stores, cfg: Settings, plan: seq<Connector.Attempt>)
    requires CaseOk(c) && CaseBacked(c, stores) && StoresOk(stores) && cfg.maxAttempts >= 1
    requires c.incident.Some? && k < |c.incident.value| && c.incident.value[k].status == Pending
    requires NonePendingBefore(c.incident.value, k)
    ensures ExecutionOk(c, stores, ExecuteAction(c, k, stores, cfg, plan))
    ensures var d := ExecuteAction(c, k, stores, cfg, plan).0;
      d.Some? ==> d.value.incident.Some? && |d.value.incident.value| == |c.incident.value| && NonePendingBefore(d.value.incident.value, k + 1)
  {
    ExecuteIsOk(c, k, stores, cfg, plan);
    ExecuteKeeps(c, k, stores, cfg, plan);
    ExecutedIsOk(c.incident.value[k], Invoke(stores, c.incident.value[k], cfg, plan).1);
  }

  lemma {:induction false} RunPendingLeavesNone(c: Case, k: nat, stores: Stores, cfg: Settings, plans: seq<seq<Connector.Attempt>>)
    requires CaseOk(c) && CaseBacked(c, stores) && StoresOk(stores) && cfg.maxAttempts >= 1
    requires c.incident.Some? && k <= |c.incident.value| && NonePendingBefore(c.incident.value, k)
    ensures NothingPends(RunPending(c, k, stores, cfg, plans).0)
    decreases |c.incident.value| - k, 1
  {
    hide ExecuteAction, RunRest, RunPending, CaseOk, CaseBacked, StoresOk;
    if k < |c.incident.value| {
      if c.incident.value[k].status != Pending {
        RunPendingSkips(c, k, stores, cfg, plans);
        RunPendingLeavesNone(c, k + 1, stores, cfg, plans);
      } else {
        RunPendingExecutes(c, k, stores, cfg, plans);
        RunOneLeavesNone(c, k, stores, cfg, plans);
      }
    } else {
      RunPendingEnds(c, stores, cfg, plans);
    }
  }

  lemma {:induction false} RunOneLeavesNone(c: Case, k: nat, stores: Stores, cfg: Settings, plans: seq<seq<Connector.Attempt>>)
    requires CaseOk(c) && CaseBacked(c, stores) && StoresOk(stores) && cfg.maxAttempts >= 1
    requires c.incident.Some? && k < |c.incident.value| && NonePendingBefore(c.incident.value, k)
    requires c.incident.value[k].status == Pending
    ensures NothingPends(RunRest(ExecuteAction(c, k, stores, cfg, PlanFor(plans, k)), |c.incident.value|, k + 1, cfg, plans).0)
    decreases |c.incident.value| - k, 0
  {
    ExecuteSettlesOne(c, k, stores, cfg, PlanFor(plans, k));
    RunRestLeavesNone(c, stores, ExecuteAction(c, k, stores, cfg, PlanFor(plans, k)), k + 1, cfg, plans);
  }

  lemma {:induction false} RunRestLeavesNone(c: Case, stores: Stores, r: (Option<Case>, Stores), k: nat, cfg: Settings, plans: seq<seq<Connector.Attempt>>)
    requires c.incident.Some? && cfg.maxAttempts >= 1 && k <= |c.incident.value| && ExecutionOk(c, stores, r)
    requires r.0.Some? && r.0.value.incident.Some? ==> NonePendingBefore(r.0.value.incident.value, k)
    ensures NothingPends(RunRest(r, |c.incident.value|, k, cfg, plans).0)
    decreases |c.incident.value| - k, 2
  {
    if r.0.Some? { RunPendingLeavesNone(r.0.value, k, r.1, cfg, plans); }
  }

  /** A committed inline result rests. */
  lemma InlineResultRests(c: Case, stores: Stores, cfg: Settings, plans: seq<seq<Connector.Attempt>>)
    requires CaseOk(c) && CaseBacked(c, stores) && StoresOk(stores) && cfg.maxAttempts >= 1 && cfg.inline
    requires c.incident.Some?
    ensures var d := MaybeInline(c, stores, cfg, plans).0; d.Some? ==> Rests(d.value)
  {
    RunPendingLeavesNone(c, 0, stores, cfg, plans);
    MaybeInlineIsOk(c, stores, cfg, plans);
  }

  lemma InlineCreateRests(w: World, cfg: Settings, product: string, station: string, policy: Policy.Config, inf: Inference)
    requires WorldOk(w) && AllRest(w.cases) && cfg.inline
    ensures var v := Create(w, cfg, product, station, policy, inf); AllRest(v.cases)
  {
    var c := Case(product, station, policy, Validated, [Edge(Received, Validated)], None, [Waiting], None, None);
    if Policy.ConfigOk(policy) {
      assert CaseOk(c) by { PathStep([], Received, Validated); assert [] + [Edge(Received, Validated)] == [Edge(Received, Validated)]; }
      InferenceKeeps(c, inf);
    }
  }

  lemma InlineOpenRests(w: World, cfg: Settings, i: nat, m: Case, incidentId: string, plans: seq<seq<Connector.Attempt>>)
    requires WorldOk(w) && AllRest(w.cases) && cfg.maxAttempts >= 1 && cfg.inline && i < |w.cases|
    requires CaseOk(m) && m.incident == Some(InitialActions(incidentId))
    ensures var v := OpenIncident(w, cfg, i, Some(m), incidentId, plans); AllRest(v.cases)
  {
    InlineResultRests(m, w.stores, cfg, plans);
  }

  lemma InlineDecisionRests(w: World, cfg: Settings, i: nat, t: Task, decision: Choice, incidentId: string,
                            plans: seq<seq<Connector.Attempt>>)
    requires WorldOk(w) && AllRest(w.cases) && cfg.maxAttempts >= 1 && cfg.inline
    requires i < |w.cases| && UnderReview(w.cases[i].status) && !t.open
    ensures var v := Decided(w, cfg, i, w.cases[i].(task := Some(t)), decision, incidentId, plans); AllRest(v.cases)
  {
    var c := w.cases[i].(task := Some(t));
    assert CaseIn(w.cases[i], i, w);
    if decision == Good {
      MovesFollow(c, [ReleaseApproved]);
    } else if decision == UnableToDetermine {
      MovesFollow(c, [Escalated]);
    } else {
      IncidentOpens(w.cases[i], t, incidentId);
      InlineOpenRests(w, cfg, i, Opened(c, incidentId).value, incidentId, plans);
    }
  }

  lemma InlineRequestRests(w: World, cfg: Settings, i: nat, confirmed: bool, connector: string, operation: string, key: string,
                           plans: seq<seq<Connector.Attempt>>)
    requires WorldOk(w) && AllRest(w.cases) && cfg.maxAttempts >= 1 && cfg.inline
    ensures var v := Request(w, cfg, i, confirmed, connector, operation, key, plans); AllRest(v.cases)
  {
    if i < |w.cases| && w.cases[i].incident.Some? && confirmed && key !in w.keys {
      var c := w.cases[i];
      assert CaseIn(c, i, w);
      AddedActionKeeps(c, i, w.keys, w.stores, NewAction(connector, operation, key));
      InlineResultRests(c.(incident := Some(c.incident.value + [NewAction(connector, operation, key)])), w.stores, cfg, plans);
    }
  }

  lemma InlineReplayRests(w: World, cfg: Settings, i: nat, k: nat, plans: seq<seq<Connector.Attempt>>)
    requires WorldOk(w) && AllRest(w.cases) && cfg.maxAttempts >= 1 && cfg.inline
    ensures var v := Replay(w, cfg, i, k, plans); AllRest(v.cases)
  {
    if i < |w.cases| && w.cases[i].incident.Some? && k < |w.cases[i].incident.value| && Failing(w.cases[i].incident.value[k]) {
      ReplayIsReady(w, i, k);
      InlineResultRests(ReplayedCase(w.cases[i], k).value, w.stores, cfg, plans);
    }
  }

  lemma InlineDecideRests(w: World, cfg: Settings, i: nat, actor: string, manager: bool, decision: Choice, expected: nat,
                          incidentId: string, plans: seq<seq<Connector.Attempt>>)
    requires WorldOk(w) && AllRest(w.cases) && cfg.maxAttempts >= 1 && cfg.inline
    ensures var v := Decide(w, cfg, i, actor, manager, decision, expected, incidentId, plans); AllRest(v.cases)
  {
    if i < |w.cases| && MayDecide(w.cases[i], actor, manager, decision, expected) {
      assert CaseIn(w.cases[i], i, w);
      InlineDecisionRests(w, cfg, i, Task(false, Some(actor), w.cases[i].task.value.version + 1), decision, incidentId, plans);
    }
  }

  lemma InlineCloseRests(w: World, i: nat)
    requires WorldOk(w) && AllRest(w.cases)
    ensures var v := Close(w, i); AllRest(v.cases)
  {
    if Close(w, i) != w {
      assert CaseIn(w.cases[i], i, w);
      ClosedCaseIsOk(w.cases[i]);
    }
  }

  lemma InlineLeavesNoInference(w: World, i: nat, inf: Inference)
    requires WorldOk(w) && AllRest(w.cases)
    ensures InferenceEvent(w, i, inf) == w
  {
    if i < |w.cases| { assert CaseIn(w.cases[i], i, w); }
  }

  lemma InlineLeavesNoAction(w: World, cfg: Settings, i: nat, k: nat, plan: seq<Connector.Attempt>)
    requires WorldOk(w) && AllRest(w.cases) && cfg.maxAttempts >= 1
    ensures ActionEvent(w, cfg, i, k, plan) == w
  {
    if ActionAt(w, i, k).Some? {
      assert CaseIn(w.cases[i], i, w);
      assert ActionOk(w.cases[i].incident.value[k]);
    }
  }

  lemma InlineStepRests(w: World, cfg: Settings, s: Service)
    requires WorldOk(w) && AllRest(w.cases) && cfg.maxAttempts >= 1 && cfg.inline
    ensures var v := Step(w, cfg, s); AllRest(v.cases)
  {
    match s
    case CreateInspection(product, station, policy, inf) => InlineCreateRests(w, cfg, product, station, policy, inf);
    case ClaimReview(i, actor, expected) =>
    case DecideReview(i, actor, manager, decision, expected, incidentId, plans) =>
      InlineDecideRests(w, cfg, i, actor, manager, decision, expected, incidentId, plans);
    case RequestAction(i, confirmed, connector, operation, key, plans) =>
      InlineRequestRests(w, cfg, i, confirmed, connector, operation, key, plans);
    case ReplayAction(i, k, plans) => InlineReplayRests(w, cfg, i, k, plans);
    case CloseIncident(i) => InlineCloseRests(w, i);
    case WorkInference(i, inf) => InlineLeavesNoInference(w, i, inf);
    case WorkAction(i, k, plan) => InlineLeavesNoAction(w, cfg, i, k, plan);
  }

  /** Processing inline, no committed state of any run leaves anything for the worker. */
  lemma {:induction false} InlineNeverWaits(stores: Stores, cfg: Settings, ss: seq<Service>)
    requires StoresOk(stores) && cfg.maxAttempts >= 1 && cfg.inline
    ensures AllRest(Run(Fresh(stores), cfg, ss).cases) && Load(Run(Fresh(stores), cfg, ss).cases) == 0
  {
    RunKeeps(Fresh(stores), cfg, ss, |ss|);
    if ss != [] {
      var before := ss[..|ss| - 1];
      InlineNeverWaits(stores, cfg, before);
      RunKeeps(Fresh(stores), cfg, before, |before|);
      InlineStepRests(Run(Fresh(stores), cfg, before), cfg, ss[|ss| - 1]);
    }
    EmptyOutboxIffAtRest(Run(Fresh(stores), cfg, ss));
  }
}
