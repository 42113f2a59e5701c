/** The quality service and its worker.  A session's uncommitted rows are the fields themselves:
    a call that raises puts back the tables it started from, never what reached a connector. */
module QualityService {
  import opened Base
  import opened Domain
  import opened Workflow
  import WorkflowSafety
  import WorkflowRuns
  import Policy
  import Connector

  function Moved(c: Case, target: Status): Case {
    c.(status := target, log := c.log + [Edge(c.status, target)])
  }

  lemma MovesStep(c: Case, target: Status, rest: seq<Status>)
    ensures Moves(c, [target] + rest) == if target in Next(c.status) then Moves(Moved(c, target), rest) else None
  {
    assert ([target] + rest)[1..] == rest;
  }

  lemma MovesTwo(c: Case, a: Status, b: Status)
    requires a in Next(c.status) && b in Next(a)
    ensures Moves(c, [a, b]) == Some(Moved(Moved(c, a), b))
  {
    MovesStep(c, a, [b]);
    MovesStep(Moved(c, a), b, []);
    assert [a] + [b] == [a, b] && [b] + [] == [b];
  }

  lemma MovesThree(c: Case, a: Status, b: Status, d: Status)
    requires a in Next(c.status) && b in Next(a) && d in Next(b)
    ensures Moves(c, [a, b, d]) == Some(Moved(Moved(Moved(c, a), b), d))
  {
    MovesStep(c, a, [b, d]);
    MovesTwo(Moved(c, a), b, d);
    assert [a] + [b, d] == [a, b, d];
  }

  lemma MovesOne(c: Case, a: Status)
    ensures Moves(c, [a]) == if a in Next(c.status) then Some(Moved(c, a)) else None
  {
    MovesStep(c, a, []);
    assert [a] + [] == [a];
  }

  lemma OpenedInSteps(d: Case, incidentId: string)
    ensures Opened(d, incidentId) ==
      if NonconformanceConfirmed in Next(d.status) then
        Some(Moved(Moved(d, NonconformanceConfirmed), ActionPending).(incident := Some(InitialActions(incidentId))))
      else None
  {
    var e := d.(incident := Some(InitialActions(incidentId)));
    MovesStep(e, NonconformanceConfirmed, [ActionPending]);
    MovesOne(Moved(e, NonconformanceConfirmed), ActionPending);
    assert [NonconformanceConfirmed] + [ActionPending] == [NonconformanceConfirmed, ActionPending];
  }

  /** A decision whose transition is all there is to it. */
  lemma MovedIsDecided(c: Case, actor: string, decision: Choice, target: Status, incidentId: string, inline: bool)
    requires c.task.Some? && (decision == Good ==> target == ReleaseApproved) && (decision == UnableToDetermine ==> target == Escalated)
    requires decision != Good && decision != UnableToDetermine ==> c.incident.Some?
    ensures WorkflowSafety.DecidedAs(c, Moved(Completed(c, actor), target), actor, decision, incidentId, inline)
  {
  }

  /** A decision whose incident was opened and may have been worked on. */
  lemma OpenedIsDecided(c: Case, d: Case, actor: string, decision: Choice, incidentId: string, inline: bool)
    requires c.task.Some? && c.incident.None? && decision != Good && decision != UnableToDetermine
    requires var m := Moved(Moved(Completed(c, actor), NonconformanceConfirmed), ActionPending).(incident := Some(InitialActions(incidentId)));
      WorkflowSafety.Carried(m, d) && (!inline ==> d == m)
    ensures WorkflowSafety.DecidedAs(c, d, actor, decision, incidentId, inline)
  {
    var log := c.log + [Edge(c.status, NonconformanceConfirmed)] + [Edge(NonconformanceConfirmed, ActionPending)];
    assert log == c.log + [Edge(c.status, NonconformanceConfirmed), Edge(NonconformanceConfirmed, ActionPending)];
  }

  /** A new inspection of this product at this station under this policy; without inline
      processing it waits for the worker. */
  predicate Inserts(c: Case, product: string, station: string, policy: Policy.Config, inline: bool) {
    && c.product == product && c.station == station && c.policy == policy && c.incident.None?
    && [Edge(Received, Validated)] <= c.log
    && (!inline ==> c.status == Validated && c.outbox == [Waiting] && c.task.None? && c.score.None?)
  }

  /** What the caller is told.  `Raised` stands for a conflict or failure inside the transaction. */
  datatype Refused = NotFound | Forbidden | InvalidInput | Conflict | Raised

  class VisionQCService {
    const cfg: Settings
    var cases: seq<Case>
    var keys: map<string, (nat, nat)>
    var stores: Stores
    /** The unique index on the inspections' idempotency keys: request fingerprint and inspection. */
    var submissions: map<string, (string, nat)>

    constructor (cfg: Settings, stores: Stores)
      ensures this.cfg == cfg && State() == WorkflowRuns.Fresh(stores) && SubmissionsOk()
    {
      this.cfg := cfg;
      cases, keys, submissions := [], map[], map[];
      this.stores := stores;
    }

    function State(): World
      reads this
    {
      World(cases, keys, stores)
    }

    /** Every key leads to an inspection of its own. */
    ghost predicate SubmissionsOk()
      reads this
    {
      && (forall k | k in submissions :: submissions[k].1 < |cases|)
      && (forall j, k | j in submissions && k in submissions && submissions[j].1 == submissions[k].1 :: j == k)
    }

    // ---- inside a transaction --------------------------------------------------------------

    /** Change the status and append to the log, or refuse an edge that is not in the table. */
    method TransitionInspection(i: nat, target: Status) returns (ok: bool)
      requires i < |cases|
      modifies this`cases
      ensures ok <==> target in Next(old(cases[i].status))
      ensures cases == if ok then old(cases)[i := Moved(old(cases[i]), target)] else old(cases)
    {
      ok := target in Next(cases[i].status);
      if ok {
        cases := cases[i := Moved(cases[i], target)];
      }
    }

    method EnsureReviewTask(i: nat)
      requires i < |cases|
      modifies this`cases
      ensures cases == old(cases)[i := old(cases[i]).(task := EnsureTask(old(cases[i].task)))]
    {
      if cases[i].task.None? {
        cases := cases[i := cases[i].(task := Some(Task(true, None, 1)))];
      }
    }

    method MarkInferenceProcessed(i: nat)
      requires i < |cases|
      modifies this`cases
      ensures cases == old(cases)[i := old(cases[i]).(outbox := MarkFirst(old(cases[i].outbox)))]
    {
      cases := cases[i := cases[i].(outbox := MarkFirst(cases[i].outbox))];
    }

    /** Infer, evaluate the policy and route; a failing model is routed to review. */
    method Infer(i: nat, inf: Inference) returns (ok: bool)
      requires i < |cases|
      modifies this`cases
      ensures |cases| == |old(cases)|
      ensures ok <==> ProcessInference(old(cases[i]), inf).Some?
      ensures ok ==> cases == old(cases)[i := ProcessInference(old(cases[i]), inf).value]
    {
      ghost var c := cases[i];
      if cases[i].status != Validated {
        return true;
      }
      ok := TransitionInspection(i, Inferencing);
      if inf.StorageDown? {
        return false;
      }
      if inf.ModelUnavailable? {
        ok := TransitionInspection(i, InferenceFailed);
        ok := TransitionInspection(i, ReviewRequired);
        MovesThree(c, Inferencing, InferenceFailed, ReviewRequired);
        EnsureReviewTask(i);
      } else {
        ghost var e := Policy.Evaluate(Some(inf.score), Some(c.policy), c.product, c.station);
        if e.Ok? { MovesThree(c, Inferencing, Scored, Target(e.value.route)); }
        ok := RouteScore(i, inf.score);
        if !ok {
          return;
        }
      }
      MarkInferenceProcessed(i);
    }

    /** Store the score, then follow the policy's route. */
    method RouteScore(i: nat, score: real) returns (ok: bool)
      requires i < |cases| && cases[i].status == Inferencing
      modifies this`cases
      ensures |cases| == |old(cases)|
      ensures var c := old(cases[i]);
        var e := Policy.Evaluate(Some(score), Some(c.policy), c.product, c.station);
        && (ok <==> e.Ok?)
        && (ok ==> cases == old(cases)[i := Moved(Moved(c, Scored), Target(e.value.route)).(
             score := Some(score), task := if e.value.route.AutoRelease? then c.task else EnsureTask(c.task))])
    {
      cases := cases[i := cases[i].(score := Some(score))];
      ok := TransitionInspection(i, Scored);
      var e := Policy.Evaluate(Some(score), Some(cases[i].policy), cases[i].product, cases[i].station);
      if e.Err? {
        return false;
      }
      ok := TransitionInspection(i, Target(e.value.route));
      if !e.value.route.AutoRelease? {
        EnsureReviewTask(i);
      }
    }

    method SetAction(i: nat, k: nat, a: Action)
      requires i < |cases| && cases[i].incident.Some? && k < |cases[i].incident.value|
      modifies this`cases
      ensures cases == old(cases)[i := old(cases[i]).(incident := Some(old(cases[i].incident.value)[k := a]))]
    {
      cases := cases[i := cases[i].(incident := Some(cases[i].incident.value[k := a]))];
    }

    /** Call the connector with retries and record the outcome on the action row. */
    method CallConnector(i: nat, k: nat, plan: seq<Connector.Attempt>) returns (ok: bool)
      requires cfg.maxAttempts >= 1
      requires i < |cases| && cases[i].incident.Some? && k < |cases[i].incident.value|
      modifies this`cases, this`stores
      ensures var (t, o) := Invoke(old(stores), old(cases[i].incident.value[k]), cfg, plan);
        var b := Executed(old(cases[i].incident.value[k]), o);
        && stores == t && (ok <==> b.Some?)
        && cases == if ok then old(cases)[i := old(cases[i]).(incident := Some(old(cases[i].incident.value)[k := b.value]))] else old(cases)
    {
      var a := cases[i].incident.value[k];
      var b := a;
      if a.connector !in stores {
        b := a.(status := ManualReview);
      } else {
        var (t, outcome) := Connector.Execute(stores[a.connector], a.key, a.operation, plan, 1, cfg.maxAttempts);
        stores := stores[a.connector := t];
        match outcome {
          case Raised =>
            return false;
          case Succeeded(reference, n) =>
            b := a.(status := Succeeded, attempts := a.attempts + n, reference := Some(reference));
          case GaveUp(error, n) =>
            b := a.(status := if error == Connector.ManualReview then ManualReview else Failed, attempts := a.attempts + n);
        }
      }
      SetAction(i, k, b.(outbox := MarkFirst(b.outbox)));
      return true;
    }

    /** One execution: EXECUTING, the connector, then whatever the action statuses decide. */
    method ExecuteExternalAction(i: nat, k: nat, plan: seq<Connector.Attempt>) returns (ok: bool)
      requires cfg.maxAttempts >= 1
      requires i < |cases| && cases[i].incident.Some? && k < |cases[i].incident.value|
      modifies this`cases, this`stores
      ensures |cases| == |old(cases)|
      ensures var (d, t) := ExecuteAction(old(cases[i]), k, old(stores), cfg, plan);
        && stores == t && (ok <==> d.Some?) && (ok ==> cases == old(cases)[i := d.value])
    {
      ghost var c := cases[i];
      ghost var outcome := Invoke(stores, c.incident.value[k], cfg, plan).1;
      ghost var b := Executed(c.incident.value[k], outcome);
      SetAction(i, k, cases[i].incident.value[k].(status := Executing));
      if cases[i].status == ActionPending {
        ok := TransitionInspection(i, ActionExecuting);
      }
      ok := CallConnector(i, k, plan);
      if !ok {
        return;
      }
      ghost var actions := c.incident.value[k := b.value];
      assert cases[i].incident.value == actions;
      ok := Settle(i, c);
      assert ExecuteAction(c, k, old(stores), cfg, plan).0 == Moves(c.(incident := Some(actions)), Settlement(c.status, actions));
    }

    /** Complete or fail the inspection once the action statuses decide it; `c` is the case
        before this execution, with its transition to ACTION_EXECUTING still to come. */
    method Settle(i: nat, ghost c: Case) returns (ok: bool)
      requires i < |cases| && cases[i].incident.Some?
      requires var d := c.(incident := cases[i].incident);
        cases[i] == if c.status == ActionPending then Moved(d, ActionExecuting) else d
      modifies this`cases
      ensures ok && |cases| == |old(cases)|
      ensures var actions := old(cases[i].incident.value);
        var d := Moves(c.(incident := Some(actions)), Settlement(c.status, actions));
        d.Some? && cases == old(cases)[i := d.value]
    {
      ghost var actions := cases[i].incident.value;
      ghost var d := c.(incident := Some(actions));
      MovesOne(d, ActionExecuting);
      MovesOne(d, ActionCompleted);
      MovesOne(d, ActionFailed);
      if c.status == ActionPending {
        MovesTwo(d, ActionExecuting, ActionCompleted);
        MovesTwo(d, ActionExecuting, ActionFailed);
        assert [ActionExecuting] + [ActionCompleted] == [ActionExecuting, ActionCompleted];
        assert [ActionExecuting] + [ActionFailed] == [ActionExecuting, ActionFailed];
        assert [ActionExecuting] + [] == [ActionExecuting];
      }
      ok := true;
      if AllSucceeded(cases[i].incident.value) {
        if cases[i].status == ActionExecuting {
          ok := TransitionInspection(i, ActionCompleted);
        }
      } else if AnyFailing(cases[i].incident.value) {
        if cases[i].status == ActionExecuting {
          ok := TransitionInspection(i, ActionFailed);
        }
      }
    }

    /** Execute every pending action of an incident in creation order. */
    method ProcessPendingExternalActions(i: nat, plans: seq<seq<Connector.Attempt>>) returns (ok: bool)
      requires cfg.maxAttempts >= 1 && i < |cases| && cases[i].incident.Some?
      modifies this`cases, this`stores
      ensures |cases| == |old(cases)|
      ensures var (d, t) := RunPending(old(cases[i]), 0, old(stores), cfg, plans);
        && stores == t && (ok <==> d.Some?) && (ok ==> cases == old(cases)[i := d.value])
    {
      ghost var c, s := cases[i], stores;
      var n := |cases[i].incident.value|;
      var k := 0;
      while k < n
        invariant 0 <= k <= n && |cases| == |old(cases)|
        invariant cases == old(cases)[i := cases[i]]
        invariant cases[i].incident.Some? && |cases[i].incident.value| == n
        invariant RunPending(cases[i], k, stores, cfg, plans) == RunPending(c, 0, s, cfg, plans)
      {
        if cases[i].incident.value[k].status == Pending {
          ghost var d, t := cases[i], stores;
          ok := ExecuteExternalAction(i, k, PlanFor(plans, k));
          assert RunPending(d, k, t, cfg, plans) == RunRest(ExecuteAction(d, k, t, cfg, PlanFor(plans, k)), n, k + 1, cfg, plans);
          if !ok {
            return;
          }
          KeepsActions(d, k, t, cfg, PlanFor(plans, k));
        }
        k := k + 1;
      }
      return true;
    }

    method NewExternalAction(i: nat, connector: string, operation: string, key: string) returns (ok: bool)
      requires i < |cases| && cases[i].incident.Some?
      modifies this`cases, this`keys
      ensures ok <==> key !in old(keys)
      ensures keys == if ok then old(keys)[key := (i, |old(cases[i].incident.value)|)] else old(keys)
      ensures cases == if ok then
        old(cases)[i := old(cases[i]).(incident := Some(old(cases[i].incident.value) + [NewAction(connector, operation, key)]))]
        else old(cases)
    {
      ok := key !in keys;
      if ok {
        keys := keys[key := (i, |cases[i].incident.value|)];
        cases := cases[i := cases[i].(incident := Some(cases[i].incident.value + [NewAction(connector, operation, key)]))];
      }
    }

    /** The incident with its two actions; the caller has confirmed the nonconformance. */
    method CreateIncident(i: nat, incidentId: string, plans: seq<seq<Connector.Attempt>>) returns (ok: bool)
      requires cfg.maxAttempts >= 1 && i < |cases| && cases[i].incident.None? && cases[i].status == NonconformanceConfirmed
      modifies this`cases, this`keys, this`stores
      ensures |cases| == |old(cases)|
      ensures var hold, ticket := InitialActions(incidentId)[0].key, InitialActions(incidentId)[1].key;
        var m := Moved(old(cases[i]), ActionPending).(incident := Some(InitialActions(incidentId)));
        var (d, t) := MaybeInline(m, old(stores), cfg, plans);
        && (hold in old(keys) || ticket in old(keys) ==> !ok && stores == old(stores))
        && (hold !in old(keys) && ticket !in old(keys) ==>
              && stores == t && (ok <==> d.Some?)
              && (ok ==> cases == old(cases)[i := d.value] && keys == old(keys)[hold := (i, 0)][ticket := (i, 1)]))
    {
      WorkflowSafety.KeysOfInitialActions(incidentId);
      cases := cases[i := cases[i].(incident := Some([]))];
      ok := TransitionInspection(i, ActionPending);
      ok := NewExternalAction(i, "MES", "HOLD_BATCH", incidentId + ":mes:hold");
      if !ok {
        return;
      }
      ok := NewExternalAction(i, "QMS", "CREATE_TICKET", incidentId + ":qms:create");
      if !ok {
        return;
      }
      assert cases[i].incident.value == InitialActions(incidentId);
      if cfg.inline {
        ok := ProcessPendingExternalActions(i, plans);
      }
    }

    method Rollback(cases: seq<Case>, keys: map<string, (nat, nat)>)
      modifies this`cases, this`keys
      ensures this.cases == cases && this.keys == keys
    {
      this.cases, this.keys := cases, keys;
    }

    // ---- service calls, each one transaction --------------------------------------------------

    /** Insert or replay: a known key with the same request fingerprint returns the inspection it
        made, with another one it is a conflict; a new key is validated, queued or inferred. */
    method CreateInspection(key: string, fingerprint: string, product: string, station: string, policy: Policy.Config, inf: Inference)
      returns (r: Result<nat, Refused>)
      requires cfg.maxAttempts >= 1 && SubmissionsOk()
      modifies this
      ensures SubmissionsOk()
      ensures key in old(submissions) ==>
        && State() == old(State()) && submissions == old(submissions)
        && r == if old(submissions)[key].0 == fingerprint then Ok(old(submissions)[key].1) else Err(Conflict)
      ensures key !in old(submissions) ==>
        && State() == Step(old(State()), cfg, Service.CreateInspection(product, station, policy, inf))
        && (r.Ok? ==> (r.value == |old(cases)| && |cases| == |old(cases)| + 1
                       && submissions == old(submissions)[key := (fingerprint, r.value)]))
        && (r.Err? ==> State() == old(State()) && submissions == old(submissions))
        && (r == Err(InvalidInput) <==> !Policy.ConfigOk(policy))
        && (!cfg.inline ==> r != Err(Raised))
        && (r.Ok? ==> old(cases) <= cases && Inserts(cases[r.value], product, station, policy, cfg.inline))
    {
      if key in submissions {
        return if submissions[key].0 == fingerprint then Ok(submissions[key].1) else Err(Conflict);
      }
      if !Policy.ConfigOk(policy) {
        return Err(InvalidInput);
      }
      hide ProcessInference, Inserts;
      ghost var before := cases;
      var ok := InsertInspection(product, station, policy, inf);
      if !ok {
        return Err(Raised);
      }
      submissions := submissions[key := (fingerprint, |cases| - 1)];
      return Ok(|cases| - 1);
    }

    /** The new inspection, queued for inference or inferred at once. */
    method InsertInspection(product: string, station: string, policy: Policy.Config, inf: Inference) returns (ok: bool)
      requires cfg.maxAttempts >= 1 && Policy.ConfigOk(policy)
      modifies this`cases, this`keys
      ensures State() == Step(old(State()), cfg, Service.CreateInspection(product, station, policy, inf))
      ensures !ok ==> State() == old(State()) && cfg.inline
      ensures ok ==> |cases| == |old(cases)| + 1 && old(cases) <= cases && Inserts(cases[|old(cases)|], product, station, policy, cfg.inline)
    {
      var before := cases;
      var c := Case(product, station, policy, Validated, [Edge(Received, Validated)], None, [Waiting], None, None);
      cases := cases + [c];
      ok := true;
      WorkflowSafety.InferenceCarries(c, inf);
      if cfg.inline {
        ok := Infer(|before|, inf);
        if !ok {
          Rollback(before, keys);
        }
      }
    }

    method ClaimReview(i: nat, actor: string, expected: nat) returns (r: Option<Refused>)
      requires cfg.maxAttempts >= 1
      modifies this`cases, this`keys, this`stores
      ensures |cases| == |old(cases)|
      ensures State() == Step(old(State()), cfg, Service.ClaimReview(i, actor, expected))
      ensures r.Some? ==> State() == old(State())
      ensures r == Some(NotFound) <==> i >= |old(cases)| || old(cases)[i].task.None?
      ensures r.None? <==> (i < |old(cases)| && old(cases)[i].task == Some(Task(true, None, expected)))
      ensures r.None? ==> cases == old(cases)[i := old(cases)[i].(task := Some(Task(true, Some(actor), expected + 1)))]
    {
      if i >= |cases| || cases[i].task.None? {
        return Some(NotFound);
      }
      var t := cases[i].task.value;
      if !t.open || t.version != expected || t.assignee.Some? {
        return Some(Conflict);
      }
      cases := cases[i := cases[i].(task := Some(t.(assignee := Some(actor), version := t.version + 1)))];
      return None;
    }

    method DecideReview(i: nat, actor: string, manager: bool, decision: Choice, expected: nat, incidentId: string,
                        plans: seq<seq<Connector.Attempt>>) returns (r: Option<Refused>)
      requires cfg.maxAttempts >= 1
      modifies this`cases, this`keys, this`stores
      ensures |cases| == |old(cases)|
      ensures State() == Step(old(State()), cfg, Service.DecideReview(i, actor, manager, decision, expected, incidentId, plans))
      ensures r.Some? ==> cases == old(cases) && keys == old(keys)
      ensures r == Some(NotFound) <==> i >= |old(cases)| || old(cases)[i].task.None?
      ensures r == Some(Forbidden) <==> (i < |old(cases)| && old(cases)[i].task.Some?
        && ((old(cases)[i].task.value.assignee.Some? && old(cases)[i].task.value.assignee.value != actor)
            || (decision in {Rework, Scrap, Investigate} && !manager)))
      ensures r == Some(Conflict) <==> (i < |old(cases)| && old(cases)[i].task.Some? && r != Some(Forbidden)
        && (!old(cases)[i].task.value.open || old(cases)[i].task.value.version != expected))
      ensures r.None? ==> cases == old(cases)[i := cases[i]]
      ensures r.None? ==> WorkflowSafety.DecidedAs(old(cases)[i], cases[i], actor, decision, incidentId, cfg.inline)
    {
      if i >= |cases| || cases[i].task.None? {
        return Some(NotFound);
      }
      var t := cases[i].task.value;
      if t.assignee.Some? && t.assignee.value != actor {
        return Some(Forbidden);
      }
      if HighRisk(decision) && !manager {
        return Some(Forbidden);
      }
      if !t.open || t.version != expected {
        return Some(Conflict);
      }
      var ok := Complete(i, actor, decision, incidentId, plans);
      return if ok then None else Some(Raised);
    }

    /** The task's compare-and-swap has succeeded. */
    method Complete(i: nat, actor: string, decision: Choice, incidentId: string, plans: seq<seq<Connector.Attempt>>) returns (ok: bool)
      requires cfg.maxAttempts >= 1 && i < |cases| && cases[i].task.Some?
      modifies this`cases, this`keys, this`stores
      ensures |cases| == |old(cases)|
      ensures State() == Decided(old(State()), cfg, i, Completed(old(cases[i]), actor), decision, incidentId, plans)
      ensures !ok ==> cases == old(cases) && keys == old(keys)
      ensures ok ==> cases == old(cases)[i := cases[i]]
      ensures ok ==> WorkflowSafety.DecidedAs(old(cases[i]), cases[i], actor, decision, incidentId, cfg.inline)
    {
      hide MaybeInline, Moves, Opened, WorkflowSafety.DecidedAs, WorkflowSafety.Carried;
      var before, index := cases, keys;
      var t := cases[i].task.value;
      cases := cases[i := cases[i].(task := Some(Task(false, Some(actor), t.version + 1)))];
      ghost var d := Completed(old(cases[i]), actor);
      var target :=
        if decision == Good then ReleaseApproved
        else if decision == UnableToDetermine then Escalated
        else NonconformanceConfirmed;
      MovesOne(d, target);
      OpenedInSteps(d, incidentId);
      ok := TransitionInspection(i, target);
      ghost var c := old(cases[i]);
      if ok && HighRisk(decision) && cases[i].incident.None? {
        ghost var m := Moved(Moved(d, target), ActionPending).(incident := Some(InitialActions(incidentId)));
        WorkflowSafety.InlineCarries(m, stores, cfg, plans);
        ok := CreateIncident(i, incidentId, plans);
        if ok { OpenedIsDecided(c, cases[i], actor, decision, incidentId, cfg.inline); }
      } else if ok {
        MovedIsDecided(c, actor, decision, target, incidentId, cfg.inline);
      }
      if !ok {
        Rollback(before, index);
      }
    }

    method RequestIncidentAction(i: nat, confirmed: bool, connector: string, operation: string, key: string,
                                 plans: seq<seq<Connector.Attempt>>) returns (r: Option<Refused>)
      requires cfg.maxAttempts >= 1
      modifies this`cases, this`keys, this`stores
      ensures |cases| == |old(cases)|
      ensures State() == Step(old(State()), cfg, Service.RequestAction(i, confirmed, connector, operation, key, plans))
      ensures r.Some? ==> cases == old(cases) && keys == old(keys)
      ensures r == Some(NotFound) <==> i >= |old(cases)| || old(cases)[i].incident.None?
      ensures r == Some(InvalidInput) <==> i < |old(cases)| && old(cases)[i].incident.Some? && !confirmed
      ensures r.None? ==> key in keys && (key in old(keys) ==> State() == old(State()))
      ensures r.None? && key !in old(keys) ==>
        var n := |old(cases)[i].incident.value|;
        && keys == old(keys)[key := (i, n)] && cases == old(cases)[i := cases[i]]
        && cases[i].incident.Some? && |cases[i].incident.value| == n + 1
        && WorkflowSafety.OrderedAs(cases[i].incident.value[n], connector, operation, key)
        && (!cfg.inline ==> WorkflowSafety.IsOrder(cases[i].incident.value[n], connector, operation, key)
                            && cases[i] == old(cases)[i].(incident := cases[i].incident)
                            && old(cases)[i].incident.value <= cases[i].incident.value)
    {
      if i >= |cases| || cases[i].incident.None? {
        return Some(NotFound);
      }
      if !confirmed {
        return Some(InvalidInput);
      }
      if key in keys {
        return None;
      }
      var before, index := cases, keys;
      var ok := NewExternalAction(i, connector, operation, key);
      WorkflowSafety.InlineCarries(cases[i], stores, cfg, plans);
      if cfg.inline {
        ok := ProcessPendingExternalActions(i, plans);
      }
      if !ok {
        Rollback(before, index);
        return Some(Raised);
      }
      return None;
    }

    /** A failed action waits again, and so does an inspection that failed on it. */
    method Requeue(i: nat, k: nat)
      requires i < |cases| && cases[i].incident.Some? && k < |cases[i].incident.value|
      modifies this`cases
      ensures var m := ReplayedCase(old(cases[i]), k); m.Some? && cases == old(cases)[i := m.value]
      ensures var c, a := old(cases[i]), old(cases[i].incident.value[k]);
        && cases[i].incident == Some(c.incident.value[k := a.(status := Pending, outbox := a.outbox + [Waiting])])
        && cases[i].status == if c.status == ActionFailed then ActionPending else c.status
    {
      var a := cases[i].incident.value[k];
      SetAction(i, k, a.(status := Pending));
      MovesOne(cases[i].(incident := Some(cases[i].incident.value[k := ReplayedAction(a)])), ActionPending);
      if cases[i].status == ActionFailed {
        var moved := TransitionInspection(i, ActionPending);
      }
      SetAction(i, k, cases[i].incident.value[k].(outbox := a.outbox + [Waiting]));
      assert cases[i].incident.value == old(cases[i].incident.value)[k := ReplayedAction(a)];
    }

    method ReplayExternalAction(i: nat, k: nat, plans: seq<seq<Connector.Attempt>>) returns (r: Option<Refused>)
      requires cfg.maxAttempts >= 1
      modifies this`cases, this`keys, this`stores
      ensures |cases| == |old(cases)|
      ensures State() == Step(old(State()), cfg, Service.ReplayAction(i, k, plans))
      ensures r.Some? ==> cases == old(cases) && keys == old(keys)
      ensures r == Some(NotFound) <==>
        i >= |old(cases)| || old(cases)[i].incident.None? || k >= |old(cases)[i].incident.value|
      ensures r == Some(Conflict) <==> (r != Some(NotFound) && old(cases)[i].incident.value[k].status !in {Failed, ManualReview})
      ensures r.None? ==>
        var c, a := old(cases)[i], old(cases)[i].incident.value[k];
        && cases == old(cases)[i := cases[i]] && keys == old(keys)
        && cases[i].incident.Some? && |cases[i].incident.value| == |c.incident.value|
        && WorkflowSafety.SameOrder(a, cases[i].incident.value[k])
        && (!cfg.inline ==>
              && cases[i].incident.value == c.incident.value[k := a.(status := Pending, outbox := a.outbox + [Waiting])]
              && cases[i].status == if c.status == ActionFailed then ActionPending else c.status)
    {
      if i >= |cases| || cases[i].incident.None? || k >= |cases[i].incident.value| {
        return Some(NotFound);
      }
      var a := cases[i].incident.value[k];
      if a.status != Failed && a.status != ManualReview {
        return Some(Conflict);
      }
      hide RunPending, MaybeInline, ReplayedCase;
      var before, index := cases, keys;
      Requeue(i, k);
      var ok := true;
      WorkflowSafety.InlineCarries(cases[i], stores, cfg, plans);
      if cfg.inline {
        ok := ProcessPendingExternalActions(i, plans);
      }
      if !ok {
        Rollback(before, index);
        return Some(Raised);
      }
      return None;
    }

    method CloseIncident(i: nat) returns (r: Option<Refused>)
      requires cfg.maxAttempts >= 1
      modifies this`cases, this`keys, this`stores
      ensures |cases| == |old(cases)|
      ensures State() == Step(old(State()), cfg, Service.CloseIncident(i))
      ensures r.Some? ==> State() == old(State())
      ensures r == Some(NotFound) <==> i >= |old(cases)| || old(cases)[i].incident.None?
      ensures r.None? <==> (r != Some(NotFound) && old(cases)[i].status == ActionCompleted && old(cases)[i].incident.value != []
        && forall k | 0 <= k < |old(cases)[i].incident.value| :: old(cases)[i].incident.value[k].status == Succeeded)
      ensures r.None? ==> cases == old(cases)[i := old(cases)[i].(status := Closed,
        log := old(cases)[i].log + [Edge(ActionCompleted, Verifying), Edge(Verifying, Closed)])]
    {
      if i >= |cases| || cases[i].incident.None? {
        return Some(NotFound);
      }
      if cases[i].incident.value == [] || !AllSucceeded(cases[i].incident.value) || cases[i].status != ActionCompleted {
        return Some(Conflict);
      }
      MovesTwo(cases[i], Verifying, Closed);
      assert cases[i].log + [Edge(ActionCompleted, Verifying)] + [Edge(Verifying, Closed)]
        == cases[i].log + [Edge(ActionCompleted, Verifying), Edge(Verifying, Closed)];
      var ok := TransitionInspection(i, Verifying);
      ok := TransitionInspection(i, Closed);
      return None;
    }

    // ---- the worker ---------------------------------------------------------------------------------

    /** One pending outbox row: processed and committed, or rolled back when it raises. */
    method ProcessInferenceEvent(i: nat, inf: Inference)
      requires cfg.maxAttempts >= 1
      modifies this`cases, this`keys, this`stores
      ensures |cases| == |old(cases)|
      ensures State() == Step(old(State()), cfg, WorkInference(i, inf))
    {
      if i < |cases| && Pendings(cases[i].outbox) > 0 {
        var before := cases;
        var ok := Infer(i, inf);
        if !ok {
          Rollback(before, keys);
        }
      }
    }

    method ProcessActionEvent(i: nat, k: nat, plan: seq<Connector.Attempt>)
      requires cfg.maxAttempts >= 1
      modifies this`cases, this`keys, this`stores
      ensures |cases| == |old(cases)|
      ensures State() == Step(old(State()), cfg, WorkAction(i, k, plan))
    {
      if i >= |cases| || cases[i].incident.None? || k >= |cases[i].incident.value| {
        return;
      }
      var a := cases[i].incident.value[k];
      if Pendings(a.outbox) == 0 {
        return;
      }
      if a.status == Pending {
        var before := cases;
        var ok := ExecuteExternalAction(i, k, plan);
        if !ok {
          Rollback(before, keys);
        }
      } else {
        SetAction(i, k, a.(outbox := MarkFirst(a.outbox)));
      }
    }

    /** The polling loop over any sequence of turns. */
    method RunForever(turns: seq<Service>)
      requires cfg.maxAttempts >= 1
      requires forall n | 0 <= n < |turns| :: turns[n].WorkInference? || turns[n].WorkAction?
      modifies this`cases, this`keys, this`stores
      ensures |cases| == |old(cases)|
      ensures State() == Run(old(State()), cfg, turns)
    {
      var n := 0;
      while n < |turns|
        invariant 0 <= n <= |turns|
        invariant State() == Run(old(State()), cfg, turns[..n]) && |cases| == |old(cases)|
      {
        assert turns[..n + 1][..n] == turns[..n];
        match turns[n] {
          case WorkInference(i, inf) => ProcessInferenceEvent(i, inf);
          case WorkAction(i, k, plan) => ProcessActionEvent(i, k, plan);
        }
        n := n + 1;
      }
      assert turns[..n] == turns;
    }
  }

  lemma KeepsActions(c: Case, k: nat, stores: Stores, cfg: Settings, plan: seq<Connector.Attempt>)
    requires cfg.maxAttempts >= 1 && c.incident.Some? && k < |c.incident.value|
    ensures var d := ExecuteAction(c, k, stores, cfg, plan).0;
      d.Some? ==> d.value.incident.Some? && |d.value.incident.value| == |c.incident.value|
  {
    var done := Executed(c.incident.value[k], Invoke(stores, c.incident.value[k], cfg, plan).1);
    if done.Some? {
      var actions := c.incident.value[k := done.value];
      MovesKeepsIncident(c.(incident := Some(actions)), Settlement(c.status, actions));
    }
  }

  lemma {:induction false} MovesKeepsIncident(c: Case, targets: seq<Status>)
    ensures Moves(c, targets).Some? ==> Moves(c, targets).value.incident == c.incident
    decreases |targets|
  {
    if targets != [] && targets[0] in Next(c.status) {
      MovesKeepsIncident(Moved(c, targets[0]), targets[1..]);
    }
  }
}
