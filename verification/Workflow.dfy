/** The quality workflow of one tenant: inspections with their review task, incident, external
    actions and outbox rows.  Every service call is one transaction; a failed one leaves the
    tables as they were, but not the external systems. */
module Workflow {
  import opened Base
  import opened Domain
  import Policy
  import Connector

  datatype ActionStatus = Pending | Executing | Succeeded | Failed | ManualReview

  datatype EventStatus = Waiting | Processed

  datatype Action = Action(
    connector: string, operation: string, key: string,
    status: ActionStatus, attempts: nat, reference: Option<nat>, outbox: seq<EventStatus>)

  datatype Task = Task(open: bool, assignee: Option<string>, version: nat)

  /** One inspection and what hangs off it; outbox rows live with the row they are about. */
  datatype Case = Case(
    product: string, station: string, policy: Policy.Config,
    status: Status, log: seq<Edge>, score: Option<real>,
    outbox: seq<EventStatus>, task: Option<Task>, incident: Option<seq<Action>>)

  /** `keys` is the unique index on the actions' idempotency keys. */
  datatype World = World(cases: seq<Case>, keys: map<string, (nat, nat)>, stores: map<string, Connector.Store>)

  datatype Settings = Settings(inline: bool, maxAttempts: nat)

  type Stores = map<string, Connector.Store>

  // ---- transitions and outbox rows -----------------------------------------------------

  /** Follow a list of transitions; an illegal one is a conflict that aborts the call. */
  function Moves(c: Case, targets: seq<Status>): Option<Case>
    decreases |targets|
  {
    if targets == [] then Some(c)
    else if targets[0] !in Next(c.status) then None
    else Moves(c.(status := targets[0], log := c.log + [Edge(c.status, targets[0])]), targets[1..])
  }

  function Pendings(outbox: seq<EventStatus>): nat {
    if outbox == [] then 0 else (if outbox[0] == Waiting then 1 else 0) + Pendings(outbox[1..])
  }

  /** The first PENDING row becomes PROCESSED. */
  function MarkFirst(outbox: seq<EventStatus>): (r: seq<EventStatus>)
    ensures |r| == |outbox|
  {
    if outbox == [] then []
    else if outbox[0] == Waiting then [Processed] + outbox[1..]
    else [outbox[0]] + MarkFirst(outbox[1..])
  }

  lemma {:induction false} MarkFirstTakesOne(outbox: seq<EventStatus>)
    ensures Pendings(MarkFirst(outbox)) == if Pendings(outbox) > 0 then Pendings(outbox) - 1 else 0
  {
    if outbox != [] {
      if outbox[0] == Waiting {
        assert MarkFirst(outbox)[1..] == outbox[1..];
      } else {
        MarkFirstTakesOne(outbox[1..]);
        assert MarkFirst(outbox)[1..] == MarkFirst(outbox[1..]);
      }
    }
  }

  lemma {:induction false} PendingsAppend(outbox: seq<EventStatus>, e: EventStatus)
    ensures Pendings(outbox + [e]) == Pendings(outbox) + if e == Waiting then 1 else 0
  {
    if outbox != [] {
      PendingsAppend(outbox[1..], e);
      assert (outbox + [e])[1..] == outbox[1..] + [e];
    }
  }

  // ---- inference ---------------------------------------------------------------------------

  /** What the model and the object store do during one inference. */
  datatype Inference = ModelUnavailable | StorageDown | Score(score: real)

  function EnsureTask(t: Option<Task>): Option<Task> {
    if t.Some? then t else Some(Task(true, None, 1))
  }

  function Target(r: Policy.Route): Status {
    match r
    case AutoRelease => AutoReleased
    case ManualReview => ReviewRequired
    case BatchHold => BatchHeld
  }

  /** None is an exception: the whole call is rolled back. */
  function ProcessInference(c: Case, inf: Inference): Option<Case> {
    if c.status != Validated then Some(c)
    else match inf
      case StorageDown => None
      case ModelUnavailable =>
        var m := Moves(c, [Inferencing, InferenceFailed, ReviewRequired]);
        if m.None? then None
        else Some(m.value.(task := EnsureTask(c.task), outbox := MarkFirst(c.outbox)))
      case Score(x) =>
        var e := Policy.Evaluate(Some(x), Some(c.policy), c.product, c.station);
        if e.Err? then None
        else
          var m := Moves(c, [Inferencing, Scored, Target(e.value.route)]);
          if m.None? then None
          else
            var task := if e.value.route.AutoRelease? then c.task else EnsureTask(c.task);
            Some(m.value.(score := Some(x), task := task, outbox := MarkFirst(c.outbox)))
  }

  // ---- external actions ------------------------------------------------------------------------

  predicate AllSucceeded(actions: seq<Action>) {
    forall k | 0 <= k < |actions| :: actions[k].status == Succeeded
  }

  predicate Failing(a: Action) {
    a.status == Failed || a.status == ManualReview
  }

  predicate AnyFailing(actions: seq<Action>) {
    exists k :: 0 <= k < |actions| && Failing(actions[k])
  }

  predicate AnyPending(actions: seq<Action>) {
    exists k :: 0 <= k < |actions| && actions[k].status == Pending
  }

  /** The action row after one execution; None when the connector raised. */
  function Executed(a: Action, outcome: Option<Connector.Outcome>): Option<Action> {
    var b := a.(outbox := MarkFirst(a.outbox));
    match outcome
    case None => Some(b.(status := ManualReview))
    case Some(Raised) => None
    case Some(Succeeded(reference, n)) =>
      Some(b.(status := Succeeded, attempts := a.attempts + n, reference := Some(reference)))
    case Some(GaveUp(error, n)) =>
      Some(b.(status := if error == Connector.ManualReview then ManualReview else Failed, attempts := a.attempts + n))
  }

  /** Where the statuses of all actions take an inspection whose action was just executed. */
  function Settlement(s: Status, actions: seq<Action>): seq<Status> {
    var verdict :=
      if AllSucceeded(actions) then [ActionCompleted]
      else if AnyFailing(actions) then [ActionFailed]
      else [];
    if s == ActionPending then [ActionExecuting] + verdict
    else if s == ActionExecuting then verdict
    else []
  }

  function Invoke(stores: Stores, a: Action, cfg: Settings, plan: seq<Connector.Attempt>): (Stores, Option<Connector.Outcome>)
    requires cfg.maxAttempts >= 1
  {
    if a.connector !in stores then (stores, None)
    else
      var (t, o) := Connector.Execute(stores[a.connector], a.key, a.operation, plan, 1, cfg.maxAttempts);
      (stores[a.connector := t], Some(o))
  }

  function ExecuteAction(c: Case, k: nat, stores: Stores, cfg: Settings, plan: seq<Connector.Attempt>): (r: (Option<Case>, Stores))
    requires cfg.maxAttempts >= 1 && c.incident.Some? && k < |c.incident.value|
  {
    var (stores', outcome) := Invoke(stores, c.incident.value[k], cfg, plan);
    var done := Executed(c.incident.value[k], outcome);
    if done.None? then (None, stores')
    else
      var actions := c.incident.value[k := done.value];
      (Moves(c.(incident := Some(actions)), Settlement(c.status, actions)), stores')
  }

  function PlanFor(plans: seq<seq<Connector.Attempt>>, k: nat): seq<Connector.Attempt> {
    if k < |plans| then plans[k] else []
  }

  /** Inline processing: every pending action of the incident from k on, in creation order. */
  function RunPending(c: Case, k: nat, stores: Stores, cfg: Settings, plans: seq<seq<Connector.Attempt>>): (Option<Case>, Stores)
    requires cfg.maxAttempts >= 1 && c.incident.Some? && k <= |c.incident.value|
    decreases |c.incident.value| - k, 1
  {
    if k == |c.incident.value| then (Some(c), stores)
    else if c.incident.value[k].status != Pending then RunPending(c, k + 1, stores, cfg, plans)
    else RunRest(ExecuteAction(c, k, stores, cfg, PlanFor(plans, k)), |c.incident.value|, k + 1, cfg, plans)
  }

  function RunRest(r: (Option<Case>, Stores), n: nat, k: nat, cfg: Settings, plans: seq<seq<Connector.Attempt>>): (Option<Case>, Stores)
    requires cfg.maxAttempts >= 1 && k <= n
    decreases n - k, 2
  {
    if r.0.None? || r.0.value.incident.None? || |r.0.value.incident.value| != n then (None, r.1)
    else RunPending(r.0.value, k, r.1, cfg, plans)
  }

  function NewAction(connector: string, operation: string, key: string): Action {
    Action(connector, operation, key, Pending, 0, None, [Waiting])
  }

  function MaybeInline(c: Case, stores: Stores, cfg: Settings, plans: seq<seq<Connector.Attempt>>): (Option<Case>, Stores)
    requires cfg.maxAttempts >= 1 && c.incident.Some?
  {
    if cfg.inline then RunPending(c, 0, stores, cfg, plans) else (Some(c), stores)
  }

  // ---- service calls ------------------------------------------------------------------------------

  datatype Choice = Good | Rework | Scrap | Investigate | UnableToDetermine

  predicate HighRisk(d: Choice) {
    d == Rework || d == Scrap || d == Investigate
  }

  /** Commit the new case, or roll the tables back; the stores keep what reached them. */
  function Commit(w: World, i: nat, r: (Option<Case>, Stores)): World
    requires i < |w.cases|
  {
    if r.0.None? then w.(stores := r.1) else w.(cases := w.cases[i := r.0.value], stores := r.1)
  }

  function Create(w: World, cfg: Settings, product: string, station: string, policy: Policy.Config, inf: Inference): World {
    var c := Case(product, station, policy, Validated, [Edge(Received, Validated)], None, [Waiting], None, None);
    if !Policy.ConfigOk(policy) then w
    else if !cfg.inline then w.(cases := w.cases + [c])
    else
      var d := ProcessInference(c, inf);
      if d.None? then w else w.(cases := w.cases + [d.value])
  }

  function Claim(w: World, i: nat, actor: string, expected: nat): World {
    if i >= |w.cases| || w.cases[i].task.None? then w
    else
      var t := w.cases[i].task.value;
      if !t.open || t.version != expected || t.assignee.Some? then w
      else w.(cases := w.cases[i := w.cases[i].(task := Some(t.(assignee := Some(actor), version := t.version + 1)))])
  }

  /** The two actions every incident starts with, under keys derived from its id. */
  function InitialActions(incidentId: string): seq<Action> {
    [NewAction("MES", "HOLD_BATCH", incidentId + ":mes:hold"),
     NewAction("QMS", "CREATE_TICKET", incidentId + ":qms:create")]
  }

  /** A confirmed nonconformance with its incident and the two initial actions. */
  function Opened(d: Case, incidentId: string): Option<Case> {
    Moves(d.(incident := Some(InitialActions(incidentId))), [NonconformanceConfirmed, ActionPending])
  }

  /** Commit an opened incident with the keys of its two actions. */
  function CommitOpened(w: World, i: nat, r: (Option<Case>, Stores), hold: string, ticket: string): World
    requires i < |w.cases|
  {
    if r.0.None? then Commit(w, i, r) else Commit(w.(keys := w.keys[hold := (i, 0)][ticket := (i, 1)]), i, r)
  }

  /** Insert the incident and its actions, then execute them inline when configured. */
  function OpenIncident(w: World, cfg: Settings, i: nat, m: Option<Case>, incidentId: string, plans: seq<seq<Connector.Attempt>>): World
    requires cfg.maxAttempts >= 1 && i < |w.cases|
  {
    var hold, ticket := InitialActions(incidentId)[0].key, InitialActions(incidentId)[1].key;
    if m.None? || m.value.incident.None? || hold in w.keys || ticket in w.keys then w
    else CommitOpened(w, i, MaybeInline(m.value, w.stores, cfg, plans), hold, ticket)
  }

  /** The checks of a decision: assignee, role, and the compare-and-swap on status and version. */
  predicate MayDecide(c: Case, actor: string, manager: bool, decision: Choice, expected: nat) {
    && c.task.Some?
    && (c.task.value.assignee.Some? ==> c.task.value.assignee.value == actor)
    && (HighRisk(decision) ==> manager)
    && c.task.value.open && c.task.value.version == expected
  }

  function Completed(c: Case, actor: string): Case
    requires c.task.Some?
  {
    c.(task := Some(Task(false, Some(actor), c.task.value.version + 1)))
  }

  function Decided(w: World, cfg: Settings, i: nat, d: Case, decision: Choice, incidentId: string,
                   plans: seq<seq<Connector.Attempt>>): World
    requires cfg.maxAttempts >= 1 && i < |w.cases|
  {
    if decision == Good then Commit(w, i, (Moves(d, [ReleaseApproved]), w.stores))
    else if decision == UnableToDetermine then Commit(w, i, (Moves(d, [Escalated]), w.stores))
    else if d.incident.Some? then Commit(w, i, (Moves(d, [NonconformanceConfirmed]), w.stores))
    else OpenIncident(w, cfg, i, Opened(d, incidentId), incidentId, plans)
  }

  function Decide(w: World, cfg: Settings, i: nat, actor: string, manager: bool, decision: Choice, expected: nat,
                  incidentId: string, plans: seq<seq<Connector.Attempt>>): World
    requires cfg.maxAttempts >= 1
  {
    if i >= |w.cases| || !MayDecide(w.cases[i], actor, manager, decision, expected) then w
    else Decided(w, cfg, i, Completed(w.cases[i], actor), decision, incidentId, plans)
  }

  function Request(w: World, cfg: Settings, i: nat, confirmed: bool, connector: string, operation: string, key: string,
                   plans: seq<seq<Connector.Attempt>>): World
    requires cfg.maxAttempts >= 1
  {
    if i >= |w.cases| || w.cases[i].incident.None? || !confirmed || key in w.keys then w
    else
      var c := w.cases[i];
      var n := |c.incident.value|;
      var d := c.(incident := Some(c.incident.value + [NewAction(connector, operation, key)]));
      var r := MaybeInline(d, w.stores, cfg, plans);
      if r.0.None? then Commit(w, i, r) else Commit(w.(keys := w.keys[key := (i, n)]), i, r)
  }

  function ReplayedAction(a: Action): Action {
    a.(status := Pending, outbox := a.outbox + [Waiting])
  }

  /** The case with one failed action waiting again. */
  function ReplayedCase(c: Case, k: nat): Option<Case>
    requires c.incident.Some? && k < |c.incident.value|
  {
    var actions := c.incident.value[k := ReplayedAction(c.incident.value[k])];
    Moves(c.(incident := Some(actions)), if c.status == ActionFailed then [ActionPending] else [])
  }

  function Replay(w: World, cfg: Settings, i: nat, k: nat, plans: seq<seq<Connector.Attempt>>): World
    requires cfg.maxAttempts >= 1
  {
    if i >= |w.cases| || w.cases[i].incident.None? || k >= |w.cases[i].incident.value| then w
    else
      var c := w.cases[i];
      if !Failing(c.incident.value[k]) then w
      else
        var m := ReplayedCase(c, k);
        if m.None? || m.value.incident.None? then w
        else Commit(w, i, MaybeInline(m.value, w.stores, cfg, plans))
  }

  function Close(w: World, i: nat): World {
    if i >= |w.cases| || w.cases[i].incident.None? then w
    else
      var c := w.cases[i];
      if c.incident.value == [] || !AllSucceeded(c.incident.value) || c.status != ActionCompleted then w
      else Commit(w, i, (Moves(c, [Verifying, Closed]), w.stores))
  }

  /** The worker picked the outbox row of case i's inference. */
  function InferenceEvent(w: World, i: nat, inf: Inference): World {
    if i >= |w.cases| || Pendings(w.cases[i].outbox) == 0 then w
    else Commit(w, i, (ProcessInference(w.cases[i], inf), w.stores))
  }

  /** The worker picked the outbox row of action k of case i. */
  function ActionEvent(w: World, cfg: Settings, i: nat, k: nat, plan: seq<Connector.Attempt>): World
    requires cfg.maxAttempts >= 1
  {
    if i >= |w.cases| || w.cases[i].incident.None? || k >= |w.cases[i].incident.value| then w
    else
      var c := w.cases[i];
      var a := c.incident.value[k];
      if Pendings(a.outbox) == 0 then w
      else if a.status == Pending then Commit(w, i, ExecuteAction(c, k, w.stores, cfg, plan))
      else
        var b := a.(outbox := MarkFirst(a.outbox));
        w.(cases := w.cases[i := c.(incident := Some(c.incident.value[k := b]))])
  }

  datatype Service =
    | CreateInspection(product: string, station: string, policy: Policy.Config, inf: Inference)
    | ClaimReview(i: nat, actor: string, expected: nat)
    | DecideReview(i: nat, actor: string, manager: bool, decision: Choice, expected: nat, incidentId: string,
                   plans: seq<seq<Connector.Attempt>>)
    | RequestAction(i: nat, confirmed: bool, connector: string, operation: string, key: string,
                    plans: seq<seq<Connector.Attempt>>)
    | ReplayAction(i: nat, k: nat, plans: seq<seq<Connector.Attempt>>)
    | CloseIncident(i: nat)
    | WorkInference(i: nat, inf: Inference)
    | WorkAction(i: nat, k: nat, plan: seq<Connector.Attempt>)

  function Step(w: World, cfg: Settings, s: Service): World
    requires cfg.maxAttempts >= 1
  {
    match s
    case CreateInspection(product, station, policy, inf) => Create(w, cfg, product, station, policy, inf)
    case ClaimReview(i, actor, expected) => Claim(w, i, actor, expected)
    case DecideReview(i, actor, manager, decision, expected, incidentId, plans) =>
      Decide(w, cfg, i, actor, manager, decision, expected, incidentId, plans)
    case RequestAction(i, confirmed, connector, operation, key, plans) =>
      Request(w, cfg, i, confirmed, connector, operation, key, plans)
    case ReplayAction(i, k, plans) => Replay(w, cfg, i, k, plans)
    case CloseIncident(i) => Close(w, i)
    case WorkInference(i, inf) => InferenceEvent(w, i, inf)
    case WorkAction(i, k, plan) => ActionEvent(w, cfg, i, k, plan)
  }

  function Run(w: World, cfg: Settings, ss: seq<Service>): World
    requires cfg.maxAttempts >= 1
  {
    if ss == [] then w else Step(Run(w, cfg, ss[..|ss| - 1]), cfg, ss[|ss| - 1])
  }
}
