/** What holds in every committed state of the quality workflow. */
module WorkflowSafety {
  import opened Base
  import opened Domain
  import opened Workflow
  import Policy
  import Connector

  /** Statuses that can be seen between transactions. */
  predicate Committed(s: Status) {
    s in {Validated, AutoReleased, ReviewRequired, BatchHeld, ReleaseApproved, Escalated,
          ActionPending, ActionExecuting, ActionCompleted, ActionFailed, Closed}
  }

  predicate UnderReview(s: Status) {
    s == ReviewRequired || s == BatchHeld
  }

  predicate HasIncident(s: Status) {
    s in {ActionPending, ActionExecuting, ActionCompleted, ActionFailed, Closed}
  }

  /** An action waits for execution exactly when it has one pending outbox row. */
  predicate ActionOk(a: Action) {
    && a.status != Executing
    && Pendings(a.outbox) == (if a.status == Pending then 1 else 0)
    && (a.status == Succeeded ==> a.reference.Some?)
  }

  predicate ActionsOk(actions: seq<Action>) {
    |actions| >= 2 && forall k | 0 <= k < |actions| :: ActionOk(actions[k])
  }

  /** How the inspection status and the action statuses fit together. */
  predicate StatusAgrees(s: Status, actions: seq<Action>) {
    && (s == ActionPending ==> AnyPending(actions))
    && (s == ActionExecuting ==> AnyPending(actions) && !AnyFailing(actions))
    && (s == ActionFailed ==> AnyFailing(actions))
    && (s == ActionCompleted || s == Closed ==>
          |actions| >= 2 && actions[0].status == Succeeded && actions[1].status == Succeeded)
  }

  predicate ClosedThroughVerification(log: seq<Edge>) {
    |log| >= 2 && log[|log| - 2..] == [Edge(ActionCompleted, Verifying), Edge(Verifying, Closed)]
  }

  /** What the routed statuses say about the stored score: released below the review threshold of
      the resolved rule, held from its hold threshold on, and in review between the two or
      because the model failed. */
  predicate RouteOk(c: Case) {
    var r := Policy.Resolve(c.policy, c.product, c.station);
    && (c.status == AutoReleased ==> c.score.Some? && r.Ok? && c.score.value < r.value.review)
    && (c.status == BatchHeld ==> c.score.Some? && r.Ok? && r.value.hold <= c.score.value)
    && (c.status == ReviewRequired ==>
          (c.score.Some? && r.Ok? && r.value.review <= c.score.value < r.value.hold)
          || (c.score.None? && Edge(Inferencing, InferenceFailed) in c.log))
  }

  predicate ReviewOk(c: Case) {
    && (c.task.Some? && c.task.value.open <==> UnderReview(c.status))
    && (c.status == Validated ==> c.task.None?)
  }

  predicate CaseOk(c: Case) {
    && Policy.ConfigOk(c.policy)
    && Committed(c.status) && IsPath(c.log, c.status)
    && Pendings(c.outbox) == (if c.status == Validated then 1 else 0)
    && ReviewOk(c)
    && (c.incident.Some? <==> HasIncident(c.status))
    && (c.incident.Some? ==> ActionsOk(c.incident.value) && StatusAgrees(c.status, c.incident.value))
    && RouteOk(c) && (c.status == Validated ==> c.score.None?)
    && (c.status == Closed ==> ClosedThroughVerification(c.log))
  }

  /** What no call takes back: the log only grows, actions are only appended, keep their key
      and their attempts, and a succeeded action keeps its status and reference. */
  predicate ActionKept(a: Action, b: Action) {
    && b.key == a.key && b.connector == a.connector && a.attempts <= b.attempts
    && (a.status == Succeeded ==> b.status == Succeeded && b.reference == a.reference)
  }

  predicate ActionsKept(a: seq<Action>, b: seq<Action>) {
    |a| <= |b| && forall k | 0 <= k < |a| :: ActionKept(a[k], b[k])
  }

  predicate CaseKept(c: Case, d: Case) {
    && d.policy == c.policy && d.product == c.product && d.station == c.station
    && c.log <= d.log && (c.score.Some? ==> d.score == c.score)
    && (c.incident.Some? ==> d.incident.Some? && ActionsKept(c.incident.value, d.incident.value))
  }

  lemma CaseKeptTransitive(a: Case, b: Case, c: Case)
    requires CaseKept(a, b) && CaseKept(b, c)
    ensures CaseKept(a, c)
  {
    if a.incident.Some? {
      forall k | 0 <= k < |a.incident.value| ensures ActionKept(a.incident.value[k], c.incident.value[k]) {
        assert ActionKept(a.incident.value[k], b.incident.value[k]) && ActionKept(b.incident.value[k], c.incident.value[k]);
      }
    }
  }

  predicate WorldKept(w: World, v: World) {
    |w.cases| <= |v.cases| && forall i | 0 <= i < |w.cases| :: CaseKept(w.cases[i], v.cases[i])
  }

  // ---- following transitions ----------------------------------------------------------------

  predicate Legal(s: Status, ts: seq<Status>)
    decreases |ts|
  {
    ts == [] || (ts[0] in Next(s) && Legal(ts[0], ts[1..]))
  }

  function Last(s: Status, ts: seq<Status>): Status {
    if ts == [] then s else ts[|ts| - 1]
  }

  /** A legal list of transitions changes the status and extends the log, nothing else. */
  lemma {:induction false} MovesFollow(c: Case, ts: seq<Status>)
    requires Legal(c.status, ts) && IsPath(c.log, c.status)
    ensures Moves(c, ts).Some?
    ensures var d := Moves(c, ts).value;
      d == c.(status := Last(c.status, ts), log := d.log) && IsPath(d.log, d.status) && |d.log| == |c.log| + |ts| && c.log <= d.log
    decreases |ts|
  {
    if ts != [] {
      PathStep(c.log, c.status, ts[0]);
      MovesFollow(c.(status := ts[0], log := c.log + [Edge(c.status, ts[0])]), ts[1..]);
    }
  }

  // ---- inference ---------------------------------------------------------------------------------

  /** After an inference the case is valid again, no longer waits, and only its own part changed. */
  predicate Inferred(c: Case, d: Case) {
    CaseOk(d) && d.incident == c.incident && d.status != Validated && d.status != Closed && Pendings(d.outbox) == 0 && CaseKept(c, d)
  }

  /** The log of a failing model, edge by edge. */
  lemma UnavailableMoves(c: Case)
    requires c.status == Validated
    ensures Moves(c, [Inferencing, InferenceFailed, ReviewRequired]) == Some(c.(status := ReviewRequired,
      log := c.log + [Edge(Validated, Inferencing), Edge(Inferencing, InferenceFailed), Edge(InferenceFailed, ReviewRequired)]))
  {
    var a := c.(status := Inferencing, log := c.log + [Edge(Validated, Inferencing)]);
    var b := a.(status := InferenceFailed, log := a.log + [Edge(Inferencing, InferenceFailed)]);
    assert [Inferencing, InferenceFailed, ReviewRequired][1..] == [InferenceFailed, ReviewRequired];
    assert [InferenceFailed, ReviewRequired][1..] == [ReviewRequired];
    MovesOnce(b, ReviewRequired);
    assert Moves(a, [InferenceFailed, ReviewRequired]) == Moves(b, [ReviewRequired]);
    assert b.log + [Edge(InferenceFailed, ReviewRequired)]
      == c.log + [Edge(Validated, Inferencing), Edge(Inferencing, InferenceFailed), Edge(InferenceFailed, ReviewRequired)];
  }

  lemma MovesOnce(c: Case, target: Status)
    requires target in Next(c.status)
    ensures Moves(c, [target]) == Some(c.(status := target, log := c.log + [Edge(c.status, target)]))
  {
    assert [target][1..] == [];
  }

  /** The log of a scored inspection, edge by edge. */
  lemma ScoredMoves(c: Case, target: Status)
    requires c.status == Validated && target in {AutoReleased, ReviewRequired, BatchHeld}
    ensures Moves(c, [Inferencing, Scored, target]) == Some(c.(status := target,
      log := c.log + [Edge(Validated, Inferencing), Edge(Inferencing, Scored), Edge(Scored, target)]))
  {
    var a := c.(status := Inferencing, log := c.log + [Edge(Validated, Inferencing)]);
    var b := a.(status := Scored, log := a.log + [Edge(Inferencing, Scored)]);
    assert [Inferencing, Scored, target][1..] == [Scored, target];
    assert [Scored, target][1..] == [target];
    MovesOnce(b, target);
    assert Moves(a, [Scored, target]) == Moves(b, [target]);
    assert b.log + [Edge(Scored, target)]
      == c.log + [Edge(Validated, Inferencing), Edge(Inferencing, Scored), Edge(Scored, target)];
  }

  lemma UnavailableKeeps(c: Case)
    requires CaseOk(c) && c.status == Validated
    ensures ProcessInference(c, ModelUnavailable).Some? && Inferred(c, ProcessInference(c, ModelUnavailable).value)
  {
    MarkFirstTakesOne(c.outbox);
    UnavailableMoves(c);
    hide Moves, Policy.ConfigOk, Policy.Resolve, ActionsOk, StatusAgrees;
    MovesFollow(c, [Inferencing, InferenceFailed, ReviewRequired]);
    var failed := Edge(Inferencing, InferenceFailed);
    assert [Edge(Validated, Inferencing), failed, Edge(InferenceFailed, ReviewRequired)][1] == failed;
  }

  lemma ScoreKeeps(c: Case, x: real)
    requires CaseOk(c) && c.status == Validated
    ensures var d := ProcessInference(c, Score(x));
      && (d.None? <==> Policy.Resolve(c.policy, c.product, c.station).Err?)
      && (d.Some? ==> Inferred(c, d.value))
  {
    MarkFirstTakesOne(c.outbox);
    var e := Policy.Evaluate(Some(x), Some(c.policy), c.product, c.station);
    if e.Ok? {
      var targets := [Inferencing, Scored, Target(e.value.route)];
      assert Legal(Scored, targets[1..][1..]);
      MovesFollow(c, targets);
      assert Last(c.status, targets) == Target(e.value.route);
    }
  }

  lemma InferenceKeeps(c: Case, inf: Inference)
    requires CaseOk(c)
    ensures var d := ProcessInference(c, inf);
      && (c.status != Validated ==> d == Some(c))
      && (c.status == Validated && d.Some? ==> Inferred(c, d.value))
      && (c.status == Validated ==>
            (d.None? <==> inf.StorageDown? || (inf.Score? && Policy.Resolve(c.policy, c.product, c.station).Err?)))
  {
    if c.status == Validated && inf.ModelUnavailable? { UnavailableKeeps(c); }
    if c.status == Validated && inf.Score? { ScoreKeeps(c, inf.score); }
  }

  /** The model failing sends the inspection to review, whatever the policy says. */
  lemma FailedInferenceIsReviewed(c: Case)
    requires CaseOk(c) && c.status == Validated
    ensures var d := ProcessInference(c, ModelUnavailable);
      && d.Some? && d.value.status == ReviewRequired && d.value.task == Some(Task(true, None, 1)) && d.value.score.None?
      && d.value.log == c.log + [Edge(Validated, Inferencing), Edge(Inferencing, InferenceFailed), Edge(InferenceFailed, ReviewRequired)]
  {
    UnavailableMoves(c);
  }

  /** Where a score takes an inspection, by the two thresholds of its resolved rule: released below
      the review threshold, held from the hold threshold on, in review between them.  The score is
      stored, whoever is not released gets an open task of version 1, and the log says how. */
  lemma ScoreIsRouted(c: Case, x: real)
    requires CaseOk(c) && c.status == Validated
    ensures var d, r := ProcessInference(c, Score(x)), Policy.Resolve(c.policy, c.product, c.station);
      && (d.None? <==> r.Err?)
      && (r.Ok? ==>
            && d.value.score == Some(x)
            && (d.value.status == AutoReleased <==> x < r.value.review)
            && (d.value.status == ReviewRequired <==> r.value.review <= x < r.value.hold)
            && (d.value.status == BatchHeld <==> x >= r.value.hold)
            && d.value.task == (if x < r.value.review then None else Some(Task(true, None, 1)))
            && d.value.log == c.log + [Edge(Validated, Inferencing), Edge(Inferencing, Scored), Edge(Scored, d.value.status)])
  {
    Policy.RoutingIsExact(c.policy, c.product, c.station, x);
    var e := Policy.Evaluate(Some(x), Some(c.policy), c.product, c.station);
    if e.Ok? { ScoredMoves(c, Target(e.value.route)); }
  }

  // ---- executing actions ----------------------------------------------------------------------------

  predicate Settled(s: ActionStatus) {
    s == Succeeded || s == Failed || s == ManualReview
  }

  lemma ExecutedIsOk(a: Action, outcome: Option<Connector.Outcome>)
    requires ActionOk(a) && a.status == Pending
    ensures Executed(a, outcome).None? <==> outcome == Some(Connector.Raised)
    ensures Executed(a, outcome).Some? ==>
      var b := Executed(a, outcome).value;
      ActionOk(b) && Settled(b.status) && ActionKept(a, b) && Pendings(b.outbox) == 0
  {
    MarkFirstTakesOne(a.outbox);
  }

  /** The transitions after an execution are always legal, and the result agrees again. */
  lemma SettlementAgrees(s: Status, actions: seq<Action>, k: nat, b: Action)
    requires HasIncident(s) && StatusAgrees(s, actions) && ActionsOk(actions)
    requires k < |actions| && actions[k].status == Pending && ActionOk(b) && Settled(b.status)
    ensures var after := actions[k := b];
      && Legal(s, Settlement(s, after))
      && ActionsOk(after)
      && HasIncident(Last(s, Settlement(s, after)))
      && StatusAgrees(Last(s, Settlement(s, after)), after)
      && (Last(s, Settlement(s, after)) == Closed <==> s == Closed)
      && (s == Closed ==> Settlement(s, after) == [])
  {
    var after := actions[k := b];
    var verdict := Settlement(ActionExecuting, after);
    SettledVerdict(after);
    if s == ActionFailed {
      var j :| 0 <= j < |actions| && Failing(actions[j]);
      assert Failing(after[j]);
    }
    if s == ActionPending {
      assert ([ActionExecuting] + verdict)[1..] == verdict;
    }
    assert Legal(ActionExecuting, verdict);
  }

  /** Without a pending action left unexecuted, some verdict falls: all succeeded or one failing. */
  lemma SettledVerdict(actions: seq<Action>)
    requires ActionsOk(actions)
    ensures AllSucceeded(actions) || AnyFailing(actions) || AnyPending(actions)
    ensures AllSucceeded(actions) ==> !AnyFailing(actions)
  {
    if !AllSucceeded(actions) {
      var k :| 0 <= k < |actions| && actions[k].status != Succeeded;
      assert ActionOk(actions[k]);
    }
  }

  /** The row after a settled execution, put back into a valid case. */
  lemma SettleKeeps(c: Case, k: nat, b: Action)
    requires CaseOk(c) && c.incident.Some? && k < |c.incident.value| && c.incident.value[k].status == Pending
    requires ActionOk(b) && Settled(b.status) && ActionKept(c.incident.value[k], b)
    ensures var after := c.incident.value[k := b];
      var d := Moves(c.(incident := Some(after)), Settlement(c.status, after));
      && d.Some? && CaseOk(d.value) && d.value.incident == Some(after)
      && d.value.outbox == c.outbox && CaseKept(c, d.value)
      && (d.value.status == Closed <==> c.status == Closed)
  {
    var after := c.incident.value[k := b];
    SettlementAgrees(c.status, c.incident.value, k, b);
    MovesFollow(c.(incident := Some(after)), Settlement(c.status, after));
  }

  lemma ExecuteKeeps(c: Case, k: nat, stores: Stores, cfg: Settings, plan: seq<Connector.Attempt>)
    requires CaseOk(c) && cfg.maxAttempts >= 1
    requires c.incident.Some? && k < |c.incident.value| && c.incident.value[k].status == Pending
    ensures var (d, stores') := ExecuteAction(c, k, stores, cfg, plan);
      && (d.None? <==> Invoke(stores, c.incident.value[k], cfg, plan).1 == Some(Connector.Raised))
      && (d.Some? ==>
            && CaseOk(d.value) && d.value.incident.Some?
            && d.value.outbox == c.outbox && CaseKept(c, d.value)
            && (d.value.status == Closed <==> c.status == Closed)
            && d.value.incident == Some(c.incident.value[k := Executed(c.incident.value[k], Invoke(stores, c.incident.value[k], cfg, plan).1).value]))
  {
    var outcome := Invoke(stores, c.incident.value[k], cfg, plan).1;
    ExecutedIsOk(c.incident.value[k], outcome);
    var done := Executed(c.incident.value[k], outcome);
    if done.Some? { SettleKeeps(c, k, done.value); }
  }

  /** What an execution makes of its action, by the attempt that decides it: the first that is no
      retryable failure, or the last one allowed.  An answer is a success under the reference of
      the record, a failure that asks for a person waits for one, any other failure is final, and
      an unknown exception aborts the call; without its connector the action waits for a person and
      nothing is attempted. */
  lemma ActionFollowsItsAnswer(c: Case, k: nat, stores: Stores, cfg: Settings, plan: seq<Connector.Attempt>) returns (n: nat)
    requires CaseOk(c) && cfg.maxAttempts >= 1
    requires c.incident.Some? && k < |c.incident.value| && c.incident.value[k].status == Pending
    ensures var a, (d, after) := c.incident.value[k], ExecuteAction(c, k, stores, cfg, plan);
      if a.connector !in stores then after == stores && n == 0 && d.Some? && Becomes(c, d.value, k, ManualReview, 0)
      else
        && 1 <= n <= cfg.maxAttempts
        && (forall j | 1 <= j < n :: Connector.Planned(plan, j).Failed? && Connector.Planned(plan, j).error == Connector.Retryable)
        && match Connector.Planned(plan, n)
           case Broken(_) => d.None?
           case Answered =>
             && d.Some? && Becomes(c, d.value, k, Succeeded, n)
             && a.connector in after && a.key in after[a.connector].byKey
             && d.value.incident.value[k].reference == Some(after[a.connector].byKey[a.key].reference)
           case Failed(_, error) =>
             && (error == Connector.Retryable ==> n == cfg.maxAttempts)
             && d.Some? && Becomes(c, d.value, k, if error == Connector.ManualReview then ManualReview else Failed, n)
  {
    var a := c.incident.value[k];
    ExecuteKeeps(c, k, stores, cfg, plan);
    n := 0;
    if a.connector in stores {
      n := Connector.ExecuteStopsAtFirstDecision(stores[a.connector], a.key, a.operation, plan, 1, cfg.maxAttempts);
      Connector.SuccessIsRecorded(stores[a.connector], a.key, a.operation, plan, 1, cfg.maxAttempts);
    }
  }

  /** Where an execution takes the inspection: from ACTION_PENDING or ACTION_EXECUTING to completed
      when every action has succeeded by now, to failed when one has failed or waits for a person,
      else to ACTION_EXECUTING; any other status stays. */
  predicate SettledIn(before: Status, after: Status, actions: seq<Action>) {
    after ==
      if before != ActionPending && before != ActionExecuting then before
      else if forall j | 0 <= j < |actions| :: actions[j].status == Succeeded then ActionCompleted
      else if exists j :: 0 <= j < |actions| && actions[j].status in {Failed, ManualReview} then ActionFailed
      else ActionExecuting
  }

  lemma SettlementEnds(s: Status, actions: seq<Action>)
    ensures SettledIn(s, Last(s, Settlement(s, actions)), actions)
  {
    if AnyFailing(actions) {
      var j :| 0 <= j < |actions| && Failing(actions[j]);
      assert actions[j].status in {Failed, ManualReview};
    }
  }

  lemma ExecutionSettles(c: Case, k: nat, stores: Stores, cfg: Settings, plan: seq<Connector.Attempt>)
    requires CaseOk(c) && cfg.maxAttempts >= 1
    requires c.incident.Some? && k < |c.incident.value| && c.incident.value[k].status == Pending
    requires ExecuteAction(c, k, stores, cfg, plan).0.Some?
    ensures var d := ExecuteAction(c, k, stores, cfg, plan).0.value;
      d.incident.Some? && SettledIn(c.status, d.status, d.incident.value)
  {
    var done := Executed(c.incident.value[k], Invoke(stores, c.incident.value[k], cfg, plan).1).value;
    ExecutedIsOk(c.incident.value[k], Invoke(stores, c.incident.value[k], cfg, plan).1);
    var after := c.incident.value[k := done];
    SettlementAgrees(c.status, c.incident.value, k, done);
    SettlementEnds(c.status, after);
    MovesFollow(c.(incident := Some(after)), Settlement(c.status, after));
    hide Settlement, SettledIn, Moves, Executed, Invoke, CaseOk;
  }

  /** Action k, and no other, has this status now, after so many attempts more. */
  predicate Becomes(c: Case, d: Case, k: nat, status: ActionStatus, attempts: nat) {
    && c.incident.Some? && k < |c.incident.value| && d.incident.Some? && |d.incident.value| == |c.incident.value|
    && d.incident.value[k].status == status && d.incident.value[k].attempts == c.incident.value[k].attempts + attempts
    && SameOrder(c.incident.value[k], d.incident.value[k])
    && forall j | 0 <= j < |c.incident.value| && j != k :: d.incident.value[j] == c.incident.value[j]
  }

  /** The two actions ask the same of the same system under the same key. */
  predicate SameOrder(a: Action, b: Action) {
    a.connector == b.connector && a.operation == b.operation && a.key == b.key
  }

  // ---- the unique index and the external systems ---------------------------------------------------------

  /** Every action is found under its own key. */
  predicate Keyed(c: Case, i: nat, keys: map<string, (nat, nat)>) {
    c.incident.Some? ==> forall k | 0 <= k < |c.incident.value| ::
      c.incident.value[k].key in keys && keys[c.incident.value[k].key] == (i, k)
  }

  /** A succeeded action carries the reference of the record under its key. */
  predicate Backed(a: Action, stores: Stores) {
    a.status == Succeeded ==>
      && a.connector in stores && a.key in stores[a.connector].byKey
      && a.reference == Some(stores[a.connector].byKey[a.key].reference)
  }

  predicate CaseBacked(c: Case, stores: Stores) {
    c.incident.Some? ==> forall k | 0 <= k < |c.incident.value| :: Backed(c.incident.value[k], stores)
  }

  ghost predicate StoresOk(stores: Stores) {
    forall n | n in stores :: Connector.StoreOk(stores[n])
  }

  predicate RecordsKept(s: Connector.Store, t: Connector.Store) {
    forall k | k in s.byKey :: k in t.byKey && t.byKey[k] == s.byKey[k]
  }

  predicate StoresGrow(s: Stores, t: Stores) {
    s.Keys == t.Keys && forall n | n in s :: RecordsKept(s[n], t[n])
  }

  lemma StoresGrowTransitive(a: Stores, b: Stores, c: Stores)
    requires StoresGrow(a, b) && StoresGrow(b, c)
    ensures StoresGrow(a, c)
  {
    forall n | n in a ensures RecordsKept(a[n], c[n]) {
      assert RecordsKept(a[n], b[n]) && RecordsKept(b[n], c[n]);
    }
  }

  lemma GrowthKeepsBacked(c: Case, s: Stores, t: Stores)
    requires CaseBacked(c, s) && StoresGrow(s, t)
    ensures CaseBacked(c, t)
  {
    if c.incident.Some? {
      forall k | 0 <= k < |c.incident.value| ensures Backed(c.incident.value[k], t) {
        var a := c.incident.value[k];
        assert Backed(a, s);
        if a.status == Succeeded { assert RecordsKept(s[a.connector], t[a.connector]); }
      }
    }
  }

  lemma InvokeKeeps(stores: Stores, a: Action, cfg: Settings, plan: seq<Connector.Attempt>)
    requires StoresOk(stores) && cfg.maxAttempts >= 1
    ensures var (t, o) := Invoke(stores, a, cfg, plan);
      && StoresOk(t) && StoresGrow(stores, t)
      && (o.None? ==> t == stores)
      && (o.Some? && o.value.Succeeded? ==>
            a.connector in t && a.key in t[a.connector].byKey && t[a.connector].byKey[a.key].reference == o.value.reference)
      && (o.Some? && !o.value.Raised? ==> 1 <= o.value.attempts <= cfg.maxAttempts)
  {
    if a.connector in stores {
      Connector.ExecuteIsExactlyOnce(stores[a.connector], a.key, a.operation, plan, 1, cfg.maxAttempts);
      var t := Invoke(stores, a, cfg, plan).0;
      forall n | n in stores ensures RecordsKept(stores[n], t[n]) {
        if n == a.connector { assert Connector.Extends(stores[n], t[n], a.key); }
      }
    }
  }

  // ---- one call, one case ---------------------------------------------------------------------------------

  predicate SameKeys(a: seq<Action>, b: seq<Action>) {
    |a| == |b| && forall k | 0 <= k < |a| :: a[k].key == b[k].key
  }

  /** What executing actions does to a case and to the stores. */
  ghost predicate ExecutionOk(c: Case, stores: Stores, r: (Option<Case>, Stores)) {
    && StoresOk(r.1) && StoresGrow(stores, r.1)
    && (r.0.Some? ==>
          && CaseOk(r.0.value) && CaseBacked(r.0.value, r.1)
          && c.incident.Some? && r.0.value.incident.Some?
          && SameKeys(c.incident.value, r.0.value.incident.value) && CaseKept(c, r.0.value)
          && (r.0.value.status == Closed <==> c.status == Closed)
          && r.0.value.outbox == c.outbox)
  }

  lemma ActionIsOk(c: Case, k: nat)
    requires CaseOk(c) && c.incident.Some? && k < |c.incident.value|
    ensures ActionOk(c.incident.value[k])
  {
  }

  lemma ExecuteIsOk(c: Case, k: nat, stores: Stores, cfg: Settings, plan: seq<Connector.Attempt>)
    requires CaseOk(c) && CaseBacked(c, stores) && StoresOk(stores) && cfg.maxAttempts >= 1
    requires c.incident.Some? && k < |c.incident.value| && c.incident.value[k].status == Pending
    ensures var r := ExecuteAction(c, k, stores, cfg, plan);
      ExecutionOk(c, stores, r)
  {
    hide CaseOk, Moves, Settlement;
    var a := c.incident.value[k];
    var (t, o) := Invoke(stores, a, cfg, plan);
    InvokeKeeps(stores, a, cfg, plan);
    ExecuteKeeps(c, k, stores, cfg, plan);
    var d := ExecuteAction(c, k, stores, cfg, plan).0;
    GrowthKeepsBacked(c, stores, t);
    ActionIsOk(c, k);
    if d.Some? {
      ExecutedIsOk(a, o);
      forall j | 0 <= j < |d.value.incident.value| ensures Backed(d.value.incident.value[j], t) {
        if j != k { assert Backed(c.incident.value[j], t); }
      }
    }
  }

  lemma ComposeExecutions(c: Case, stores: Stores, d: Case, t: Stores, r: (Option<Case>, Stores))
    requires ExecutionOk(c, stores, (Some(d), t)) && ExecutionOk(d, t, r)
    ensures ExecutionOk(c, stores, r)
  {
    StoresGrowTransitive(stores, t, r.1);
    if r.0.Some? { CaseKeptTransitive(c, d, r.0.value); }
  }

  lemma NothingExecuted(c: Case, stores: Stores)
    requires CaseOk(c) && CaseBacked(c, stores) && StoresOk(stores) && c.incident.Some?
    ensures ExecutionOk(c, stores, (Some(c), stores))
  {
  }

  lemma RunPendingEnds(c: Case, stores: Stores, cfg: Settings, plans: seq<seq<Connector.Attempt>>)
    requires cfg.maxAttempts >= 1 && c.incident.Some?
    ensures RunPending(c, |c.incident.value|, stores, cfg, plans) == (Some(c), stores)
  {
  }

  lemma RunPendingSkips(c: Case, k: nat, stores: Stores, cfg: Settings, plans: seq<seq<Connector.Attempt>>)
    requires cfg.maxAttempts >= 1 && c.incident.Some? && k < |c.incident.value| && c.incident.value[k].status != Pending
    ensures RunPending(c, k, stores, cfg, plans) == RunPending(c, k + 1, stores, cfg, plans)
  {
  }

  lemma RunPendingExecutes(c: Case, k: nat, stores: Stores, cfg: Settings, plans: seq<seq<Connector.Attempt>>)
    requires cfg.maxAttempts >= 1 && c.incident.Some? && k < |c.incident.value| && c.incident.value[k].status == Pending
    ensures RunPending(c, k, stores, cfg, plans)
         == RunRest(ExecuteAction(c, k, stores, cfg, PlanFor(plans, k)), |c.incident.value|, k + 1, cfg, plans)
  {
  }

  lemma {:induction false} RunPendingIsOk(c: Case, k: nat, stores: Stores, cfg: Settings, plans: seq<seq<Connector.Attempt>>)
    requires CaseOk(c) && CaseBacked(c, stores) && StoresOk(stores) && cfg.maxAttempts >= 1
    requires c.incident.Some? && k <= |c.incident.value|
    ensures var r := RunPending(c, k, stores, cfg, plans); ExecutionOk(c, stores, r)
    decreases |c.incident.value| - k, 1
  {
    if k == |c.incident.value| {
      RunPendingEnds(c, stores, cfg, plans);
      NothingExecuted(c, stores);
    } else if c.incident.value[k].status != Pending {
      RunPendingSkips(c, k, stores, cfg, plans);
      RunPendingIsOk(c, k + 1, stores, cfg, plans);
    } else {
      RunPendingExecutes(c, k, stores, cfg, plans);
      RunOneIsOk(c, k, stores, cfg, plans);
    }
  }

  lemma {:induction false} RunOneIsOk(c: Case, k: nat, stores: Stores, cfg: Settings, plans: seq<seq<Connector.Attempt>>)
    requires CaseOk(c) && CaseBacked(c, stores) && StoresOk(stores) && cfg.maxAttempts >= 1
    requires c.incident.Some? && k < |c.incident.value| && c.incident.value[k].status == Pending
    ensures var r := RunRest(ExecuteAction(c, k, stores, cfg, PlanFor(plans, k)), |c.incident.value|, k + 1, cfg, plans);
      ExecutionOk(c, stores, r)
    decreases |c.incident.value| - k, 0
  {
    ExecuteIsOk(c, k, stores, cfg, PlanFor(plans, k));
    RunRestIsOk(c, stores, ExecuteAction(c, k, stores, cfg, PlanFor(plans, k)), k + 1, cfg, plans);
  }

  lemma {:induction false} RunRestIsOk(c: Case, stores: Stores, r: (Option<Case>, Stores), k: nat, cfg: Settings, plans: seq<seq<Connector.Attempt>>)
    requires c.incident.Some? && ExecutionOk(c, stores, r) && cfg.maxAttempts >= 1 && k <= |c.incident.value|
    ensures var t := RunRest(r, |c.incident.value|, k, cfg, plans);
      ExecutionOk(c, stores, t)
    decreases |c.incident.value| - k, 2
  {
    if r.0.Some? {
      RunPendingIsOk(r.0.value, k, r.1, cfg, plans);
      ComposeExecutions(c, stores, r.0.value, r.1, RunPending(r.0.value, k, r.1, cfg, plans));
    }
  }

  /** What no execution touches, whatever state it starts from: the orders of the actions and
      everything about the case but its status, and a log that only grows. */
  predicate Carried(c: Case, d: Case) {
    && d.product == c.product && d.station == c.station && d.policy == c.policy && d.score == c.score
    && d.task == c.task && d.outbox == c.outbox && c.log <= d.log
    && c.incident.Some? && d.incident.Some? && |d.incident.value| == |c.incident.value|
    && forall j | 0 <= j < |c.incident.value| :: SameOrder(c.incident.value[j], d.incident.value[j])
  }

  lemma {:induction false} MovesCarry(c: Case, ts: seq<Status>)
    ensures var d := Moves(c, ts);
      d.Some? ==> d.value == c.(status := d.value.status, log := d.value.log) && c.log <= d.value.log
    decreases |ts|
  {
    if ts != [] && ts[0] in Next(c.status) { MovesCarry(c.(status := ts[0], log := c.log + [Edge(c.status, ts[0])]), ts[1..]); }
  }

  /** An inference leaves the order of the inspection alone. */
  lemma InferenceCarries(c: Case, inf: Inference)
    ensures var d := ProcessInference(c, inf);
      d.Some? ==> d.value.product == c.product && d.value.station == c.station && d.value.policy == c.policy
                  && d.value.incident == c.incident && c.log <= d.value.log
  {
    hide Policy.Evaluate;
    MovesCarry(c, [Inferencing, InferenceFailed, ReviewRequired]);
    if inf.Score? {
      var e := Policy.Evaluate(Some(inf.score), Some(c.policy), c.product, c.station);
      if e.Ok? { MovesCarry(c, [Inferencing, Scored, Target(e.value.route)]); }
    }
  }

  lemma ExecuteCarries(c: Case, k: nat, stores: Stores, cfg: Settings, plan: seq<Connector.Attempt>)
    requires cfg.maxAttempts >= 1 && c.incident.Some? && k < |c.incident.value|
    ensures var d := ExecuteAction(c, k, stores, cfg, plan).0; d.Some? ==> Carried(c, d.value)
  {
    hide Moves, Settlement, Invoke;
    var done := Executed(c.incident.value[k], Invoke(stores, c.incident.value[k], cfg, plan).1);
    if done.Some? {
      var actions := c.incident.value[k := done.value];
      MovesCarry(c.(incident := Some(actions)), Settlement(c.status, actions));
    }
  }

  lemma {:induction false} RunPendingCarries(c: Case, k: nat, stores: Stores, cfg: Settings, plans: seq<seq<Connector.Attempt>>)
    requires cfg.maxAttempts >= 1 && c.incident.Some? && k <= |c.incident.value|
    ensures var d := RunPending(c, k, stores, cfg, plans).0; d.Some? ==> Carried(c, d.value)
    decreases |c.incident.value| - k
  {
    hide ExecuteAction, Carried, RunPending;
    if k == |c.incident.value| {
      RunPendingEnds(c, stores, cfg, plans);
      CarriedReflexive(c);
    } else if c.incident.value[k].status != Pending {
      RunPendingSkips(c, k, stores, cfg, plans);
      RunPendingCarries(c, k + 1, stores, cfg, plans);
    } else {
      RunPendingExecutes(c, k, stores, cfg, plans);
      ExecuteCarries(c, k, stores, cfg, PlanFor(plans, k));
      var (d, t) := ExecuteAction(c, k, stores, cfg, PlanFor(plans, k));
      if d.Some? && d.value.incident.Some? && |d.value.incident.value| == |c.incident.value| {
        RunPendingCarries(d.value, k + 1, t, cfg, plans);
        var r := RunPending(d.value, k + 1, t, cfg, plans).0;
        if r.Some? { CarriedTransitive(c, d.value, r.value); }
      }
    }
  }

  lemma CarriedReflexive(c: Case)
    requires c.incident.Some?
    ensures Carried(c, c)
  {
  }

  lemma CarriedTransitive(a: Case, b: Case, c: Case)
    requires Carried(a, b) && Carried(b, c)
    ensures Carried(a, c)
  {
  }

  lemma InlineCarries(c: Case, stores: Stores, cfg: Settings, plans: seq<seq<Connector.Attempt>>)
    requires cfg.maxAttempts >= 1 && c.incident.Some?
    ensures var d := MaybeInline(c, stores, cfg, plans).0; d.Some? ==> Carried(c, d.value) && (!cfg.inline ==> d.value == c)
  {
    if cfg.inline { RunPendingCarries(c, 0, stores, cfg, plans); }
  }

  /** A fresh order: nothing attempted yet, one outbox row waiting. */
  predicate IsOrder(a: Action, connector: string, operation: string, key: string) {
    a == Action(connector, operation, key, Pending, 0, None, [Waiting])
  }

  predicate OrderedAs(a: Action, connector: string, operation: string, key: string) {
    a.connector == connector && a.operation == operation && a.key == key
  }

  /** The task is completed in the actor's name.  GOOD approves the release, UNABLE_TO_DETERMINE
      escalates, and each of the other three confirms a nonconformance with an incident that holds
      the batch in the MES and opens a ticket in the QMS. */
  predicate DecidedAs(c: Case, d: Case, actor: string, decision: Choice, incidentId: string, inline: bool) {
    && c.task.Some? && d.task == Some(Task(false, Some(actor), c.task.value.version + 1)) && d.score == c.score
    && match decision
       case Good => d.status == ReleaseApproved && d.log == c.log + [Edge(c.status, ReleaseApproved)] && d.incident == c.incident
       case UnableToDetermine => d.status == Escalated && d.log == c.log + [Edge(c.status, Escalated)] && d.incident == c.incident
       case _ =>
         c.incident.None? ==>
           && c.log + [Edge(c.status, NonconformanceConfirmed), Edge(NonconformanceConfirmed, ActionPending)] <= d.log
           && d.incident.Some? && |d.incident.value| == 2
           && OrderedAs(d.incident.value[0], "MES", "HOLD_BATCH", incidentId + ":mes:hold")
           && OrderedAs(d.incident.value[1], "QMS", "CREATE_TICKET", incidentId + ":qms:create")
           && (!inline ==>
                 && d.status == ActionPending
                 && IsOrder(d.incident.value[0], "MES", "HOLD_BATCH", incidentId + ":mes:hold")
                 && IsOrder(d.incident.value[1], "QMS", "CREATE_TICKET", incidentId + ":qms:create"))
  }

  lemma MaybeInlineIsOk(c: Case, stores: Stores, cfg: Settings, plans: seq<seq<Connector.Attempt>>)
    requires CaseOk(c) && CaseBacked(c, stores) && StoresOk(stores) && cfg.maxAttempts >= 1 && c.incident.Some?
    ensures var r := MaybeInline(c, stores, cfg, plans);
      ExecutionOk(c, stores, r)
  {
    if cfg.inline { RunPendingIsOk(c, 0, stores, cfg, plans); } else { NothingExecuted(c, stores); }
  }

  // ---- whole states ---------------------------------------------------------------------------------------------

  predicate CaseIn(c: Case, i: nat, w: World) {
    CaseOk(c) && Keyed(c, i, w.keys) && CaseBacked(c, w.stores)
  }

  ghost predicate WorldOk(w: World) {
    StoresOk(w.stores) && forall i | 0 <= i < |w.cases| :: CaseIn(w.cases[i], i, w)
  }

  lemma Unchanged(w: World)
    requires WorldOk(w)
    ensures StoresOk(w.stores) && WorldKept(w, w) && StoresGrow(w.stores, w.stores)
  {
  }

  predicate KeysGrow(a: map<string, (nat, nat)>, b: map<string, (nat, nat)>) {
    forall k | k in a :: k in b && b[k] == a[k]
  }

  /** A rolled-back call over grown stores. */
  lemma RollbackKeeps(w: World, stores: Stores)
    requires WorldOk(w) && StoresOk(stores) && StoresGrow(w.stores, stores)
    ensures var v := w.(stores := stores); WorldOk(v) && WorldKept(w, v)
  {
    forall j | 0 <= j < |w.cases| ensures CaseIn(w.cases[j], j, w.(stores := stores)) {
      assert CaseIn(w.cases[j], j, w);
      GrowthKeepsBacked(w.cases[j], w.stores, stores);
    }
  }

  /** One case replaced over grown keys and stores. */
  lemma ReplaceKeeps(w: World, keys: map<string, (nat, nat)>, stores: Stores, i: nat, d: Case)
    requires WorldOk(w) && i < |w.cases| && KeysGrow(w.keys, keys) && StoresOk(stores) && StoresGrow(w.stores, stores)
    requires CaseOk(d) && Keyed(d, i, keys) && CaseBacked(d, stores) && CaseKept(w.cases[i], d)
    ensures var v := World(w.cases[i := d], keys, stores); WorldOk(v) && WorldKept(w, v)
  {
    var v := World(w.cases[i := d], keys, stores);
    forall j | 0 <= j < |v.cases| ensures CaseIn(v.cases[j], j, v) {
      if j != i {
        assert CaseIn(w.cases[j], j, w);
        GrowthKeepsBacked(w.cases[j], w.stores, stores);
      }
    }
  }

  /** Committing one case over grown keys and stores. */
  lemma CommitKeeps(w: World, keys: map<string, (nat, nat)>, i: nat, c: Case, r: (Option<Case>, Stores))
    requires WorldOk(w) && i < |w.cases| && KeysGrow(w.keys, keys)
    requires ExecutionOk(c, w.stores, r) && CaseKept(w.cases[i], c)
    requires if r.0.Some? then Keyed(c, i, keys) else keys == w.keys
    ensures var v := Commit(w.(keys := keys), i, r); WorldOk(v) && WorldKept(w, v) && StoresGrow(w.stores, r.1)
  {
    if r.0.Some? {
      CaseKeptTransitive(w.cases[i], c, r.0.value);
      ReplaceKeeps(w, keys, r.1, i, r.0.value);
    } else {
      RollbackKeeps(w, r.1);
    }
  }

  /** A case that keeps its incident, written back without touching a store. */
  lemma UpdateKeeps(w: World, i: nat, c: Case)
    requires WorldOk(w) && i < |w.cases| && CaseOk(c) && c.incident == w.cases[i].incident && CaseKept(w.cases[i], c)
    ensures var v := w.(cases := w.cases[i := c]); WorldOk(v) && WorldKept(w, v)
  {
    var v := w.(cases := w.cases[i := c]);
    assert CaseIn(w.cases[i], i, w);
    forall j | 0 <= j < |v.cases| ensures CaseIn(v.cases[j], j, v) {
      if j != i { assert CaseIn(w.cases[j], j, w); }
    }
  }

  lemma CreateKeeps(w: World, cfg: Settings, product: string, station: string, policy: Policy.Config, inf: Inference)
    requires WorldOk(w)
    ensures var v := Create(w, cfg, product, station, policy, inf); WorldOk(v) && WorldKept(w, v)
  {
    var c := Case(product, station, policy, Validated, [Edge(Received, Validated)], None, [Waiting], None, None);
    if Policy.ConfigOk(policy) {
      assert CaseOk(c) by { PathStep([], Received, Validated); assert [] + [Edge(Received, Validated)] == [Edge(Received, Validated)]; }
      InferenceKeeps(c, inf);
      var v := Create(w, cfg, product, station, policy, inf);
      forall j | 0 <= j < |v.cases| ensures CaseIn(v.cases[j], j, v) {
        if j < |w.cases| { assert CaseIn(w.cases[j], j, w); }
      }
    }
  }

  lemma ClaimKeeps(w: World, i: nat, actor: string, expected: nat)
    requires WorldOk(w)
    ensures var v := Claim(w, i, actor, expected); WorldOk(v) && WorldKept(w, v)
  {
    if Claim(w, i, actor, expected) != w {
      assert CaseIn(w.cases[i], i, w);
      UpdateKeeps(w, i, Claim(w, i, actor, expected).cases[i]);
    }
  }

  lemma SimplyDecided(c: Case, t: Task, target: Status)
    requires CaseOk(c) && UnderReview(c.status) && !t.open && (target == ReleaseApproved || target == Escalated)
    ensures var m := Moves(c.(task := Some(t)), [target]);
      m.Some? && CaseOk(m.value) && m.value.status == target && m.value.incident == c.incident && CaseKept(c, m.value)
  {
    assert [target][1..] == [];
    MovesFollow(c.(task := Some(t)), [target]);
  }

  /** A decision that needs no incident always finds its transition legal. */
  lemma SimpleDecisionKeeps(w: World, i: nat, t: Task, target: Status)
    requires WorldOk(w) && i < |w.cases| && UnderReview(w.cases[i].status) && !t.open
    requires target == ReleaseApproved || target == Escalated
    ensures var r := (Moves(w.cases[i].(task := Some(t)), [target]), w.stores);
      r.0.Some? && r.0.value.status == target && WorldOk(Commit(w, i, r)) && WorldKept(w, Commit(w, i, r))
  {
    assert CaseIn(w.cases[i], i, w);
    SimplyDecided(w.cases[i], t, target);
    UpdateKeeps(w, i, Moves(w.cases[i].(task := Some(t)), [target]).value);
  }

  /** The case right after a confirmed nonconformance, before anything is executed. */
  lemma IncidentOpens(c: Case, t: Task, incidentId: string)
    requires CaseOk(c) && UnderReview(c.status) && !t.open
    ensures var m := Opened(c.(task := Some(t)), incidentId);
      m.Some? && CaseOk(m.value) && m.value.status == ActionPending && m.value.incident == Some(InitialActions(incidentId))
      && m.value.outbox == c.outbox && CaseKept(c, m.value)
  {
    var actions := InitialActions(incidentId);
    var d := c.(task := Some(t), incident := Some(actions));
    var targets := [NonconformanceConfirmed, ActionPending];
    assert targets[1..] == [ActionPending] && targets[1..][1..] == [];
    MovesFollow(d, targets);
    assert actions[0].status == Pending;
    assert Pendings([Waiting]) == 1;
  }

  lemma PendingNeedsNoRecord(m: Case, incidentId: string, stores: Stores)
    requires m.incident == Some(InitialActions(incidentId))
    ensures CaseBacked(m, stores)
  {
  }

  lemma OpenIncidentKeeps(w: World, cfg: Settings, i: nat, m: Case, incidentId: string, plans: seq<seq<Connector.Attempt>>)
    requires WorldOk(w) && cfg.maxAttempts >= 1 && i < |w.cases|
    requires CaseOk(m) && m.incident == Some(InitialActions(incidentId)) && CaseKept(w.cases[i], m)
    ensures var v := OpenIncident(w, cfg, i, Some(m), incidentId, plans);
      WorldOk(v) && StoresGrow(w.stores, v.stores) && WorldKept(w, v)
  {
    hide CaseOk, CaseBacked, Keyed, WorldOk, WorldKept, RunPending, MaybeInline, ExecutionOk, CommitOpened;
    Unchanged(w);
    var hold, ticket := InitialActions(incidentId)[0].key, InitialActions(incidentId)[1].key;
    PendingNeedsNoRecord(m, incidentId, w.stores);
    MaybeInlineIsOk(m, w.stores, cfg, plans);
    var r := MaybeInline(m, w.stores, cfg, plans);
    KeysOfInitialActions(incidentId);
    if hold !in w.keys && ticket !in w.keys { CommitWithTwoKeys(w, i, m, r, hold, ticket); }
  }

  lemma CommitWithTwoKeys(w: World, i: nat, m: Case, r: (Option<Case>, Stores), hold: string, ticket: string)
    requires WorldOk(w) && i < |w.cases| && ExecutionOk(m, w.stores, r) && CaseKept(w.cases[i], m)
    requires m.incident.Some? && |m.incident.value| == 2 && hold != ticket && hold !in w.keys && ticket !in w.keys
    requires m.incident.value[0].key == hold && m.incident.value[1].key == ticket
    ensures var v := CommitOpened(w, i, r, hold, ticket); WorldOk(v) && WorldKept(w, v)
    ensures StoresGrow(w.stores, CommitOpened(w, i, r, hold, ticket).stores)
  {
    if r.0.Some? {
      TwoNewKeys(w.keys, i, r.0.value, hold, ticket);
      CommitKeeps(w, w.keys[hold := (i, 0)][ticket := (i, 1)], i, m, r);
    } else {
      CommitKeeps(w, w.keys, i, m, r);
    }
  }

  lemma TwoNewKeys(keys: map<string, (nat, nat)>, i: nat, c: Case, hold: string, ticket: string)
    requires c.incident.Some? && |c.incident.value| == 2 && hold != ticket && hold !in keys && ticket !in keys
    requires c.incident.value[0].key == hold && c.incident.value[1].key == ticket
    ensures Keyed(c, i, keys[hold := (i, 0)][ticket := (i, 1)]) && KeysGrow(keys, keys[hold := (i, 0)][ticket := (i, 1)])
  {
  }

  lemma DecidedKeeps(w: World, cfg: Settings, i: nat, t: Task, decision: Choice, incidentId: string,
                     plans: seq<seq<Connector.Attempt>>)
    requires WorldOk(w) && cfg.maxAttempts >= 1 && i < |w.cases| && UnderReview(w.cases[i].status) && !t.open
    ensures var v := Decided(w, cfg, i, w.cases[i].(task := Some(t)), decision, incidentId, plans);
      WorldOk(v) && StoresGrow(w.stores, v.stores) && WorldKept(w, v)
  {
    assert CaseIn(w.cases[i], i, w);
    if decision == Good { SimpleDecisionKeeps(w, i, t, ReleaseApproved); }
    else if decision == UnableToDetermine { SimpleDecisionKeeps(w, i, t, Escalated); }
    else {
      IncidentOpens(w.cases[i], t, incidentId);
      OpenIncidentKeeps(w, cfg, i, Opened(w.cases[i].(task := Some(t)), incidentId).value, incidentId, plans);
    }
  }

  lemma DecideKeeps(w: World, cfg: Settings, i: nat, actor: string, manager: bool, decision: Choice, expected: nat,
                    incidentId: string, plans: seq<seq<Connector.Attempt>>)
    requires WorldOk(w) && cfg.maxAttempts >= 1
    ensures var v := Decide(w, cfg, i, actor, manager, decision, expected, incidentId, plans);
      WorldOk(v) && WorldKept(w, v) && StoresGrow(w.stores, v.stores)
  {
    if i < |w.cases| && MayDecide(w.cases[i], actor, manager, decision, expected) {
      assert CaseIn(w.cases[i], i, w);
      DecidedKeeps(w, cfg, i, Task(false, Some(actor), w.cases[i].task.value.version + 1), decision, incidentId, plans);
    }
  }

  lemma KeysOfInitialActions(incidentId: string)
    ensures InitialActions(incidentId)[0].key != InitialActions(incidentId)[1].key
  {
    var a, b := incidentId + ":mes:hold", incidentId + ":qms:create";
    assert |a| != |b|;
  }

  lemma AddedActionKeeps(c: Case, i: nat, keys: map<string, (nat, nat)>, stores: Stores, a: Action)
    requires CaseOk(c) && Keyed(c, i, keys) && CaseBacked(c, stores) && c.incident.Some? && a.key !in keys
    requires a.status == Pending && a.outbox == [Waiting]
    ensures var d := c.(incident := Some(c.incident.value + [a]));
      CaseOk(d) && CaseBacked(d, stores) && Keyed(d, i, keys[a.key := (i, |c.incident.value|)]) && CaseKept(c, d)
  {
    AppendAgrees(c.status, c.incident.value, a);
    var before, after := c.incident.value, c.incident.value + [a];
    forall k | 0 <= k < |after| ensures Backed(after[k], stores) {
      if k < |before| { assert Backed(before[k], stores); }
    }
  }

  /** A new pending action fits any incident status. */
  lemma AppendAgrees(s: Status, before: seq<Action>, a: Action)
    requires ActionsOk(before) && StatusAgrees(s, before) && a.status == Pending && a.outbox == [Waiting]
    ensures ActionsOk(before + [a]) && StatusAgrees(s, before + [a]) && ActionsKept(before, before + [a])
  {
    var after := before + [a];
    assert Pendings([Waiting]) == 1;
    assert after[|before|].status == Pending;
    if AnyFailing(before) {
      var k :| 0 <= k < |before| && Failing(before[k]);
      assert Failing(after[k]);
    } else {
      assert !AnyFailing(after);
    }
  }

  lemma RequestKeeps(w: World, cfg: Settings, i: nat, confirmed: bool, connector: string, operation: string, key: string,
                     plans: seq<seq<Connector.Attempt>>)
    requires WorldOk(w) && cfg.maxAttempts >= 1
    ensures var v := Request(w, cfg, i, confirmed, connector, operation, key, plans);
      WorldOk(v) && WorldKept(w, v) && StoresGrow(w.stores, v.stores)
  {
    hide CaseOk, CaseBacked, Keyed, WorldKept, RunPending, MaybeInline, ExecutionOk;
    Unchanged(w);
    if i < |w.cases| && w.cases[i].incident.Some? && confirmed && key !in w.keys {
      var c := w.cases[i];
      assert CaseIn(c, i, w);
      AddedActionKeeps(c, i, w.keys, w.stores, NewAction(connector, operation, key));
      var d := c.(incident := Some(c.incident.value + [NewAction(connector, operation, key)]));
      MaybeInlineIsOk(d, w.stores, cfg, plans);
      var r := MaybeInline(d, w.stores, cfg, plans);
      CommitKeeps(w, if r.0.Some? then w.keys[key := (i, |c.incident.value|)] else w.keys, i, d, r);
    }
  }

  lemma ReplayedCaseIsOk(c: Case, k: nat)
    requires CaseOk(c) && c.incident.Some? && k < |c.incident.value| && Failing(c.incident.value[k])
    ensures var m := ReplayedCase(c, k);
      m.Some? && CaseOk(m.value) && m.value.incident == Some(c.incident.value[k := ReplayedAction(c.incident.value[k])])
      && m.value.outbox == c.outbox && CaseKept(c, m.value)
      && m.value.status == if c.status == ActionFailed then ActionPending else c.status
  {
    var actions := c.incident.value[k := ReplayedAction(c.incident.value[k])];
    ReplayedAgrees(c.status, c.incident.value, k);
    assert [ActionPending][1..] == [];
    MovesFollow(c.(incident := Some(actions)), if c.status == ActionFailed then [ActionPending] else []);
  }

  /** The replayed case is ready to be executed and committed. */
  lemma ReplayIsReady(w: World, i: nat, k: nat)
    requires WorldOk(w) && i < |w.cases| && w.cases[i].incident.Some? && k < |w.cases[i].incident.value|
    requires Failing(w.cases[i].incident.value[k])
    ensures var m := ReplayedCase(w.cases[i], k);
      m.Some? && CaseOk(m.value) && m.value.incident.Some? && CaseBacked(m.value, w.stores) && Keyed(m.value, i, w.keys)
      && CaseKept(w.cases[i], m.value) && (m.value.status == Closed ==> w.cases[i].status == Closed)
  {
    var c := w.cases[i];
    assert CaseIn(c, i, w);
    ReplayedCaseIsOk(c, k);
    var actions := c.incident.value[k := ReplayedAction(c.incident.value[k])];
    forall j | 0 <= j < |actions| ensures Backed(actions[j], w.stores) {
      assert Backed(c.incident.value[j], w.stores);
    }
  }

  /** A failed action waiting again: ACTION_FAILED becomes ACTION_PENDING, nothing else moves. */
  lemma ReplayedAgrees(s: Status, before: seq<Action>, k: nat)
    requires ActionsOk(before) && StatusAgrees(s, before) && k < |before| && Failing(before[k])
    ensures var after := before[k := ReplayedAction(before[k])];
      ActionsOk(after) && ActionsKept(before, after) && StatusAgrees(if s == ActionFailed then ActionPending else s, after)
  {
    assert ActionOk(before[k]);
    PendingsAppend(before[k].outbox, Waiting);
    var after := before[k := ReplayedAction(before[k])];
    assert AnyFailing(before);
    assert after[k].status == Pending;
    forall j | 0 <= j < |after| ensures ActionOk(after[j]) {
      if j != k { assert ActionOk(before[j]); }
    }
  }

  lemma ReplayKeeps(w: World, cfg: Settings, i: nat, k: nat, plans: seq<seq<Connector.Attempt>>)
    requires WorldOk(w) && cfg.maxAttempts >= 1
    ensures var v := Replay(w, cfg, i, k, plans);
      WorldOk(v) && WorldKept(w, v) && StoresGrow(w.stores, v.stores)
  {
    hide CaseOk, CaseBacked, Keyed, WorldOk, WorldKept, RunPending, MaybeInline, ReplayedCase, ExecutionOk, KeysGrow;
    Unchanged(w);
    if i < |w.cases| && w.cases[i].incident.Some? && k < |w.cases[i].incident.value| && Failing(w.cases[i].incident.value[k]) {
      ReplayIsReady(w, i, k);
      var m := ReplayedCase(w.cases[i], k).value;
      MaybeInlineIsOk(m, w.stores, cfg, plans);
      CommitKeeps(w, w.keys, i, m, MaybeInline(m, w.stores, cfg, plans));
    }
  }

  lemma ClosedCaseIsOk(c: Case)
    requires CaseOk(c) && c.incident.Some? && AllSucceeded(c.incident.value) && c.status == ActionCompleted
    ensures var m := Moves(c, [Verifying, Closed]);
      m.Some? && CaseOk(m.value) && m.value == c.(status := Closed, log := c.log + [Edge(ActionCompleted, Verifying), Edge(Verifying, Closed)])
  {
    var ts := [Verifying, Closed];
    assert ts[1..] == [Closed] && ts[1..][1..] == [];
    MovesFollow(c, ts);
    var a := c.(status := Verifying, log := c.log + [Edge(ActionCompleted, Verifying)]);
    assert Moves(a, [Closed]) == Some(a.(status := Closed, log := a.log + [Edge(Verifying, Closed)]));
    assert Moves(c, ts) == Moves(a, [Closed]);
    assert a.log + [Edge(Verifying, Closed)] == c.log + [Edge(ActionCompleted, Verifying), Edge(Verifying, Closed)];
  }

  lemma CloseKeeps(w: World, i: nat)
    requires WorldOk(w)
    ensures var v := Close(w, i); WorldOk(v) && WorldKept(w, v) && v.stores == w.stores
  {
    if Close(w, i) != w {
      assert CaseIn(w.cases[i], i, w);
      ClosedCaseIsOk(w.cases[i]);
      UpdateKeeps(w, i, Moves(w.cases[i], [Verifying, Closed]).value);
    }
  }

  lemma InferenceEventKeeps(w: World, i: nat, inf: Inference)
    requires WorldOk(w)
    ensures var v := InferenceEvent(w, i, inf); WorldOk(v) && WorldKept(w, v) && v.stores == w.stores
  {
    if InferenceEvent(w, i, inf) != w {
      assert CaseIn(w.cases[i], i, w);
      InferenceKeeps(w.cases[i], inf);
      UpdateKeeps(w, i, ProcessInference(w.cases[i], inf).value);
    }
  }

  lemma ActionEventKeeps(w: World, cfg: Settings, i: nat, k: nat, plan: seq<Connector.Attempt>)
    requires WorldOk(w) && cfg.maxAttempts >= 1
    ensures var v := ActionEvent(w, cfg, i, k, plan);
      WorldOk(v) && WorldKept(w, v) && StoresGrow(w.stores, v.stores)
  {
    hide CaseKept, Executed, Moves, Settlement, ExecutionOk, WorldKept;
    Unchanged(w);
    if i < |w.cases| && w.cases[i].incident.Some? && k < |w.cases[i].incident.value| {
      assert CaseIn(w.cases[i], i, w);
      assert ActionOk(w.cases[i].incident.value[k]);
      if w.cases[i].incident.value[k].status == Pending {
        ExecuteIsOk(w.cases[i], k, w.stores, cfg, plan);
        CommitKeeps(w, w.keys, i, w.cases[i], ExecuteAction(w.cases[i], k, w.stores, cfg, plan));
      }
    }
  }

  /** Every service call keeps every committed state sound, whatever the environment does. */
  lemma StepKeeps(w: World, cfg: Settings, s: Service)
    requires WorldOk(w) && cfg.maxAttempts >= 1
    ensures var v := Step(w, cfg, s);
      WorldOk(v) && WorldKept(w, v) && StoresGrow(w.stores, v.stores)
  {
    match s
    case CreateInspection(product, station, policy, inf) => CreateKeeps(w, cfg, product, station, policy, inf);
    case ClaimReview(i, actor, expected) => ClaimKeeps(w, i, actor, expected);
    case DecideReview(i, actor, manager, decision, expected, incidentId, plans) =>
      DecideKeeps(w, cfg, i, actor, manager, decision, expected, incidentId, plans);
    case RequestAction(i, confirmed, connector, operation, key, plans) =>
      RequestKeeps(w, cfg, i, confirmed, connector, operation, key, plans);
    case ReplayAction(i, k, plans) => ReplayKeeps(w, cfg, i, k, plans);
    case CloseIncident(i) => CloseKeeps(w, i);
    case WorkInference(i, inf) => InferenceEventKeeps(w, i, inf);
    case WorkAction(i, k, plan) => ActionEventKeeps(w, cfg, i, k, plan);
  }
}
