/** The inspection state machine. */
module Domain {

  datatype Status =
    | Received | Validated | Inferencing | Scored | AutoReleased | ReviewRequired | BatchHeld
    | ReleaseApproved | NonconformanceConfirmed | ActionPending | ActionExecuting | ActionCompleted
    | ActionFailed | Verifying | Closed | RejectedInput | InferenceFailed | Escalated

  function Next(s: Status): set<Status> {
    match s
    case Received => {Validated, RejectedInput}
    case Validated => {Inferencing}
    case Inferencing => {Scored, InferenceFailed}
    case InferenceFailed => {ReviewRequired}
    case Scored => {AutoReleased, ReviewRequired, BatchHeld}
    case ReviewRequired => {ReleaseApproved, NonconformanceConfirmed, Escalated}
    case BatchHeld => {ReleaseApproved, NonconformanceConfirmed, Escalated}
    case NonconformanceConfirmed => {ActionPending}
    case ActionPending => {ActionExecuting}
    case ActionExecuting => {ActionCompleted, ActionFailed}
    case ActionFailed => {ActionPending}
    case ActionCompleted => {Verifying, Closed}
    case Verifying => {Closed, Escalated}
    case Escalated => {ReviewRequired, BatchHeld}
    case AutoReleased => {}
    case ReleaseApproved => {}
    case Closed => {}
    case RejectedInput => {}
  }

  /** Where a status may be entered from, for those that release, end or fail an inspection, and which
      have no way on. */
  lemma EntriesOfTable(s: Status, t: Status)
    requires t in Next(s)
    ensures t != Received
    ensures t == AutoReleased ==> s == Scored
    ensures t == ReleaseApproved || t == NonconformanceConfirmed ==> s == ReviewRequired || s == BatchHeld
    ensures t == BatchHeld ==> s == Scored || s == Escalated
    ensures t == ReviewRequired ==> s == Scored || s == InferenceFailed || s == Escalated
    ensures t == Escalated ==> s == ReviewRequired || s == BatchHeld || s == Verifying
    ensures t == ActionPending ==> s == NonconformanceConfirmed || s == ActionFailed
    ensures t == ActionCompleted || t == ActionFailed ==> s == ActionExecuting
    ensures t == Closed ==> s == ActionCompleted || s == Verifying
    ensures t == RejectedInput ==> s == Received
    ensures Next(t) == {} <==> t in {AutoReleased, ReleaseApproved, Closed, RejectedInput}
  {
  }

  datatype Edge = Edge(from: Status, to: Status)

  /** The log is a chain of table edges from RECEIVED to `end`. */
  predicate IsPath(log: seq<Edge>, end: Status) {
    if log == [] then end == Received
    else
      var last := log[|log| - 1];
      last.to == end && last.to in Next(last.from) && IsPath(log[..|log| - 1], last.from)
  }

  lemma PathStep(log: seq<Edge>, s: Status, t: Status)
    requires IsPath(log, s) && t in Next(s)
    ensures IsPath(log + [Edge(s, t)], t)
  {
    assert (log + [Edge(s, t)])[..|log|] == log;
  }

  /** A chain read forwards: it starts at RECEIVED and every edge continues the one before. */
  lemma {:induction false} PathIsChain(log: seq<Edge>, end: Status)
    requires IsPath(log, end)
    ensures log != [] ==> log[0].from == Received && log[|log| - 1].to == end
    ensures forall k | 0 <= k < |log| :: log[k].to in Next(log[k].from)
    ensures forall k | 0 < k < |log| :: log[k - 1].to == log[k].from
  {
    if log != [] {
      var init := log[..|log| - 1];
      PathIsChain(init, log[|log| - 1].from);
      forall k | 0 <= k < |log|
        ensures log[k].to in Next(log[k].from)
        ensures k > 0 ==> log[k - 1].to == log[k].from
      {
        if k < |init| {
          assert init[k] == log[k];
          if k > 0 { assert init[k - 1] == log[k - 1]; }
        } else if k > 0 {
          assert init[k - 1] == log[k - 1];
        }
      }
      if |init| > 0 { assert init[0] == log[0]; }
    }
  }

  /** Automatic release has exactly one history; in particular no failed inference is in it. */
  lemma ReleaseHasOneHistory(log: seq<Edge>)
    requires IsPath(log, AutoReleased)
    ensures log == [Edge(Received, Validated), Edge(Validated, Inferencing), Edge(Inferencing, Scored), Edge(Scored, AutoReleased)]
  {
    var a := LastStep(log, AutoReleased, Scored);
    var b := LastStep(a, Scored, Inferencing);
    var c := LastStep(b, Inferencing, Validated);
    var d := LastStep(c, Validated, Received);
    assert d == [];
  }

  /** A status other than RECEIVED with a single predecessor was entered from it. */
  lemma LastStep(log: seq<Edge>, end: Status, before: Status) returns (init: seq<Edge>)
    requires IsPath(log, end) && end != Received
    requires forall s: Status :: end in Next(s) ==> s == before
    ensures IsPath(init, before) && log == init + [Edge(before, end)]
  {
    init := log[..|log| - 1];
    assert end in Next(log[|log| - 1].from);
  }
}
