/** Claiming and deciding one review task under interleaved sessions.  A claim is one guarded
    UPDATE; a decision reads the row, checks the assignee, and updates under the version later. */
module Review {
  import opened Base

  datatype Row = Row(open: bool, assignee: Option<string>, version: nat)

  /** A decision between its SELECT and its UPDATE; `seen` is the version it selected. */
  datatype Session = Session(actor: string, expected: nat, seen: nat)

  datatype Desk = Desk(row: Row, claims: seq<string>, decisions: seq<string>, sessions: map<nat, Session>)

  /** `commits` is false when something after the UPDATE raises and the session rolls back. */
  datatype Event =
    | Claim(actor: string, expected: nat)
    | Select(session: nat, actor: string, expected: nat)
    | Update(session: nat, commits: bool)

  function Fresh(): Desk {
    Desk(Row(true, None, 1), [], [], map[])
  }

  predicate Assigned(row: Row, other: string) {
    row.assignee.Some? && row.assignee.value != other
  }

  function ClaimStep(d: Desk, actor: string, expected: nat): Desk {
    if d.row.open && d.row.version == expected && d.row.assignee.None? then
      d.(row := Row(true, Some(actor), expected + 1), claims := d.claims + [actor])
    else d
  }

  function SelectStep(d: Desk, session: nat, actor: string, expected: nat): Desk {
    if Assigned(d.row, actor) then d
    else d.(sessions := d.sessions[session := Session(actor, expected, d.row.version)])
  }

  predicate Decides(d: Desk, session: nat) {
    session in d.sessions && d.row.open && d.row.version == d.sessions[session].expected
  }

  function UpdateStep(d: Desk, session: nat, commits: bool): Desk {
    if session !in d.sessions then d
    else
      var p := d.sessions[session];
      var rest := d.(sessions := d.sessions - {session});
      if Decides(d, session) && commits then
        rest.(row := Row(false, Some(p.actor), p.expected + 1), decisions := d.decisions + [p.actor])
      else rest
  }

  function Step(d: Desk, e: Event): Desk {
    match e
    case Claim(actor, expected) => ClaimStep(d, actor, expected)
    case Select(session, actor, expected) => SelectStep(d, session, actor, expected)
    case Update(session, commits) => UpdateStep(d, session, commits)
  }

  function Run(d: Desk, es: seq<Event>): Desk
    decreases |es|
  {
    if es == [] then d else Run(Step(d, es[0]), es[1..])
  }

  // ---- what every interleaving keeps ---------------------------------------------------------

  predicate RowOk(d: Desk) {
    && d.row.version == 1 + |d.claims| + |d.decisions|
    && |d.claims| <= 1 && |d.decisions| <= 1
    && (d.row.open <==> d.decisions == [])
    && d.row.assignee == (if d.decisions != [] then Some(d.decisions[0]) else if d.claims != [] then Some(d.claims[0]) else None)
  }

  /** A session that passed the assignee check before somebody else's claim selected version 1. */
  predicate SessionOk(d: Desk, p: Session) {
    && 1 <= p.seen <= d.row.version
    && (d.decisions == [] && d.claims != [] && d.claims[0] != p.actor ==> p.seen == 1)
  }

  predicate DeskOk(d: Desk) {
    RowOk(d) && forall k | k in d.sessions :: SessionOk(d, d.sessions[k])
  }

  lemma StepKeeps(d: Desk, e: Event)
    requires DeskOk(d)
    ensures DeskOk(Step(d, e))
    ensures d.claims <= Step(d, e).claims && d.decisions <= Step(d, e).decisions
  {
    var after := Step(d, e);
    forall k | k in after.sessions ensures SessionOk(after, after.sessions[k]) {
      if k in d.sessions && d.sessions[k] == after.sessions[k] { assert SessionOk(d, d.sessions[k]); }
    }
  }

  lemma {:induction false} RunKeeps(d: Desk, es: seq<Event>)
    requires DeskOk(d)
    ensures DeskOk(Run(d, es))
    ensures d.claims <= Run(d, es).claims && d.decisions <= Run(d, es).decisions
    decreases |es|
  {
    if es != [] {
      StepKeeps(d, es[0]);
      RunKeeps(Step(d, es[0]), es[1..]);
    }
  }

  /** Whatever the interleaving: the version counts the claims and decisions that took effect,
      and there is at most one of each. */
  lemma VersionCountsEffects(es: seq<Event>)
    ensures var d := Run(Fresh(), es);
      && d.row.version == 1 + |d.claims| + |d.decisions|
      && |d.claims| <= 1 && |d.decisions| <= 1
      && (d.row.open <==> d.decisions == [])
  {
    RunKeeps(Fresh(), es);
  }

  /** A decision whose session rolls back, or whose UPDATE finds another version or a closed row,
      leaves the row as it was; any other closes it in the actor's name. */
  lemma UpdateDecides(d: Desk, session: nat, commits: bool)
    requires session in d.sessions
    ensures var p, t := d.sessions[session], UpdateStep(d, session, commits);
      && session !in t.sessions
      && (if commits && d.row.open && d.row.version == p.expected then
            t.row == Row(false, Some(p.actor), p.expected + 1) && t.decisions == d.decisions + [p.actor]
          else t.row == d.row && t.decisions == d.decisions)
  {
  }

  // ---- who completes a claimed task ------------------------------------------------------------

  /** Every decision sends a version it may have read before: none is ahead of the row. */
  predicate Honest(d: Desk, es: seq<Event>)
    decreases |es|
  {
    es == [] ||
    ((es[0].Select? ==> es[0].expected <= d.row.version) && Honest(Step(d, es[0]), es[1..]))
  }

  predicate NotAhead(d: Desk) {
    forall k | k in d.sessions :: d.sessions[k].expected <= d.sessions[k].seen
  }

  predicate SameHand(d: Desk) {
    d.claims != [] && d.decisions != [] ==> d.claims[0] == d.decisions[0]
  }

  lemma {:induction false} HonestRunKeepsHand(d: Desk, es: seq<Event>)
    requires DeskOk(d) && NotAhead(d) && SameHand(d) && Honest(d, es)
    ensures SameHand(Run(d, es))
    decreases |es|
  {
    if es != [] {
      StepKeeps(d, es[0]);
      HonestStepKeepsHand(d, es[0]);
      HonestRunKeepsHand(Step(d, es[0]), es[1..]);
    }
  }

  lemma HonestStepKeepsHand(d: Desk, e: Event)
    requires DeskOk(d) && NotAhead(d) && SameHand(d)
    requires e.Select? ==> e.expected <= d.row.version
    ensures NotAhead(Step(d, e)) && SameHand(Step(d, e))
  {
    if e.Update? && Decides(d, e.session) {
      assert SessionOk(d, d.sessions[e.session]);
    }
  }

  /** A task claimed by A is never completed by B, as long as no client sends a version it cannot
      have read. */
  lemma ClaimedTasksStayWithTheirClaimant(es: seq<Event>)
    requires Honest(Fresh(), es)
    ensures SameHand(Run(Fresh(), es))
  {
    HonestRunKeepsHand(Fresh(), es);
  }

  /** The session's UPDATE would complete a task that is assigned to somebody else. */
  predicate Steals(d: Desk, session: nat) {
    Decides(d, session) && Assigned(d.row, d.sessions[session].actor)
  }

  ghost predicate CanSteal(d: Desk, session: nat) {
    exists es: seq<Event> :: Untouched(es, session) && Steals(Run(d, es), session)
  }

  /** No event of the run belongs to this session. */
  predicate Untouched(es: seq<Event>, session: nat) {
    forall k | 0 <= k < |es| :: !(es[k].Select? && es[k].session == session) && !(es[k].Update? && es[k].session == session)
  }

  /** Exactly when a session sent the version right after the one it selected, a claim slipping
      in between lets it complete a task assigned to somebody else. */
  lemma StealsIffVersionGuessed(d: Desk, session: nat)
    requires DeskOk(d) && session in d.sessions && d.row.open && d.row.assignee.None?
    ensures CanSteal(d, session) <==> d.sessions[session].expected == d.sessions[session].seen + 1
  {
    var p := d.sessions[session];
    assert SessionOk(d, p);
    if p.expected == p.seen + 1 {
      var es := [Claim(p.actor + "'", 1)];
      assert es[1..] == [];
      assert (p.actor + "'") != p.actor by { assert |p.actor + "'"| != |p.actor|; }
      assert Run(d, es) == ClaimStep(d, p.actor + "'", 1);
      assert Steals(Run(d, es), session);
    }
    if CanSteal(d, session) {
      var es :| Untouched(es, session) && Steals(Run(d, es), session);
      RunKeeps(d, es);
      UntouchedKeepsSession(d, es, session);
      assert SessionOk(Run(d, es), p);
    }
  }

  lemma {:induction false} UntouchedKeepsSession(d: Desk, es: seq<Event>, session: nat)
    requires session in d.sessions && Untouched(es, session)
    ensures session in Run(d, es).sessions && Run(d, es).sessions[session] == d.sessions[session]
    decreases |es|
  {
    if es != [] {
      assert !(es[0].Select? && es[0].session == session) && !(es[0].Update? && es[0].session == session);
      forall k | 0 <= k < |es[1..]| ensures es[1..][k] == es[k + 1] {}
      UntouchedKeepsSession(Step(d, es[0]), es[1..], session);
    }
  }

  /** The documented guarantee fails for a client that guesses: B selects version 1 but sends 2,
      A claims, B's update completes A's task. */
  lemma GuessedVersionStealsTheTask()
    ensures var d := Run(Fresh(), [Select(0, "B", 2), Claim("A", 1), Update(0, true)]);
      d.claims == ["A"] && d.decisions == ["B"] && !d.row.open
  {
    var a, b, c := Select(0, "B", 2), Claim("A", 1), Update(0, true);
    assert [a, b, c][1..] == [b, c] && [b, c][1..] == [c] && [c][1..] == [];
    var d1 := SelectStep(Fresh(), 0, "B", 2);
    var d2 := ClaimStep(d1, "A", 1);
    assert Run(Fresh(), [a, b, c]) == Run(d1, [b, c]) == Run(d2, [c]) == Run(UpdateStep(d2, 0, true), []);
  }

  // ---- the row ---------------------------------------------------------------------------------

  class ReviewTask {
    var open: bool
    var assignee: Option<string>
    var version: nat

    function View(): Row
      reads this
    {
      Row(open, assignee, version)
    }

    constructor ()
      ensures View() == Fresh().row
    {
      open, assignee, version := true, None, 1;
    }

    /** UPDATE ... WHERE status, version and assignee match; the row count says whether it did. */
    method ClaimRow(actor: string, expected: nat) returns (claimed: bool)
      modifies this
      ensures forall d: Desk | d.row == old(View()) :: View() == ClaimStep(d, actor, expected).row
      ensures claimed <==> old(View()) == Row(true, None, expected)
      ensures View() == if claimed then Row(true, Some(actor), expected + 1) else old(View())
    {
      claimed := open && version == expected && assignee.None?;
      if claimed {
        assignee, version := Some(actor), version + 1;
      }
    }

    /** The checks of a decision on the selected row. */
    method Inspect(actor: string) returns (allowed: bool)
      ensures allowed <==> !Assigned(View(), actor)
    {
      allowed := assignee.None? || assignee.value == actor;
    }

    /** UPDATE ... WHERE status and version match. */
    method CompleteRow(actor: string, expected: nat) returns (completed: bool)
      modifies this
      ensures forall d: Desk, session | session in d.sessions && d.row == old(View())
                && d.sessions[session].actor == actor && d.sessions[session].expected == expected ::
        View() == UpdateStep(d, session, true).row && (completed <==> Decides(d, session))
      ensures completed <==> old(open) && old(version) == expected
      ensures View() == if completed then Row(false, Some(actor), expected + 1) else old(View())
    {
      completed := open && version == expected;
      if completed {
        open, assignee, version := false, Some(actor), version + 1;
      }
    }

    /** A whole decision with nothing in between: the check, then the guarded UPDATE.  It is the
        SELECT and UPDATE steps of one session in a row. */
    method Decide(actor: string, expected: nat) returns (allowed: bool, completed: bool)
      modifies this
      ensures forall d: Desk, session | d.row == old(View()) && session !in d.sessions ::
        View() == UpdateStep(SelectStep(d, session, actor, expected), session, true).row
      ensures allowed <==> !Assigned(old(View()), actor)
      ensures completed <==> allowed && old(open) && old(version) == expected
      ensures completed ==> View() == Row(false, Some(actor), expected + 1)
      ensures !completed ==> View() == old(View())
    {
      completed := false;
      allowed := Inspect(actor);
      if allowed {
        completed := CompleteRow(actor, expected);
        ghost var d := Desk(old(View()), [], [], map[0 := Session(actor, expected, 0)]);
        assert d.sessions[0].actor == actor;
      }
    }
  }
}
