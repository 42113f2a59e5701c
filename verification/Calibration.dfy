/** Threshold calibration on validation scores, over exact reals: only scores, midpoints, 0 and 1
    are searched, and the result is compared with every real threshold. */
module Calibration {
  import opened Base

  /** A validated score record carries a score in [0, 1]. */
  type Score = x: real | 0.0 <= x <= 1.0 witness 0.0

  datatype Sample = Sample(score: Score, anomalous: bool)

  function Count(xs: seq<Sample>, p: Sample -> bool): nat {
    if xs == [] then 0 else (if p(xs[0]) then 1 else 0) + Count(xs[1..], p)
  }

  lemma {:induction false} CountMonotone(xs: seq<Sample>, p: Sample -> bool, q: Sample -> bool)
    requires forall x | x in xs :: p(x) ==> q(x)
    ensures Count(xs, p) <= Count(xs, q)
  {
    if xs != [] {
      assert xs[0] in xs;
      assert forall x | x in xs[1..] :: x in xs;
      CountMonotone(xs[1..], p, q);
    }
  }

  lemma {:induction false} CountAny(xs: seq<Sample>, p: Sample -> bool)
    ensures Count(xs, p) > 0 <==> exists x :: x in xs && p(x)
  {
    if xs != [] {
      CountAny(xs[1..], p);
      assert xs == [xs[0]] + xs[1..];
    }
  }

  lemma {:induction false} CountSplits(xs: seq<Sample>, p: Sample -> bool, q: Sample -> bool, whole: Sample -> bool)
    requires forall x | x in xs :: whole(x) <==> p(x) || q(x)
    requires forall x | x in xs :: !(p(x) && q(x))
    ensures Count(xs, whole) == Count(xs, p) + Count(xs, q)
  {
    if xs != [] {
      assert xs[0] in xs;
      assert forall x | x in xs[1..] :: x in xs;
      CountSplits(xs[1..], p, q, whole);
    }
  }

  function Anomalies(xs: seq<Sample>): nat {
    Count(xs, (x: Sample) => x.anomalous)
  }

  /** Anomalies a review threshold lets through. */
  function Missed(xs: seq<Sample>, t: real): nat {
    Count(xs, (x: Sample) => x.anomalous && x.score < t)
  }

  /** Anomalies a hold threshold catches. */
  function Caught(xs: seq<Sample>, t: real): nat {
    Count(xs, (x: Sample) => x.anomalous && x.score >= t)
  }

  /** Samples sent to review or hold, or held. */
  function Flagged(xs: seq<Sample>, t: real): nat {
    Count(xs, (x: Sample) => x.score >= t)
  }

  function FalseAcceptRate(xs: seq<Sample>, t: real): real
    requires Anomalies(xs) > 0
  {
    Missed(xs, t) as real / Anomalies(xs) as real
  }

  function Recall(xs: seq<Sample>, t: real): real
    requires Anomalies(xs) > 0
  {
    Caught(xs, t) as real / Anomalies(xs) as real
  }

  lemma RatesFollowCounts(a: nat, b: nat, d: nat)
    requires d > 0
    ensures a <= b ==> a as real / d as real <= b as real / d as real
    ensures 0 as real / d as real == 0.0 && d as real / d as real == 1.0
  {
    if a <= b { QuotientMonotone(a as real, b as real, d as real); }
  }

  lemma QuotientMonotone(a: real, b: real, d: real)
    requires a <= b && d > 0.0
    ensures a / d <= b / d
  {
    assert b / d - a / d == (b - a) / d;
  }

  /** Two thresholds with no score from the lower up to the higher decide every sample alike. */
  lemma NothingBetween(xs: seq<Sample>, a: real, b: real)
    requires a <= b && forall x | x in xs :: !(a <= x.score < b)
    ensures Flagged(xs, a) == Flagged(xs, b) && Missed(xs, a) == Missed(xs, b) && Caught(xs, a) == Caught(xs, b)
  {
    Lowering(xs, a, b);
    CountMonotone(xs, (x: Sample) => x.score >= a, (x: Sample) => x.score >= b);
    CountMonotone(xs, (x: Sample) => x.anomalous && x.score < b, (x: Sample) => x.anomalous && x.score < a);
    CountMonotone(xs, (x: Sample) => x.anomalous && x.score >= a, (x: Sample) => x.anomalous && x.score >= b);
  }

  /** A lower threshold flags more, catches more and misses less. */
  lemma Lowering(xs: seq<Sample>, a: real, b: real)
    requires forall x | x in xs :: x.score >= b ==> x.score >= a
    ensures Flagged(xs, b) <= Flagged(xs, a) && Missed(xs, a) <= Missed(xs, b) && Caught(xs, b) <= Caught(xs, a)
  {
    CountMonotone(xs, (x: Sample) => x.score >= b, (x: Sample) => x.score >= a);
    CountMonotone(xs, (x: Sample) => x.anomalous && x.score < a, (x: Sample) => x.anomalous && x.score < b);
    CountMonotone(xs, (x: Sample) => x.anomalous && x.score >= b, (x: Sample) => x.anomalous && x.score >= a);
  }

  // ---- candidates ---------------------------------------------------------------------------

  predicate Increasing(s: seq<real>) {
    forall i, j | 0 <= i < j < |s| :: s[i] < s[j]
  }

  function Insert(s: seq<real>, x: real): seq<real> {
    if s == [] || x < s[0] then [x] + s
    else if x == s[0] then s
    else [s[0]] + Insert(s[1..], x)
  }

  lemma {:induction false} InsertKeeps(s: seq<real>, x: real)
    requires Increasing(s)
    ensures Increasing(Insert(s, x))
    ensures forall y :: y in Insert(s, x) <==> y in s || y == x
  {
    if s != [] && x > s[0] {
      InsertKeeps(s[1..], x);
      var r := Insert(s[1..], x);
      assert s == [s[0]] + s[1..];
      forall j | 0 <= j < |r| ensures s[0] < r[j] {
        assert r[j] in r;
      }
    }
  }

  /** np.unique: sorted, without repetition. */
  function Unique(s: seq<real>): seq<real> {
    if s == [] then [] else Insert(Unique(s[1..]), s[0])
  }

  lemma {:induction false} UniqueMeaning(s: seq<real>)
    ensures Increasing(Unique(s))
    ensures forall y :: y in Unique(s) <==> y in s
  {
    if s != [] {
      UniqueMeaning(s[1..]);
      InsertKeeps(Unique(s[1..]), s[0]);
      assert s == [s[0]] + s[1..];
    }
  }

  function Scores(xs: seq<Sample>): seq<real> {
    seq(|xs|, i requires 0 <= i < |xs| => xs[i].score)
  }

  function Mids(u: seq<real>): seq<real> {
    if |u| <= 1 then [] else seq(|u| - 1, i requires 0 <= i < |u| - 1 => (u[i] + u[i + 1]) / 2.0)
  }

  function Candidates(xs: seq<Sample>): seq<real> {
    var u := Unique(Scores(xs));
    Unique([0.0] + u + Mids(u) + [1.0])
  }

  /** The search space holds 0, 1 and every score, inside [0, 1]. */
  lemma CandidatesMeaning(xs: seq<Sample>)
    ensures Increasing(Candidates(xs))
    ensures 0.0 in Candidates(xs) && 1.0 in Candidates(xs)
    ensures forall x | x in xs :: x.score in Candidates(xs)
    ensures forall c | c in Candidates(xs) :: 0.0 <= c <= 1.0
  {
    var u := Unique(Scores(xs));
    UniqueMeaning([0.0] + u + Mids(u) + [1.0]);
    UniqueScores(xs);
    MidsInside(u);
  }

  lemma MidpointIsCandidate(xs: seq<Sample>, a: Sample, b: Sample)
    requires a in xs && b in xs && Adjacent(xs, a.score, b.score)
    ensures (a.score + b.score) / 2.0 in Candidates(xs)
  {
    var u := Unique(Scores(xs));
    AdjacentInUnique(xs, a, b);
    UniqueMeaning([0.0] + u + Mids(u) + [1.0]);
  }

  lemma UniqueScores(xs: seq<Sample>)
    ensures forall x | x in xs :: x.score in Unique(Scores(xs))
    ensures forall y | y in Unique(Scores(xs)) :: 0.0 <= y <= 1.0
  {
    UniqueMeaning(Scores(xs));
    forall x | x in xs ensures x.score in Scores(xs) {
      var i :| 0 <= i < |xs| && xs[i] == x;
      assert Scores(xs)[i] == x.score;
    }
  }

  lemma MidsInside(u: seq<real>)
    requires forall y | y in u :: 0.0 <= y <= 1.0
    ensures forall m | m in Mids(u) :: 0.0 <= m <= 1.0
  {
    forall i | 0 <= i < |Mids(u)| ensures 0.0 <= Mids(u)[i] <= 1.0 {
      assert u[i] in u && u[i + 1] in u;
    }
  }

  lemma ScoreOf(xs: seq<Sample>, y: real) returns (x: Sample)
    requires y in Unique(Scores(xs))
    ensures x in xs && x.score == y
  {
    UniqueMeaning(Scores(xs));
    var i :| 0 <= i < |Scores(xs)| && Scores(xs)[i] == y;
    x := xs[i];
  }

  predicate Adjacent(xs: seq<Sample>, a: real, b: real) {
    a < b && forall x | x in xs :: x.score <= a || x.score >= b
  }

  lemma AdjacentInUnique(xs: seq<Sample>, a: Sample, b: Sample)
    requires a in xs && b in xs && Adjacent(xs, a.score, b.score)
    ensures (a.score + b.score) / 2.0 in Mids(Unique(Scores(xs)))
  {
    hide Unique, Mids, Insert;
    var u := Unique(Scores(xs));
    UniqueMeaning(Scores(xs));
    UniqueScores(xs);
    forall y | y in u ensures y <= a.score || y >= b.score {
      var x := ScoreOf(xs, y);
    }
    Neighbours(u, a.score, b.score);
  }

  /** Two values of a sorted list with none between them stand next to each other. */
  lemma Neighbours(u: seq<real>, a: real, b: real)
    requires Increasing(u) && a in u && b in u && a < b && forall y | y in u :: y <= a || y >= b
    ensures (a + b) / 2.0 in Mids(u)
  {
    var i, j :| 0 <= i < |u| && u[i] == a && 0 <= j < |u| && u[j] == b;
    assert i < j && u[i] < u[i + 1] && u[i + 1] in u;
    assert j == i + 1;
    assert Mids(u)[i] == (a + b) / 2.0;
  }

  // ---- selection ------------------------------------------------------------------------------

  function Filter(s: seq<real>, p: real -> bool): (r: seq<real>)
    ensures forall y :: y in r <==> y in s && p(y)
  {
    if s == [] then [] else (if p(s[0]) then [s[0]] else []) + Filter(s[1..], p)
  }

  function Max(s: seq<real>, default: real): (r: real)
    ensures s == [] ==> r == default
    ensures s != [] ==> r in s && forall y | y in s :: y <= r
  {
    if s == [] then default
    else
      var m := Max(s[1..], s[0]);
      assert forall y | y in s :: y == s[0] || y in s[1..];
      if m > s[0] then m else s[0]
  }

  function Min(s: seq<real>, default: real): (r: real)
    ensures s == [] ==> r == default
    ensures s != [] ==> r in s && forall y | y in s :: r <= y
  {
    if s == [] then default
    else
      var m := Min(s[1..], s[0]);
      assert forall y | y in s :: y == s[0] || y in s[1..];
      if m < s[0] then m else s[0]
  }

  function ReviewCandidates(xs: seq<Sample>, bound: real): seq<real>
    requires Anomalies(xs) > 0
  {
    Filter(Candidates(xs), c => Anomalies(xs) > 0 && c < 1.0 && FalseAcceptRate(xs, c) <= bound)
  }

  function Review(xs: seq<Sample>, bound: real): real
    requires Anomalies(xs) > 0
  {
    Max(ReviewCandidates(xs, bound), 0.0)
  }

  function HoldCandidates(xs: seq<Sample>, review: real, target: real): seq<real>
    requires Anomalies(xs) > 0
  {
    Filter(Candidates(xs), c => Anomalies(xs) > 0 && c > review && Recall(xs, c) >= target)
  }

  function Hold(xs: seq<Sample>, review: real, target: real): real
    requires Anomalies(xs) > 0
  {
    var met := HoldCandidates(xs, review, target);
    if met != [] then Max(met, 1.0) else Min(Filter(Candidates(xs), c => c > review), 1.0)
  }

  predicate Reachable(xs: seq<Sample>, review: real, target: real)
    requires Anomalies(xs) > 0
  {
    HoldCandidates(xs, review, target) != []
  }

  /** The chosen review threshold is a candidate below 1 that meets the bound; 0 always does. */
  lemma ReviewMeetsBound(xs: seq<Sample>, bound: real)
    requires Anomalies(xs) > 0 && bound >= 0.0
    ensures var r := Review(xs, bound);
      && r in Candidates(xs) && 0.0 <= r < 1.0 && FalseAcceptRate(xs, r) <= bound
      && forall c | c in Candidates(xs) && c < 1.0 && FalseAcceptRate(xs, c) <= bound :: c <= r
  {
    CandidatesMeaning(xs);
    CountAny(xs, (x: Sample) => x.anomalous && x.score < 0.0);
    RatesFollowCounts(Missed(xs, 0.0), 0, Anomalies(xs));
    assert 0.0 in ReviewCandidates(xs, bound);
  }

  /** Both thresholds are ordered inside [0, 1], so the later repair of their order never runs. */
  lemma ThresholdsAreOrdered(xs: seq<Sample>, bound: real, target: real)
    requires Anomalies(xs) > 0 && bound >= 0.0
    ensures var r := Review(xs, bound); 0.0 <= r < Hold(xs, r, target) <= 1.0 && Hold(xs, r, target) in Candidates(xs)
  {
    ReviewMeetsBound(xs, bound);
    CandidatesMeaning(xs);
    var r := Review(xs, bound);
    assert 1.0 in Filter(Candidates(xs), c => c > r);
  }

  // ---- optimality ---------------------------------------------------------------------------------

  /** The greatest score below t, when there is one. */
  lemma {:induction false} GreatestBelow(xs: seq<Sample>, t: real) returns (x: Option<Sample>)
    ensures x.None? ==> forall y | y in xs :: y.score >= t
    ensures x.Some? ==> x.value in xs && x.value.score < t && forall y | y in xs && y.score < t :: y.score <= x.value.score
  {
    if xs == [] { return None; }
    assert xs == [xs[0]] + xs[1..];
    x := GreatestBelow(xs[1..], t);
    if xs[0].score < t && (x.None? || xs[0].score > x.value.score) { x := Some(xs[0]); }
  }

  /** The least score at or above t, when there is one. */
  lemma {:induction false} LeastFrom(xs: seq<Sample>, t: real) returns (x: Option<Sample>)
    ensures x.None? ==> forall y | y in xs :: y.score < t
    ensures x.Some? ==> x.value in xs && x.value.score >= t && forall y | y in xs && y.score >= t :: y.score >= x.value.score
  {
    if xs == [] { return None; }
    assert xs == [xs[0]] + xs[1..];
    x := LeastFrom(xs[1..], t);
    if xs[0].score >= t && (x.None? || xs[0].score < x.value.score) { x := Some(xs[0]); }
  }

  /** No feasible real threshold between adjacent scores escapes the candidates: the midpoint
      below it decides the same samples. */
  lemma MidpointStandsFor(xs: seq<Sample>, t: real, a: Sample, b: Sample)
    requires a in xs && b in xs && Adjacent(xs, a.score, b.score) && a.score < t <= b.score
    ensures var m := (a.score + b.score) / 2.0;
      m in Candidates(xs) && a.score < m < 1.0 && Missed(xs, m) == Missed(xs, t)
  {
    MidpointIsCandidate(xs, a, b);
    var m := (a.score + b.score) / 2.0;
    if m <= t { NothingBetween(xs, m, t); } else { NothingBetween(xs, t, m); }
  }

  predicate TopScored(xs: seq<Sample>) {
    exists x :: x in xs && x.score == 1.0
  }

  /** No threshold that meets the bound sends fewer samples to review or hold. */
  lemma ReviewIsOptimal(xs: seq<Sample>, bound: real, t: real)
    requires Anomalies(xs) > 0 && bound >= 0.0 && (bound < 1.0 || TopScored(xs))
    requires 0.0 <= t < 1.0 && FalseAcceptRate(xs, t) <= bound
    ensures Flagged(xs, Review(xs, bound)) <= Flagged(xs, t)
  {
    var r := Review(xs, bound);
    ReviewMeetsBound(xs, bound);
    if t <= r {
      Lowering(xs, t, r);
    } else {
      var a := GreatestBelow(xs, t);
      var b := LeastFrom(xs, t);
      if a.Some? && a.value.score >= r {
        SomethingAbove(xs, bound, t);
        MidpointStandsFor(xs, t, a.value, b.value);
        assert false;
      }
      NothingBetween(xs, r, t);
    }
  }

  /** A threshold above every score misses everything, which only a bound of 1 allows. */
  lemma SomethingAbove(xs: seq<Sample>, bound: real, t: real)
    requires Anomalies(xs) > 0 && (bound < 1.0 || TopScored(xs))
    requires t < 1.0 && FalseAcceptRate(xs, t) <= bound
    ensures exists x :: x in xs && x.score >= t
  {
    if forall x | x in xs :: x.score < t {
      CountMonotone(xs, (x: Sample) => x.anomalous, (x: Sample) => x.anomalous && x.score < t);
      CountMonotone(xs, (x: Sample) => x.anomalous && x.score < t, (x: Sample) => x.anomalous);
      RatesFollowCounts(Missed(xs, t), Anomalies(xs), Anomalies(xs));
    }
  }

  predicate Feasible(xs: seq<Sample>, bound: real, t: real)
    requires Anomalies(xs) > 0
  {
    0.0 <= t < 1.0 && FalseAcceptRate(xs, t) <= bound
  }

  /** No real threshold in [0, 1) that meets the bound flags fewer samples. */
  ghost predicate ReviewOptimal(xs: seq<Sample>, bound: real)
    requires Anomalies(xs) > 0
  {
    forall t: real :: Feasible(xs, bound, t) ==> Flagged(xs, Review(xs, bound)) <= Flagged(xs, t)
  }

  /** Optimality holds exactly when the bound is a real restriction or some score is 1: without
      either, a threshold above every score flags nothing, and the search cannot see it. */
  lemma ReviewIsOptimalIff(xs: seq<Sample>, bound: real)
    requires Anomalies(xs) > 0 && bound >= 0.0
    ensures ReviewOptimal(xs, bound) <==> bound < 1.0 || TopScored(xs)
  {
    if bound < 1.0 || TopScored(xs) {
      forall t: real | Feasible(xs, bound, t) ensures Flagged(xs, Review(xs, bound)) <= Flagged(xs, t) {
        ReviewIsOptimal(xs, bound, t);
      }
    } else {
      var t := UnseenThreshold(xs, bound);
      assert Feasible(xs, bound, t);
    }
  }

  /** With bound 1 and every score below 1, half way between the top score and 1 flags nothing. */
  lemma UnseenThreshold(xs: seq<Sample>, bound: real) returns (t: real)
    requires Anomalies(xs) > 0 && bound >= 1.0 && !TopScored(xs)
    ensures Feasible(xs, bound, t) && Flagged(xs, t) < Flagged(xs, Review(xs, bound))
  {
    CountAny(xs, (x: Sample) => x.anomalous);
    var top := GreatestBelow(xs, 1.0);
    assert forall x | x in xs :: x.score < 1.0;
    t := (top.value.score + 1.0) / 2.0;
    AlwaysFeasible(xs, bound, t);
    AlwaysFeasible(xs, bound, top.value.score);
    CountAny(xs, (x: Sample) => x.score >= t);
    ReviewMeetsBound(xs, bound);
    CandidatesMeaning(xs);
    SingleTopIsFlagged(xs, bound, top.value);
  }

  lemma AlwaysFeasible(xs: seq<Sample>, bound: real, t: real)
    requires Anomalies(xs) > 0 && bound >= 1.0 && 0.0 <= t < 1.0
    ensures Feasible(xs, bound, t)
  {
    CountMonotone(xs, (x: Sample) => x.anomalous && x.score < t, (x: Sample) => x.anomalous);
    RatesFollowCounts(Missed(xs, t), Anomalies(xs), Anomalies(xs));
  }

  /** Every candidate below 1 lies at or below the top score, so the choice flags at least that. */
  lemma SingleTopIsFlagged(xs: seq<Sample>, bound: real, top: Sample)
    requires Anomalies(xs) > 0 && bound >= 1.0 && top in xs
    requires forall x | x in xs :: x.score <= top.score
    ensures Flagged(xs, Review(xs, bound)) > 0
  {
    ReviewMeetsBound(xs, bound);
    var r := Review(xs, bound);
    CandidateBelowTop(xs, r, top);
    CountAny(xs, (x: Sample) => x.score >= r);
  }

  lemma CandidateBelowTop(xs: seq<Sample>, c: real, top: Sample)
    requires c in Candidates(xs) && c < 1.0 && top in xs && forall x | x in xs :: x.score <= top.score
    ensures c <= top.score
  {
    var u := Unique(Scores(xs));
    UniqueMeaning(Scores(xs));
    UniqueMeaning([0.0] + u + Mids(u) + [1.0]);
    forall y | y in u ensures y <= top.score {
      var x := ScoreOf(xs, y);
    }
    forall i | 0 <= i < |Mids(u)| ensures Mids(u)[i] <= top.score {
      assert u[i] in u && u[i + 1] in u;
    }
  }

  /** When the target is reachable, no real threshold above review that meets it flags fewer. */
  lemma HoldIsOptimal(xs: seq<Sample>, bound: real, target: real, t: real)
    requires Anomalies(xs) > 0 && bound >= 0.0
    requires var r := Review(xs, bound); Reachable(xs, r, target) && r < t <= 1.0 && Recall(xs, t) >= target
    ensures var r, h := Review(xs, bound), Hold(xs, Review(xs, bound), target);
      && Recall(xs, h) >= target && Flagged(xs, h) <= Flagged(xs, t)
      && (forall c | c in Candidates(xs) && c > r && Recall(xs, c) >= target :: c <= h)
  {
    var r := Review(xs, bound);
    var h := Hold(xs, r, target);
    assert h in HoldCandidates(xs, r, target);
    var c := CandidateFrom(xs, r, target, t);
    Lowering(xs, t, h);
  }

  /** Any real threshold that meets the target has a candidate at or above it that does too. */
  lemma CandidateFrom(xs: seq<Sample>, r: real, target: real, t: real) returns (c: real)
    requires Anomalies(xs) > 0 && r < t <= 1.0 && Recall(xs, t) >= target
    ensures c in HoldCandidates(xs, r, target) && c >= t
  {
    CandidatesMeaning(xs);
    var b := LeastFrom(xs, t);
    c := if b.Some? then b.value.score else 1.0;
    NothingBetween(xs, t, c);
  }

  /** When no candidate meets the target, no real threshold above review does, and the fallback
      catches as many anomalies as any of them can. */
  lemma UnreachableTarget(xs: seq<Sample>, bound: real, target: real, t: real)
    requires Anomalies(xs) > 0 && bound >= 0.0
    requires var r := Review(xs, bound); !Reachable(xs, r, target) && r < t <= 1.0
    ensures Recall(xs, t) < target
    ensures Recall(xs, t) <= Recall(xs, Hold(xs, Review(xs, bound), target))
    ensures forall c | c in Candidates(xs) && c > Review(xs, bound) :: Hold(xs, Review(xs, bound), target) <= c
  {
    var r := Review(xs, bound);
    var h := Hold(xs, r, target);
    if Recall(xs, t) >= target {
      var c := CandidateFrom(xs, r, target, t);
    }
    CandidatesMeaning(xs);
    ThresholdsAreOrdered(xs, bound, target);
    var above := Filter(Candidates(xs), c => c > r);
    assert 1.0 in above;
    forall x | x in xs && x.score >= t ensures x.score >= h {
      assert x.score in above;
    }
    Lowering(xs, h, t);
    RatesFollowCounts(Caught(xs, t), Caught(xs, h), Anomalies(xs));
  }

  // ---- the safety margin ----------------------------------------------------------------------------

  function Lowered(t: real, margin: real): real {
    if t - margin > 0.0 then t - margin else 0.0
  }

  /** Both thresholds move down by the margin; when both end at 0, hold moves to the next
      representable number, `step`. */
  function WithMargin(review: real, hold: real, margin: real, step: real): (real, real) {
    var r, h := Lowered(review, margin), Lowered(hold, margin);
    (r, if h <= r then (if r + step < 1.0 then r + step else 1.0) else h)
  }

  /** For every margin each threshold moves down by exactly the margin, but not below 0, where hold
      stays one step above review; so the order is kept, no rate gets worse and no sample that was
      flagged or held is let go.  The step at 0 is below every positive score. */
  lemma MarginIsConservative(xs: seq<Sample>, review: real, hold: real, margin: real, step: real)
    requires Anomalies(xs) > 0 && 0.0 <= review < hold <= 1.0 && 0.0 <= margin <= 1.0 && 0.0 < step <= 1.0
    requires forall x | x in xs :: x.score == 0.0 || x.score >= step
    ensures var (r, h) := WithMargin(review, hold, margin, step);
      && 0.0 <= r < h <= 1.0
      && FalseAcceptRate(xs, r) <= FalseAcceptRate(xs, review)
      && Recall(xs, h) >= Recall(xs, hold)
      && Flagged(xs, r) >= Flagged(xs, review) && Flagged(xs, h) >= Flagged(xs, hold)
      && r == (if review >= margin then review - margin else 0.0)
      && h == (if hold > margin then hold - margin else step)
  {
    var (r, h) := WithMargin(review, hold, margin, step);
    Lowering(xs, r, review);
    Lowering(xs, h, hold);
    RatesFollowCounts(Missed(xs, r), Missed(xs, review), Anomalies(xs));
    RatesFollowCounts(Caught(xs, hold), Caught(xs, h), Anomalies(xs));
  }

  // ---- the calibration run --------------------------------------------------------------------------------

  datatype Strategy = Legacy | SafetyMargin | Unknown

  datatype Failure = BadConstraint | UnsupportedStrategy | BadMargin | NoRecords | OneClassOnly | MarginWithoutStrategy

  datatype Warning = TargetUnreachable | MarginApplied | ConstraintsUnsatisfied

  datatype Calibrated = Calibrated(review: real, hold: real, satisfied: bool, warnings: seq<Warning>)

  function Normals(xs: seq<Sample>): nat {
    Count(xs, (x: Sample) => !x.anomalous)
  }

  /** The checks before any threshold is selected, in their order. */
  function BadInput(xs: seq<Sample>, bound: real, target: real, strategy: Strategy, margin: real): Option<Failure> {
    if !(0.0 <= bound <= 1.0) || !(0.0 <= target <= 1.0) then Some(BadConstraint)
    else if strategy.Unknown? then Some(UnsupportedStrategy)
    else if !(0.0 <= margin <= 1.0) then Some(BadMargin)
    else if xs == [] then Some(NoRecords)
    else if Anomalies(xs) == 0 || Normals(xs) == 0 then Some(OneClassOnly)
    else None
  }

  function Rejected(xs: seq<Sample>, bound: real, target: real, strategy: Strategy, margin: real): Option<Failure> {
    var bad := BadInput(xs, bound, target, strategy, margin);
    if bad.Some? then bad else if strategy.Legacy? && margin != 0.0 then Some(MarginWithoutStrategy) else None
  }

  function Thresholds(xs: seq<Sample>, bound: real, target: real, strategy: Strategy, margin: real, step: real): (real, real)
    requires Anomalies(xs) > 0
  {
    var r := Review(xs, bound);
    var h := Hold(xs, r, target);
    if strategy.SafetyMargin? && margin > 0.0 then WithMargin(r, h, margin, step) else (r, h)
  }

  /** The legacy choice always meets the bound; it meets the target exactly when it is reachable. */
  lemma LegacyRates(xs: seq<Sample>, bound: real, target: real)
    requires Anomalies(xs) > 0 && bound >= 0.0
    ensures var r := Review(xs, bound);
      FalseAcceptRate(xs, r) <= bound && (Recall(xs, Hold(xs, r, target)) >= target <==> Reachable(xs, r, target))
  {
    ReviewMeetsBound(xs, bound);
    ThresholdsAreOrdered(xs, bound, target);
    var r := Review(xs, bound);
    if Reachable(xs, r, target) {
      assert Hold(xs, r, target) in HoldCandidates(xs, r, target);
    } else {
      UnreachableTarget(xs, bound, target, Hold(xs, r, target));
    }
  }

  /** The score-candidate selection; its thresholds are ordered, so they need no repair. */
  method LegacyThresholds(xs: seq<Sample>, bound: real, target: real) returns (review: real, hold: real, warnings: seq<Warning>)
    requires Anomalies(xs) > 0 && 0.0 <= bound
    ensures review == Review(xs, bound) && hold == Hold(xs, review, target) && 0.0 <= review < hold <= 1.0
    ensures FalseAcceptRate(xs, review) <= bound
    ensures warnings == if Recall(xs, hold) >= target then [] else [TargetUnreachable]
    ensures Recall(xs, hold) >= target <==> Reachable(xs, review, target)
  {
    review := Review(xs, bound);
    var met := HoldCandidates(xs, review, target);
    warnings := [];
    if met != [] {
      hold := Max(met, 1.0);
    } else {
      hold := Min(Filter(Candidates(xs), c => c > review), 1.0);
      warnings := [TargetUnreachable];
    }
    ThresholdsAreOrdered(xs, bound, target);
    LegacyRates(xs, bound, target);
  }

  /** Move both thresholds down; `step` is the distance to the next representable number, asked
      for only when they coincide. */
  method ApplyMargin(xs: seq<Sample>, review: real, hold: real, margin: real, step: real) returns (r: real, h: real)
    requires Anomalies(xs) > 0 && 0.0 <= review < hold <= 1.0 && 0.0 <= margin <= 1.0 && 0.0 < step <= 1.0
    requires forall x | x in xs :: x.score == 0.0 || x.score >= step
    ensures (r, h) == if margin > 0.0 then WithMargin(review, hold, margin, step) else (review, hold)
    ensures 0.0 <= r < h <= 1.0
    ensures FalseAcceptRate(xs, r) <= FalseAcceptRate(xs, review) && Recall(xs, h) >= Recall(xs, hold)
  {
    MarginIsConservative(xs, review, hold, margin, step);
    r, h := review, hold;
    if margin > 0.0 {
      r := Lowered(review, margin);
      h := Lowered(hold, margin);
    }
    if h <= r {
      h := if r + step < 1.0 then r + step else 1.0;
    }
  }

  /** The legacy selection, lowered by the margin when that strategy asks for it. */
  method SelectThresholds(xs: seq<Sample>, bound: real, target: real, strategy: Strategy, margin: real, step: real)
    returns (review: real, hold: real, warnings: seq<Warning>)
    requires Anomalies(xs) > 0 && 0.0 <= bound && 0.0 <= margin <= 1.0
    requires 0.0 < step <= 1.0 && forall x | x in xs :: x.score == 0.0 || x.score >= step
    ensures (review, hold) == Thresholds(xs, bound, target, strategy, margin, step)
    ensures 0.0 <= review < hold <= 1.0 && FalseAcceptRate(xs, review) <= bound
    ensures Reachable(xs, Review(xs, bound), target) ==> Recall(xs, hold) >= target
    ensures TargetUnreachable in warnings <==> !Reachable(xs, Review(xs, bound), target)
    ensures ConstraintsUnsatisfied !in warnings
  {
    hide FalseAcceptRate, Recall, Review, Hold, Reachable, WithMargin;
    review, hold, warnings := LegacyThresholds(xs, bound, target);
    if strategy.SafetyMargin? {
      review, hold := ApplyMargin(xs, review, hold, margin, step);
      if margin > 0.0 {
        warnings := warnings + [MarginApplied];
      }
    }
  }

  /** Record whether both constraints hold, with a warning if nothing else warned. */
  method Conclude(xs: seq<Sample>, bound: real, target: real, review: real, hold: real, warnings: seq<Warning>) returns (c: Calibrated)
    requires Anomalies(xs) > 0
    ensures c.review == review && c.hold == hold
    ensures c.satisfied <==> FalseAcceptRate(xs, review) <= bound && Recall(xs, hold) >= target
    ensures c.warnings == if !c.satisfied && warnings == [] then [ConstraintsUnsatisfied] else warnings
  {
    var satisfied := FalseAcceptRate(xs, review) <= bound && Recall(xs, hold) >= target;
    c := Calibrated(review, hold, satisfied, if !satisfied && warnings == [] then [ConstraintsUnsatisfied] else warnings);
  }

  /** The whole calibration: every threshold pair it returns is ordered, never lets through more
      than the bound, and never fails a reachable target. */
  method Calibrate(xs: seq<Sample>, bound: real, target: real, strategy: Strategy, margin: real, step: real)
    returns (result: Result<Calibrated, Failure>)
    requires 0.0 < step <= 1.0 && forall x | x in xs :: x.score == 0.0 || x.score >= step
    ensures result.Err? ==> Rejected(xs, bound, target, strategy, margin) == Some(result.error)
    ensures result.Ok? <==>
      && 0.0 <= bound <= 1.0 && 0.0 <= target <= 1.0 && 0.0 <= margin <= 1.0
      && (strategy.SafetyMargin? || (strategy.Legacy? && margin == 0.0))
      && (exists x :: x in xs && x.anomalous) && (exists x :: x in xs && !x.anomalous)
    ensures result.Ok? ==>
      var c := result.value;
      && Anomalies(xs) > 0
      && (c.review, c.hold) == Thresholds(xs, bound, target, strategy, margin, step)
      && 0.0 <= c.review < c.hold <= 1.0
      && FalseAcceptRate(xs, c.review) <= bound
      && (c.satisfied <==> Recall(xs, c.hold) >= target)
      && (Reachable(xs, Review(xs, bound), target) ==> c.satisfied)
      && (!c.satisfied ==> c.warnings != [])
      && (TargetUnreachable in c.warnings <==> !Reachable(xs, Review(xs, bound), target))
      && ConstraintsUnsatisfied !in c.warnings
  {
    CountAny(xs, (x: Sample) => x.anomalous);
    CountAny(xs, (x: Sample) => !x.anomalous);
    var bad := BadInput(xs, bound, target, strategy, margin);
    if bad.Some? {
      return Err(bad.value);
    }
    if strategy.Legacy? && margin != 0.0 {
      return Err(MarginWithoutStrategy);
    }
    var review, hold, warnings := SelectThresholds(xs, bound, target, strategy, margin, step);
    var c := Conclude(xs, bound, target, review, hold, warnings);
    return Ok(c);
  }

  // ---- protocol B: scores only -------------------------------------------------------------------------------

  function ScoreCandidates(xs: seq<Sample>): seq<real> {
    Unique([0.0] + Scores(xs) + [1.0])
  }

  lemma ScoreCandidatesMeaning(xs: seq<Sample>)
    ensures forall c :: c in ScoreCandidates(xs) <==> c == 0.0 || c == 1.0 || exists x :: x in xs && x.score == c
  {
    UniqueMeaning([0.0] + Scores(xs) + [1.0]);
    forall c ensures c in Scores(xs) <==> exists x :: x in xs && x.score == c {
      if c in Scores(xs) {
        var i :| 0 <= i < |Scores(xs)| && Scores(xs)[i] == c;
        assert xs[i] in xs;
      }
      if x :| x in xs && x.score == c {
        var i :| 0 <= i < |xs| && xs[i] == x;
        assert Scores(xs)[i] == c;
      }
    }
  }

  function ScoreReview(xs: seq<Sample>, bound: real): real
    requires Anomalies(xs) > 0
  {
    Max(Filter(ScoreCandidates(xs), c => Anomalies(xs) > 0 && c < 1.0 && FalseAcceptRate(xs, c) <= bound), 0.0)
  }

  function ScoreHoldCandidates(xs: seq<Sample>, review: real, target: real): seq<real>
    requires Anomalies(xs) > 0
  {
    Filter(ScoreCandidates(xs), c => Anomalies(xs) > 0 && c > review && Recall(xs, c) >= target)
  }

  /** `step` is the distance from review to the next representable number. */
  function ScoreHold(xs: seq<Sample>, review: real, target: real, step: real): real
    requires Anomalies(xs) > 0
  {
    Max(ScoreHoldCandidates(xs, review, target), if review + step < 1.0 then review + step else 1.0)
  }

  lemma ScoreReviewMeaning(xs: seq<Sample>, bound: real)
    requires Anomalies(xs) > 0
    ensures var r := ScoreReview(xs, bound);
      && 0.0 <= r < 1.0
      && (r == 0.0 || exists x :: x in xs && x.score == r)
      && (bound >= 0.0 ==> FalseAcceptRate(xs, r) <= bound)
      && (forall x | x in xs && x.score < 1.0 && FalseAcceptRate(xs, x.score) <= bound :: x.score <= r)
  {
    ScoreCandidatesMeaning(xs);
    var met := Filter(ScoreCandidates(xs), c => Anomalies(xs) > 0 && c < 1.0 && FalseAcceptRate(xs, c) <= bound);
    CountAny(xs, (x: Sample) => x.anomalous && x.score < 0.0);
    RatesFollowCounts(Missed(xs, 0.0), 0, Anomalies(xs));
    if bound >= 0.0 { assert 0.0 in met; }
    forall x | x in xs && x.score < 1.0 && FalseAcceptRate(xs, x.score) <= bound ensures x.score <= ScoreReview(xs, bound) {
      assert x.score in met;
    }
  }

  /** No real threshold in [0, 1) that meets the bound flags fewer samples. */
  ghost predicate ScoreReviewOptimal(xs: seq<Sample>, bound: real)
    requires Anomalies(xs) > 0
  {
    forall t: real :: Feasible(xs, bound, t) ==> Flagged(xs, ScoreReview(xs, bound)) <= Flagged(xs, t)
  }

  /** Everything that scores below 1 could be let through within the bound, and something does. */
  predicate AllBelowOneAcceptable(xs: seq<Sample>, bound: real)
    requires Anomalies(xs) > 0
  {
    FalseAcceptRate(xs, 1.0) <= bound && exists x :: x in xs && x.score < 1.0
  }

  /** A feasible threshold has a score below 1 at or above it, or lies above all of them. */
  lemma ScoreStandsFor(xs: seq<Sample>, bound: real, t: real)
    requires Anomalies(xs) > 0 && Feasible(xs, bound, t) && !AllBelowOneAcceptable(xs, bound)
    ensures Flagged(xs, ScoreReview(xs, bound)) <= Flagged(xs, t)
  {
    var r := ScoreReview(xs, bound);
    ScoreReviewMeaning(xs, bound);
    var u := LeastFrom(xs, t);
    if u.Some? && u.value.score < 1.0 {
      NothingBetween(xs, t, u.value.score);
      Lowering(xs, u.value.score, r);
    } else {
      NothingBetween(xs, t, 1.0);
      NothingBetween(xs, r, 1.0);
    }
  }

  /** Half way between the greatest score below 1 and 1 every such sample goes through. */
  lemma UnseenScoreThreshold(xs: seq<Sample>, bound: real) returns (t: real)
    requires Anomalies(xs) > 0 && AllBelowOneAcceptable(xs, bound)
    ensures Feasible(xs, bound, t) && Flagged(xs, t) < Flagged(xs, ScoreReview(xs, bound))
  {
    var below := GreatestBelow(xs, 1.0);
    var top := below.value;
    t := (top.score + 1.0) / 2.0;
    NothingBetween(xs, t, 1.0);
    ScoreReviewMeaning(xs, bound);
    var r := ScoreReview(xs, bound);
    ScoreReviewIsLow(xs, bound, top);
    FlagsOneMore(xs, r, t, top);
  }

  /** The choice never exceeds the greatest score below 1. */
  lemma ScoreReviewIsLow(xs: seq<Sample>, bound: real, top: Sample)
    requires Anomalies(xs) > 0 && top in xs && forall x | x in xs && x.score < 1.0 :: x.score <= top.score
    ensures ScoreReview(xs, bound) <= top.score
  {
    ScoreReviewMeaning(xs, bound);
  }

  lemma {:induction false} FlagsOneMore(xs: seq<Sample>, low: real, high: real, x: Sample)
    requires x in xs && low <= x.score < high
    ensures Flagged(xs, high) < Flagged(xs, low)
  {
    CountSplits(xs, (y: Sample) => y.score >= high, (y: Sample) => low <= y.score < high, (y: Sample) => y.score >= low);
    CountAny(xs, (y: Sample) => low <= y.score < high);
  }

  /** Searching scores without midpoints is optimal exactly when the bound forbids letting
      through all that scores below 1, or nothing does. */
  lemma ScoreReviewIsOptimalIff(xs: seq<Sample>, bound: real)
    requires Anomalies(xs) > 0
    ensures ScoreReviewOptimal(xs, bound) <==> !AllBelowOneAcceptable(xs, bound)
  {
    if AllBelowOneAcceptable(xs, bound) {
      var t := UnseenScoreThreshold(xs, bound);
      assert Feasible(xs, bound, t);
    } else {
      forall t: real | Feasible(xs, bound, t) ensures Flagged(xs, ScoreReview(xs, bound)) <= Flagged(xs, t) {
        ScoreStandsFor(xs, bound, t);
      }
    }
  }

  /** Any real threshold above review that meets the target has a searched one at or above it. */
  lemma ScoreFrom(xs: seq<Sample>, r: real, target: real, t: real) returns (c: real)
    requires Anomalies(xs) > 0 && r < t <= 1.0 && Recall(xs, t) >= target
    ensures c in ScoreHoldCandidates(xs, r, target) && c >= t
  {
    ScoreCandidatesMeaning(xs);
    var b := LeastFrom(xs, t);
    c := if b.Some? then b.value.score else 1.0;
    NothingBetween(xs, t, c);
  }

  /** The hold threshold, by contrast, is always the best possible: a reachable target is met
      with the fewest flagged samples, and otherwise nothing above review catches more.  No score
      lies strictly between review and the next representable number. */
  lemma ScoreHoldIsOptimal(xs: seq<Sample>, bound: real, target: real, step: real, t: real)
    requires Anomalies(xs) > 0 && 0.0 < step && ScoreReview(xs, bound) < t <= 1.0
    requires forall x | x in xs :: !(ScoreReview(xs, bound) < x.score < ScoreReview(xs, bound) + step)
    ensures var r := ScoreReview(xs, bound);
      var h := ScoreHold(xs, r, target, step);
      && r < h <= 1.0
      && (ScoreHoldCandidates(xs, r, target) != [] ==>
            Recall(xs, h) >= target && (Recall(xs, t) >= target ==> Flagged(xs, h) <= Flagged(xs, t)))
      && (ScoreHoldCandidates(xs, r, target) == [] ==> Recall(xs, t) < target && Recall(xs, t) <= Recall(xs, h))
      && (forall c | c in ScoreCandidates(xs) && c > r && Recall(xs, c) >= target :: c <= h)
  {
    var r := ScoreReview(xs, bound);
    var h := ScoreHold(xs, r, target, step);
    ScoreReviewMeaning(xs, bound);
    ScoreCandidatesMeaning(xs);
    if Recall(xs, t) >= target {
      var c := ScoreFrom(xs, r, target, t);
      Lowering(xs, t, h);
    }
    if ScoreHoldCandidates(xs, r, target) == [] {
      Lowering(xs, h, t);
      RatesFollowCounts(Caught(xs, t), Caught(xs, h), Anomalies(xs));
    } else {
      assert h in ScoreHoldCandidates(xs, r, target);
    }
  }

  datatype ProtocolBFailure = BothLabelsRequired | HoldoutForbidden

  /** `calibrationOnly` is whether every record comes from the validation or calibration split. */
  method CalibrateProtocolB(xs: seq<Sample>, calibrationOnly: bool, bound: real, target: real, step: real)
    returns (r: Result<(real, real), ProtocolBFailure>)
    requires 0.0 < step
    ensures r.Err? && r.error == BothLabelsRequired <==> Anomalies(xs) == 0 || Normals(xs) == 0
    ensures r.Err? && r.error == HoldoutForbidden <==> Anomalies(xs) > 0 && Normals(xs) > 0 && !calibrationOnly
    ensures r.Ok? ==>
      && Anomalies(xs) > 0
      && r.value == (ScoreReview(xs, bound), ScoreHold(xs, ScoreReview(xs, bound), target, step))
      && 0.0 <= r.value.0 < r.value.1 <= 1.0
      && (bound >= 0.0 ==> FalseAcceptRate(xs, r.value.0) <= bound)
  {
    if Anomalies(xs) == 0 || Normals(xs) == 0 {
      return Err(BothLabelsRequired);
    }
    if !calibrationOnly {
      return Err(HoldoutForbidden);
    }
    ScoreReviewMeaning(xs, bound);
    ScoreCandidatesMeaning(xs);
    var review := ScoreReview(xs, bound);
    var hold := ScoreHold(xs, review, target, step);
    assert forall c | c in ScoreHoldCandidates(xs, review, target) :: review < c <= 1.0;
    return Ok((review, hold));
  }
}
