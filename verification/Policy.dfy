/** Threshold policies: validation of overrides, resolution by specificity, routing. */
module Policy {
  import opened Base

  datatype Rule = Rule(product: Option<string>, station: Option<string>, review: real, hold: real) {
    predicate Ordered() { 0.0 <= review < hold <= 1.0 }

    function Selector(): (Option<string>, Option<string>) { (product, station) }

    function Specificity(): nat {
      (if product.Some? then 1 else 0) + if station.Some? then 1 else 0
    }

    predicate Matches(p: string, s: string) {
      (product.None? || product.value == p) && (station.None? || station.value == s)
    }
  }

  datatype Config = Config(default: Rule, overrides: seq<Rule>)

  predicate Distinct(rules: seq<Rule>) {
    forall i, j | 0 <= i < j < |rules| :: rules[i].Selector() != rules[j].Selector()
  }

  predicate ConfigOk(c: Config) {
    && c.default.Ordered() && c.default.Selector() == (None, None)
    && (forall i | 0 <= i < |c.overrides| :: c.overrides[i].Ordered() && c.overrides[i].Selector() != (None, None))
    && Distinct(c.overrides)
  }

  /** The model validator: grows the set of selectors it has seen. */
  method Validate(c: Config) returns (ok: bool)
    ensures ok <==> ConfigOk(c)
  {
    if !c.default.Ordered() || c.default.Selector() != (None, None) {
      return false;
    }
    var selectors: set<(Option<string>, Option<string>)> := {};
    var i := 0;
    while i < |c.overrides|
      invariant 0 <= i <= |c.overrides|
      invariant forall x :: x in selectors <==> exists k :: 0 <= k < i && c.overrides[k].Selector() == x
      invariant forall k | 0 <= k < i :: c.overrides[k].Ordered() && c.overrides[k].Selector() != (None, None)
      invariant forall j, k | 0 <= j < k < i :: c.overrides[j].Selector() != c.overrides[k].Selector()
    {
      var rule := c.overrides[i];
      if !rule.Ordered() || rule.Selector() == (None, None) || rule.Selector() in selectors {
        return false;
      }
      selectors := selectors + {rule.Selector()};
      i := i + 1;
    }
    return true;
  }

  /** The rule with exactly this selector. */
  function Find(rules: seq<Rule>, x: (Option<string>, Option<string>)): (r: Option<Rule>)
    ensures r.Some? ==> r.value in rules && r.value.Selector() == x
    ensures r.None? ==> forall k | k in rules :: k.Selector() != x
  {
    if rules == [] then None
    else if rules[0].Selector() == x then Some(rules[0])
    else Find(rules[1..], x)
  }

  lemma {:induction false} FindUnique(rules: seq<Rule>, rule: Rule)
    requires Distinct(rules) && rule in rules
    ensures Find(rules, rule.Selector()) == Some(rule)
  {
    if rules[0].Selector() == rule.Selector() {
      var k :| 0 <= k < |rules| && rules[k] == rule;
      assert k == 0;
    } else {
      assert rule in rules[1..];
      FindUnique(rules[1..], rule);
    }
  }

  /** What resolution means: the exact pair first, then the only one-sided rule, else the
      default; two one-sided rules without an exact one are ambiguous. */
  function Resolve(c: Config, p: string, s: string): Result<Rule, string> {
    var exact := Find(c.overrides, (Some(p), Some(s)));
    var byProduct := Find(c.overrides, (Some(p), None));
    var byStation := Find(c.overrides, (None, Some(s)));
    if exact.Some? then Ok(exact.value)
    else if byProduct.Some? && byStation.Some? then Err("ambiguous policy overrides with equal specificity")
    else if byProduct.Some? then Ok(byProduct.value)
    else if byStation.Some? then Ok(byStation.value)
    else Ok(c.default)
  }

  /** Stable insertion by decreasing specificity. */
  function Insert(ms: seq<Rule>, r: Rule): seq<Rule> {
    if ms == [] then [r]
    else if ms[0].Specificity() >= r.Specificity() then [ms[0]] + Insert(ms[1..], r)
    else [r] + ms
  }

  predicate Descending(ms: seq<Rule>) {
    forall i, j | 0 <= i < j < |ms| :: ms[i].Specificity() >= ms[j].Specificity()
  }

  lemma {:induction false} InsertSorts(ms: seq<Rule>, r: Rule)
    requires Descending(ms) && Distinct(ms) && forall k | k in ms :: k.Selector() != r.Selector()
    ensures Descending(Insert(ms, r)) && Distinct(Insert(ms, r)) && |Insert(ms, r)| == |ms| + 1
    ensures forall k :: k in Insert(ms, r) <==> k in ms || k == r
  {
    if ms != [] && ms[0].Specificity() >= r.Specificity() {
      InsertSorts(ms[1..], r);
      var rest := Insert(ms[1..], r);
      assert ms == [ms[0]] + ms[1..];
      HeadFits(ms, r, rest);
    }
  }

  lemma HeadFits(ms: seq<Rule>, r: Rule, rest: seq<Rule>)
    requires ms != [] && Descending(ms) && Distinct(ms) && ms[0].Specificity() >= r.Specificity() && ms[0].Selector() != r.Selector()
    requires forall k :: k in rest <==> k in ms[1..] || k == r
    ensures forall i | 0 <= i < |rest| :: ms[0].Specificity() >= rest[i].Specificity() && ms[0].Selector() != rest[i].Selector()
  {
    forall i | 0 <= i < |rest| ensures ms[0].Specificity() >= rest[i].Specificity() && ms[0].Selector() != rest[i].Selector() {
      assert rest[i] in rest;
      if rest[i] != r {
        var k :| 0 <= k < |ms[1..]| && ms[1..][k] == rest[i];
        assert ms[k + 1] == rest[i];
      }
    }
  }

  /** Filter, sort by specificity, compare the first two. */
  method ResolveBySorting(c: Config, p: string, s: string) returns (r: Result<Rule, string>)
    requires ConfigOk(c)
    ensures r == Resolve(c, p, s)
  {
    var matches: seq<Rule> := [];
    var i := 0;
    while i < |c.overrides|
      invariant 0 <= i <= |c.overrides|
      invariant Descending(matches) && Distinct(matches)
      invariant forall k :: k in matches <==> k in c.overrides[..i] && k.Matches(p, s)
    {
      var rule := c.overrides[i];
      assert c.overrides[..i + 1] == c.overrides[..i] + [rule];
      if rule.Matches(p, s) {
        forall k | k in matches ensures k.Selector() != rule.Selector() {
          assert k in c.overrides[..i];
        }
        InsertSorts(matches, rule);
        matches := Insert(matches, rule);
      }
      i := i + 1;
    }
    assert c.overrides[..i] == c.overrides;
    SortedMatchesDecide(c, p, s, matches);
    if matches == [] {
      return Ok(c.default);
    }
    if |matches| > 1 && matches[0].Specificity() == matches[1].Specificity() {
      return Err("ambiguous policy overrides with equal specificity");
    }
    return Ok(matches[0]);
  }

  /** A matching override has one of three selectors. */
  lemma MatchingSelectors(c: Config, p: string, s: string, rule: Rule)
    requires ConfigOk(c) && rule in c.overrides && rule.Matches(p, s)
    ensures rule.Selector() in {(Some(p), Some(s)), (Some(p), None), (None, Some(s))}
    ensures rule.Specificity() == if rule.Selector() == (Some(p), Some(s)) then 2 else 1
    ensures Find(c.overrides, rule.Selector()) == Some(rule)
  {
    var i :| 0 <= i < |c.overrides| && c.overrides[i] == rule;
    assert c.overrides[i].Selector() != (None, None);
    assert rule.product.Some? ==> rule.product == Some(p);
    assert rule.station.Some? ==> rule.station == Some(s);
    FindUnique(c.overrides, rule);
  }

  lemma SortedMatchesDecide(c: Config, p: string, s: string, ms: seq<Rule>)
    requires ConfigOk(c) && Descending(ms) && Distinct(ms)
    requires forall k :: k in ms <==> k in c.overrides && k.Matches(p, s)
    ensures Resolve(c, p, s) ==
      if ms == [] then Ok(c.default)
      else if |ms| > 1 && ms[0].Specificity() == ms[1].Specificity() then Err("ambiguous policy overrides with equal specificity")
      else Ok(ms[0])
  {
    var exact := Find(c.overrides, (Some(p), Some(s)));
    var byProduct := Find(c.overrides, (Some(p), None));
    var byStation := Find(c.overrides, (None, Some(s)));
    forall k | 0 <= k < |ms|
      ensures ms[k].Selector() in {(Some(p), Some(s)), (Some(p), None), (None, Some(s))}
      ensures ms[k].Specificity() == if ms[k].Selector() == (Some(p), Some(s)) then 2 else 1
      ensures Find(c.overrides, ms[k].Selector()) == Some(ms[k])
    {
      assert ms[k] in ms;
      MatchingSelectors(c, p, s, ms[k]);
    }
    if exact.Some? {
      assert exact.value in ms;
      var k :| 0 <= k < |ms| && ms[k] == exact.value;
      assert ms[0].Specificity() >= ms[k].Specificity();
    } else {
      if byProduct.Some? { assert byProduct.value in ms; }
      if byStation.Some? { assert byStation.value in ms; }
    }
  }

  /** Resolution fails exactly on a product-only and a station-only rule without the pair rule. */
  lemma AmbiguousIff(c: Config, p: string, s: string)
    requires ConfigOk(c)
    ensures Resolve(c, p, s).Err? <==>
      && (exists k :: k in c.overrides && k.Selector() == (Some(p), None))
      && (exists k :: k in c.overrides && k.Selector() == (None, Some(s)))
      && !(exists k :: k in c.overrides && k.Selector() == (Some(p), Some(s)))
  {
  }

  /** Otherwise the result is the unique most specific match, or the default when nothing matches. */
  lemma ResolvesToMostSpecific(c: Config, p: string, s: string)
    requires ConfigOk(c) && Resolve(c, p, s).Ok?
    ensures var r := Resolve(c, p, s).value;
      && r.Ordered()
      && (r == c.default <==> forall k | k in c.overrides :: !k.Matches(p, s))
      && (r != c.default ==> r in c.overrides && r.Matches(p, s))
      && (r != c.default ==> forall k | k in c.overrides && k.Matches(p, s) && k != r :: k.Specificity() < r.Specificity())
  {
    var r := Resolve(c, p, s).value;
    forall k | k in c.overrides && k.Matches(p, s)
      ensures k.Selector() in {(Some(p), Some(s)), (Some(p), None), (None, Some(s))}
      ensures k.Specificity() == if k.Selector() == (Some(p), Some(s)) then 2 else 1
      ensures Find(c.overrides, k.Selector()) == Some(k)
    {
      MatchingSelectors(c, p, s, k);
    }
  }

  /** The order of the overrides does not matter. */
  lemma OrderIrrelevant(c: Config, d: Config, p: string, s: string)
    requires ConfigOk(c) && ConfigOk(d) && c.default == d.default
    requires multiset(c.overrides) == multiset(d.overrides)
    ensures Resolve(c, p, s) == Resolve(d, p, s)
  {
    forall k ensures k in c.overrides <==> k in d.overrides {
      assert k in multiset(c.overrides) <==> k in multiset(d.overrides);
    }
    SameFind(c.overrides, d.overrides, (Some(p), Some(s)));
    SameFind(c.overrides, d.overrides, (Some(p), None));
    SameFind(c.overrides, d.overrides, (None, Some(s)));
  }

  lemma SameFind(a: seq<Rule>, b: seq<Rule>, x: (Option<string>, Option<string>))
    requires Distinct(a) && Distinct(b) && forall k :: k in a <==> k in b
    ensures Find(a, x) == Find(b, x)
  {
    var r := Find(a, x);
    if r.Some? { FindUnique(b, r.value); }
  }

  // ---- routing ---------------------------------------------------------------------------

  datatype Route = AutoRelease | ManualReview | BatchHold

  function Rank(r: Route): nat {
    match r
    case AutoRelease => 0
    case ManualReview => 1
    case BatchHold => 2
  }

  datatype Evaluation = Evaluation(route: Route, review: real, hold: real)

  /** Without a score or a policy the route is manual review. */
  function Evaluate(score: Option<real>, policy: Option<Config>, p: string, s: string): Result<Evaluation, string> {
    if score.None? || policy.None? then Ok(Evaluation(ManualReview, 0.0, 1.0))
    else match Resolve(policy.value, p, s)
      case Err(e) => Err(e)
      case Ok(rule) =>
        var route :=
          if score.value < rule.review then AutoRelease
          else if score.value < rule.hold then ManualReview
          else BatchHold;
        Ok(Evaluation(route, rule.review, rule.hold))
  }

  /** With a rule, its two thresholds alone decide the route, and they are what is reported; every
      route is open to some score. */
  lemma RoutingIsExact(c: Config, p: string, s: string, x: real)
    requires ConfigOk(c)
    ensures var e, r := Evaluate(Some(x), Some(c), p, s), Resolve(c, p, s);
      && (e.Err? <==> r.Err?)
      && (r.Ok? ==>
            && 0.0 <= r.value.review < r.value.hold <= 1.0
            && e.value.review == r.value.review && e.value.hold == r.value.hold
            && (e.value.route == AutoRelease <==> x < r.value.review)
            && (e.value.route == ManualReview <==> r.value.review <= x < r.value.hold)
            && (e.value.route == BatchHold <==> x >= r.value.hold))
  {
    if Resolve(c, p, s).Ok? { ResolvesToMostSpecific(c, p, s); }
  }

  /** A higher score never gets a laxer route. */
  lemma RoutingIsMonotone(a: real, b: real, c: Config, p: string, s: string)
    requires ConfigOk(c) && a <= b && Resolve(c, p, s).Ok?
    ensures var x, y := Evaluate(Some(a), Some(c), p, s), Evaluate(Some(b), Some(c), p, s);
      x.Ok? && y.Ok? && Rank(x.value.route) <= Rank(y.value.route)
  {
    ResolvesToMostSpecific(c, p, s);
  }

  /** Deployment preflight: every canonical product at every station must resolve. */
  method Preflight(c: Config, products: seq<string>, stations: seq<string>) returns (ok: bool)
    requires ConfigOk(c)
    ensures ok <==> forall i, j | 0 <= i < |products| && 0 <= j < |stations| :: Resolve(c, products[i], stations[j]).Ok?
  {
    var i := 0;
    while i < |products|
      invariant 0 <= i <= |products|
      invariant forall m, n | 0 <= m < i && 0 <= n < |stations| :: Resolve(c, products[m], stations[n]).Ok?
    {
      var j := 0;
      while j < |stations|
        invariant 0 <= j <= |stations|
        invariant forall n | 0 <= n < j :: Resolve(c, products[i], stations[n]).Ok?
      {
        var r := ResolveBySorting(c, products[i], stations[j]);
        if r.Err? {
          return false;
        }
        j := j + 1;
      }
      i := i + 1;
    }
    return true;
  }
}
