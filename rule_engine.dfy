/**
 * The rule set and the evaluation of one snapshot against it. Each rule is one of three
 * kinds; `ApplyRule` is one pass of the rule loop of `evaluate` and `IssuesFor` is the
 * whole loop, both over the history as it stood before the snapshot is recorded.
 */
module RuleEngine {
  import opened Snapshots
  import opened Severity
  import opened Predicates
  import opened TrendDetection

  datatype Rule =
    | Regression(id: string, field: Field, multiplier: real,
                 messageTemplate: string, baseSeverity: Level)
    | Trend(id: string, field: Field, direction: Direction, threshold: real,
            messageTemplate: string, baseSeverity: Level)
    | Predicate(id: string, condition: Condition, confidenceThreshold: Option<real>,
                messageTemplate: string, baseSeverity: Level)

  /**
   * The values a rule's message template is filled with. Rendering them into text
   * (rounding and substitution) is not modelled.
   */
  datatype Reason =
    | RegressionReason(template: string, prevValue: real, currValue: real)
    | TrendReason(template: string, change: Change)
    | PredicateReason(template: string, confidence: real)

  datatype Issue = Issue(ruleId: string, confidence: real, severity: Level, reason: Reason)

  /** The default predicate-rule threshold. */
  const DEFAULT_CONFIDENCE_THRESHOLD: real := 0.6

  /** `rule.confidenceThreshold || 0.6`: a missing or zero threshold means 0.6. */
  function Threshold(configured: Option<real>): real
  {
    match configured
    case None => DEFAULT_CONFIDENCE_THRESHOLD
    case Some(t) => if t == 0.0 then DEFAULT_CONFIDENCE_THRESHOLD else t
  }

  /** `trend.change >= threshold` under IEEE rules: Infinity passes, NaN never does. */
  function ChangeAtLeast(change: Change, threshold: real): bool
  {
    match change
    case Percent(p) => p >= threshold
    case Infinite => true
    case NotANumber => false
  }

  /** `Math.min(trend.change / 100, 1.0)` for a change that is not NaN. */
  function TrendConfidence(change: Change): real
    requires !change.NotANumber?
  {
    match change
    case Percent(p) => if p / 100.0 < 1.0 then p / 100.0 else 1.0
    case Infinite => 1.0
  }

  /** One iteration of the rule loop in `evaluate`: the issue the rule raises, if any. */
  function ApplyRule(rule: Rule, hist: seq<Snapshot>, s: Snapshot): Option<Issue>
  {
    match rule
    case Regression(id, field, multiplier, template, base) =>
      if |hist| > 0 && FieldValue(s, field) > FieldValue(hist[|hist| - 1], field) * multiplier then
        var reason := RegressionReason(template, FieldValue(hist[|hist| - 1], field), FieldValue(s, field));
        Some(Issue(id, 1.0, Calibrate(base, 1.0, Boundary(s)), reason))
      else None
    case Trend(id, field, direction, threshold, template, base) =>
      if |hist| >= MIN_TREND_POINTS then
        var trend := DetectTrend(hist, field);
        if trend.direction == direction && ChangeAtLeast(trend.change, threshold) then
          var confidence := TrendConfidence(trend.change);
          Some(Issue(id, confidence, Calibrate(base, confidence, Boundary(s)), TrendReason(template, trend.change)))
        else None
      else None
    case Predicate(id, condition, configured, template, base) =>
      var confidence := Confidence(condition, hist);
      if Holds(condition, s) && confidence >= Threshold(configured) then
        Some(Issue(id, confidence, Calibrate(base, confidence, Boundary(s)), PredicateReason(template, confidence)))
      else None
  }

  function Emit(o: Option<Issue>): seq<Issue>
  {
    match o
    case None => []
    case Some(issue) => [issue]
  }

  /** The issues the rules raise for `s`, in rule order: the result of the loop in `evaluate`. */
  function IssuesFor(rules: seq<Rule>, hist: seq<Snapshot>, s: Snapshot): (r: seq<Issue>)
    ensures |r| <= |rules|
    ensures forall i :: 0 <= i < |r| ==> 0.0 <= r[i].confidence <= 1.0
    ensures forall i :: 0 <= i < |r| ==> exists j :: 0 <= j < |rules| && r[i].ruleId == rules[j].id
  {
    if rules == [] then []
    else
      var prefix := rules[..|rules| - 1];
      var last := rules[|rules| - 1];
      var earlier := IssuesFor(prefix, hist, s);
      IssueConfidenceInUnitInterval(last, hist, s);
      assert forall i :: 0 <= i < |earlier| ==> exists j :: 0 <= j < |rules| && earlier[i].ruleId == rules[j].id by {
        forall i | 0 <= i < |earlier|
          ensures exists j :: 0 <= j < |rules| && earlier[i].ruleId == rules[j].id
        {
          var j :| 0 <= j < |prefix| && earlier[i].ruleId == prefix[j].id;
          assert prefix[j] == rules[j];
        }
      }
      earlier + Emit(ApplyRule(last, hist, s))
  }

  /** Every issue a rule raises names that rule and has a confidence in [0, 1]. */
  lemma IssueConfidenceInUnitInterval(rule: Rule, hist: seq<Snapshot>, s: Snapshot)
    ensures ApplyRule(rule, hist, s).Some? ==>
              && 0.0 <= ApplyRule(rule, hist, s).value.confidence <= 1.0
              && ApplyRule(rule, hist, s).value.ruleId == rule.id
  {
  }

  /**
   * The rule loop is compositional: the issues of a rule list split at any point are the
   * issues of the first part followed by those of the second, so issues keep rule order
   * and each rule contributes at most one.
   */
  lemma {:induction false} IssuesForAppend(r1: seq<Rule>, r2: seq<Rule>, hist: seq<Snapshot>, s: Snapshot)
    ensures IssuesFor(r1 + r2, hist, s) == IssuesFor(r1, hist, s) + IssuesFor(r2, hist, s)
  {
    if r2 == [] {
      assert r1 + r2 == r1;
    } else {
      var w := r2[..|r2| - 1];
      IssuesForAppend(r1, w, hist, s);
      assert (r1 + r2)[..|r1 + r2| - 1] == r1 + w;
      assert (r1 + r2)[|r1 + r2| - 1] == r2[|r2| - 1];
    }
  }

  /** A single rule contributes exactly the issue `ApplyRule` gives, or nothing. */
  lemma IssuesForSingle(rule: Rule, hist: seq<Snapshot>, s: Snapshot)
    ensures IssuesFor([rule], hist, s) == Emit(ApplyRule(rule, hist, s))
    ensures |IssuesFor([rule], hist, s)| <= 1
  {
    assert [rule][..0] == [];
  }

  /**
   * A regression rule never fires without a previous snapshot; with one it fires exactly
   * when the current value strictly exceeds previous × multiplier, with confidence 1.
   */
  lemma RegressionFiresIff(id: string, field: Field, multiplier: real, template: string, base: Level,
                           hist: seq<Snapshot>, s: Snapshot)
    ensures var o := ApplyRule(Regression(id, field, multiplier, template, base), hist, s);
      && (hist == [] ==> o == None)
      && (hist != [] ==> (o.Some? <==> FieldValue(s, field) > FieldValue(hist[|hist| - 1], field) * multiplier))
      && (o.Some? ==> o.value.confidence == 1.0 && o.value.severity == Calibrate(base, 1.0, Boundary(s)))
  {
  }

  /** Previous average 10 and multiplier 2: a current average of 21 fires, 20 does not. */
  lemma RegressionStrictExample(prev: Snapshot, s: Snapshot)
    requires prev.avgTime == 10.0
    ensures ApplyRule(Regression("R", AvgTime, 2.0, "", HIGH), [prev], s.(avgTime := 21.0)).Some?
    ensures ApplyRule(Regression("R", AvgTime, 2.0, "", HIGH), [prev], s.(avgTime := 20.0)) == None
  {
  }

  /**
   * A trend rule fires exactly when the prior history holds at least five snapshots, the
   * detected direction is the configured one and the change reaches the threshold; its
   * confidence is min(change/100, 1).
   */
  lemma TrendFiresIff(id: string, field: Field, direction: Direction, threshold: real,
                      template: string, base: Level, hist: seq<Snapshot>, s: Snapshot)
    ensures var o := ApplyRule(Trend(id, field, direction, threshold, template, base), hist, s);
      var t := DetectTrend(hist, field);
      && (o.Some? <==> |hist| >= MIN_TREND_POINTS && t.direction == direction && ChangeAtLeast(t.change, threshold))
      && (o.Some? ==> !t.change.NotANumber? && o.value.confidence == TrendConfidence(t.change))
      && (o.Some? && t.change.Percent? && t.change.value <= 100.0 ==> o.value.confidence == t.change.value / 100.0)
      && (o.Some? ==> 0.0 <= o.value.confidence <= 1.0)
  {
  }

  /**
   * A predicate rule fires exactly when the current snapshot satisfies the condition and
   * the history's match ratio reaches the threshold (0.6 when missing or zero).
   */
  lemma PredicateFiresIff(id: string, condition: Condition, configured: Option<real>,
                          template: string, base: Level, hist: seq<Snapshot>, s: Snapshot)
    ensures var o := ApplyRule(Predicate(id, condition, configured, template, base), hist, s);
      && (o.Some? <==> Holds(condition, s) && Confidence(condition, hist) >= Threshold(configured))
      && (o.Some? ==> o.value.confidence == Confidence(condition, hist) && 0.0 <= o.value.confidence <= 1.0)
      && (configured == Some(0.0) ==> o == ApplyRule(Predicate(id, condition, None, template, base), hist, s))
  {
  }

  /** A predicate rule with an empty history has confidence 0, so it fires only if its threshold is not positive. */
  lemma PredicateNeedsHistory(id: string, condition: Condition, configured: Option<real>,
                              template: string, base: Level, s: Snapshot)
    requires Threshold(configured) > 0.0
    ensures ApplyRule(Predicate(id, condition, configured, template, base), [], s) == None
  {
  }

  /** A predicate rule whose operator is outside the vocabulary never fires. */
  lemma UnsupportedOperatorNeverFires(id: string, field: Field, symbol: string, v: real,
                                      configured: Option<real>, template: string, base: Level,
                                      hist: seq<Snapshot>, s: Snapshot)
    ensures ApplyRule(Predicate(id, Condition(field, Unsupported(symbol), v), configured, template, base), hist, s) == None
  {
  }

  /** Inline-wrapped snapshots only ever receive INFO issues. */
  lemma {:induction false} InlineIssuesAreInfo(rules: seq<Rule>, hist: seq<Snapshot>, s: Snapshot)
    requires Boundary(s) == INLINE
    ensures forall i :: 0 <= i < |IssuesFor(rules, hist, s)| ==> IssuesFor(rules, hist, s)[i].severity == INFO
  {
    if rules != [] {
      InlineIssuesAreInfo(rules[..|rules| - 1], hist, s);
    }
  }
}
