/** Predicate rules: the comparison built from a rule and the confidence it earns from history. */
module Predicates {
  import opened Snapshots

  /** The comparison operators of the rule vocabulary; any other symbol is `Unsupported`. */
  datatype Operator = Gt | Lt | Ge | Le | StrictEq | Unsupported(symbol: string)

  /** `{ field, operator, value }` of a predicate rule. */
  datatype Condition = Condition(field: Field, op: Operator, value: real)

  /** `buildPredicate(condition)(s)`: an unsupported operator is always false. */
  function Holds(c: Condition, s: Snapshot): bool
  {
    var x := FieldValue(s, c.field);
    match c.op
    case Gt => x > c.value
    case Lt => x < c.value
    case Ge => x >= c.value
    case Le => x <= c.value
    case StrictEq => x == c.value
    case Unsupported(_) => false
  }

  /** `historyList.filter(predicateFn).length` */
  function CountMatches(c: Condition, hist: seq<Snapshot>): (k: nat)
    ensures k <= |hist|
    ensures k == |hist| <==> forall i :: 0 <= i < |hist| ==> Holds(c, hist[i])
    ensures k == 0 <==> forall i :: 0 <= i < |hist| ==> !Holds(c, hist[i])
  {
    if hist == [] then 0
    else
      var last := hist[|hist| - 1];
      var k := CountMatches(c, hist[..|hist| - 1]) + (if Holds(c, last) then 1 else 0);
      assert forall i :: 0 <= i < |hist| - 1 ==> hist[..|hist| - 1][i] == hist[i];
      k
  }

  /**
   * `calculateConfidence`: the fraction of the prior snapshots that satisfy the condition,
   * and 0 for an empty history.
   */
  function Confidence(c: Condition, hist: seq<Snapshot>): (r: real)
    ensures 0.0 <= r <= 1.0
    ensures hist == [] ==> r == 0.0
    ensures r == 1.0 <==> hist != [] && forall i :: 0 <= i < |hist| ==> Holds(c, hist[i])
    ensures r == 0.0 <==> forall i :: 0 <= i < |hist| ==> !Holds(c, hist[i])
    ensures hist != [] ==> r * |hist| as real == CountMatches(c, hist) as real
  {
    if |hist| == 0 then 0.0
    else
      var k, n := CountMatches(c, hist) as real, |hist| as real;
      RatioBounds(k, n);
      k / n
  }

  lemma RatioBounds(k: real, n: real)
    requires 0.0 <= k <= n && n > 0.0
    ensures 0.0 <= k / n <= 1.0 && (k / n) * n == k
    ensures k / n == 1.0 <==> k == n
    ensures k / n == 0.0 <==> k == 0.0
  {
    assert (k / n) * n == k;
  }

  /** A condition with an operator outside the vocabulary matches nothing. */
  lemma UnsupportedNeverHolds(f: Field, symbol: string, v: real, hist: seq<Snapshot>, s: Snapshot)
    ensures !Holds(Condition(f, Unsupported(symbol), v), s)
    ensures Confidence(Condition(f, Unsupported(symbol), v), hist) == 0.0
  {
  }

  /** A snapshot with the given component and render count, all other fields zero. */
  function WithRenders(component: string, renders: real): Snapshot
  {
    Snapshot(component, renders, 0.0, 0.0, None)
  }

  /** `renders > 20` over the prior render counts [15, 25, 30, 10] has confidence 2/4. */
  lemma ConfidenceExample()
    ensures Confidence(Condition(Renders, Gt, 20.0),
                       [WithRenders("A", 15.0), WithRenders("A", 25.0),
                        WithRenders("A", 30.0), WithRenders("A", 10.0)]) == 0.5
  {
    var c := Condition(Renders, Gt, 20.0);
    var h := [WithRenders("A", 15.0), WithRenders("A", 25.0), WithRenders("A", 30.0), WithRenders("A", 10.0)];
    assert h[..3] == [WithRenders("A", 15.0), WithRenders("A", 25.0), WithRenders("A", 30.0)];
    assert h[..3][..2] == [WithRenders("A", 15.0), WithRenders("A", 25.0)];
    assert h[..3][..2][..1] == [WithRenders("A", 15.0)];
    assert CountMatches(c, h) == 2;
  }
}
