/** The legacy threshold classifier: tags each metric with fixed-threshold issues and a risk. */
module Analyzer {
  import opened Snapshots

  datatype Risk = LowRisk | HighRisk

  const EXCESSIVE_RERENDERS: string := "Excessive re-renders"
  const SLOW_RENDER: string := "Slow render (>16ms)"

  /** The input metric with its issues and its risk level added. */
  datatype Classified = Classified(metric: Snapshot, issues: seq<string>, risk: Risk)

  /** The classification of one metric inside `metrics.map`. */
  function Classify(m: Snapshot): (r: Classified)
    ensures r.metric == m
    ensures EXCESSIVE_RERENDERS in r.issues <==> m.renders > 20.0
    ensures SLOW_RENDER in r.issues <==> m.avgTime > 16.0
    ensures |r.issues| <= 2
    ensures |r.issues| == 2 ==> r.issues == [EXCESSIVE_RERENDERS, SLOW_RENDER]
    ensures forall i :: 0 <= i < |r.issues| ==> r.issues[i] in {EXCESSIVE_RERENDERS, SLOW_RENDER}
    ensures r.risk == LowRisk <==> r.issues == []
  {
    var rerenders := if m.renders > 20.0 then [EXCESSIVE_RERENDERS] else [];
    var slow := if m.avgTime > 16.0 then [SLOW_RENDER] else [];
    var issues := rerenders + slow;
    assert EXCESSIVE_RERENDERS != SLOW_RENDER;
    Classified(m, issues, if |issues| == 0 then LowRisk else HighRisk)
  }

  /** `metrics.map(...)`: one classified entry per metric, in the same order. */
  function ClassifyAll(metrics: seq<Snapshot>): (r: seq<Classified>)
    ensures |r| == |metrics|
    ensures forall i :: 0 <= i < |metrics| ==> r[i].metric == metrics[i]
    ensures forall i :: 0 <= i < |metrics| ==>
              (r[i].risk == HighRisk <==> metrics[i].renders > 20.0 || metrics[i].avgTime > 16.0)
  {
    seq(|metrics|, i requires 0 <= i < |metrics| => Classify(metrics[i]))
  }
}
