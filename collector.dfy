/**
 * The render-metric buffer filled by the profiler callback between two flushes: per component
 * id, the number of renders, their total duration and their longest duration.
 */
module Collector {
  import opened Snapshots

  datatype Metric = Metric(renders: nat, totalTime: real, maxTime: real)

  /** The metric a component starts from when it is first collected after a flush. */
  const Zero: Metric := Metric(0, 0.0, 0.0)

  /** `Math.max` */
  function Max(a: real, b: real): real
  {
    if a >= b then a else b
  }

  /** One `collectMetric` update: one more render, its duration added and maxed in. */
  function Accumulate(m: Metric, duration: real): Metric
  {
    Metric(m.renders + 1, m.totalTime + duration, Max(m.maxTime, duration))
  }

  /** The largest of 0 and the durations: the running maximum, which starts at 0. */
  function MaxFromZero(ds: seq<real>): real
  {
    if ds == [] then 0.0 else Max(MaxFromZero(ds[..|ds| - 1]), ds[|ds| - 1])
  }

  /**
   * The metric after collecting the durations `ds`, one by one, from Zero: it counts them,
   * adds them up and keeps their maximum.
   */
  function Collected(ds: seq<real>): (m: Metric)
    ensures m.renders == |ds|
    ensures m.totalTime == Sum(ds)
    ensures m.maxTime == MaxFromZero(ds)
  {
    if ds == [] then Zero else Accumulate(Collected(ds[..|ds| - 1]), ds[|ds| - 1])
  }

  /** The running maximum is at least 0 and every duration, and is 0 or one of them. */
  lemma {:induction false} MaxFromZeroIsMaximum(ds: seq<real>)
    ensures MaxFromZero(ds) >= 0.0
    ensures forall i :: 0 <= i < |ds| ==> ds[i] <= MaxFromZero(ds)
    ensures MaxFromZero(ds) == 0.0 || exists i :: 0 <= i < |ds| && ds[i] == MaxFromZero(ds)
  {
    if ds != [] {
      var w := ds[..|ds| - 1];
      MaxFromZeroIsMaximum(w);
      assert forall i :: 0 <= i < |w| ==> w[i] == ds[i];
    }
  }

  /** Collecting one more duration never lowers the maximum. */
  lemma MaxNeverDecreases(ds: seq<real>, d: real)
    ensures MaxFromZero(ds) <= MaxFromZero(ds + [d])
    ensures d <= MaxFromZero(ds + [d])
  {
    assert (ds + [d])[..|ds|] == ds;
  }

  lemma BoundStep(total: real, d: real, w: real, m: real, m': real)
    requires w >= 0.0 && total <= w * m && m <= m' && d <= m'
    ensures total + d <= (w + 1.0) * m'
  {
    assert w * m <= w * m';
  }

  lemma QuotientBound(total: real, n: real, m: real)
    requires n > 0.0 && total <= n * m
    ensures total / n <= m
  {
    assert total / n <= (n * m) / n;
  }

  lemma Unscale(a: real, n: real, total: real)
    requires n > 0.0
    ensures a * n == total <==> a == total / n
  {
  }

  /** The total never exceeds renders × maximum, so the flushed average is at most maxTime. */
  lemma {:induction false} TotalAtMostRendersTimesMax(ds: seq<real>)
    ensures Sum(ds) <= |ds| as real * MaxFromZero(ds)
    ensures ds != [] ==> Sum(ds) / |ds| as real <= MaxFromZero(ds)
  {
    if ds != [] {
      var w := ds[..|ds| - 1];
      TotalAtMostRendersTimesMax(w);
      MaxFromZeroIsMaximum(w);
      BoundStep(Sum(w), ds[|ds| - 1], |w| as real, MaxFromZero(w), MaxFromZero(ds));
      QuotientBound(Sum(ds), |ds| as real, MaxFromZero(ds));
    }
  }

  /**
   * The snapshot `flushMetrics` builds for one buffered id: its render count, the average
   * duration (the total divided back over the renders) and the maximum; no boundary type.
   */
  function ToSnapshot(component: string, m: Metric): (s: Snapshot)
    requires m.renders >= 1
    ensures s.component == component && s.renders == m.renders as real
    ensures s.avgTime * s.renders == m.totalTime
    ensures s.maxTime == m.maxTime && s.boundaryType == None
  {
    var n := m.renders as real;
    Unscale(m.totalTime / n, n, m.totalTime);
    Snapshot(component, n, m.totalTime / n, m.maxTime, None)
  }

  /**
   * `Array.from(buffer.entries()).map(...)`: one snapshot per buffered id, in buffer order.
   */
  function Project(ids: seq<string>, buffer: map<string, Metric>): (r: seq<Snapshot>)
    requires forall i :: 0 <= i < |ids| ==> ids[i] in buffer && buffer[ids[i]].renders >= 1
    ensures |r| == |ids|
    ensures forall i :: 0 <= i < |ids| ==> r[i] == ToSnapshot(ids[i], buffer[ids[i]])
  {
    if ids == [] then []
    else Project(ids[..|ids| - 1], buffer) + [ToSnapshot(ids[|ids| - 1], buffer[ids[|ids| - 1]])]
  }

  /** The module-level `buffer` Map, with the durations collected since the last flush. */
  class MetricBuffer {
    var ids: seq<string>
    var buffer: map<string, Metric>
    ghost var durations: map<string, seq<real>>

    /**
     * Each buffered id appears once in `ids`, has at least one collected duration, and
     * holds exactly the metric those durations accumulate to.
     */
    ghost predicate Valid()
      reads this
    {
      && Distinct(ids)
      && (forall id :: id in ids <==> id in buffer)
      && buffer.Keys == durations.Keys
      && (forall id :: id in buffer ==> durations[id] != [] && buffer[id] == Collected(durations[id]))
    }

    constructor ()
      ensures Valid() && ids == [] && buffer == map[]
    {
      ids := [];
      buffer := map[];
      durations := map[];
    }

    /** `collectMetric(id, phase, actualDuration)`; the phase is not used. */
    method CollectMetric(id: string, phase: string, actualDuration: real)
      requires Valid()
      modifies this
      ensures Valid()
      ensures var before := if id in old(buffer) then old(buffer)[id] else Zero;
        buffer == old(buffer)[id := Accumulate(before, actualDuration)]
      ensures durations == old(durations)[id := (if id in old(durations) then old(durations)[id] else []) + [actualDuration]]
      ensures ids == if id in old(buffer) then old(ids) else old(ids) + [id]
      ensures id !in old(buffer) ==> buffer[id] == Metric(1, actualDuration, Max(0.0, actualDuration))
      ensures id in old(buffer) ==> buffer[id].renders == old(buffer)[id].renders + 1
      ensures id in old(buffer) ==> buffer[id].maxTime >= old(buffer)[id].maxTime
    {
      var metric := if id in buffer then buffer[id] else Zero;
      ghost var before, ds := metric, if id in durations then durations[id] else [];
      assert before == Collected(ds);
      metric := metric.(renders := metric.renders + 1);
      metric := metric.(totalTime := metric.totalTime + actualDuration);
      metric := metric.(maxTime := Max(metric.maxTime, actualDuration));
      assert metric == Accumulate(before, actualDuration);
      if id !in buffer {
        ids := ids + [id];
      }
      buffer := buffer[id := metric];
      durations := durations[id := ds + [actualDuration]];
      assert (ds + [actualDuration])[..|ds|] == ds;
    }

    /** `flushMetrics()`: the snapshots of every buffered id, after which the buffer is empty. */
    method FlushMetrics() returns (snapshot: seq<Snapshot>)
      requires Valid()
      modifies this
      ensures Valid()
      ensures snapshot == Project(old(ids), old(buffer))
      ensures ids == [] && buffer == map[] && durations == map[]
    {
      snapshot := Project(ids, buffer);
      ids := [];
      buffer := map[];
      durations := map[];
    }
  }

  /**
   * A flushed snapshot's average and maximum are the mean and the running maximum of the
   * durations collected for that id since the previous flush, and the average never exceeds
   * the maximum.
   */
  lemma FlushedMatchesDurations(b: MetricBuffer, i: nat)
    requires b.Valid() && i < |b.ids|
    ensures var s := Project(b.ids, b.buffer)[i]; var ds := b.durations[b.ids[i]];
      && s.renders == |ds| as real
      && s.avgTime == Sum(ds) / |ds| as real
      && s.maxTime == MaxFromZero(ds)
      && s.avgTime <= s.maxTime
  {
    var id := b.ids[i];
    var ds, m := b.durations[id], b.buffer[id];
    var s := Project(b.ids, b.buffer)[i];
    assert m == Collected(ds);
    assert s == ToSnapshot(id, m);
    TotalAtMostRendersTimesMax(ds);
    Unscale(s.avgTime, s.renders, m.totalTime);
  }

  /** Two flushes in a row: the second returns nothing. */
  method FlushTwice(b: MetricBuffer) returns (first: seq<Snapshot>, second: seq<Snapshot>)
    requires b.Valid()
    modifies b
    ensures |first| == |old(b.ids)| && second == []
  {
    first := b.FlushMetrics();
    second := b.FlushMetrics();
  }
}
