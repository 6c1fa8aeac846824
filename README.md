# PerfGuard anomaly analysis, modelled in Dafny

PerfGuard watches React components at run time. A profiler callback feeds render durations
into a **collector**, which keeps per-component counts, totals and maxima and periodically
**flushes** them as snapshots (component, renders, average time, maximum time). The
snapshots go to an **analysis worker**. The worker keeps a bounded history of the last ten
snapshots per component and evaluates a configurable **rule set** against each new
snapshot before recording it. There are three kinds of rule:

- **regression**: the value jumped past previous × multiplier;
- **trend**: a least-squares slope over at least five prior snapshots, with its percent change;
- **predicate**: a condition that held on the current snapshot and on enough of the history.

Each raised issue carries a confidence. Its severity is calibrated from the rule's base
severity, that confidence and the component's boundary type (HOC or INLINE). The worker
speaks a small message protocol: `INIT_RULES`, `EVALUATE`, `RESET` and `GET_STATS`. A
legacy worker classifies metrics against two fixed thresholds.

Modules, one per concern:

| file | module | models |
|---|---|---|
| `snapshots.dfy` | `Snapshots` | the snapshot record, its numeric fields, the boundary default |
| `severity.dfy` | `Severity` | `downgradeSeverity` |
| `predicates.dfy` | `Predicates` | `buildPredicate`, `calculateConfidence` |
| `trend_detection.dfy` | `TrendDetection` | `detectTrend` |
| `history_store.dfy` | `HistoryStore` | the `history` map and `record` as values |
| `rule_engine.dfy` | `RuleEngine` | the rule loop of `evaluate` |
| `session.dfy` | `Session` | the worker state as a class; `record`, `evaluate`, `onmessage` |
| `collector.dfy` | `Collector` | the metric buffer as a class; `collectMetric`, `flushMetrics` |
| `analyzer.dfy` | `Analyzer` | the legacy threshold classifier |

The worker's mutable state (the `history` Map and the `RULES` array) and the collector's
`buffer` Map are classes, `Session.AnalysisSession` and `Collector.MetricBuffer`. A JS Map
keeps insertion order, so each class holds its keys in a sequence beside the map. Each
method is proved against a pure function of the old state: `HistoryStore.Recorded`,
`RuleEngine.IssuesFor`, `Session.BatchRun` and `Collector.Project`. The lemmas are
stated about those functions.

Numbers are mathematical reals. JavaScript's non-finite values appear where the code can
produce them, in the percent change of `detectTrend`. That function (createWorker.ts:76-79)
divides by the mean of the values with no guard:

- when the mean is 0 and the slope is 0, the change is NaN (`TrendDetection.Change.NotANumber`);
- when the mean is 0 and the slope is not, the change is infinite.

Under IEEE comparison NaN never reaches a trend threshold and Infinity always does; the
model reproduces both.

`downgradeSeverity` (createWorker.ts:29-34) does not only lower a severity:

- for a boundary other than INLINE, it turns an INFO or LOW base into LOW or MEDIUM when
  confidence is below 0.85 (`Severity.CalibrateMayRaiseLowBase`);
- it never raises a MEDIUM or higher base (`Severity.CalibrateNeverRaisesHighBase`).

## Model

| member | source | states |
|---|---|---|
| Severity.Calibrate | packages/react-pref-guard/src/worker/createWorker.ts:29-34 | `downgradeSeverity`: INLINE gives INFO, then confidence below 0.7 gives LOW, below 0.85 MEDIUM, else the base; specified by CalibrateRange, CalibrateNeverRaisesHighBase, CalibrateMayRaiseLowBase and CalibrateMonotoneInConfidence |
| Severity.CalibrateRange | packages/react-pref-guard/src/worker/createWorker.ts:29-34 | calibration yields INFO, LOW, MEDIUM or the base severity; INLINE always gives INFO; HOC with confidence at least 0.85 keeps the base |
| Severity.CalibrateNeverRaisesHighBase | packages/react-pref-guard/src/worker/createWorker.ts:29-34 | for a base of MEDIUM or above, the calibrated severity never ranks above the base |
| Severity.CalibrateMayRaiseLowBase | packages/react-pref-guard/src/worker/createWorker.ts:31-32 | an INFO base at confidence 0.5 becomes LOW and a LOW base at 0.8 becomes MEDIUM: calibration can raise low bases |
| Severity.CalibrateMonotoneInConfidence | packages/react-pref-guard/src/worker/createWorker.ts:31-33 | for a fixed base and boundary, higher confidence never gives a lower-ranked severity when the base is MEDIUM or above |
| Predicates.Holds | packages/react-pref-guard/src/worker/createWorker.ts:36-45 | `buildPredicate`: the five comparison operators on the chosen field, and false for any other operator; specified by UnsupportedNeverHolds, CountMatches and Confidence |
| Predicates.CountMatches | packages/react-pref-guard/src/worker/createWorker.ts:25 | the match count is at most the history length, equals it iff every snapshot matches, and is 0 iff none does |
| Predicates.Confidence | packages/react-pref-guard/src/worker/createWorker.ts:23-27 | the confidence lies in [0,1]; it is 0 for an empty history; it is 1 iff the history is nonempty and all match; it is 0 iff none match; confidence × length is the match count |
| Predicates.UnsupportedNeverHolds | packages/react-pref-guard/src/worker/createWorker.ts:43 | a condition with an operator outside > < >= <= === holds of no snapshot and has confidence 0 |
| Predicates.ConfidenceExample | packages/react-pref-guard/src/worker/createWorker.ts:23-27 | renders > 20 over renders 15, 25, 30, 10 has confidence 0.5 |
| TrendDetection.SumXClosed | packages/react-pref-guard/src/worker/createWorker.ts:70 | twice the index sum is n(n−1) |
| TrendDetection.SumX2Closed | packages/react-pref-guard/src/worker/createWorker.ts:73 | six times the sum of squared indices is (n−1)n(2n−1) |
| TrendDetection.SpreadClosed | packages/react-pref-guard/src/worker/createWorker.ts:75 | the slope denominator is n²(n²−1)/12, positive for two or more points, so the slope is always defined |
| TrendDetection.Slope | packages/react-pref-guard/src/worker/createWorker.ts:75 | the slope is positive or negative exactly when the covariance numerator is |
| TrendDetection.DetectTrend | packages/react-pref-guard/src/worker/createWorker.ts:62-85 | fewer than five points gives stable with change 0; otherwise the direction is increasing, decreasing or stable exactly as the covariance is positive, negative or zero; a finite change is non-negative; a NaN change only comes with a stable direction and an infinite one never does |
| TrendDetection.CovarianceStep | packages/react-pref-guard/src/worker/createWorker.ts:70-75 | appending a value y to a series adds to the covariance numerator the index-weighted gap between y and the earlier values |
| TrendDetection.IncreasingCovariancePositive | packages/react-pref-guard/src/worker/createWorker.ts:70-75 | a strictly increasing series of two or more values has a positive covariance numerator |
| TrendDetection.IncreasingSeriesTrendsUp | packages/react-pref-guard/src/worker/createWorker.ts:62-84 | five or more non-negative, strictly increasing values are detected as increasing with a positive finite change |
| TrendDetection.ConstantSeriesIsStable | packages/react-pref-guard/src/worker/createWorker.ts:62-84 | a constant series is stable; its change is 0 when the constant is nonzero and NaN when it is 0 |
| HistoryStore.Recorded | packages/react-pref-guard/src/worker/createWorker.ts:16-21 | `record` on the store value; specified by RecordBoundedFifo, RecordAllKeepsNewest and EleventhEvictsFirst |
| HistoryStore.RecordBoundedFifo | packages/react-pref-guard/src/worker/createWorker.ts:16-21 | recording keeps the store well formed; the component's list ends with the new snapshot and holds 1 to 10 entries; below 10 the snapshot is appended; at 10 the oldest is dropped; other components are unchanged; a new component is appended to the key order |
| HistoryStore.RecordAllKeepsNewest | packages/react-pref-guard/src/worker/createWorker.ts:9-21 | after recording a run of snapshots that all belong to one component, its list is the last ten of its old list and the run put together |
| HistoryStore.EleventhEvictsFirst | packages/react-pref-guard/src/worker/createWorker.ts:16-21 | eleven snapshots of a new component leave the last ten, the first evicted |
| HistoryStore.StatsBound | packages/react-pref-guard/src/worker/createWorker.ts:229-234 | for a well-formed store the number of tracked components equals the number of keys, and the snapshot total is at most ten per component |
| RuleEngine.ApplyRule | packages/react-pref-guard/src/worker/createWorker.ts:98-161 | one pass of the rule loop; specified by RegressionFiresIff, TrendFiresIff, PredicateFiresIff, IssueConfidenceInUnitInterval, PredicateNeedsHistory and UnsupportedOperatorNeverFires |
| RuleEngine.IssuesFor | packages/react-pref-guard/src/worker/createWorker.ts:96-162 | the rule loop raises at most one issue per rule, each with a confidence in [0,1] and naming one of the rules |
| RuleEngine.IssueConfidenceInUnitInterval | packages/react-pref-guard/src/worker/createWorker.ts:109-158 | any issue a rule raises names that rule and has a confidence in [0,1] |
| RuleEngine.IssuesForAppend | packages/react-pref-guard/src/worker/createWorker.ts:96-162 | the issues of two concatenated rule lists are the issues of the first followed by those of the second (rule order is kept) |
| RuleEngine.IssuesForSingle | packages/react-pref-guard/src/worker/createWorker.ts:96-162 | a single rule contributes its own issue or nothing |
| RuleEngine.RegressionFiresIff | packages/react-pref-guard/src/worker/createWorker.ts:99-117 | a regression rule is silent without a previous snapshot; otherwise it fires iff the value strictly exceeds previous × multiplier, with confidence 1 and the severity calibrated at confidence 1 |
| RuleEngine.RegressionStrictExample | packages/react-pref-guard/src/worker/createWorker.ts:103 | previous 10 and multiplier 2: 21 fires and 20 does not |
| RuleEngine.TrendFiresIff | packages/react-pref-guard/src/worker/createWorker.ts:120-141 | a trend rule fires iff there are at least five prior snapshots, the detected direction matches and the change reaches the threshold; its confidence is min(change/100, 1) and lies in [0,1] |
| RuleEngine.PredicateFiresIff | packages/react-pref-guard/src/worker/createWorker.ts:144-160 | a predicate rule fires iff the current snapshot satisfies the condition and the history's match ratio reaches the threshold; a zero threshold acts as the default 0.6 |
| RuleEngine.PredicateNeedsHistory | packages/react-pref-guard/src/worker/createWorker.ts:144-149 | with an empty history and a positive threshold a predicate rule never fires |
| RuleEngine.UnsupportedOperatorNeverFires | packages/react-pref-guard/src/worker/createWorker.ts:43 | a predicate rule with an unsupported operator never fires |
| RuleEngine.InlineIssuesAreInfo | packages/react-pref-guard/src/worker/createWorker.ts:29-30 | every issue raised for an INLINE snapshot has severity INFO |
| Session.AnyCriticalAppend | packages/react-pref-guard/src/worker/createWorker.ts:204-205 | appending a result flags the batch iff it was already flagged or the new result is critical |
| Session.AddResult | packages/react-pref-guard/src/worker/createWorker.ts:191-210 | a snapshot with issues adds exactly its result entry and one without adds nothing; the batch flag becomes set iff it was set or one of the issues is CRITICAL |
| Session.BatchRunSingle | packages/react-pref-guard/src/worker/createWorker.ts:188-210 | a one-snapshot batch evaluates the snapshot against the given history, then records it |
| Session.BatchRun | packages/react-pref-guard/src/worker/createWorker.ts:188-211 | the EVALUATE loop on values; specified by BatchRunFacts, BatchCriticalIff, BatchRunAppend, EmptyRuleSetYieldsNothing and SameBatchSeesEarlier |
| Session.BatchRunStep | packages/react-pref-guard/src/worker/createWorker.ts:188-210 | one loop iteration extends the results by the snapshot's entry and records the snapshot |
| Session.BatchRunFacts | packages/react-pref-guard/src/worker/createWorker.ts:184-211 | a batch records every snapshot in order, returns at most one result per snapshot and only results with issues, each marked critical iff one of its issues is CRITICAL |
| Session.BatchCriticalIff | packages/react-pref-guard/src/worker/createWorker.ts:203-207 | the batch is flagged critical iff some returned issue has severity CRITICAL |
| Session.EmptyRuleSetYieldsNothing | packages/react-pref-guard/src/worker/createWorker.ts:184-211 | with no rules a batch returns nothing and no flag, yet still records every snapshot |
| Session.BatchRunAppend | packages/react-pref-guard/src/worker/createWorker.ts:188-211 | evaluating a + b in one batch equals evaluating a, then b against the history a left |
| Session.SameBatchSeesEarlier | packages/react-pref-guard/src/worker/createWorker.ts:188-189 | a later snapshot in a batch is evaluated against a history that includes the earlier one |
| Session.FirstSnapshotRaisesNothing | packages/react-pref-guard/src/worker/createWorker.ts:99-117 | rule R1 (regression on avgTime, ×1.5, base HIGH) raises nothing for a component with no history, and the snapshot is recorded |
| Session.SecondSnapshotRegresses | packages/react-pref-guard/src/worker/createWorker.ts:184-211 | with previous average 10, a batch with average 16 (above 15) returns one result for "A" holding one HIGH issue of confidence 1, not flagged critical |
| Session.EndToEndRegression | packages/react-pref-guard/src/worker/createWorker.ts:91-166 | two batches against R1: a first snapshot of 10 raises nothing and a second of 16 raises one HIGH issue with confidence 1, with no critical flag |
| Session.AnalysisSession.constructor | packages/react-pref-guard/src/worker/createWorker.ts:8-10 | a new worker has no rules and an empty history |
| Session.AnalysisSession.Record | packages/react-pref-guard/src/worker/createWorker.ts:16-21 | the new history is the old one with the snapshot recorded as a bounded FIFO; rules unchanged |
| Session.AnalysisSession.Evaluate | packages/react-pref-guard/src/worker/createWorker.ts:91-166 | the issues are those the rules raise against the history as it was before the call; the snapshot is then recorded once |
| Session.AnalysisSession.InitRules | packages/react-pref-guard/src/worker/createWorker.ts:176-181 | the rule set is replaced and its size returned; the history is untouched |
| Session.AnalysisSession.EvaluateBatch | packages/react-pref-guard/src/worker/createWorker.ts:184-220 | the results and new history are those of the batch function on the old history, and the flag is set iff some result is critical |
| Session.AnalysisSession.Reset | packages/react-pref-guard/src/worker/createWorker.ts:223-226 | the history is emptied and the rules kept |
| Session.AnalysisSession.GetStats | packages/react-pref-guard/src/worker/createWorker.ts:229-236 | reports the number of tracked components, the snapshot total (at most ten per component) and the rule count |
| Session.AnalysisSession.HandleMessage | packages/react-pref-guard/src/worker/createWorker.ts:172-237 | each of the four message types gets its response and state change; a type outside those four (the `UnknownType` of `OtherRequest`) gets no response and changes nothing |
| Collector.Accumulate | packages/react-pref-guard/src/collector.ts:20-22 | the update of one `collectMetric` call; specified through Collected, MaxNeverDecreases and TotalAtMostRendersTimesMax |
| Collector.Collected | packages/react-pref-guard/src/collector.ts:14-22 | collecting a list of durations from zero counts them, sums them and keeps their running maximum |
| Collector.MaxFromZeroIsMaximum | packages/react-pref-guard/src/collector.ts:22 | the running maximum is non-negative, at least every duration, and either 0 or one of them |
| Collector.MaxNeverDecreases | packages/react-pref-guard/src/collector.ts:22 | one more duration never lowers the maximum and is at most the new maximum |
| Collector.TotalAtMostRendersTimesMax | packages/react-pref-guard/src/collector.ts:20-22 | the total is at most renders × maximum, so the average never exceeds the maximum |
| Collector.ToSnapshot | packages/react-pref-guard/src/collector.ts:29-34 | a flushed entry carries the render count, an average that times the render count gives the total, and the maximum |
| Collector.Project | packages/react-pref-guard/src/collector.ts:28-35 | one snapshot per buffered id, in buffer order |
| Collector.MetricBuffer.constructor | packages/react-pref-guard/src/collector.ts:7 | the buffer starts empty |
| Collector.MetricBuffer.CollectMetric | packages/react-pref-guard/src/collector.ts:9-25 | only the id's entry changes: it starts from zero if new, gains one render, adds the duration to the total and maxes it in; a new id goes to the end of the order |
| Collector.MetricBuffer.FlushMetrics | packages/react-pref-guard/src/collector.ts:27-39 | returns the snapshots of the buffer as it was, then leaves it empty |
| Collector.FlushedMatchesDurations | packages/react-pref-guard/src/collector.ts:27-35 | a flushed snapshot's average is the mean and its maximum the running maximum of the durations collected for that id since the last flush, and the average is at most the maximum |
| Collector.FlushTwice | packages/react-pref-guard/src/collector.ts:37-38 | a second flush right after a first returns nothing |
| Analyzer.Classify | packages/react-pref-guard/src/worker/analyzer.worker.ts:5-19 | the re-render tag is present iff renders > 20 and the slow tag iff avgTime > 16, in that order, with no other tags; risk is LOW iff there is no tag; the metric is kept |
| Analyzer.ClassifyAll | packages/react-pref-guard/src/worker/analyzer.worker.ts:4-20 | one entry per metric, in order, each HIGH risk iff renders > 20 or avgTime > 16 |

## Left out

- `interpolateMessage` (createWorker.ts:47-56): issue reasons are kept as the template plus the values it is filled with (`RuleEngine.Reason`). Substitution, `toFixed` and `Math.round` formatting are not modelled.
- `console.log`, `self.postMessage`, `Date.now()` (the `timestamp` of RESULTS) and the construction of the worker from a source string are I/O. The handler returns its response as a value instead of posting it.
- Field and direction names: rules and conditions name one of the three numeric snapshot fields and one of the three directions as enumerations. A rule naming an unknown field (which yields `undefined` in JavaScript) is not modelled.
- Rule kinds: each rule is exactly one of regression, trend or predicate. A JavaScript rule object carrying several kind fields at once is not modelled. The JS fall-through from a regression without a previous snapshot, or a trend with too little history, to the next kind check only matters for such objects.
- Floating point: arithmetic is exact real arithmetic. Rounding and overflow are not modelled. The only non-finite values modelled are those of the trend's percent change. A NaN or infinite snapshot field and a NaN confidence threshold are not modelled.
- Session.AnalysisSession.EvaluateBatch: a result without critical issues has `hasCritical` false, where the JavaScript object leaves the property unset.
- Analyzer.Classify: the input metric is a snapshot record. The object spread copies whatever other properties the message carried, and those are not modelled. The risk strings "LOW" and "HIGH" are the enumeration `Analyzer.Risk`.
- Collector.MetricBuffer.CollectMetric: the unused `phase` argument is accepted and ignored, as in the source. The mutation of the shared metric object is modelled as replacing the map entry.
- Collector.MetricBuffer: the per-id durations since the last flush are ghost state, which ties the buffered totals to the durations that produced them.
- Where snapshots come from (the profiler wrapper and provider components) is not part of this model.
