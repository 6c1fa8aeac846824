/**
 * The analysis session: the loaded rule set, the history store and the message protocol
 * (`INIT_RULES`, `EVALUATE`, `RESET`, `GET_STATS`) that drives them.
 */
module Session {
  import opened Snapshots
  import opened Severity
  import opened HistoryStore
  import opened RuleEngine

  datatype RenderMetrics = RenderMetrics(renders: real, avgTime: real, maxTime: real)

  /** One entry of a `RESULTS` response: a snapshot that raised at least one issue. */
  datatype ComponentResult = ComponentResult(
    component: string,
    boundaryType: BoundaryType,
    metrics: RenderMetrics,
    issues: seq<Issue>,
    hasCritical: bool)

  /** The message types the handler answers. */
  const KNOWN_TYPES: set<string> := {"INIT_RULES", "EVALUATE", "RESET", "GET_STATS"}

  /** A message type the handler does not know. */
  type UnknownType = t: string | t !in KNOWN_TYPES witness ""

  /** A message, decoded by its type: a known type always maps to its own constructor. */
  datatype Request =
    | InitRulesRequest(rules: seq<Rule>)
    | EvaluateRequest(snapshots: seq<Snapshot>)
    | ResetRequest
    | GetStatsRequest
    | OtherRequest(kind: UnknownType)

  datatype Response =
    | InitSuccess(count: nat)
    | Results(data: seq<ComponentResult>, hasCritical: bool)
    | ResetSuccess
    | Stats(componentsTracked: nat, totalSnapshots: nat, rulesLoaded: nat)

  /** `issues.some(i => i.severity === 'CRITICAL')` */
  predicate HasCriticalIssue(issues: seq<Issue>)
  {
    exists i :: 0 <= i < |issues| && issues[i].severity == CRITICAL
  }

  /** Whether any result of a batch carries a critical issue. */
  predicate AnyCritical(results: seq<ComponentResult>)
  {
    exists i :: 0 <= i < |results| && results[i].hasCritical
  }

  /** The response entry for one evaluated snapshot: none when it raised no issue. */
  function ResultFor(s: Snapshot, issues: seq<Issue>): seq<ComponentResult>
  {
    if |issues| == 0 then []
    else [ComponentResult(s.component, Boundary(s), RenderMetrics(s.renders, s.avgTime, s.maxTime),
                          issues, HasCriticalIssue(issues))]
  }

  /**
   * The body of the `EVALUATE` loop after `evaluate`: a snapshot with issues adds its
   * result entry, flagged and flagging the batch when one of its issues is CRITICAL.
   */
  method AddResult(results: seq<ComponentResult>, hasCritical: bool, s: Snapshot, issues: seq<Issue>)
    returns (results': seq<ComponentResult>, hasCritical': bool)
    requires hasCritical == AnyCritical(results)
    ensures results' == results + ResultFor(s, issues)
    ensures hasCritical' == AnyCritical(results')
    ensures hasCritical' <==> hasCritical || HasCriticalIssue(issues)
  {
    results', hasCritical' := results, hasCritical;
    if |issues| > 0 {
      var critical := HasCriticalIssue(issues);
      if critical {
        hasCritical' := true;
      }
      var entry := ComponentResult(s.component, Boundary(s), RenderMetrics(s.renders, s.avgTime, s.maxTime),
                                   issues, critical);
      AnyCriticalAppend(results', entry);
      results' := results' + [entry];
    }
  }

  /** Appending one result flags the batch iff it was flagged or the new result is. */
  lemma AnyCriticalAppend(results: seq<ComponentResult>, entry: ComponentResult)
    ensures AnyCritical(results + [entry]) <==> AnyCritical(results) || entry.hasCritical
  {
    assert (results + [entry])[|results|] == entry;
    if AnyCritical(results) {
      var k :| 0 <= k < |results| && results[k].hasCritical;
      assert (results + [entry])[k] == results[k];
    }
    if AnyCritical(results + [entry]) && !entry.hasCritical {
      var k :| 0 <= k < |results| + 1 && (results + [entry])[k].hasCritical;
      assert results[k] == (results + [entry])[k];
    }
  }

  datatype BatchState = BatchState(results: seq<ComponentResult>, store: Store)

  /**
   * The `EVALUATE` loop over a payload: each snapshot is evaluated against the history left
   * by the snapshots before it, then recorded.
   */
  function BatchRun(rules: seq<Rule>, st: Store, snaps: seq<Snapshot>): BatchState
  {
    if snaps == [] then BatchState([], st)
    else
      var prior := BatchRun(rules, st, snaps[..|snaps| - 1]);
      var s := snaps[|snaps| - 1];
      var issues := IssuesFor(rules, Get(prior.store, s.component), s);
      BatchState(prior.results + ResultFor(s, issues), Recorded(prior.store, s))
  }

  /** One step of the batch loop, stated on a prefix of the payload. */
  lemma BatchRunStep(rules: seq<Rule>, st: Store, payload: seq<Snapshot>, i: nat)
    requires i < |payload|
    ensures var prior := BatchRun(rules, st, payload[..i]);
      var s := payload[i];
      BatchRun(rules, st, payload[..i + 1]) ==
        BatchState(prior.results + ResultFor(s, IssuesFor(rules, Get(prior.store, s.component), s)),
                   Recorded(prior.store, s))
  {
    assert payload[..i + 1][..i] == payload[..i];
  }

  /**
   * A batch records every snapshot once and in order, returns at most one result per
   * snapshot, only results with issues, and flags each result critical exactly when one
   * of its issues is CRITICAL.
   */
  lemma {:induction false} BatchRunFacts(rules: seq<Rule>, st: Store, snaps: seq<Snapshot>)
    ensures BatchRun(rules, st, snaps).store == RecordAll(st, snaps)
    ensures |BatchRun(rules, st, snaps).results| <= |snaps|
    ensures forall i :: 0 <= i < |BatchRun(rules, st, snaps).results| ==>
              |BatchRun(rules, st, snaps).results[i].issues| > 0 &&
              (BatchRun(rules, st, snaps).results[i].hasCritical <==>
                 HasCriticalIssue(BatchRun(rules, st, snaps).results[i].issues))
  {
    if snaps != [] {
      BatchRunFacts(rules, st, snaps[..|snaps| - 1]);
    }
  }

  /** The batch flag is set iff some returned issue is CRITICAL. */
  lemma BatchCriticalIff(rules: seq<Rule>, st: Store, snaps: seq<Snapshot>)
    ensures var results := BatchRun(rules, st, snaps).results;
      AnyCritical(results) <==>
        exists i, j :: 0 <= i < |results| && 0 <= j < |results[i].issues| &&
                       results[i].issues[j].severity == CRITICAL
  {
    BatchRunFacts(rules, st, snaps);
  }

  /** With no rules loaded a batch returns nothing, flags nothing, and still records history. */
  lemma {:induction false} EmptyRuleSetYieldsNothing(st: Store, snaps: seq<Snapshot>)
    ensures BatchRun([], st, snaps).results == []
    ensures !AnyCritical(BatchRun([], st, snaps).results)
    ensures BatchRun([], st, snaps).store == RecordAll(st, snaps)
  {
    BatchRunFacts([], st, snaps);
    if snaps != [] {
      EmptyRuleSetYieldsNothing(st, snaps[..|snaps| - 1]);
    }
  }

  /**
   * Payload order is kept: evaluating a + b in one batch gives a's results followed by the
   * results of b evaluated against the history a left behind.
   */
  lemma {:induction false} BatchRunAppend(rules: seq<Rule>, st: Store, a: seq<Snapshot>, b: seq<Snapshot>)
    ensures var first := BatchRun(rules, st, a);
      var second := BatchRun(rules, first.store, b);
      BatchRun(rules, st, a + b) == BatchState(first.results + second.results, second.store)
  {
    if b == [] {
      assert a + b == a;
    } else {
      var w, y := b[..|b| - 1], b[|b| - 1];
      BatchRunAppend(rules, st, a, w);
      var first := BatchRun(rules, st, a);
      var mid := BatchRun(rules, first.store, w);
      var n := a + b;
      assert n[..|n| - 1] == a + w && n[|n| - 1] == y;
      var tail := ResultFor(y, IssuesFor(rules, Get(mid.store, y.component), y));
      BatchRunLast(rules, st, n);
      BatchRunLast(rules, first.store, b);
      ConcatAssociative(first.results, mid.results, tail);
    }
  }

  lemma ConcatAssociative<T>(x: seq<T>, y: seq<T>, z: seq<T>)
    ensures (x + y) + z == x + (y + z)
  {
  }

  /** A one-snapshot batch evaluates it against the given history, then records it. */
  lemma BatchRunSingle(rules: seq<Rule>, st: Store, s: Snapshot)
    ensures BatchRun(rules, st, [s]) ==
              BatchState(ResultFor(s, IssuesFor(rules, Get(st, s.component), s)), Recorded(st, s))
  {
    assert [s][..0] == [];
    assert BatchRun(rules, st, []) == BatchState([], st);
    assert [] + ResultFor(s, IssuesFor(rules, Get(st, s.component), s)) ==
           ResultFor(s, IssuesFor(rules, Get(st, s.component), s));
  }

  lemma BatchRunLast(rules: seq<Rule>, st: Store, snaps: seq<Snapshot>)
    requires snaps != []
    ensures var prior := BatchRun(rules, st, snaps[..|snaps| - 1]);
      var s := snaps[|snaps| - 1];
      BatchRun(rules, st, snaps) ==
        BatchState(prior.results + ResultFor(s, IssuesFor(rules, Get(prior.store, s.component), s)),
                   Recorded(prior.store, s))
  {
  }

  /** A snapshot sent ahead of another of the same component in one batch is its previous. */
  lemma SameBatchSeesEarlier(rules: seq<Rule>, st: Store, first: Snapshot, second: Snapshot)
    requires first.component == second.component
    ensures var h := Get(Recorded(st, first), first.component); |h| > 0 && h[|h| - 1] == first
    ensures BatchRun(rules, st, [first, second]).results ==
              ResultFor(first, IssuesFor(rules, Get(st, first.component), first)) +
              ResultFor(second, IssuesFor(rules, Get(Recorded(st, first), second.component), second))
  {
    var one := BatchRun(rules, st, [first]);
    assert [first][..0] == [];
    assert BatchRun(rules, st, []) == BatchState([], st);
    var r1 := ResultFor(first, IssuesFor(rules, Get(st, first.component), first));
    assert [] + r1 == r1;
    assert one == BatchState(ResultFor(first, IssuesFor(rules, Get(st, first.component), first)), Recorded(st, first));
    assert [first, second][..1] == [first];
    assert BatchRun(rules, st, [first, second]) ==
      BatchState(one.results + ResultFor(second, IssuesFor(rules, Get(one.store, second.component), second)),
                 Recorded(one.store, second));
  }

  /** A sample snapshot of component "A" with an HOC boundary left unspecified. */
  function SampleA(avgTime: real): Snapshot
  {
    Snapshot("A", 1.0, avgTime, avgTime, None)
  }

  /** Rule R1: a regression on avgTime with multiplier 1.5 and base severity HIGH. */
  const R1: Rule := Regression("R1", AvgTime, 1.5, "{prevValue}->{currValue}", HIGH)

  /** R1 on a component with no history raises nothing; the snapshot is recorded. */
  lemma FirstSnapshotRaisesNothing()
    ensures BatchRun([R1], Empty, [SampleA(10.0)]) == BatchState([], Recorded(Empty, SampleA(10.0)))
  {
    BatchRunSingle([R1], Empty, SampleA(10.0));
    IssuesForSingle(R1, [], SampleA(10.0));
  }

  /** R1 with previous average 10 and current average 16 > 15 raises one HIGH issue. */
  lemma SecondSnapshotRegresses(st: Store)
    requires Get(st, "A") == [SampleA(10.0)]
    ensures BatchRun([R1], st, [SampleA(16.0)]).results ==
              [ComponentResult("A", HOC, RenderMetrics(1.0, 16.0, 16.0),
                               [Issue("R1", 1.0, HIGH, RegressionReason("{prevValue}->{currValue}", 10.0, 16.0))],
                               false)]
  {
    BatchRunSingle([R1], st, SampleA(16.0));
    IssuesForSingle(R1, [SampleA(10.0)], SampleA(16.0));
    var issues := IssuesFor([R1], [SampleA(10.0)], SampleA(16.0));
    assert |issues| == 1 && issues[0].severity == HIGH;
    assert !HasCriticalIssue(issues) by {
      forall i | 0 <= i < |issues|
        ensures issues[i].severity != CRITICAL
      {
        assert i == 0;
      }
    }
  }

  /**
   * Two batches against R1: a first with average 10 raises nothing; a second with average
   * 16 returns one result for "A" with one issue of confidence 1 and severity HIGH, and
   * does not flag the batch critical.
   */
  lemma EndToEndRegression()
    ensures var first := BatchRun([R1], Empty, [SampleA(10.0)]);
      var second := BatchRun([R1], first.store, [SampleA(16.0)]);
      && first.results == []
      && |second.results| == 1
      && second.results[0].component == "A"
      && |second.results[0].issues| == 1
      && second.results[0].issues[0].confidence == 1.0
      && second.results[0].issues[0].severity == HIGH
      && !AnyCritical(second.results)
  {
    FirstSnapshotRaisesNothing();
    var st := Recorded(Empty, SampleA(10.0));
    assert Get(st, "A") == [SampleA(10.0)];
    SecondSnapshotRegresses(st);
  }

  /** The analysis engine's state: the loaded rules and the history store. */
  class AnalysisSession {
    var rules: seq<Rule>
    var keys: seq<string>
    var history: map<string, seq<Snapshot>>

    ghost predicate Valid()
      reads this
    {
      WellFormed(Store(keys, history))
    }

    /** The history as a store value. */
    function Current(): Store
      reads this
    {
      Store(keys, history)
    }

    /** A fresh session: no rules loaded, nothing recorded. */
    constructor ()
      ensures Valid()
      ensures rules == [] && Current() == Empty
    {
      rules := [];
      keys := [];
      history := map[];
    }

    /** `record(snapshot)` */
    method Record(s: Snapshot)
      requires Valid()
      modifies this
      ensures Valid()
      ensures Current() == Recorded(old(Current()), s)
      ensures rules == old(rules)
    {
      RecordBoundedFifo(Current(), s);
      var list := if s.component in history then history[s.component] else [];
      list := list + [s];
      if |list| > MAX_HISTORY {
        list := list[1..];
      }
      if s.component !in history {
        keys := keys + [s.component];
      }
      history := history[s.component := list];
    }

    /**
     * `evaluate(snapshot)`: runs every rule against the history as it stood before the call,
     * in rule order, then records the snapshot once.
     */
    method Evaluate(s: Snapshot) returns (issues: seq<Issue>)
      requires Valid()
      modifies this
      ensures Valid()
      ensures issues == IssuesFor(rules, Get(old(Current()), s.component), s)
      ensures Current() == Recorded(old(Current()), s)
      ensures rules == old(rules)
    {
      var historyList := if s.component in history then history[s.component] else [];
      issues := [];
      for i := 0 to |rules|
        invariant issues == IssuesFor(rules[..i], historyList, s)
      {
        assert rules[..i + 1][..i] == rules[..i];
        match ApplyRule(rules[i], historyList, s)
        case Some(issue) =>
          issues := issues + [issue];
        case None =>
      }
      assert rules[..|rules|] == rules;
      Record(s);
    }

    /** `INIT_RULES`: replaces the rule set; history is untouched. */
    method InitRules(payload: seq<Rule>) returns (count: nat)
      modifies this
      ensures rules == payload && count == |payload|
      ensures keys == old(keys) && history == old(history)
    {
      rules := payload;
      count := |rules|;
    }

    /** The `EVALUATE` loop: evaluates the payload in order and keeps the results with issues. */
    method EvaluateBatch(payload: seq<Snapshot>) returns (results: seq<ComponentResult>, hasCritical: bool)
      requires Valid()
      modifies this
      ensures Valid()
      ensures BatchState(results, Current()) == BatchRun(rules, old(Current()), payload)
      ensures hasCritical == AnyCritical(results)
      ensures rules == old(rules)
    {
      results := [];
      hasCritical := false;
      for i := 0 to |payload|
        invariant Valid() && rules == old(rules)
        invariant BatchState(results, Current()) == BatchRun(rules, old(Current()), payload[..i])
        invariant hasCritical == AnyCritical(results)
      {
        var s := payload[i];
        BatchRunStep(rules, old(Current()), payload, i);
        var issues := Evaluate(s);
        results, hasCritical := AddResult(results, hasCritical, s, issues);
      }
      assert payload[..|payload|] == payload;
    }

    /** `RESET`: empties the history; rules are kept. */
    method Reset()
      modifies this
      ensures Valid()
      ensures Current() == Empty && rules == old(rules)
    {
      keys := [];
      history := map[];
    }

    /** `GET_STATS` */
    method GetStats() returns (componentsTracked: nat, totalSnapshots: nat, rulesLoaded: nat)
      requires Valid()
      ensures componentsTracked == |history| && totalSnapshots == TotalSnapshots(Current())
      ensures rulesLoaded == |rules|
      ensures componentsTracked == |keys|
      ensures totalSnapshots <= MAX_HISTORY * componentsTracked
    {
      StatsBound(Current());
      componentsTracked := |history|;
      totalSnapshots := TotalSnapshots(Current());
      rulesLoaded := |rules|;
    }

    /** `self.onmessage`: dispatches on the message type; an unknown type gets no response. */
    method HandleMessage(request: Request) returns (response: Option<Response>)
      requires Valid()
      modifies this
      ensures Valid()
      ensures match request
        case InitRulesRequest(payload) =>
          && response == Some(InitSuccess(|payload|))
          && rules == payload && Current() == old(Current())
        case EvaluateRequest(payload) =>
          && rules == old(rules)
          && var run := BatchRun(old(rules), old(Current()), payload);
             response == Some(Results(run.results, AnyCritical(run.results))) && Current() == run.store
        case ResetRequest =>
          response == Some(ResetSuccess) && Current() == Empty && rules == old(rules)
        case GetStatsRequest =>
          && Current() == old(Current()) && rules == old(rules)
          && response == Some(Stats(|history|, TotalSnapshots(Current()), |rules|))
          && response.value.totalSnapshots <= MAX_HISTORY * response.value.componentsTracked
        case OtherRequest(_) =>
          response == None && Current() == old(Current()) && rules == old(rules)
    {
      match request
      case InitRulesRequest(payload) =>
        var count := InitRules(payload);
        response := Some(InitSuccess(count));
      case EvaluateRequest(payload) =>
        var results, hasCritical := EvaluateBatch(payload);
        response := Some(Results(results, hasCritical));
      case ResetRequest =>
        Reset();
        response := Some(ResetSuccess);
      case GetStatsRequest =>
        var componentsTracked, totalSnapshots, rulesLoaded := GetStats();
        response := Some(Stats(componentsTracked, totalSnapshots, rulesLoaded));
      case OtherRequest(_) =>
        response := None;
    }
  }
}
