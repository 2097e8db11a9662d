/**
 The 20-layer gate pipeline with arbitrary processors: one run, its summary, and the metrics kept across
 runs whose asynchronous segments interleave.
 */
module LayerPipeline {
  import opened Options
  import opened JsNumbers

  const LAYERS: nat := 20

  datatype Status = Pass | Fail | Skip | Error | Skipped

  /** The metrics later layers read back; None is an absent field. */
  datatype Metrics = Metrics(
    spreadPoints: Option<real>,
    volatility: Option<real>,
    confluenceScore: Option<real>,
    riskRewardRatio: Option<real>,
    positionSize: Option<real>)

  const NO_METRICS: Metrics := Metrics(None, None, None, None, None)

  datatype LayerResult = LayerResult(layer: nat, status: Status, score: Option<real>, metrics: Metrics)

  /** What a processor does: return a result, possibly without a status or score, or throw. */
  datatype Outcome = Returned(status: Option<Status>, score: Option<real>, metrics: Metrics) | Threw

  type Processor = (nat, seq<LayerResult>) -> Outcome

  predicate Required(layer: nat) {
    layer != 9 && layer != 15
  }

  /** The standard structure of a result: a missing status is PASS, a zero score is null. */
  function Standard(layer: nat, o: Outcome): LayerResult {
    match o
    case Threw => LayerResult(layer, Error, None, NO_METRICS)
    case Returned(status, score, metrics) =>
      LayerResult(layer, status.GetOr(Pass), if score == Some(0.0) then None else score, metrics)
  }

  function SkippedFrom(layer: nat): (r: seq<LayerResult>)
    ensures layer <= LAYERS ==> |r| == LAYERS - layer
    ensures forall i :: 0 <= i < |r| ==> r[i] == LayerResult(layer + i + 1, Skipped, None, NO_METRICS)
    decreases LAYERS - layer
  {
    if layer >= LAYERS then [] else [LayerResult(layer + 1, Skipped, None, NO_METRICS)] + SkippedFrom(layer + 1)
  }

  /** A required failure or a required throw ends the run, and so does the last layer. */
  predicate Stops(results: seq<LayerResult>, o: Outcome) {
    var layer := |results| + 1;
    layer >= LAYERS || (Required(layer) && Standard(layer, o).status == (if o.Threw? then Error else Fail))
  }

  /** The results after the next layer: a required failure fills the rest with SKIPPED, a throw does not. */
  function After(results: seq<LayerResult>, o: Outcome): seq<LayerResult> {
    var layer := |results| + 1;
    var r := Standard(layer, o);
    results + [r] + (if o.Returned? && r.status.Fail? && Required(layer) then SkippedFrom(layer) else [])
  }

  function RunFrom(p: Processor, results: seq<LayerResult>): seq<LayerResult>
    decreases LAYERS - |results|
  {
    if |results| >= LAYERS then results
    else
      var o := p(|results| + 1, results);
      if Stops(results, o) then After(results, o) else RunFrom(p, After(results, o))
  }

  function CountStatus(results: seq<LayerResult>, status: Status): nat {
    if results == [] then 0
    else CountStatus(results[..|results| - 1], status) + (if results[|results| - 1].status == status then 1 else 0)
  }

  /** layerResults.find by id. */
  function Find(results: seq<LayerResult>, layer: nat): Option<LayerResult> {
    if results == [] then None
    else if results[0].layer == layer then Some(results[0])
    else Find(results[1..], layer)
  }

  predicate PassedAt(results: seq<LayerResult>, layer: nat) {
    var r := Find(results, layer);
    r.Some? && r.value.status.Pass?
  }

  predicate AllRequiredPassed(results: seq<LayerResult>) {
    forall layer :: 1 <= layer <= LAYERS && Required(layer) ==> PassedAt(results, layer)
  }

  datatype Summary = Summary(passed: nat, failed: nat, errors: nat, skipped: int, allRequiredPassed: bool, confluenceScore: int)

  datatype Analysis = Analysis(layers: seq<LayerResult>, summary: Summary, layer18Ready: bool)

  function Analyse(results: seq<LayerResult>): Analysis {
    var passed, failed, errors := CountStatus(results, Pass), CountStatus(results, Fail), CountStatus(results, Error);
    var all, confluence := AllRequiredPassed(results), Round(passed as real / 20.0 * 100.0);
    Analysis(results, Summary(passed, failed, errors, 20 - passed - failed - errors, all, confluence), all && confluence >= 60)
  }

  // ---- The shape of one run ----

  /** Results are layers 1, 2, ... in order. */
  ghost predicate InOrder(results: seq<LayerResult>) {
    |results| <= LAYERS && forall i :: 0 <= i < |results| ==> results[i].layer == i + 1
  }

  /** A run in progress: no required layer has failed, none was skipped by filling. */
  ghost predicate Live(results: seq<LayerResult>) {
    InOrder(results) && forall i :: 0 <= i < |results| && Required(i + 1) ==> !results[i].status.Fail?
  }

  /** A finished run: all twenty layers, or the last one is a required layer's error. */
  ghost predicate Finished(results: seq<LayerResult>) {
    && InOrder(results) && results != []
    && (|results| == LAYERS || (results[|results| - 1].status.Error? && Required(|results|)))
    && (forall i, j :: 0 <= i < j < |results| && Required(i + 1) && results[i].status.Fail? ==> results[j].status.Skipped?)
  }

  lemma AfterShape(results: seq<LayerResult>, o: Outcome)
    requires Live(results) && |results| < LAYERS
    ensures !Stops(results, o) ==> Live(After(results, o)) && |After(results, o)| == |results| + 1
    ensures Stops(results, o) ==> Finished(After(results, o))
    ensures results < After(results, o)
  {
    var after := After(results, o);
    assert after[..|results|] == results;
  }

  /**
   Every run, whatever its processors do, ends with the layers 1..k in order, k = 20 unless a required
   processor threw, and nothing but SKIPPED follows a required failure.
   */
  lemma {:induction false} RunShape(p: Processor, results: seq<LayerResult>)
    requires Live(results) && |results| < LAYERS
    ensures Finished(RunFrom(p, results))
    decreases LAYERS - |results|
  {
    var o := p(|results| + 1, results);
    AfterShape(results, o);
    if !Stops(results, o) {
      RunShape(p, After(results, o));
    }
  }

  lemma {:induction false} FindInOrder(results: seq<LayerResult>, first: nat, layer: nat)
    requires forall i :: 0 <= i < |results| ==> results[i].layer == first + i + 1
    ensures Find(results, layer) ==
            if first < layer <= first + |results| then Some(results[layer - first - 1]) else None
    decreases |results|
  {
    if results != [] && results[0].layer != layer {
      FindInOrder(results[1..], first + 1, layer);
    }
  }

  lemma {:induction false} StatusesPartition(results: seq<LayerResult>)
    ensures CountStatus(results, Pass) + CountStatus(results, Fail) + CountStatus(results, Error) +
            CountStatus(results, Skip) + CountStatus(results, Skipped) == |results|
  {
    if results != [] {
      StatusesPartition(results[..|results| - 1]);
    }
  }

  /** The places of the results with a status. */
  function With(results: seq<LayerResult>, status: Status): set<nat> {
    set i: nat | i < |results| && results[i].status == status
  }

  lemma WithOneMore(results: seq<LayerResult>, r: LayerResult, status: Status)
    ensures |With(results + [r], status)| == |With(results, status)| + (if r.status == status then 1 else 0)
  {
    var more := if r.status == status then {|results|} else {};
    forall i: nat
      ensures i in With(results + [r], status) <==> i in With(results, status) + more
    {
    }
    assert With(results + [r], status) == With(results, status) + more;
  }

  lemma {:induction false} CountMeaning(results: seq<LayerResult>, status: Status)
    ensures CountStatus(results, status) == |With(results, status)|
  {
    if results != [] {
      var n := |results| - 1;
      CountMeaning(results[..n], status);
      WithOneMore(results[..n], results[n], status);
      assert results[..n] + [results[n]] == results;
    }
  }

  /** The summary counts the layers by status and gives the passed ones in percent of twenty. */
  lemma SummaryMeaning(results: seq<LayerResult>)
    ensures var s := Analyse(results).summary;
      && s.passed == |With(results, Pass)| && s.failed == |With(results, Fail)| && s.errors == |With(results, Error)|
      && s.confluenceScore == 5 * s.passed && Analyse(results).layers == results
  {
    CountMeaning(results, Pass);
    CountMeaning(results, Fail);
    CountMeaning(results, Error);
    assert CountStatus(results, Pass) as real / 20.0 * 100.0 == (5 * CountStatus(results, Pass)) as real;
  }

  /** The skipped figure counts SKIP, SKIPPED and the layers a required throw left out. */
  lemma SkippedCountsMissing(results: seq<LayerResult>)
    requires InOrder(results)
    ensures Analyse(results).summary.skipped ==
            CountStatus(results, Skip) + CountStatus(results, Skipped) + (LAYERS - |results|)
  {
    StatusesPartition(results);
  }

  lemma {:induction false} MostlyPassed(results: seq<LayerResult>, n: nat)
    requires InOrder(results) && n <= |results|
    requires forall i :: 0 <= i < n && Required(i + 1) ==> results[i].status.Pass?
    ensures CountStatus(results[..n], Pass) >= n - (if n >= 9 then 1 else 0) - (if n >= 15 then 1 else 0)
  {
    if n > 0 {
      MostlyPassed(results, n - 1);
      assert results[..n][..n - 1] == results[..n - 1];
    }
  }

  /** Ready means exactly that all eighteen required layers passed: the confluence threshold of 60 is implied. */
  lemma ReadyIsAllRequired(results: seq<LayerResult>)
    requires InOrder(results)
    ensures Analyse(results).layer18Ready <==>
            |results| == LAYERS && forall layer :: 1 <= layer <= LAYERS && Required(layer) ==> results[layer - 1].status.Pass?
    ensures Analyse(results).layer18Ready <==> AllRequiredPassed(results)
  {
    forall layer: nat | 1 <= layer <= LAYERS
      ensures PassedAt(results, layer) <==> layer <= |results| && results[layer - 1].status.Pass?
    {
      FindInOrder(results, 0, layer);
    }
    if AllRequiredPassed(results) {
      assert PassedAt(results, LAYERS);
      forall i | 0 <= i < |results| && Required(i + 1)
        ensures results[i].status.Pass?
      {
        assert PassedAt(results, i + 1);
      }
      MostlyPassed(results, |results|);
      assert results[..|results|] == results;
      var passed := CountStatus(results, Pass) as real;
      assert passed >= 18.0;
      assert passed / 20.0 * 100.0 >= 90.0;
    }
  }

  // ---- Metrics across interleaved runs ----

  datatype Counts = Counts(pass: nat, fail: nat, error: nat)

  datatype Tally = Tally(processed: nat, passed: nat, failed: nat, byLayer: map<nat, Counts>)

  const EMPTY_TALLY: Tally := Tally(0, 0, 0, map[])

  function CountsAt(t: Tally, layer: nat): Counts {
    if layer in t.byLayer then t.byLayer[layer] else Counts(0, 0, 0)
  }

  function Bump(c: Counts, status: Status): Counts {
    match status
    case Pass => c.(pass := c.pass + 1)
    case Fail => c.(fail := c.fail + 1)
    case Error => c.(error := c.error + 1)
    case _ => c
  }

  /** updateLayerMetrics. */
  function Record(t: Tally, layer: nat, status: Status): Tally {
    t.(byLayer := t.byLayer[layer := Bump(CountsAt(t, layer), status)])
  }

  function Conclude(t: Tally, ready: bool): Tally {
    if ready then t.(processed := t.processed + 1, passed := t.passed + 1)
    else t.(processed := t.processed + 1, failed := t.failed + 1)
  }

  /** One segment of a run between two awaits: the next layer's continuation, and the epilogue if it stops. */
  function SegmentTally(t: Tally, results: seq<LayerResult>, o: Outcome): Tally {
    var layer := |results| + 1;
    var recorded := Record(t, layer, Standard(layer, o).status);
    if Stops(results, o) then Conclude(recorded, Analyse(After(results, o)).layer18Ready) else recorded
  }

  datatype Run = Run(results: seq<LayerResult>, done: bool)

  datatype System = System(tally: Tally, runs: seq<Run>)

  datatype Event = Start | Segment(run: nat, outcome: Outcome)

  predicate Enabled(s: System, e: Event) {
    e.Segment? ==> e.run < |s.runs| && !s.runs[e.run].done
  }

  function Step(s: System, e: Event): System
    requires Enabled(s, e)
  {
    match e
    case Start => s.(runs := s.runs + [Run([], false)])
    case Segment(i, o) =>
      var results := s.runs[i].results;
      System(SegmentTally(s.tally, results, o), s.runs[i := Run(After(results, o), Stops(results, o))])
  }

  function CountRuns(runs: seq<Run>, p: Run -> bool): nat {
    if runs == [] then 0 else CountRuns(runs[..|runs| - 1], p) + (if p(runs[|runs| - 1]) then 1 else 0)
  }

  function IsDone(): Run -> bool {
    (r: Run) => r.done
  }

  function IsReady(): Run -> bool {
    (r: Run) => r.done && Analyse(r.results).layer18Ready
  }

  /** Layer's result in the run has the status. */
  function HasStatus(layer: nat, status: Status): Run -> bool {
    (r: Run) => 1 <= layer <= |r.results| && r.results[layer - 1].status == status
  }

  lemma {:induction false} CountUpdate(runs: seq<Run>, i: nat, r: Run, p: Run -> bool)
    requires i < |runs|
    ensures CountRuns(runs[i := r], p) == CountRuns(runs, p) - (if p(runs[i]) then 1 else 0) + (if p(r) then 1 else 0)
  {
    var n := |runs| - 1;
    if i == n {
      assert runs[i := r][..n] == runs[..n];
    } else {
      assert runs[i := r][..n] == runs[..n][i := r];
      CountUpdate(runs[..n], i, r, p);
    }
  }

  lemma {:induction false} CountImplies(runs: seq<Run>, p: Run -> bool, q: Run -> bool)
    requires forall i :: 0 <= i < |runs| && p(runs[i]) ==> q(runs[i])
    ensures CountRuns(runs, p) <= CountRuns(runs, q)
  {
    if runs != [] {
      CountImplies(runs[..|runs| - 1], p, q);
    }
  }

  /** Each run is live or finished; every figure of the metrics counts runs exactly. */
  ghost predicate RunsInv(s: System) {
    forall i :: 0 <= i < |s.runs| ==>
      if s.runs[i].done then Finished(s.runs[i].results) else Live(s.runs[i].results) && |s.runs[i].results| < LAYERS
  }

  ghost predicate LayerTallied(s: System, layer: nat) {
    CountsAt(s.tally, layer) ==
    Counts(CountRuns(s.runs, HasStatus(layer, Pass)), CountRuns(s.runs, HasStatus(layer, Fail)), CountRuns(s.runs, HasStatus(layer, Error)))
  }

  ghost predicate TallyInv(s: System) {
    && s.tally.processed == CountRuns(s.runs, IsDone())
    && s.tally.passed == CountRuns(s.runs, IsReady())
    && s.tally.processed == s.tally.passed + s.tally.failed
    && (forall layer: nat :: 1 <= layer <= LAYERS ==> LayerTallied(s, layer))
  }

  lemma AfterStatus(results: seq<LayerResult>, o: Outcome, done: bool, layer: nat, status: Status)
    requires |results| < LAYERS && 1 <= layer <= LAYERS && status != Skipped
    ensures HasStatus(layer, status)(Run(After(results, o), done)) ==
            if layer == |results| + 1 then Standard(layer, o).status == status
            else HasStatus(layer, status)(Run(results, false))
  {
    var after := After(results, o);
    assert after[..|results|] == results;
    if layer <= |results| {
      assert after[layer - 1] == results[layer - 1];
    }
  }

  lemma SegmentStatus(runs: seq<Run>, i: nat, o: Outcome, layer: nat, status: Status)
    requires i < |runs| && !runs[i].done && |runs[i].results| < LAYERS && 1 <= layer <= LAYERS && status != Skipped
    ensures var results := runs[i].results;
      CountRuns(runs[i := Run(After(results, o), Stops(results, o))], HasStatus(layer, status)) ==
      CountRuns(runs, HasStatus(layer, status)) +
      (if layer == |results| + 1 && Standard(layer, o).status == status then 1 else 0)
  {
    var results := runs[i].results;
    var r := Run(After(results, o), Stops(results, o));
    CountUpdate(runs, i, r, HasStatus(layer, status));
    AfterStatus(results, o, r.done, layer, status);
    assert runs[i] == Run(results, false);
  }

  lemma SegmentLayer(s: System, i: nat, o: Outcome, layer: nat)
    requires i < |s.runs| && !s.runs[i].done && |s.runs[i].results| < LAYERS && 1 <= layer <= LAYERS
    requires LayerTallied(s, layer)
    ensures LayerTallied(Step(s, Segment(i, o)), layer)
  {
    SegmentStatus(s.runs, i, o, layer, Pass);
    SegmentStatus(s.runs, i, o, layer, Fail);
    SegmentStatus(s.runs, i, o, layer, Error);
  }

  lemma SegmentKeeps(s: System, i: nat, o: Outcome)
    requires RunsInv(s) && TallyInv(s) && i < |s.runs| && !s.runs[i].done
    ensures RunsInv(Step(s, Segment(i, o))) && TallyInv(Step(s, Segment(i, o)))
  {
    var results := s.runs[i].results;
    var r := Run(After(results, o), Stops(results, o));
    AfterShape(results, o);
    CountUpdate(s.runs, i, r, IsDone());
    CountUpdate(s.runs, i, r, IsReady());
    forall layer: nat | 1 <= layer <= LAYERS
      ensures LayerTallied(Step(s, Segment(i, o)), layer)
    {
      SegmentLayer(s, i, o, layer);
    }
  }

  lemma StartKeeps(s: System)
    requires RunsInv(s) && TallyInv(s)
    ensures RunsInv(Step(s, Start)) && TallyInv(Step(s, Start))
  {
    var runs := s.runs + [Run([], false)];
    assert runs[..|s.runs|] == s.runs;
    forall layer: nat | 1 <= layer <= LAYERS
      ensures LayerTallied(Step(s, Start), layer)
    {
      assert LayerTallied(s, layer);
    }
  }

  ghost predicate Reaches(s: System, events: seq<Event>, t: System)
    decreases |events|
  {
    if events == [] then s == t else Enabled(s, events[0]) && Reaches(Step(s, events[0]), events[1..], t)
  }

  lemma {:induction false} InterleavingKeeps(s: System, events: seq<Event>, t: System)
    requires RunsInv(s) && TallyInv(s) && Reaches(s, events, t)
    ensures RunsInv(t) && TallyInv(t)
    decreases |events|
  {
    if events != [] {
      match events[0] {
        case Start => StartKeeps(s);
        case Segment(i, o) => SegmentKeeps(s, i, o);
      }
      InterleavingKeeps(Step(s, events[0]), events[1..], t);
    }
  }

  lemma ReadyHasPass(r: Run, layer: nat)
    requires r.done && Finished(r.results) && Analyse(r.results).layer18Ready && 1 <= layer <= LAYERS && Required(layer)
    ensures HasStatus(layer, Pass)(r)
  {
    ReadyIsAllRequired(r.results);
  }

  /**
   Over any interleaving of runs the metrics stay exact: processed is passed plus failed and counts the finished
   runs, each layer's counters count the runs with that result, and passed never exceeds a required layer's passes.
   */
  lemma MetricsStayExact(events: seq<Event>, t: System)
    requires Reaches(System(EMPTY_TALLY, []), events, t)
    ensures RunsInv(t) && TallyInv(t)
    ensures forall layer: nat :: 1 <= layer <= LAYERS && Required(layer) ==> t.tally.passed <= CountsAt(t.tally, layer).pass
  {
    InterleavingKeeps(System(EMPTY_TALLY, []), events, t);
    forall layer: nat | 1 <= layer <= LAYERS && Required(layer)
      ensures t.tally.passed <= CountsAt(t.tally, layer).pass
    {
      assert LayerTallied(t, layer);
      forall i | 0 <= i < |t.runs| && IsReady()(t.runs[i])
        ensures HasStatus(layer, Pass)(t.runs[i])
      {
        ReadyHasPass(t.runs[i], layer);
      }
      CountImplies(t.runs, IsReady(), HasStatus(layer, Pass));
    }
  }

  // ---- The program's orchestrator ----

  class Orchestrator {
    var processed: nat
    var passed: nat
    var failed: nat
    var byLayer: map<nat, Counts>

    function Metrics(): Tally
      reads this
    {
      Tally(processed, passed, failed, byLayer)
    }

    constructor ()
      ensures Metrics() == EMPTY_TALLY
    {
      processed, passed, failed, byLayer := 0, 0, 0, map[];
    }

    method UpdateLayerMetrics(layerId: nat, status: Status)
      modifies this`byLayer
      ensures Metrics() == Record(old(Metrics()), layerId, status)
    {
      var metrics := if layerId in byLayer then byLayer[layerId] else Counts(0, 0, 0);
      if status.Pass? {
        metrics := metrics.(pass := metrics.pass + 1);
      } else if status.Fail? {
        metrics := metrics.(fail := metrics.fail + 1);
      } else if status.Error? {
        metrics := metrics.(error := metrics.error + 1);
      }
      byLayer := byLayer[layerId := metrics];
    }

    /** Fills the layers after id. */
    method FillSkipped(layerResults: seq<LayerResult>, id: nat) returns (results: seq<LayerResult>)
      requires id <= LAYERS
      ensures results == layerResults + SkippedFrom(id)
    {
      results := layerResults;
      for i := id to LAYERS
        invariant results + SkippedFrom(i) == layerResults + SkippedFrom(id)
      {
        results := results + [LayerResult(i + 1, Skipped, None, NO_METRICS)];
      }
    }

    /** The loop body after the await: the next layer's outcome o is in. */
    method FinishLayer(layerResults: seq<LayerResult>, o: Outcome) returns (results: seq<LayerResult>, stop: bool)
      requires |layerResults| < LAYERS
      modifies this`byLayer
      ensures results == After(layerResults, o) && stop == Stops(layerResults, o)
      ensures Metrics() == Record(old(Metrics()), |layerResults| + 1, Standard(|layerResults| + 1, o).status)
    {
      var id := |layerResults| + 1;
      if o.Returned? {
        var layerResult := Standard(id, o);
        results := layerResults + [layerResult];
        UpdateLayerMetrics(id, layerResult.status);
        if layerResult.status.Fail? && Required(id) {
          results := FillSkipped(results, id);
          return results, true;
        }
      } else {
        results := layerResults + [LayerResult(id, Error, None, NO_METRICS)];
        UpdateLayerMetrics(id, Error);
        if Required(id) {
          return results, true;
        }
      }
      stop := id >= LAYERS;
    }

    /** After the loop: the summary, and the overall metrics. */
    method FinishRun(layerResults: seq<LayerResult>) returns (analysis: Analysis)
      modifies this`processed, this`passed, this`failed
      ensures analysis == Analyse(layerResults)
      ensures Metrics() == Conclude(old(Metrics()), analysis.layer18Ready)
    {
      analysis := Analyse(layerResults);
      processed := processed + 1;
      if analysis.layer18Ready {
        passed := passed + 1;
      } else {
        failed := failed + 1;
      }
    }

    /** A run that no other run interleaves. */
    method ProcessSignal(p: Processor) returns (analysis: Analysis)
      modifies this
      ensures analysis == Analyse(RunFrom(p, []))
      ensures Metrics() == RunTally(p, old(Metrics()), [])
    {
      var layerResults: seq<LayerResult> := [];
      var stop := false;
      while !stop
        invariant !stop ==> |layerResults| < LAYERS && RunFrom(p, layerResults) == RunFrom(p, [])
        invariant !stop ==> RunTally(p, Metrics(), layerResults) == RunTally(p, old(Metrics()), [])
        invariant stop ==> layerResults == RunFrom(p, [])
        invariant stop ==> Conclude(Metrics(), Analyse(layerResults).layer18Ready) == RunTally(p, old(Metrics()), [])
        decreases !stop, LAYERS - |layerResults|
      {
        layerResults, stop := FinishLayer(layerResults, p(|layerResults| + 1, layerResults));
      }
      analysis := FinishRun(layerResults);
    }
  }

  /** The metrics after a run's remaining segments, one after the other. */
  function RunTally(p: Processor, t: Tally, results: seq<LayerResult>): Tally
    requires |results| < LAYERS
    decreases LAYERS - |results|
  {
    var o := p(|results| + 1, results);
    var t' := SegmentTally(t, results, o);
    if Stops(results, o) then t' else RunTally(p, t', After(results, o))
  }

  /** Run alone to its end, a run in the system gives the results and the metrics of ProcessSignal. */
  lemma {:induction false} SoloRun(s: System, i: nat, p: Processor) returns (events: seq<Event>, t: System)
    requires i < |s.runs| && !s.runs[i].done && |s.runs[i].results| < LAYERS
    ensures Reaches(s, events, t)
    ensures t == System(RunTally(p, s.tally, s.runs[i].results), s.runs[i := Run(RunFrom(p, s.runs[i].results), true)])
    decreases LAYERS - |s.runs[i].results|
  {
    var results := s.runs[i].results;
    var o := p(|results| + 1, results);
    var next := Step(s, Segment(i, o));
    if Stops(results, o) {
      events, t := [Segment(i, o)], next;
      assert Reaches(next, events[1..], t);
    } else {
      var rest;
      rest, t := SoloRun(next, i, p);
      events := [Segment(i, o)] + rest;
      assert events[1..] == rest;
      assert next.runs[i := Run(RunFrom(p, After(results, o)), true)] == s.runs[i := Run(RunFrom(p, results), true)];
    }
  }

  // ---- Explaining a run ----

  /** The first cut results come from the processors; the rest fill the places after a required failure. */
  ghost predicate Explained(p: Processor, results: seq<LayerResult>, cut: nat) {
    && cut <= |results|
    && (forall i :: 0 <= i < cut ==> results[i] == Standard(i + 1, p(i + 1, results[..i])))
    && (forall i :: cut <= i < |results| ==> results[i].status.Skipped?)
  }

  lemma ExplainedAfter(p: Processor, results: seq<LayerResult>)
    requires |results| < LAYERS && Explained(p, results, |results|)
    ensures var after := After(results, p(|results| + 1, results));
      Explained(p, after, |results| + 1) && after[..|results|] == results
  {
    var after := After(results, p(|results| + 1, results));
    assert after[..|results|] == results;
    forall i | 0 <= i < |results|
      ensures after[i] == results[i] && after[..i] == results[..i]
    {
    }
  }

  /** Where a run ended: after the last layer, or at a required layer that failed or threw. */
  lemma {:induction false} RunExplained(p: Processor, results: seq<LayerResult>) returns (cut: nat)
    requires |results| < LAYERS && Explained(p, results, |results|)
    ensures var r := RunFrom(p, results);
      && |results| < cut && Explained(p, r, cut)
      && Stops(r[..cut - 1], p(cut, r[..cut - 1]))
    decreases LAYERS - |results|
  {
    var o := p(|results| + 1, results);
    ExplainedAfter(p, results);
    if Stops(results, o) {
      cut := |results| + 1;
    } else {
      cut := RunExplained(p, After(results, o));
    }
  }

  /** On seeing the results before it, the processor neither threw nor returned a status other than PASS. */
  predicate Accepts(p: Processor, results: seq<LayerResult>, layer: nat)
    requires 1 <= layer <= |results|
  {
    var o := p(layer, results[..layer - 1]);
    o.Returned? && (o.status.None? || o.status == Some(Pass))
  }

  lemma PassedIsAccepted(p: Processor, results: seq<LayerResult>, cut: nat, layer: nat)
    requires Explained(p, results, cut) && 1 <= layer <= cut
    ensures results[layer - 1].status.Pass? <==> Accepts(p, results, layer)
  {
    assert results[layer - 1] == Standard(layer, p(layer, results[..layer - 1]));
  }

  lemma CutNotAccepted(p: Processor, results: seq<LayerResult>, cut: nat)
    requires 1 <= cut < LAYERS && cut <= |results| && Stops(results[..cut - 1], p(cut, results[..cut - 1]))
    ensures cut != 9 && cut != 15 && !Accepts(p, results, cut)
  {
    assert |results[..cut - 1]| + 1 == cut;
  }

  lemma AllAccepted(p: Processor, r: seq<LayerResult>)
    requires |r| == LAYERS && forall layer: nat :: 1 <= layer <= LAYERS ==> (r[layer - 1].status.Pass? <==> Accepts(p, r, layer))
    ensures (forall layer :: 1 <= layer <= LAYERS && Required(layer) ==> r[layer - 1].status.Pass?) <==>
            (forall layer :: 1 <= layer <= 20 && layer != 9 && layer != 15 ==> Accepts(p, r, layer))
  {
    if forall layer :: 1 <= layer <= LAYERS && Required(layer) ==> r[layer - 1].status.Pass? {
      forall layer | 1 <= layer <= 20 && layer != 9 && layer != 15
        ensures Accepts(p, r, layer)
      {
        assert Required(layer);
      }
    }
    if forall layer :: 1 <= layer <= 20 && layer != 9 && layer != 15 ==> Accepts(p, r, layer) {
      forall layer: nat | 1 <= layer <= LAYERS && Required(layer)
        ensures r[layer - 1].status.Pass?
      {
        assert Accepts(p, r, layer);
      }
    }
  }

  /**
   Whatever the processors do, a run is ready exactly when there are twenty results and, layers 9 and 15 aside, every
   processor accepted.
   */
  lemma ReadyExactlyWhenAccepted(p: Processor)
    ensures var r := RunFrom(p, []);
      Analyse(r).layer18Ready <==> |r| == 20 && forall layer :: 1 <= layer <= 20 && layer != 9 && layer != 15 ==> Accepts(p, r, layer)
  {
    var r := RunFrom(p, []);
    RunShape(p, []);
    ReadyIsAllRequired(r);
    var cut := RunExplained(p, []);
    if |r| == LAYERS {
      if cut < LAYERS {
        CutNotAccepted(p, r, cut);
        assert r[LAYERS - 1].status.Skipped? && Required(LAYERS);
      } else {
        forall layer: nat | 1 <= layer <= LAYERS
          ensures r[layer - 1].status.Pass? <==> Accepts(p, r, layer)
        {
          PassedIsAccepted(p, r, cut, layer);
        }
        AllAccepted(p, r);
      }
    }
  }
}
