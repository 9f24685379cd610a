/**
 * The older Fourier experiment runner. It sweeps every circuit over the phi
 * values one job at a time when synchronous, submits batches when
 * asynchronous, and resolves asynchronous data into a nested regrouping by
 * qubit pair, then phi, then circuit name, in which a failed job leaves a
 * placeholder instead of being dropped.
 */
module LegacyRunner {
  import opened Wrappers
  import opened CommonModels
  import opened OrderedDicts
  import opened Jobs
  import opened FourierModels
  import opened Batching
  import opened Testing
  import ER = ExperimentRunner
  import Limits

  // ---------------------------------------------------------------- records

  /** A circuit's histogram, or the text that stands in for it when its job failed. */
  datatype Measured = Counted(histogram: Histogram) | Placeholder(message: string)

  datatype CircuitResult = CircuitResult(histogram: Measured, mitigationInfo: Option<MitigationInfo>)

  /** `ResultForAngle`: the results of the circuits run for one phi, by circuit name. */
  datatype ResultForAngle = ResultForAngle(phi: real, circuitsForAngle: ODict<string, CircuitResult>)

  /** `SingleResult` of this runner: the results of one qubit pair, one entry per phi. */
  datatype PairResult = PairResult(target: int, ancilla: int, measurementCounts: seq<ResultForAngle>)

  /** An entry of a result file: a batch of asynchronous data, or a resolved pair. */
  datatype Entry = AsyncEntry(batch: BatchResult) | SyncEntry(result: PairResult)

  datatype LegacyError =
    | SynchronousResults                       // the file holds synchronous results: the runner exits
    | UncaughtJobFailure(kind: FailureKind)    // reading a job's counts raised an error nobody catches
    | NothingToUnpack                          // no circuits to unpack into circuits and keys
    | LimitsFailure(limitsError: Limits.LimitsError)
    | BatchingFailure(batchingError: BatchingError)
    | RetrievalFailure(retrieveError: RetrieveError)
    | UnmappedJob(jobId: string)               // `jobs_mapping[entry.job_id]`
    | CountsIndexError                         // a job with fewer histograms than keys
    | QubitPropertyFailure(propertyError: PropertyError)

  // ---------------------------------------------------------------- asynchronous data only

  /**
   * `_verify_results_are_async_or_fail`: the batches of a file that holds
   * only asynchronous data; any other entry stops the runner.
   */
  function VerifyResultsAreAsyncOrFail(entries: seq<Entry>): (r: Result<seq<BatchResult>, LegacyError>)
    ensures r.Success? <==> forall i :: 0 <= i < |entries| ==> entries[i].AsyncEntry?
    ensures r.Success? ==> |r.value| == |entries| && forall i :: 0 <= i < |entries| ==> r.value[i] == entries[i].batch
    ensures r.Failure? ==> r.error == SynchronousResults
  {
    if |entries| == 0 then Success([])
    else if entries[0].SyncEntry? then Failure(SynchronousResults)
    else
      match VerifyResultsAreAsyncOrFail(entries[1..])
      case Failure(e) => Failure(e)
      case Success(rest) =>
        assert forall i :: 1 <= i < |entries| ==> entries[i] == entries[1..][i - 1];
        Success([entries[0].batch] + rest)
  }

  // ---------------------------------------------------------------- synchronous sweep

  /** What sweeping `circuitsMap` at one phi records when no job fails. */
  function SweepEntry<P, C>(backend: MockSimulator<C>, circuitsMap: ODict<string, P>, bind: (P, real) -> C, phi: real, numShots: nat)
    : (entry: ResultForAngle)
    ensures entry.phi == phi
    ensures Keys(entry.circuitsForAngle) == Keys(circuitsMap)
    ensures forall n :: 0 <= n < |circuitsMap| ==>
              entry.circuitsForAngle[n].1 == CircuitResult(Counted(backend.simulate(bind(circuitsMap[n].1, phi), numShots)), None)
  {
    ResultForAngle(phi, seq(|circuitsMap|, n requires 0 <= n < |circuitsMap| =>
      (circuitsMap[n].0, CircuitResult(Counted(backend.simulate(bind(circuitsMap[n].1, phi), numShots)), None))))
  }

  /**
   * One phi of `_sweep_circuits`: every circuit of the map bound to the phi
   * and run as a job of its own; the first failing job raises, since the
   * mock's failure is a generic `QiskitError`.
   */
  method SweepAngle<P, C>(backend: MockSimulator<C>, circuitsMap: ODict<string, P>, bind: (P, real) -> C, phi: real, numShots: nat)
    returns (r: Result<ResultForAngle, LegacyError>)
    requires backend.Valid()
    modifies backend
    ensures backend.Valid()
    ensures old(backend.jobCount) <= backend.jobCount <= old(backend.jobCount) + |circuitsMap|
    ensures forall k :: old(backend.jobCount) <= k < backend.jobCount - 1 ==> k !in backend.failJobIndices
    ensures r.Success? ==>
              && backend.jobCount == old(backend.jobCount) + |circuitsMap|
              && (forall k :: old(backend.jobCount) <= k < backend.jobCount ==> k !in backend.failJobIndices)
              && r.value == SweepEntry(backend, circuitsMap, bind, phi, numShots)
    ensures r.Failure? ==>
              && r.error == UncaughtJobFailure(QiskitFailure)
              && backend.jobCount > old(backend.jobCount)
              && backend.jobCount - 1 in backend.failJobIndices
  {
    var start := backend.jobCount;
    ghost var entry := SweepEntry(backend, circuitsMap, bind, phi, numShots);
    var partial: ODict<string, CircuitResult> := [];
    var n := 0;
    while n < |circuitsMap|
      invariant 0 <= n <= |circuitsMap|
      invariant backend.Valid()
      invariant backend.jobCount == start + n
      invariant forall k :: start <= k < backend.jobCount ==> k !in backend.failJobIndices
      invariant partial == entry.circuitsForAngle[..n]
    {
      var job := backend.Run([bind(circuitsMap[n].1, phi)], numShots);
      if job.outcome.Raises? {
        return Failure(UncaughtJobFailure(job.outcome.kind));
      }
      partial := partial + [(circuitsMap[n].0, CircuitResult(Counted(job.outcome.histograms[0]), None))];
      n := n + 1;
    }
    assert partial == entry.circuitsForAngle;
    return Success(ResultForAngle(phi, partial));
  }

  /** `_sweep_circuits`: the circuits of the map at every phi, phi by phi. */
  method SweepCircuits<P, C>(backend: MockSimulator<C>, circuitsMap: ODict<string, P>, bind: (P, real) -> C, phis: seq<real>, numShots: nat)
    returns (r: Result<seq<ResultForAngle>, LegacyError>)
    requires backend.Valid()
    modifies backend
    ensures backend.Valid()
    ensures old(backend.jobCount) <= backend.jobCount <= old(backend.jobCount) + |phis| * |circuitsMap|
    ensures forall k :: old(backend.jobCount) <= k < backend.jobCount - 1 ==> k !in backend.failJobIndices
    ensures r.Success? ==>
              && backend.jobCount == old(backend.jobCount) + |phis| * |circuitsMap|
              && (forall k :: old(backend.jobCount) <= k < backend.jobCount ==> k !in backend.failJobIndices)
              && |r.value| == |phis|
              && forall j :: 0 <= j < |phis| ==> r.value[j] == SweepEntry(backend, circuitsMap, bind, phis[j], numShots)
    ensures r.Failure? ==>
              && r.error == UncaughtJobFailure(QiskitFailure)
              && backend.jobCount > old(backend.jobCount)
              && backend.jobCount - 1 in backend.failJobIndices
  {
    var start := backend.jobCount;
    var m := |circuitsMap|;
    var results: seq<ResultForAngle> := [];
    var j := 0;
    while j < |phis|
      invariant 0 <= j <= |phis|
      invariant backend.Valid()
      invariant backend.jobCount == start + j * m
      invariant forall k :: start <= k < backend.jobCount ==> k !in backend.failJobIndices
      invariant |results| == j
      invariant forall j' :: 0 <= j' < j ==> results[j'] == SweepEntry(backend, circuitsMap, bind, phis[j'], numShots)
    {
      assert (j + 1) * m == j * m + m;
      MonotoneProduct(j + 1, |phis|, m);
      var entry := SweepAngle(backend, circuitsMap, bind, phis[j], numShots);
      if entry.Failure? {
        return Failure(entry.error);
      }
      results := results + [entry.value];
      j := j + 1;
    }
    MonotoneProduct(j, |phis|, m);
    return Success(results);
  }

  /** A pair's sweep: its qubits, one entry per phi in order, each holding every circuit of the pair's map. */
  predicate SweptPair(result: PairResult, pair: QubitsPair, phis: seq<real>, names: seq<string>)
  {
    && result.target == pair.target && result.ancilla == pair.ancilla
    && |result.measurementCounts| == |phis|
    && forall j :: 0 <= j < |phis| ==>
         result.measurementCounts[j].phi == phis[j] && Keys(result.measurementCounts[j].circuitsForAngle) == names
  }

  /**
   * `_run_experiment_synchronously`: one sweep per qubit pair, with the
   * direct-sum circuits when the method is exactly "direct_sum" and the
   * postselection circuits otherwise.
   */
  method RunExperimentSynchronously<P, C>(
    backend: MockSimulator<C>, experiment: FourierExperimentSet, phis: seq<real>,
    postselection: ER.Assembler<P>, directSum: ER.Assembler<P>, bind: (P, real) -> C)
    returns (r: Result<seq<PairResult>, LegacyError>)
    requires backend.Valid()
    modifies backend
    ensures backend.Valid()
    ensures var assemble := if experiment.methodName == DirectSumMethod then directSum else postselection;
            r.Success? ==>
              && |r.value| == |experiment.qubits|
              && forall i :: 0 <= i < |experiment.qubits| ==> SweptPair(r.value[i], experiment.qubits[i], phis, Keys(assemble(experiment.qubits[i].target, experiment.qubits[i].ancilla)))
    ensures r.Success? ==> forall k :: old(backend.jobCount) <= k < backend.jobCount ==> k !in backend.failJobIndices
    ensures r.Failure? ==>
              && r.error == UncaughtJobFailure(QiskitFailure)
              && backend.jobCount > old(backend.jobCount)
              && backend.jobCount - 1 in backend.failJobIndices
              && forall k :: old(backend.jobCount) <= k < backend.jobCount - 1 ==> k !in backend.failJobIndices
  {
    var assemble := if experiment.methodName == DirectSumMethod then directSum else postselection;
    var results: seq<PairResult> := [];
    var i := 0;
    while i < |experiment.qubits|
      invariant 0 <= i <= |experiment.qubits|
      invariant backend.Valid()
      invariant |results| == i
      invariant forall i' :: 0 <= i' < i ==> SweptPair(results[i'], experiment.qubits[i'], phis, Keys(assemble(experiment.qubits[i'].target, experiment.qubits[i'].ancilla)))
      invariant old(backend.jobCount) <= backend.jobCount
      invariant forall k :: old(backend.jobCount) <= k < backend.jobCount ==> k !in backend.failJobIndices
    {
      var pair := experiment.qubits[i];
      var sweep := SweepCircuits(backend, assemble(pair.target, pair.ancilla), bind, phis, experiment.numShots);
      if sweep.Failure? {
        return Failure(sweep.error);
      }
      assert SweptPair(PairResult(pair.target, pair.ancilla, sweep.value), pair, phis, Keys(assemble(pair.target, pair.ancilla)));
      results := results + [PairResult(pair.target, pair.ancilla, sweep.value)];
      i := i + 1;
    }
    return Success(results);
  }

  // ---------------------------------------------------------------- asynchronous run

  /** The circuits of one pair: phi by phi, each phi's circuits in the assembler's order. */
  function PairCircuits<P, C>(pair: QubitsPair, phis: seq<real>, assemble: ER.Assembler<P>, bind: (P, real) -> C): seq<(C, CircuitKey)>
  {
    if |phis| == 0 then []
    else ER.LabelCircuits(Label(pair.target, pair.ancilla, phis[0]), assemble(pair.target, pair.ancilla), bind)
         + PairCircuits(pair, phis[1..], assemble, bind)
  }

  /** `circuit_key_pairs` of this runner: pair-major, then phi, then circuit name. */
  function SweepKeyPairs<P, C>(qubits: seq<QubitsPair>, phis: seq<real>, assemble: ER.Assembler<P>, bind: (P, real) -> C): seq<(C, CircuitKey)>
  {
    if |qubits| == 0 then [] else PairCircuits(qubits[0], phis, assemble, bind) + SweepKeyPairs(qubits[1..], phis, assemble, bind)
  }

  /**
   * `_collect_circuits_and_keys` of this runner, with the unpacking its
   * caller does: no circuits cannot be unpacked into circuits and keys.
   */
  function CollectCircuitsAndKeys<P, C>(
    experiment: FourierExperimentSet, phis: seq<real>,
    postselection: ER.Assembler<P>, directSum: ER.Assembler<P>, bind: (P, real) -> C): Result<(seq<C>, seq<CircuitKey>), LegacyError>
  {
    var assemble := if experiment.methodName == PostselectionMethod then postselection else directSum;
    var pairs := SweepKeyPairs(experiment.qubits, phis, assemble, bind);
    if |pairs| == 0 then Failure(NothingToUnpack) else Success((Keys(pairs), Values(pairs)))
  }

  /**
   * Both runners submit the same circuits with the same keys in the same
   * order: nesting pair, phi and circuit name gives what enumerating the
   * labels and then the circuit names gives.
   */
  lemma {:induction false} SweepKeyPairsAreLabelMajor<P, C>(qubits: seq<QubitsPair>, phis: seq<real>, assemble: ER.Assembler<P>, bind: (P, real) -> C)
    ensures SweepKeyPairs(qubits, phis, assemble, bind) == ER.CircuitKeyPairs(EnumerateExperimentLabels(qubits, phis), assemble, bind)
  {
    if |qubits| > 0 {
      SweepKeyPairsAreLabelMajor(qubits[1..], phis, assemble, bind);
      CircuitKeyPairsAppend(PairLabels(qubits[0], phis), EnumerateExperimentLabels(qubits[1..], phis), assemble, bind);
      PairCircuitsAreLabelled(qubits[0], phis, assemble, bind);
    }
  }

  lemma {:induction false} CircuitKeyPairsAppend<P, C>(a: seq<Label>, b: seq<Label>, assemble: ER.Assembler<P>, bind: (P, real) -> C)
    ensures ER.CircuitKeyPairs(a + b, assemble, bind) == ER.CircuitKeyPairs(a, assemble, bind) + ER.CircuitKeyPairs(b, assemble, bind)
  {
    if |a| > 0 {
      assert (a + b)[0] == a[0];
      assert (a + b)[1..] == a[1..] + b;
      CircuitKeyPairsAppend(a[1..], b, assemble, bind);
    } else {
      assert a + b == b;
    }
  }

  lemma {:induction false} PairCircuitsAreLabelled<P, C>(pair: QubitsPair, phis: seq<real>, assemble: ER.Assembler<P>, bind: (P, real) -> C)
    ensures PairCircuits(pair, phis, assemble, bind) == ER.CircuitKeyPairs(PairLabels(pair, phis), assemble, bind)
  {
    if |phis| > 0 {
      PairCircuitsAreLabelled(pair, phis[1..], assemble, bind);
      assert PairLabels(pair, phis)[1..] == PairLabels(pair, phis[1..]);
    }
  }

  /** Both runners collect the same circuits and keys, and fail alike when there are none. */
  lemma RunnersCollectAlike<P, C>(
    experiment: FourierExperimentSet, phis: seq<real>,
    postselection: ER.Assembler<P>, directSum: ER.Assembler<P>, bind: (P, real) -> C)
    ensures var legacy := CollectCircuitsAndKeys(experiment, phis, postselection, directSum, bind);
            var current := ER.CollectCircuitsAndKeys(experiment, phis, postselection, directSum, bind);
            && (legacy.Success? <==> current.Success?)
            && (legacy.Success? ==> legacy.value == current.value)
  {
    var assemble := if experiment.methodName == PostselectionMethod then postselection else directSum;
    SweepKeyPairsAreLabelMajor(experiment.qubits, phis, assemble, bind);
  }

  /**
   * `_run_experiment_asynchronously`: collect, submit the batches the
   * backend's circuit limit allows, and record one `BatchResult` per batch.
   */
  method RunExperimentAsynchronously<P, C>(
    backend: MockSimulator<C>, info: Limits.BackendInfo, experiment: FourierExperimentSet, phis: seq<real>,
    postselection: ER.Assembler<P>, directSum: ER.Assembler<P>, bind: (P, real) -> C)
    returns (r: Result<seq<BatchResult>, LegacyError>)
    requires backend.Valid()
    modifies backend
    ensures backend.Valid()
    ensures var collected := CollectCircuitsAndKeys(experiment, phis, postselection, directSum, bind);
            var limits := Limits.GetLimits(info);
            && (collected.Failure? ==> r == Failure(NothingToUnpack) && backend.jobCount == old(backend.jobCount))
            && (collected.Success? && limits.Failure? ==> r == Failure(LimitsFailure(limits.error)) && backend.jobCount == old(backend.jobCount))
            && (collected.Success? && limits.Success? ==>
                  var bs := Batches(collected.value.0, collected.value.1, limits.value.maxCircuits);
                  && (bs.Failure? ==> r == Failure(BatchingFailure(bs.error)) && backend.jobCount == old(backend.jobCount))
                  && (bs.Success? ==>
                        && backend.jobCount == old(backend.jobCount) + |bs.value|
                        && r == Success(ER.AsyncData(Submitted(backend, old(backend.jobCount), bs.value, experiment.numShots)))))
  {
    var collected := CollectCircuitsAndKeys(experiment, phis, postselection, directSum, bind);
    if collected.Failure? {
      return Failure(collected.error);
    }
    var (circuits, keys) := collected.value;
    var limits := Limits.GetLimits(info);
    if limits.Failure? {
      return Failure(LimitsFailure(limits.error));
    }
    var start := backend.jobCount;
    var batches := ExecuteInBatches(backend, circuits, keys, experiment.numShots, limits.value.maxCircuits);
    if batches.Failure? {
      return Failure(BatchingFailure(batches.error));
    }
    assert batches.value == Submitted(backend, start, Batches(circuits, keys, limits.value.maxCircuits).value, experiment.numShots);
    r := Success(ER.AsyncData(batches.value));
  }

  /** `run_experiment` of this runner: the asynchronous data or the synchronous sweep results, as file entries. */
  method RunExperiment<P, C>(
    backend: MockSimulator<C>, info: Limits.BackendInfo, asynchronous: bool, experiment: FourierExperimentSet, phis: seq<real>,
    postselection: ER.Assembler<P>, directSum: ER.Assembler<P>, bind: (P, real) -> C)
    returns (r: Result<seq<Entry>, LegacyError>)
    requires backend.Valid()
    modifies backend
    ensures backend.Valid()
    ensures r.Success? && asynchronous ==> forall i :: 0 <= i < |r.value| ==> r.value[i].AsyncEntry?
    ensures r.Success? && !asynchronous ==> |r.value| == |experiment.qubits| && forall i :: 0 <= i < |r.value| ==> r.value[i].SyncEntry?
  {
    if asynchronous {
      var batches := RunExperimentAsynchronously(backend, info, experiment, phis, postselection, directSum, bind);
      if batches.Failure? {
        return Failure(batches.error);
      }
      r := Success(seq(|batches.value|, i requires 0 <= i < |batches.value| => AsyncEntry(batches.value[i])));
    } else {
      var results := RunExperimentSynchronously(backend, experiment, phis, postselection, directSum, bind);
      if results.Failure? {
        return Failure(results.error);
      }
      r := Success(seq(|results.value|, i requires 0 <= i < |results.value| => SyncEntry(results.value[i])));
    }
  }

  // ---------------------------------------------------------------- statuses

  /** `fetch_statuses` of this runner: the tally of the new runner, for files of asynchronous data only. */
  function FetchStatuses(entries: seq<Entry>, store: JobStore): (r: Result<ODict<string, nat>, LegacyError>)
    ensures r == Failure(SynchronousResults) <==> exists i :: 0 <= i < |entries| && entries[i].SyncEntry?
    ensures r.Success? ==> SumValues(r.value) == |entries|
    ensures (forall i :: 0 <= i < |entries| ==> entries[i].AsyncEntry? && entries[i].batch.jobId in store) ==> r.Success?
  {
    match VerifyResultsAreAsyncOrFail(entries)
    case Failure(e) => Failure(e)
    case Success(batches) =>
      match ER.FetchStatuses(batches, store)
      case Failure(e) => Failure(RetrievalFailure(e))
      case Success(tally) =>
        ER.StatusTally(batches, store, Done);
        Success(tally)
  }

  // ---------------------------------------------------------------- resolving asynchronous data

  /** The text written for a job whose result raised `IBMQJobFailureError`, here naming the job. */
  const PlaceholderPrefix: string := "Failed IBMQJobFailureError for job "

  function PlaceholderMessage(jobId: string): (s: string)
    ensures |s| == |PlaceholderPrefix| + |jobId| && s[..|PlaceholderPrefix|] == PlaceholderPrefix && s[|PlaceholderPrefix|..] == jobId
  {
    PlaceholderPrefix + jobId
  }

  /** Distinct jobs leave distinct placeholders, so a reader can tell which job failed. */
  lemma PlaceholderNamesJob(a: string, b: string)
    ensures PlaceholderMessage(a) == PlaceholderMessage(b) <==> a == b
  {
    if PlaceholderMessage(a) == PlaceholderMessage(b) {
      assert a == PlaceholderMessage(a)[|PlaceholderPrefix|..];
    }
  }

  /** The placeholder as the source writes it: a plain string, so the braces are kept literally. */
  function PlaceholderAsWritten(jobId: string): (s: string)
    ensures |s| == |PlaceholderPrefix| + 14 && s[..|PlaceholderPrefix|] == PlaceholderPrefix
  {
    PlaceholderPrefix + "{job.job_id()}"
  }

  /** As written, the placeholders of two different jobs are the same text. */
  lemma PlaceholderAsWrittenLosesJobId(a: string, b: string)
    requires a != b
    ensures PlaceholderAsWritten(a) == PlaceholderAsWritten(b)
    ensures PlaceholderMessage(a) != PlaceholderMessage(b)
  {
    PlaceholderNamesJob(a, b);
  }

  /** The calibration of both qubits when the job has properties; a qubit the properties lack raises. */
  function WithMitigationInfo(job: Job, target: int, ancilla: int, measured: Measured): (r: Result<CircuitResult, LegacyError>)
    ensures job.properties.None? ==> r == Success(CircuitResult(measured, None))
    ensures job.properties.Some? ==>
              (r.Success? <==> target in job.properties.value && ancilla in job.properties.value)
    ensures r.Success? ==> r.value.histogram == measured && (r.value.mitigationInfo.Some? <==> job.properties.Some?)
    ensures r.Success? && job.properties.Some? ==>
              r.value.mitigationInfo == Some(MitigationInfo(FromJobProperties(job.properties.value, target).value,
                                                            FromJobProperties(job.properties.value, ancilla).value))
  {
    match job.properties
    case None => Success(CircuitResult(measured, None))
    case Some(props) =>
      match FromJobProperties(props, target)
      case Failure(e) => Failure(QubitPropertyFailure(e))
      case Success(t) =>
        match FromJobProperties(props, ancilla)
        case Failure(e) => Failure(QubitPropertyFailure(e))
        case Success(a) => Success(CircuitResult(measured, Some(MitigationInfo(t, a))))
  }

  /**
   * `_extract_result_from_job` of this runner: the `i`-th histogram, or the
   * placeholder when reading it raises `IBMQJobFailureError`; any other
   * failure propagates. The calibration is added in both cases.
   */
  function ExtractResultFromJob(job: Job, target: int, ancilla: int, i: nat): (r: Result<CircuitResult, LegacyError>)
    ensures job.outcome == Raises(QiskitFailure) ==> r == Failure(UncaughtJobFailure(QiskitFailure))
    ensures job.outcome == Raises(IBMQJobFailure) ==> r == WithMitigationInfo(job, target, ancilla, Placeholder(PlaceholderMessage(job.id)))
    ensures job.outcome.Counts? && i >= |job.outcome.histograms| ==> r == Failure(CountsIndexError)
    ensures job.outcome.Counts? && i < |job.outcome.histograms| ==> r == WithMitigationInfo(job, target, ancilla, Counted(job.outcome.histograms[i]))
  {
    match job.outcome
    case Raises(IBMQJobFailure) => WithMitigationInfo(job, target, ancilla, Placeholder(PlaceholderMessage(job.id)))
    case Raises(QiskitFailure) => Failure(UncaughtJobFailure(QiskitFailure))
    case Counts(histograms) =>
      if i >= |histograms| then Failure(CountsIndexError)
      else WithMitigationInfo(job, target, ancilla, Counted(histograms[i]))
  }

  /** The result of the `q`-th key of an entry: its job looked up, then the `q`-th histogram read. */
  function TupleAt(entry: BatchResult, mapping: map<string, Job>, q: nat): Result<CircuitResult, LegacyError>
    requires q < |entry.keys|
  {
    if entry.jobId !in mapping then Failure(UnmappedJob(entry.jobId))
    else ExtractResultFromJob(mapping[entry.jobId], entry.keys[q].target, entry.keys[q].ancilla, q)
  }

  /**
   * The tuples of one entry from its `i`-th key on; the job is looked up once
   * per key, so an entry without keys never looks its job up.
   */
  function EntryTuples(entry: BatchResult, mapping: map<string, Job>, i: nat): (r: Result<seq<(CircuitKey, CircuitResult)>, LegacyError>)
    requires i <= |entry.keys|
    ensures r.Success? ==> |r.value| == |entry.keys| - i && forall p :: 0 <= p < |r.value| ==> r.value[p].0 == entry.keys[i + p]
    ensures i < |entry.keys| && entry.jobId !in mapping ==> r == Failure(UnmappedJob(entry.jobId))
    decreases |entry.keys| - i
  {
    if i >= |entry.keys| then Success([])
    else if entry.jobId !in mapping then Failure(UnmappedJob(entry.jobId))
    else
      var key := entry.keys[i];
      match ExtractResultFromJob(mapping[entry.jobId], key.target, key.ancilla, i)
      case Failure(e) => Failure(e)
      case Success(res) =>
        match EntryTuples(entry, mapping, i + 1)
        case Failure(e) => Failure(e)
        case Success(rest) => Success([(key, res)] + rest)
  }

  /**
   * Each tuple of an entry holds the extraction of its own key's histogram from
   * the entry's job; the entry fails exactly when one of its keys does, with the
   * error of the first such key.
   */
  lemma {:induction false} EntryTuplesExtract(entry: BatchResult, mapping: map<string, Job>, i: nat)
    requires i <= |entry.keys|
    ensures var r := EntryTuples(entry, mapping, i);
            && (r.Success? <==> forall q :: i <= q < |entry.keys| ==> TupleAt(entry, mapping, q).Success?)
            && (r.Success? ==>
                  forall p :: 0 <= p < |r.value| ==>
                    && entry.jobId in mapping
                    && ExtractResultFromJob(mapping[entry.jobId], entry.keys[i + p].target, entry.keys[i + p].ancilla, i + p)
                         == Success(r.value[p].1))
            && (r.Failure? ==>
                  exists q :: i <= q < |entry.keys| && TupleAt(entry, mapping, q) == Failure(r.error) &&
                              forall q' :: i <= q' < q ==> TupleAt(entry, mapping, q').Success?)
    decreases |entry.keys| - i
  {
    var r := EntryTuples(entry, mapping, i);
    if i < |entry.keys| {
      assert TupleAt(entry, mapping, i).Failure? ==> r == Failure(TupleAt(entry, mapping, i).error);
      if TupleAt(entry, mapping, i).Success? {
        var key := entry.keys[i];
        var head := ExtractResultFromJob(mapping[entry.jobId], key.target, key.ancilla, i);
        var rest := EntryTuples(entry, mapping, i + 1);
        EntryTuplesExtract(entry, mapping, i + 1);
        if rest.Success? {
          assert r.value == [(key, head.value)] + rest.value;
          forall p | 0 <= p < |r.value|
            ensures ExtractResultFromJob(mapping[entry.jobId], entry.keys[i + p].target, entry.keys[i + p].ancilla, i + p)
                      == Success(r.value[p].1)
          {
            if p > 0 {
              assert r.value[p] == rest.value[p - 1];
            }
          }
        } else {
          assert r == rest;
          var q :| i + 1 <= q < |entry.keys| && TupleAt(entry, mapping, q) == Failure(rest.error) &&
                  forall q' :: i + 1 <= q' < q ==> TupleAt(entry, mapping, q').Success?;
          assert forall q' :: i <= q' < q ==> TupleAt(entry, mapping, q').Success?;
        }
      }
    }
  }

  /** The result of every key of the data, batch after batch. */
  function Outcomes(data: seq<BatchResult>, mapping: map<string, Job>): (o: seq<Result<CircuitResult, LegacyError>>)
    ensures |o| == |DataKeys(data)|
  {
    if |data| == 0 then []
    else EntryOutcomes(data[0], mapping) + Outcomes(data[1..], mapping)
  }

  /** The result of every key of one entry, in order. */
  function EntryOutcomes(entry: BatchResult, mapping: map<string, Job>): (o: seq<Result<CircuitResult, LegacyError>>)
    ensures |o| == |entry.keys|
  {
    seq(|entry.keys|, q requires 0 <= q < |entry.keys| => TupleAt(entry, mapping, q))
  }

  /**
   * `result_tuples`: every key of every entry with its result, in order; the
   * first error propagates.
   */
  function ResultTuples(data: seq<BatchResult>, mapping: map<string, Job>): (r: Result<seq<(CircuitKey, CircuitResult)>, LegacyError>)
    ensures r.Success? ==> Keys(r.value) == DataKeys(data)
  {
    if |data| == 0 then Success([])
    else
      match EntryTuples(data[0], mapping, 0)
      case Failure(e) => Failure(e)
      case Success(head) =>
        match ResultTuples(data[1..], mapping)
        case Failure(e) => Failure(e)
        case Success(rest) =>
          assert Keys(head) == data[0].keys;
          assert Keys(head + rest) == Keys(head) + Keys(rest);
          Success(head + rest)
  }

  /** Every key of the data, batch after batch. */
  function DataKeys(data: seq<BatchResult>): seq<CircuitKey>
  {
    if |data| == 0 then [] else data[0].keys + DataKeys(data[1..])
  }

  /**
   * The tuples `r` hold, key by key, the results `o` of the keys `keys`: they
   * exist exactly when every result does, and otherwise carry the first error.
   */
  predicate OutcomesAgree(r: Result<seq<(CircuitKey, CircuitResult)>, LegacyError>, o: seq<Result<CircuitResult, LegacyError>>,
                          keys: seq<CircuitKey>)
  {
    && (r.Success? <==> forall n :: 0 <= n < |o| ==> o[n].Success?)
    && (r.Success? ==>
          && |r.value| == |o| == |keys|
          && forall n :: 0 <= n < |r.value| ==> r.value[n] == (keys[n], o[n].value))
    && (r.Failure? ==>
          exists n :: 0 <= n < |o| && o[n] == Failure(r.error) && forall n' :: 0 <= n' < n ==> o[n'].Success?)
  }

  /** The tuples of one entry from its first key agree with the results of its keys. */
  lemma EntryTuplesAgree(entry: BatchResult, mapping: map<string, Job>)
    ensures OutcomesAgree(EntryTuples(entry, mapping, 0), EntryOutcomes(entry, mapping), entry.keys)
  {
    var r := EntryTuples(entry, mapping, 0);
    var o := EntryOutcomes(entry, mapping);
    EntryTuplesExtract(entry, mapping, 0);
    if r.Success? {
      forall n | 0 <= n < |r.value|
        ensures r.value[n] == (entry.keys[n], o[n].value)
      {
        assert o[n] == TupleAt(entry, mapping, n);
      }
    } else {
      var q :| 0 <= q < |entry.keys| && TupleAt(entry, mapping, q) == Failure(r.error) &&
              forall q' :: 0 <= q' < q ==> TupleAt(entry, mapping, q').Success?;
      assert o[q] == TupleAt(entry, mapping, q);
    }
  }

  /** Joining two tuple sequences the way `ResultTuples` does: the first error wins. */
  function JoinTuples(a: Result<seq<(CircuitKey, CircuitResult)>, LegacyError>, b: Result<seq<(CircuitKey, CircuitResult)>, LegacyError>)
    : Result<seq<(CircuitKey, CircuitResult)>, LegacyError>
  {
    if a.Failure? then a else if b.Failure? then b else Success(a.value + b.value)
  }

  /** Agreement survives joining, batch after batch. */
  lemma JoinAgrees(a: Result<seq<(CircuitKey, CircuitResult)>, LegacyError>, oa: seq<Result<CircuitResult, LegacyError>>, ka: seq<CircuitKey>,
                   b: Result<seq<(CircuitKey, CircuitResult)>, LegacyError>, ob: seq<Result<CircuitResult, LegacyError>>, kb: seq<CircuitKey>)
    requires OutcomesAgree(a, oa, ka) && OutcomesAgree(b, ob, kb)
    ensures OutcomesAgree(JoinTuples(a, b), oa + ob, ka + kb)
  {
    var o := oa + ob;
    if a.Failure? {
      var m :| 0 <= m < |oa| && oa[m] == Failure(a.error) && forall n' :: 0 <= n' < m ==> oa[n'].Success?;
      assert o[m] == oa[m];
      assert forall n' :: 0 <= n' < m ==> o[n'] == oa[n'];
    } else if b.Failure? {
      var m :| 0 <= m < |ob| && ob[m] == Failure(b.error) && forall n' :: 0 <= n' < m ==> ob[n'].Success?;
      assert o[|oa| + m] == ob[m];
      forall n' | 0 <= n' < |oa| + m
        ensures o[n'].Success?
      {
        if n' < |oa| {
          assert o[n'] == oa[n'];
        } else {
          assert o[n'] == ob[n' - |oa|];
        }
      }
    } else {
      var r := a.value + b.value;
      var keys := ka + kb;
      forall n | 0 <= n < |o|
        ensures o[n].Success?
      {
        if n < |oa| {
          assert o[n] == oa[n];
        } else {
          assert o[n] == ob[n - |oa|];
        }
      }
      forall n | 0 <= n < |r|
        ensures r[n] == (keys[n], o[n].value)
      {
        if n < |oa| {
          assert r[n] == a.value[n] && o[n] == oa[n] && keys[n] == ka[n];
        } else {
          assert r[n] == b.value[n - |oa|] && o[n] == ob[n - |oa|] && keys[n] == kb[n - |oa|];
        }
      }
    }
  }

  /**
   * Each tuple of the data holds the result of its own key, and the data fails
   * exactly when one of its keys does, with the error of the first such key.
   */
  lemma {:induction false} ResultTuplesAreOutcomes(data: seq<BatchResult>, mapping: map<string, Job>)
    ensures OutcomesAgree(ResultTuples(data, mapping), Outcomes(data, mapping), DataKeys(data))
  {
    if |data| > 0 {
      var head := EntryTuples(data[0], mapping, 0);
      var rest := ResultTuples(data[1..], mapping);
      assert ResultTuples(data, mapping) == JoinTuples(head, rest);
      EntryTuplesAgree(data[0], mapping);
      ResultTuplesAreOutcomes(data[1..], mapping);
      JoinAgrees(head, EntryOutcomes(data[0], mapping), data[0].keys, rest, Outcomes(data[1..], mapping), DataKeys(data[1..]));
    }
  }

  /**
   * The `q`-th key of batch `b` sits after the keys of the batches before it,
   * and its outcome is that key's own lookup and extraction.
   */
  lemma {:induction false} OutcomeAt(data: seq<BatchResult>, mapping: map<string, Job>, b: nat, q: nat)
    requires b < |data| && q < |data[b].keys|
    ensures var n := |DataKeys(data[..b])| + q;
            && n < |DataKeys(data)|
            && DataKeys(data)[n] == data[b].keys[q]
            && Outcomes(data, mapping)[n] == TupleAt(data[b], mapping, q)
  {
    if b > 0 {
      OutcomeAt(data[1..], mapping, b - 1, q);
      assert data[..b][1..] == data[1..][..b - 1];
    }
  }

  // ---------------------------------------------------------------- nested regrouping

  type ByName = ODict<string, CircuitResult>
  type ByPhi = ODict<real, ByName>
  type Regrouped = ODict<(int, int), ByPhi>

  /** `result_dict[(target, ancilla)][phi][name] = counts`. */
  function Store(d: Regrouped, key: CircuitKey, counts: CircuitResult): Regrouped
  {
    var pair := (key.target, key.ancilla);
    var byPhi := GetOr(d, pair, []);
    var byName := GetOr(byPhi, key.phi, []);
    Assign(d, pair, Assign(byPhi, key.phi, Assign(byName, key.name, counts)))
  }

  /** The regrouping after storing every tuple in order. */
  function Regroup(tuples: seq<(CircuitKey, CircuitResult)>): Regrouped
  {
    if |tuples| == 0 then []
    else Store(Regroup(tuples[..|tuples| - 1]), tuples[|tuples| - 1].0, tuples[|tuples| - 1].1)
  }

  /** The regrouping's nested lookup of one key. */
  function Find(d: Regrouped, key: CircuitKey): Option<CircuitResult>
  {
    match Lookup(d, (key.target, key.ancilla))
    case None => None
    case Some(byPhi) =>
      match Lookup(byPhi, key.phi)
      case None => None
      case Some(byName) => Lookup(byName, key.name)
  }

  /** The result stored last under `key`. */
  function LastFor(tuples: seq<(CircuitKey, CircuitResult)>, key: CircuitKey): Option<CircuitResult>
  {
    if |tuples| == 0 then None
    else if tuples[|tuples| - 1].0 == key then Some(tuples[|tuples| - 1].1)
    else LastFor(tuples[..|tuples| - 1], key)
  }

  function PairsOf(tuples: seq<(CircuitKey, CircuitResult)>): (ps: seq<(int, int)>)
    ensures |ps| == |tuples| && forall i :: 0 <= i < |tuples| ==> ps[i] == (tuples[i].0.target, tuples[i].0.ancilla)
  {
    seq(|tuples|, i requires 0 <= i < |tuples| => (tuples[i].0.target, tuples[i].0.ancilla))
  }

  /** Storing one key changes its pair's entry, its phi's entry within that pair and its name's slot, and nothing else. */
  lemma StoreSpec(d: Regrouped, key: CircuitKey, counts: CircuitResult)
    ensures var pair := (key.target, key.ancilla);
            var byPhi := GetOr(d, pair, []);
            var byName := GetOr(byPhi, key.phi, []);
            var e := Store(d, key, counts);
            && Keys(e) == (if pair in Keys(d) then Keys(d) else Keys(d) + [pair])
            && (forall p :: p != pair ==> Lookup(e, p) == Lookup(d, p))
            && Lookup(e, pair) == Some(Assign(byPhi, key.phi, Assign(byName, key.name, counts)))
  {
    var pair := (key.target, key.ancilla);
    var byPhi := GetOr(d, pair, []);
    var byName := GetOr(byPhi, key.phi, []);
    AssignSpec(d, pair, Assign(byPhi, key.phi, Assign(byName, key.name, counts)));
  }

  /** Every key finds the result stored last under it, so a repeated key overwrites the earlier one; other keys find nothing. */
  lemma {:induction false} RegroupFindsLast(tuples: seq<(CircuitKey, CircuitResult)>, key: CircuitKey)
    ensures Find(Regroup(tuples), key) == LastFor(tuples, key)
  {
    if |tuples| > 0 {
      var init := tuples[..|tuples| - 1];
      var k := tuples[|tuples| - 1].0;
      var counts := tuples[|tuples| - 1].1;
      RegroupFindsLast(init, key);
      var d := Regroup(init);
      assert Regroup(tuples) == Store(d, k, counts);
      StoreSpec(d, k, counts);
      var byPhi := GetOr(d, (k.target, k.ancilla), []);
      var byName := GetOr(byPhi, k.phi, []);
      AssignSpec(byName, k.name, counts);
      AssignSpec(byPhi, k.phi, Assign(byName, k.name, counts));
    }
  }

  /** One top-level entry per distinct qubit pair, in order of first appearance. */
  lemma {:induction false} RegroupPairs(tuples: seq<(CircuitKey, CircuitResult)>)
    ensures Keys(Regroup(tuples)) == Dedup(PairsOf(tuples))
  {
    if |tuples| > 0 {
      var init := tuples[..|tuples| - 1];
      var k := tuples[|tuples| - 1].0;
      var counts := tuples[|tuples| - 1].1;
      RegroupPairs(init);
      var d := Regroup(init);
      assert Regroup(tuples) == Store(d, k, counts);
      StoreSpec(d, k, counts);
      var pair := (k.target, k.ancilla);
      assert PairsOf(tuples) == PairsOf(init) + [pair];
      DedupSnoc(PairsOf(init), pair);
    }
  }

  /** The phis stored for a pair, in order. */
  function PhisFor(tuples: seq<(CircuitKey, CircuitResult)>, pair: (int, int)): seq<real>
  {
    if |tuples| == 0 then []
    else
      var k := tuples[|tuples| - 1].0;
      PhisFor(tuples[..|tuples| - 1], pair) + (if (k.target, k.ancilla) == pair then [k.phi] else [])
  }

  /** Within a pair, one entry per distinct phi, in order of first appearance. */
  lemma {:induction false} RegroupPhis(tuples: seq<(CircuitKey, CircuitResult)>, pair: (int, int))
    ensures Keys(GetOr(Regroup(tuples), pair, [])) == Dedup(PhisFor(tuples, pair))
  {
    if |tuples| > 0 {
      var init := tuples[..|tuples| - 1];
      var k := tuples[|tuples| - 1].0;
      var counts := tuples[|tuples| - 1].1;
      RegroupPhis(init, pair);
      var d := Regroup(init);
      assert Regroup(tuples) == Store(d, k, counts);
      StoreSpec(d, k, counts);
      if (k.target, k.ancilla) == pair {
        var byPhi := GetOr(d, pair, []);
        var byName := GetOr(byPhi, k.phi, []);
        AssignSpec(byPhi, k.phi, Assign(byName, k.name, counts));
        DedupSnoc(PhisFor(init, pair), k.phi);
      } else {
        assert PhisFor(tuples, pair) == PhisFor(init, pair);
      }
    }
  }

  /** The names stored for a pair and a phi, in order. */
  function NamesFor(tuples: seq<(CircuitKey, CircuitResult)>, pair: (int, int), phi: real): seq<string>
  {
    if |tuples| == 0 then []
    else
      var k := tuples[|tuples| - 1].0;
      NamesFor(tuples[..|tuples| - 1], pair, phi) + (if (k.target, k.ancilla) == pair && k.phi == phi then [k.name] else [])
  }

  /** Within a pair and a phi, one slot per distinct circuit name, in order of first appearance. */
  lemma {:induction false} RegroupNames(tuples: seq<(CircuitKey, CircuitResult)>, pair: (int, int), phi: real)
    ensures Keys(GetOr(GetOr(Regroup(tuples), pair, []), phi, [])) == Dedup(NamesFor(tuples, pair, phi))
  {
    if |tuples| > 0 {
      var init := tuples[..|tuples| - 1];
      var k := tuples[|tuples| - 1].0;
      var counts := tuples[|tuples| - 1].1;
      RegroupNames(init, pair, phi);
      var d := Regroup(init);
      assert Regroup(tuples) == Store(d, k, counts);
      StoreSpec(d, k, counts);
      if (k.target, k.ancilla) == pair {
        var byPhi := GetOr(d, pair, []);
        var byName := GetOr(byPhi, k.phi, []);
        AssignSpec(byPhi, k.phi, Assign(byName, k.name, counts));
        if k.phi == phi {
          AssignSpec(byName, k.name, counts);
          DedupSnoc(NamesFor(init, pair, phi), k.name);
        } else {
          assert NamesFor(tuples, pair, phi) == NamesFor(init, pair, phi);
        }
      } else {
        assert NamesFor(tuples, pair, phi) == NamesFor(init, pair, phi);
      }
    }
  }

  /** The last result stored under a key that occurs once is the one stored with it. */
  lemma {:induction false} LastForDistinct(tuples: seq<(CircuitKey, CircuitResult)>, p: nat)
    requires Distinct(Keys(tuples)) && p < |tuples|
    ensures LastFor(tuples, tuples[p].0) == Some(tuples[p].1)
  {
    var n := |tuples| - 1;
    if p < n {
      assert Keys(tuples)[p] != Keys(tuples)[n];
      var init := tuples[..n];
      assert Keys(init) == Keys(tuples)[..n];
      LastForDistinct(init, p);
    }
  }

  /** When no key repeats, as when the keys come from one run of the experiment, every key finds its own result. */
  lemma RegroupKeepsDistinctKeys(tuples: seq<(CircuitKey, CircuitResult)>, p: nat)
    requires Distinct(Keys(tuples)) && p < |tuples|
    ensures Find(Regroup(tuples), tuples[p].0) == Some(tuples[p].1)
  {
    RegroupFindsLast(tuples, tuples[p].0);
    LastForDistinct(tuples, p);
  }

  /** `resolved`: one pair result per pair, one entry per phi, each with that phi's circuits by name. */
  function ResolvedEntries(d: Regrouped): (rs: seq<PairResult>)
    ensures |rs| == |d|
    ensures forall g :: 0 <= g < |d| ==>
              && rs[g].target == d[g].0.0 && rs[g].ancilla == d[g].0.1
              && |rs[g].measurementCounts| == |d[g].1|
              && forall f :: 0 <= f < |d[g].1| ==> rs[g].measurementCounts[f] == ResultForAngle(d[g].1[f].0, d[g].1[f].1)
  {
    seq(|d|, g requires 0 <= g < |d| =>
      PairResult(d[g].0.0, d[g].0.1, seq(|d[g].1|, f requires 0 <= f < |d[g].1| => ResultForAngle(d[g].1[f].0, d[g].1[f].1))))
  }

  function AnglesOf(r: PairResult): (phis: seq<real>)
    ensures |phis| == |r.measurementCounts| && forall f :: 0 <= f < |phis| ==> phis[f] == r.measurementCounts[f].phi
  {
    seq(|r.measurementCounts|, f requires 0 <= f < |r.measurementCounts| => r.measurementCounts[f].phi)
  }

  /**
   * The layout of the resolved results: one result per distinct qubit pair
   * in order of first appearance, and within each one entry per distinct phi
   * of that pair in order of first appearance.
   */
  lemma ResolvedLayout(tuples: seq<(CircuitKey, CircuitResult)>)
    ensures var rs := ResolvedEntries(Regroup(tuples));
            var pairs := Dedup(PairsOf(tuples));
            && |rs| == |pairs|
            && forall g :: 0 <= g < |rs| ==>
                 (rs[g].target, rs[g].ancilla) == pairs[g] && AnglesOf(rs[g]) == Dedup(PhisFor(tuples, pairs[g]))
  {
    var d := Regroup(tuples);
    var rs := ResolvedEntries(d);
    RegroupPairs(tuples);
    forall g | 0 <= g < |rs|
      ensures AnglesOf(rs[g]) == Dedup(PhisFor(tuples, d[g].0))
    {
      LookupAt(d, g);
      RegroupPhis(tuples, d[g].0);
      assert AnglesOf(rs[g]) == Keys(d[g].1);
    }
  }

  /** What `resolve_results` of this runner returns for a file's entries and the backend's jobs. */
  function Resolution(entries: seq<Entry>, store: JobStore): Result<seq<PairResult>, LegacyError>
  {
    match VerifyResultsAreAsyncOrFail(entries)
    case Failure(e) => Failure(e)
    case Success(data) =>
      match RetrieveJobs(store, ER.JobIds(data))
      case Failure(e) => Failure(RetrievalFailure(e))
      case Success(jobs) =>
        match ResultTuples(data, ER.JobsById(jobs))
        case Failure(e) => Failure(e)
        case Success(tuples) => Success(ResolvedEntries(Regroup(tuples)))
  }

  /**
   * `resolve_results` of this runner: the tuples of every key, stored one by
   * one into the nested dictionary, then listed pair by pair.
   */
  method ResolveResults(entries: seq<Entry>, store: JobStore) returns (r: Result<seq<PairResult>, LegacyError>)
    ensures r == Resolution(entries, store)
  {
    var data := VerifyResultsAreAsyncOrFail(entries);
    if data.Failure? {
      return Failure(data.error);
    }
    var retrieved := RetrieveJobs(store, ER.JobIds(data.value));
    if retrieved.Failure? {
      return Failure(RetrievalFailure(retrieved.error));
    }
    var jobsMapping := ER.JobsById(retrieved.value);
    var resultTuples := ResultTuples(data.value, jobsMapping);
    if resultTuples.Failure? {
      return Failure(resultTuples.error);
    }
    var tuples := resultTuples.value;
    var resultDict: Regrouped := [];
    var p := 0;
    while p < |tuples|
      invariant 0 <= p <= |tuples|
      invariant resultDict == Regroup(tuples[..p])
    {
      var (key, counts) := tuples[p];
      var pair := (key.target, key.ancilla);
      var byPhi := GetOr(resultDict, pair, []);
      var byName := GetOr(byPhi, key.phi, []);
      resultDict := Assign(resultDict, pair, Assign(byPhi, key.phi, Assign(byName, key.name, counts)));
      assert tuples[..p + 1][..p] == tuples[..p];
      p := p + 1;
    }
    assert tuples[..p] == tuples;
    r := Success(ResolvedEntries(resultDict));
  }
}
