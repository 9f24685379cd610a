/**
 * The Fourier experiment runner: collecting the circuits of an experiment set
 * with their keys, submitting them in batches, resolving the batches' results
 * into one record per label, tallying job statuses, and tabulating the
 * discrimination probabilities.
 */
module ExperimentRunner {
  import opened Wrappers
  import opened PyStrings
  import opened CommonModels
  import opened OrderedDicts
  import opened Jobs
  import opened FourierModels
  import opened Batching
  import opened Testing
  import Limits

  // ---------------------------------------------------------------- collecting circuits

  /** A scheme's circuit assembler: its named circuits for a target and an ancilla. */
  type Assembler<P> = (int, int) -> ODict<string, P>

  /** Unpacking `zip(*pairs)` into two names fails when there are no pairs. */
  datatype CollectError = NothingToUnpack

  /** The circuits of one label, each bound to the label's phi, with their keys, in the assembler's order. */
  function LabelCircuits<P, C>(lab: Label, assembled: ODict<string, P>, bind: (P, real) -> C): (ps: seq<(C, CircuitKey)>)
    ensures |ps| == |assembled|
    ensures forall n :: 0 <= n < |assembled| ==>
              ps[n] == (bind(assembled[n].1, lab.phi), CircuitKey(lab.target, lab.ancilla, assembled[n].0, lab.phi))
  {
    seq(|assembled|, n requires 0 <= n < |assembled| =>
      (bind(assembled[n].1, lab.phi), CircuitKey(lab.target, lab.ancilla, assembled[n].0, lab.phi)))
  }

  /** `circuit_key_pairs`: label-major, then circuit name. */
  function CircuitKeyPairs<P, C>(labels: seq<Label>, assemble: Assembler<P>, bind: (P, real) -> C): seq<(C, CircuitKey)>
  {
    if |labels| == 0 then []
    else LabelCircuits(labels[0], assemble(labels[0].target, labels[0].ancilla), bind) + CircuitKeyPairs(labels[1..], assemble, bind)
  }

  /** Every assembler returns a dictionary, so its circuit names are distinct. */
  ghost predicate AssemblesDictionaries<P>(assemble: Assembler<P>)
  {
    forall t, a :: Distinct(Keys(assemble(t, a)))
  }

  /**
   * `_collect_circuits_and_keys`: the postselection assembler when the
   * method is exactly "postselection", the direct-sum one otherwise; every
   * label's circuits bound to its phi; an experiment without circuits fails
   * to unpack.
   */
  function CollectCircuitsAndKeys<P, C>(
    experiments: FourierExperimentSet, phis: seq<real>,
    postselection: Assembler<P>, directSum: Assembler<P>, bind: (P, real) -> C): (r: Result<(seq<C>, seq<CircuitKey>), CollectError>)
  {
    var assemble := if experiments.methodName == PostselectionMethod then postselection else directSum;
    var pairs := CircuitKeyPairs(EnumerateExperimentLabels(experiments.qubits, phis), assemble, bind);
    if |pairs| == 0 then Failure(NothingToUnpack) else Success((Keys(pairs), Values(pairs)))
  }

  /**
   * Every key names a label of the experiment and a circuit its assembler
   * produces for that label's qubits, and the circuit beside it is that
   * circuit bound to the key's phi; there are no pairs exactly when no label
   * has a circuit.
   */
  lemma {:induction false} CircuitKeyPairsCorrespond<P, C>(labels: seq<Label>, assemble: Assembler<P>, bind: (P, real) -> C)
    requires AssemblesDictionaries(assemble)
    ensures |CircuitKeyPairs(labels, assemble, bind)| == 0 <==>
              forall l :: 0 <= l < |labels| ==> |assemble(labels[l].target, labels[l].ancilla)| == 0
    ensures forall p :: 0 <= p < |CircuitKeyPairs(labels, assemble, bind)| ==>
              KeyNamesCircuit(labels, assemble, bind, CircuitKeyPairs(labels, assemble, bind)[p])
  {
    if |labels| > 0 {
      var lab := labels[0];
      var assembled := assemble(lab.target, lab.ancilla);
      var head := LabelCircuits(lab, assembled, bind);
      var rest := CircuitKeyPairs(labels[1..], assemble, bind);
      CircuitKeyPairsCorrespond(labels[1..], assemble, bind);
      assert CircuitKeyPairs(labels, assemble, bind) == head + rest;
      forall p | 0 <= p < |head + rest|
        ensures KeyNamesCircuit(labels, assemble, bind, (head + rest)[p])
      {
        if p < |head| {
          LookupAt(assembled, p);
          assert LabelOf(head[p].1) == labels[0];
        } else {
          assert (head + rest)[p] == rest[p - |head|];
          assert KeyNamesCircuit(labels[1..], assemble, bind, rest[p - |head|]);
        }
      }
      if |head + rest| == 0 {
        forall l | 0 <= l < |labels|
          ensures |assemble(labels[l].target, labels[l].ancilla)| == 0
        {
          if l > 0 {
            assert labels[l] == labels[1..][l - 1];
          }
        }
      }
    }
  }

  /** A circuit and its key agree: the key's label is one of `labels`, and the circuit is the named one, bound. */
  ghost predicate KeyNamesCircuit<P, C>(labels: seq<Label>, assemble: Assembler<P>, bind: (P, real) -> C, pair: (C, CircuitKey))
  {
    var key := pair.1;
    var named := Lookup(assemble(key.target, key.ancilla), key.name);
    && LabelOf(key) in labels
    && named.Some?
    && pair.0 == bind(named.value, key.phi)
  }

  /**
   * When the assembler names the same circuits for every pair, as both
   * schemes do, the key at `l * |names| + n` is circuit `n` of label `l`.
   */
  lemma KeyAt<P, C>(labels: seq<Label>, assemble: Assembler<P>, bind: (P, real) -> C, names: seq<string>, l: nat, n: nat)
    requires forall t, a :: Keys(assemble(t, a)) == names
    requires l < |labels| && n < |names|
    ensures |CircuitKeyPairs(labels, assemble, bind)| == |labels| * |names|
    ensures l * |names| + n < |CircuitKeyPairs(labels, assemble, bind)|
    ensures CircuitKeyPairs(labels, assemble, bind)[l * |names| + n].1 == CircuitKey(labels[l].target, labels[l].ancilla, names[n], labels[l].phi)
  {
    PairsLength(labels, assemble, bind, names);
    StrideIsProduct(|labels|, |names|);
    StrideIsProduct(l, |names|);
    KeyAtOffset(labels, assemble, bind, names, l, n, l * |names|);
  }

  /** Every label contributes one pair per circuit name. */
  lemma {:induction false} PairsLength<P, C>(labels: seq<Label>, assemble: Assembler<P>, bind: (P, real) -> C, names: seq<string>)
    requires forall t, a :: Keys(assemble(t, a)) == names
    ensures |CircuitKeyPairs(labels, assemble, bind)| == Stride(|labels|, |names|)
  {
    if |labels| > 0 {
      var head := LabelCircuits(labels[0], assemble(labels[0].target, labels[0].ancilla), bind);
      assert CircuitKeyPairs(labels, assemble, bind) == head + CircuitKeyPairs(labels[1..], assemble, bind);
      assert |head| == |names| by {
        assert |Keys(assemble(labels[0].target, labels[0].ancilla))| == |names|;
      }
      PairsLength(labels[1..], assemble, bind, names);
    }
  }

  lemma {:induction false} KeyAtOffset<P, C>(labels: seq<Label>, assemble: Assembler<P>, bind: (P, real) -> C, names: seq<string>, l: nat, n: nat, o: nat)
    requires forall t, a :: Keys(assemble(t, a)) == names
    requires l < |labels| && n < |names| && o == Stride(l, |names|)
    ensures o + n < |CircuitKeyPairs(labels, assemble, bind)|
    ensures CircuitKeyPairs(labels, assemble, bind)[o + n].1 == CircuitKey(labels[l].target, labels[l].ancilla, names[n], labels[l].phi)
  {
    var m := |names|;
    var head := LabelCircuits(labels[0], assemble(labels[0].target, labels[0].ancilla), bind);
    var rest := CircuitKeyPairs(labels[1..], assemble, bind);
    assert CircuitKeyPairs(labels, assemble, bind) == head + rest;
    assert |head| == m by {
      assert |Keys(assemble(labels[0].target, labels[0].ancilla))| == m;
    }
    if l > 0 {
      KeyAtOffset(labels[1..], assemble, bind, names, l - 1, n, o - m);
      assert labels[l] == labels[1..][l - 1];
      assert (head + rest)[o + n] == rest[o - m + n];
    } else {
      assert (head + rest)[n] == head[n];
      assert Keys(assemble(labels[0].target, labels[0].ancilla))[n] == names[n];
    }
  }

  // ---------------------------------------------------------------- flat iteration over batches

  /** `(i, key, job)`: a key, its index in its batch, and the batch's job. */
  datatype Item = Item(index: nat, key: CircuitKey, job: Job)

  function BatchItems(batch: BatchJob<CircuitKey>): (items: seq<Item>)
    ensures |items| == |batch.keys|
    ensures forall i :: 0 <= i < |items| ==> items[i] == Item(i, batch.keys[i], batch.job)
  {
    seq(|batch.keys|, i requires 0 <= i < |batch.keys| => Item(i, batch.keys[i], batch.job))
  }

  /** `_iter_batches`: batch by batch, and within a batch key by key, the index restarting at 0. */
  function IterBatches(batches: seq<BatchJob<CircuitKey>>): seq<Item>
  {
    if |batches| == 0 then [] else BatchItems(batches[0]) + IterBatches(batches[1..])
  }

  /** The keys of all the batches, in order. */
  function BatchKeys(batches: seq<BatchJob<CircuitKey>>): seq<CircuitKey>
  {
    if |batches| == 0 then [] else batches[0].keys + BatchKeys(batches[1..])
  }

  /** Iterating over consecutive runs of batches iterates over each in turn. */
  lemma {:induction false} IterBatchesAppend(a: seq<BatchJob<CircuitKey>>, b: seq<BatchJob<CircuitKey>>)
    ensures IterBatches(a + b) == IterBatches(a) + IterBatches(b)
  {
    if |a| > 0 {
      assert (a + b)[1..] == a[1..] + b;
      IterBatchesAppend(a[1..], b);
    } else {
      assert a + b == b;
    }
  }

  /** The flat iteration visits every key of every batch once, in order. */
  lemma {:induction false} IterBatchesKeys(batches: seq<BatchJob<CircuitKey>>)
    ensures |IterBatches(batches)| == |BatchKeys(batches)|
    ensures forall p :: 0 <= p < |IterBatches(batches)| ==> IterBatches(batches)[p].key == BatchKeys(batches)[p]
  {
    if |batches| > 0 {
      IterBatchesKeys(batches[1..]);
      var head: seq<Item> := BatchItems(batches[0]);
      var rest: seq<Item> := IterBatches(batches[1..]);
      forall p | 0 <= p < |head + rest|
        ensures (head + rest)[p].key == BatchKeys(batches)[p]
      {
        if p >= |head| {
          assert (head + rest)[p] == rest[p - |head|];
        }
      }
    }
  }

  // ---------------------------------------------------------------- extracting one result

  /** Error mitigation of a histogram with the qubits' calibration data; M3 itself is not modelled. */
  type Mitigator = (Histogram, int, int, MitigationInfo) -> Distribution

  /** What resolving results can raise. */
  datatype ResolveError =
    | IndexError                                  // a job with fewer histograms than keys
    | PropertyFailure(propertyError: PropertyError) // calibration of a qubit the properties lack
    | InvalidHistogram(histogram: Histogram)       // `ResultForCircuit` validation
    | InvalidSingleResult(cause: ModelError)       // `SingleResult` validation

  /** `ResultForCircuit.parse_obj`: the histogram must be a synchronous histogram. */
  function ParseResultForCircuit(res: ResultForCircuit): Result<Option<ResultForCircuit>, ResolveError>
  {
    if IsSynchronousHistogram(res.histogram) then Success(Some(res)) else Failure(InvalidHistogram(res.histogram))
  }

  /**
   * `_extract_result_from_job`: no result when reading the job's counts
   * raises a `QiskitError` (both failure kinds are one); otherwise the
   * `i`-th histogram, with the calibration of both qubits and the mitigated
   * histogram exactly when the job has properties.
   */
  function ExtractResultFromJob(job: Job, target: int, ancilla: int, i: nat, name: string, mitigate: Mitigator)
    : (r: Result<Option<ResultForCircuit>, ResolveError>)
    ensures r == Success(None) <==> job.outcome.Raises?
    ensures job.outcome.Counts? && i >= |job.outcome.histograms| ==> r == Failure(IndexError)
    ensures job.outcome.Counts? && i < |job.outcome.histograms| && job.properties.Some? ==>
              (r.Failure? && r.error.PropertyFailure? <==> target !in job.properties.value || ancilla !in job.properties.value)
    ensures r.Success? && r.value.Some? ==>
              var res := r.value.value;
              && job.outcome.Counts? && i < |job.outcome.histograms|
              && res.name == name
              && res.histogram == job.outcome.histograms[i]
              && IsSynchronousHistogram(res.histogram)
              && (res.mitigationInfo.Some? <==> job.properties.Some?)
              && (res.mitigatedHistogram.Some? <==> job.properties.Some?)
              && (job.properties.Some? ==>
                    && res.mitigationInfo.value.target == FromJobProperties(job.properties.value, target).value
                    && res.mitigationInfo.value.ancilla == FromJobProperties(job.properties.value, ancilla).value
                    && res.mitigatedHistogram.value == mitigate(res.histogram, target, ancilla, res.mitigationInfo.value))
    ensures job.outcome.Counts? && i < |job.outcome.histograms| && (job.properties.None? || (target in job.properties.value && ancilla in job.properties.value)) ==>
              (r.Success? <==> IsSynchronousHistogram(job.outcome.histograms[i]))
  {
    match job.outcome
    case Raises(_) => Success(None)
    case Counts(histograms) =>
      if i >= |histograms| then Failure(IndexError)
      else
        var histogram := histograms[i];
        match job.properties
        case None => ParseResultForCircuit(ResultForCircuit(name, histogram, None, None))
        case Some(props) =>
          match FromJobProperties(props, target)
          case Failure(e) => Failure(PropertyFailure(e))
          case Success(t) =>
            match FromJobProperties(props, ancilla)
            case Failure(e) => Failure(PropertyFailure(e))
            case Success(a) =>
              var info := MitigationInfo(t, a);
              ParseResultForCircuit(ResultForCircuit(name, histogram, Some(info), Some(mitigate(histogram, target, ancilla, info))))
  }

  function Extract(item: Item, mitigate: Mitigator): Result<Option<ResultForCircuit>, ResolveError>
  {
    ExtractResultFromJob(item.job, item.key.target, item.key.ancilla, item.index, item.key.name, mitigate)
  }

  // ---------------------------------------------------------------- resolving batches

  /** The error of the first item whose extraction raises, if any. */
  function FirstFailure(items: seq<Item>, mitigate: Mitigator): (e: Option<ResolveError>)
    ensures e.None? <==> forall p :: 0 <= p < |items| ==> Extract(items[p], mitigate).Success?
  {
    if |items| == 0 then None
    else
      match Extract(items[0], mitigate)
      case Failure(err) => Some(err)
      case Success(_) =>
        var e := FirstFailure(items[1..], mitigate);
        assert forall p :: 1 <= p < |items| ==> items[p] == items[1..][p - 1];
        e
  }

  /** The surviving results, each under its label, in iteration order. */
  function Survivors(items: seq<Item>, mitigate: Mitigator): seq<(Label, ResultForCircuit)>
  {
    if |items| == 0 then []
    else
      var init := Survivors(items[..|items| - 1], mitigate);
      var last := items[|items| - 1];
      match Extract(last, mitigate)
      case Success(Some(res)) => init + [(LabelOf(last.key), res)]
      case _ => init
  }

  /** The number of items whose job failed. */
  function FailedCount(items: seq<Item>, mitigate: Mitigator): nat
  {
    if |items| == 0 then 0
    else FailedCount(items[..|items| - 1], mitigate) + (if Extract(items[|items| - 1], mitigate) == Success(None) then 1 else 0)
  }

  /** `SingleResult.parse_obj` of every group, in the order of the groups; the first invalid one raises. */
  function ToSingleResults(resolved: ODict<Label, seq<ResultForCircuit>>): (r: Result<seq<SingleResult>, ResolveError>)
    ensures r.Success? <==> forall g :: 0 <= g < |resolved| ==> resolved[g].0.target >= 0 && resolved[g].0.ancilla >= 0
    ensures r.Success? ==>
              && |r.value| == |resolved|
              && forall g :: 0 <= g < |resolved| ==>
                   r.value[g] == SingleResult(resolved[g].0.target, resolved[g].0.ancilla, resolved[g].0.phi, resolved[g].1)
    ensures r.Failure? ==> r.error.InvalidSingleResult?
  {
    if |resolved| == 0 then Success([])
    else
      var (lab, results) := resolved[0];
      match ValidateSingleResult(lab.target, lab.ancilla, lab.phi, results)
      case Failure(e) => Failure(InvalidSingleResult(e))
      case Success(single) =>
        match ToSingleResults(resolved[1..])
        case Failure(e) => Failure(e)
        case Success(rest) =>
          assert forall g :: 1 <= g < |resolved| ==> resolved[g] == resolved[1..][g - 1];
          Success([single] + rest)
  }

  /** What `_resolve_batches` returns: the first extraction error, or one record per surviving label. */
  function Resolved(batches: seq<BatchJob<CircuitKey>>, mitigate: Mitigator): Result<seq<SingleResult>, ResolveError>
  {
    var items := IterBatches(batches);
    match FirstFailure(items, mitigate)
    case Some(e) => Failure(e)
    case None => ToSingleResults(Group(Survivors(items, mitigate)))
  }

  /** Whether `_resolve_batches` logs its warning: it gets past the loop, and some job failed. */
  predicate Warned(batches: seq<BatchJob<CircuitKey>>, mitigate: Mitigator)
  {
    var items := IterBatches(batches);
    FirstFailure(items, mitigate).None? && FailedCount(items, mitigate) > 0
  }

  /**
   * The body of `_resolve_batches`' loop from position `from` on, after a
   * clean prefix: the first extraction that raises stops it; otherwise every
   * surviving result is appended to its label's list and every failed job counted.
   */
  method ResolveItems(items: seq<Item>, from: nat, resolved0: ODict<Label, seq<ResultForCircuit>>, numFailed0: nat, mitigate: Mitigator)
    returns (err: Option<ResolveError>, resolved: ODict<Label, seq<ResultForCircuit>>, numFailed: nat)
    requires from <= |items|
    requires FirstFailure(items[..from], mitigate).None?
    requires resolved0 == Group(Survivors(items[..from], mitigate))
    requires numFailed0 == FailedCount(items[..from], mitigate)
    ensures err == FirstFailure(items, mitigate)
    ensures err.None? ==> resolved == Group(Survivors(items, mitigate)) && numFailed == FailedCount(items, mitigate)
  {
    resolved, numFailed := resolved0, numFailed0;
    var p := from;
    while p < |items|
      invariant from <= p <= |items|
      invariant FirstFailure(items[..p], mitigate).None?
      invariant resolved == Group(Survivors(items[..p], mitigate))
      invariant numFailed == FailedCount(items[..p], mitigate)
    {
      var item := items[p];
      var result := ExtractResultFromJob(item.job, item.key.target, item.key.ancilla, item.index, item.key.name, mitigate);
      assert items[..p + 1] == items[..p] + [item];
      assert items[..p + 1][..p] == items[..p];
      if result.Failure? {
        FirstFailureAt(items, p, mitigate);
        return Some(result.error), resolved, numFailed;
      }
      FirstFailureSnoc(items[..p], item, mitigate);
      if result.value.None? {
        numFailed := numFailed + 1;
      } else {
        var lab := LabelOf(item.key);
        GroupSnoc(Survivors(items[..p], mitigate), lab, result.value.value);
        resolved := Assign(resolved, lab, GetOr(resolved, lab, []) + [result.value.value]);
      }
      p := p + 1;
    }
    assert items[..p] == items;
    err := None;
  }

  /**
   * `_resolve_batches`: one extraction per key, a failed job counted and
   * skipped, a surviving result appended to its label's list; then one
   * `SingleResult` per label, in the order of the labels' first survivors.
   */
  method ResolveBatches(batches: seq<BatchJob<CircuitKey>>, mitigate: Mitigator) returns (r: Result<seq<SingleResult>, ResolveError>, warned: bool)
    ensures r == Resolved(batches, mitigate)
    ensures warned == Warned(batches, mitigate)
  {
    var items := IterBatches(batches);
    assert items[..0] == [];
    var err, resolved, numFailed := ResolveItems(items, 0, [], 0, mitigate);
    if err.Some? {
      return Failure(err.value), false;
    }
    warned := numFailed > 0;
    r := ToSingleResults(resolved);
  }

  // ---------------------------------------------------------------- what resolution keeps

  /** Each item's contribution depends on that item alone. */
  lemma {:induction false} FirstFailureAppend(a: seq<Item>, b: seq<Item>, mitigate: Mitigator)
    ensures FirstFailure(a + b, mitigate) == if FirstFailure(a, mitigate).Some? then FirstFailure(a, mitigate) else FirstFailure(b, mitigate)
  {
    if |a| > 0 {
      assert (a + b)[0] == a[0];
      assert (a + b)[1..] == a[1..] + b;
      FirstFailureAppend(a[1..], b, mitigate);
    } else {
      assert a + b == b;
    }
  }

  /** The first item that raises after a clean prefix decides the error. */
  lemma FirstFailureAt(items: seq<Item>, p: nat, mitigate: Mitigator)
    requires p < |items| && FirstFailure(items[..p], mitigate).None? && Extract(items[p], mitigate).Failure?
    ensures FirstFailure(items, mitigate) == Some(Extract(items[p], mitigate).error)
  {
    FirstFailureAppend(items[..p], items[p..], mitigate);
    assert items[..p] + items[p..] == items;
    assert items[p..][0] == items[p];
  }

  /** An item that extracts cleanly keeps a clean prefix clean. */
  lemma FirstFailureSnoc(a: seq<Item>, item: Item, mitigate: Mitigator)
    requires FirstFailure(a, mitigate).None? && Extract(item, mitigate).Success?
    ensures FirstFailure(a + [item], mitigate).None?
  {
    FirstFailureAppend(a, [item], mitigate);
    assert [item][1..] == [];
  }

  lemma {:induction false} SurvivorsAppend(a: seq<Item>, b: seq<Item>, mitigate: Mitigator)
    ensures Survivors(a + b, mitigate) == Survivors(a, mitigate) + Survivors(b, mitigate)
    ensures FailedCount(a + b, mitigate) == FailedCount(a, mitigate) + FailedCount(b, mitigate)
    decreases |b|
  {
    if |b| == 0 {
      assert a + b == a;
    } else {
      var b' := b[..|b| - 1];
      assert (a + b)[..|a + b| - 1] == a + b';
      assert (a + b)[|a + b| - 1] == b[|b| - 1];
      SurvivorsAppend(a, b', mitigate);
    }
  }

  /**
   * Once every extraction has succeeded, every item either survived or was
   * counted as failed, and the groups hold all the survivors: no circuit is
   * lost and none is counted twice.
   */
  lemma {:induction false} NoResultIsLost(items: seq<Item>, mitigate: Mitigator)
    requires FirstFailure(items, mitigate).None?
    ensures |Survivors(items, mitigate)| + FailedCount(items, mitigate) == |items|
    ensures TotalLength(Group(Survivors(items, mitigate))) + FailedCount(items, mitigate) == |items|
  {
    SurvivorCount(items, mitigate);
    GroupTotalLength(Survivors(items, mitigate));
  }

  lemma {:induction false} SurvivorCount(items: seq<Item>, mitigate: Mitigator)
    requires forall p :: 0 <= p < |items| ==> Extract(items[p], mitigate).Success?
    ensures |Survivors(items, mitigate)| + FailedCount(items, mitigate) == |items|
  {
    if |items| > 0 {
      var init := items[..|items| - 1];
      assert forall p :: 0 <= p < |init| ==> init[p] == items[p];
      SurvivorCount(init, mitigate);
    }
  }

  /** A label is surviving iff some item with that label produced a result. */
  predicate SurvivesWith(items: seq<Item>, mitigate: Mitigator, p: int, lab: Label)
    requires 0 <= p < |items|
  {
    LabelOf(items[p].key) == lab && Extract(items[p], mitigate).Success? && Extract(items[p], mitigate).value.Some?
  }

  lemma {:induction false} SurvivorLabels(items: seq<Item>, mitigate: Mitigator, lab: Label)
    ensures lab in Keys(Survivors(items, mitigate)) <==> exists p :: 0 <= p < |items| && SurvivesWith(items, mitigate, p, lab)
  {
    if |items| > 0 {
      var init := items[..|items| - 1];
      var last := items[|items| - 1];
      assert forall p :: 0 <= p < |init| ==> init[p] == items[p];
      assert forall p :: 0 <= p < |init| ==> (SurvivesWith(init, mitigate, p, lab) <==> SurvivesWith(items, mitigate, p, lab));
      SurvivorLabels(init, mitigate, lab);
      var s := Survivors(init, mitigate);
      var all := Survivors(items, mitigate);
      if Extract(last, mitigate).Success? && Extract(last, mitigate).value.Some? {
        assert all == s + [(LabelOf(last.key), Extract(last, mitigate).value.value)];
        assert Keys(all) == Keys(s) + [LabelOf(last.key)];
        if LabelOf(last.key) == lab {
          assert SurvivesWith(items, mitigate, |items| - 1, lab);
        } else {
          assert !SurvivesWith(items, mitigate, |items| - 1, lab);
        }
      } else {
        assert all == s;
        assert !SurvivesWith(items, mitigate, |items| - 1, lab);
      }
    }
  }

  /**
   * The resolved groups are the labels that kept at least one result, in the
   * order of their first surviving result; each holds that label's results
   * in iteration order.
   */
  lemma ResolvedGroups(items: seq<Item>, mitigate: Mitigator, lab: Label)
    ensures Keys(Group(Survivors(items, mitigate))) == Dedup(Keys(Survivors(items, mitigate)))
    ensures lab in Keys(Group(Survivors(items, mitigate))) <==> exists p :: 0 <= p < |items| && SurvivesWith(items, mitigate, p, lab)
    ensures Lookup(Group(Survivors(items, mitigate)), lab) ==
              if lab in Keys(Survivors(items, mitigate)) then Some(ValuesFor(Survivors(items, mitigate), lab)) else None
  {
    var s := Survivors(items, mitigate);
    GroupKeys(s);
    GroupLookup(s, lab);
    SurvivorLabels(items, mitigate, lab);
  }

  /** A batch whose job failed contributes no result and counts every one of its keys as failed. */
  lemma {:induction false} FailedBatch(batch: BatchJob<CircuitKey>, mitigate: Mitigator)
    requires batch.job.outcome.Raises?
    ensures FirstFailure(BatchItems(batch), mitigate).None?
    ensures Survivors(BatchItems(batch), mitigate) == []
    ensures FailedCount(BatchItems(batch), mitigate) == |batch.keys|
  {
    FailedPrefix(BatchItems(batch), mitigate);
  }

  lemma {:induction false} FailedPrefix(items: seq<Item>, mitigate: Mitigator)
    requires forall p :: 0 <= p < |items| ==> items[p].job.outcome.Raises?
    ensures Survivors(items, mitigate) == []
    ensures FailedCount(items, mitigate) == |items|
  {
    if |items| > 0 {
      var init := items[..|items| - 1];
      assert forall p :: 0 <= p < |init| ==> init[p] == items[p];
      FailedPrefix(init, mitigate);
    }
  }

  /**
   * A batch whose job ran, has no calibration data and returned a valid
   * histogram for every key contributes one unmitigated result per key, in
   * key order, under the key's label.
   */
  lemma {:induction false} SucceededBatch(batch: BatchJob<CircuitKey>, mitigate: Mitigator)
    requires batch.job.outcome.Counts? && batch.job.properties.None?
    requires |batch.job.outcome.histograms| >= |batch.keys|
    requires forall i :: 0 <= i < |batch.keys| ==> IsSynchronousHistogram(batch.job.outcome.histograms[i])
    ensures FirstFailure(BatchItems(batch), mitigate).None?
    ensures FailedCount(BatchItems(batch), mitigate) == 0
    ensures Survivors(BatchItems(batch), mitigate) == UnmitigatedResults(batch)
  {
    SucceededPrefix(batch, |batch.keys|, mitigate);
    assert BatchItems(batch)[..|batch.keys|] == BatchItems(batch);
  }

  /** The results of the first keys of a batch that ran without calibration data. */
  function UnmitigatedResults(batch: BatchJob<CircuitKey>): seq<(Label, ResultForCircuit)>
    requires batch.job.outcome.Counts? && |batch.job.outcome.histograms| >= |batch.keys|
  {
    seq(|batch.keys|, i requires 0 <= i < |batch.keys| =>
      (LabelOf(batch.keys[i]), ResultForCircuit(batch.keys[i].name, batch.job.outcome.histograms[i], None, None)))
  }

  lemma {:induction false} SucceededPrefix(batch: BatchJob<CircuitKey>, n: nat, mitigate: Mitigator)
    requires batch.job.outcome.Counts? && batch.job.properties.None?
    requires n <= |batch.keys| <= |batch.job.outcome.histograms|
    requires forall i :: 0 <= i < |batch.keys| ==> IsSynchronousHistogram(batch.job.outcome.histograms[i])
    ensures FirstFailure(BatchItems(batch)[..n], mitigate).None?
    ensures FailedCount(BatchItems(batch)[..n], mitigate) == 0
    ensures Survivors(BatchItems(batch)[..n], mitigate) == UnmitigatedResults(batch)[..n]
  {
    if n > 0 {
      var items := BatchItems(batch);
      SucceededPrefix(batch, n - 1, mitigate);
      assert items[..n][..n - 1] == items[..n - 1];
      assert items[..n] == items[..n - 1] + [items[n - 1]];
      FirstFailureAppend(items[..n - 1], [items[n - 1]], mitigate);
      assert UnmitigatedResults(batch)[..n] == UnmitigatedResults(batch)[..n - 1] + [UnmitigatedResults(batch)[n - 1]];
    }
  }

  // ---------------------------------------------------------------- running an experiment set

  /** What a run returns: the resolved results when synchronous, the id and keys of every batch when asynchronous. */
  datatype RunOutput = SyncResult(results: seq<SingleResult>) | AsyncResult(batchResults: seq<BatchResult>)

  datatype RunError =
    | CollectFailure(collectError: CollectError)
    | LimitsFailure(limitsError: Limits.LimitsError)
    | BatchingFailure(batchingError: BatchingError)
    | ResolveFailure(resolveError: ResolveError)

  /** The asynchronous data: one `BatchResult` per batch, with the job's id and the batch's keys. */
  function AsyncData(jobs: seq<BatchJob<CircuitKey>>): (data: seq<BatchResult>)
    ensures |data| == |jobs|
    ensures forall j :: 0 <= j < |jobs| ==> data[j] == BatchResult(jobs[j].job.id, jobs[j].keys)
  {
    seq(|jobs|, j requires 0 <= j < |jobs| => BatchResult(jobs[j].job.id, jobs[j].keys))
  }

  function AsRunOutput(r: Result<seq<SingleResult>, ResolveError>): Result<RunOutput, RunError>
  {
    match r
    case Success(results) => Success(SyncResult(results))
    case Failure(e) => Failure(ResolveFailure(e))
  }

  /**
   * How many batches a synchronous run submits. The jobs come from a lazy
   * generator that resolution pulls batch by batch, so a batch whose
   * extraction raises is the last one run.
   */
  function BatchesPulled(jobs: seq<BatchJob<CircuitKey>>, mitigate: Mitigator): (n: nat)
    ensures n <= |jobs|
  {
    if |jobs| == 0 then 0
    else if FirstFailure(BatchItems(jobs[0]), mitigate).Some? then 1
    else 1 + BatchesPulled(jobs[1..], mitigate)
  }

  /**
   * All the batches are pulled when no extraction raises; otherwise the
   * batches pulled are a clean run followed by the batch that raises first.
   */
  lemma {:induction false} BatchesPulledStops(jobs: seq<BatchJob<CircuitKey>>, mitigate: Mitigator)
    ensures var n := BatchesPulled(jobs, mitigate);
            && (FirstFailure(IterBatches(jobs), mitigate).None? ==> n == |jobs|)
            && (FirstFailure(IterBatches(jobs), mitigate).Some? ==>
                  && 1 <= n
                  && FirstFailure(IterBatches(jobs[..n - 1]), mitigate).None?
                  && FirstFailure(BatchItems(jobs[n - 1]), mitigate) == FirstFailure(IterBatches(jobs), mitigate))
  {
    if |jobs| > 0 {
      FirstFailureAppend(BatchItems(jobs[0]), IterBatches(jobs[1..]), mitigate);
      if FirstFailure(BatchItems(jobs[0]), mitigate).Some? {
        assert jobs[..0] == [];
      } else {
        BatchesPulledStops(jobs[1..], mitigate);
        var n := BatchesPulled(jobs, mitigate);
        if FirstFailure(IterBatches(jobs), mitigate).Some? {
          var front := jobs[..n - 1];
          assert front[0] == jobs[0];
          assert front[1..] == jobs[1..][..n - 2];
          FirstFailureAppend(BatchItems(jobs[0]), IterBatches(jobs[1..][..n - 2]), mitigate);
          assert jobs[n - 1] == jobs[1..][n - 2];
        }
      }
    }
  }

  /**
   * The synchronous path of `run_experiment`: `_resolve_batches` pulls each
   * batch out of the `execute_in_batches` generator, which runs it, and
   * resolves its keys before the next batch is run.
   */
  method SubmitAndResolve<C>(backend: MockSimulator<C>, bs: seq<BatchWithKey<C, CircuitKey>>, shots: nat, mitigate: Mitigator)
    returns (r: Result<seq<SingleResult>, ResolveError>, warned: bool)
    requires backend.Valid()
    modifies backend
    ensures backend.Valid()
    ensures var jobs := Submitted(backend, old(backend.jobCount), bs, shots);
            var pulled := BatchesPulled(jobs, mitigate);
            && r == Resolved(jobs, mitigate)
            && warned == Warned(jobs, mitigate)
            && backend.jobCount == old(backend.jobCount) + pulled
            && backend.runs == old(backend.runs) + Requests(bs[..pulled], shots)
  {
    ghost var start := backend.jobCount;
    var resolved: ODict<Label, seq<ResultForCircuit>> := [];
    var numFailed := 0;
    var done: seq<BatchJob<CircuitKey>> := [];
    var i := 0;
    assert bs[..0] == [];
    while i < |bs|
      invariant 0 <= i <= |bs|
      invariant backend.Valid()
      invariant backend.jobCount == start + i
      invariant backend.runs == old(backend.runs) + Requests(bs[..i], shots)
      invariant done == Submitted(backend, start, bs[..i], shots)
      invariant FirstFailure(IterBatches(done), mitigate).None?
      invariant resolved == Group(Survivors(IterBatches(done), mitigate))
      invariant numFailed == FailedCount(IterBatches(done), mitigate)
    {
      var batchJob, err;
      batchJob, err, resolved, numFailed := PullBatch(backend, bs[i], shots, done, resolved, numFailed, mitigate);
      RequestsSnoc(bs, shots, i, old(backend.runs));
      SubmittedSnoc(backend, start, bs, shots, i, done);
      if err.Some? {
        StoppedRun(backend, start, bs, shots, mitigate, i, done + [batchJob]);
        return Failure(err.value), false;
      }
      done := done + [batchJob];
      i := i + 1;
    }
    CompletedRun(backend, start, bs, shots, mitigate, done);
    assert bs[..i] == bs;
    warned := numFailed > 0;
    r := ToSingleResults(resolved);
  }

  /** A synchronous run whose batch `i` raises first stops there with that error. */
  lemma StoppedRun<C>(backend: MockSimulator<C>, start: nat, bs: seq<BatchWithKey<C, CircuitKey>>, shots: nat, mitigate: Mitigator,
                      i: nat, done: seq<BatchJob<CircuitKey>>)
    requires i < |bs| && done == Submitted(backend, start, bs[..i + 1], shots)
    requires FirstFailure(IterBatches(done[..i]), mitigate).None?
    requires FirstFailure(IterBatches(done), mitigate).Some?
    ensures var jobs := Submitted(backend, start, bs, shots);
            && Resolved(jobs, mitigate) == Failure(FirstFailure(IterBatches(done), mitigate).value)
            && !Warned(jobs, mitigate)
            && BatchesPulled(jobs, mitigate) == i + 1
  {
    var jobs := Submitted(backend, start, bs, shots);
    assert jobs[..i + 1] == done;
    assert jobs[..i] == done[..i];
    StopsAt(jobs, i, mitigate);
  }

  /** A synchronous run in which nothing raises pulls every batch and resolves them all. */
  lemma CompletedRun<C>(backend: MockSimulator<C>, start: nat, bs: seq<BatchWithKey<C, CircuitKey>>, shots: nat, mitigate: Mitigator,
                        done: seq<BatchJob<CircuitKey>>)
    requires done == Submitted(backend, start, bs[..|bs|], shots)
    requires FirstFailure(IterBatches(done), mitigate).None?
    ensures var jobs := Submitted(backend, start, bs, shots);
            && Resolved(jobs, mitigate) == ToSingleResults(Group(Survivors(IterBatches(done), mitigate)))
            && (Warned(jobs, mitigate) <==> FailedCount(IterBatches(done), mitigate) > 0)
            && BatchesPulled(jobs, mitigate) == |bs|
  {
    assert bs[..|bs|] == bs;
    BatchesPulledStops(done, mitigate);
  }

  /** The generator runs the next batch, and `_resolve_batches` resolves its keys. */
  method PullBatch<C>(backend: MockSimulator<C>, batch: BatchWithKey<C, CircuitKey>, shots: nat, done: seq<BatchJob<CircuitKey>>,
                      resolved0: ODict<Label, seq<ResultForCircuit>>, numFailed0: nat, mitigate: Mitigator)
    returns (batchJob: BatchJob<CircuitKey>, err: Option<ResolveError>, resolved: ODict<Label, seq<ResultForCircuit>>, numFailed: nat)
    requires backend.Valid()
    requires FirstFailure(IterBatches(done), mitigate).None?
    requires resolved0 == Group(Survivors(IterBatches(done), mitigate))
    requires numFailed0 == FailedCount(IterBatches(done), mitigate)
    modifies backend
    ensures backend.Valid()
    ensures batchJob == BatchJob(backend.JobFor(old(backend.jobCount), batch.circuits, shots), batch.keys)
    ensures backend.jobCount == old(backend.jobCount) + 1
    ensures backend.runs == old(backend.runs) + [(batch.circuits, shots)]
    ensures err == FirstFailure(IterBatches(done + [batchJob]), mitigate)
    ensures err.None? ==>
              && resolved == Group(Survivors(IterBatches(done + [batchJob]), mitigate))
              && numFailed == FailedCount(IterBatches(done + [batchJob]), mitigate)
  {
    batchJob := RunBatch(backend, batch, shots);
    err, resolved, numFailed := ResolveNextBatch(done, batchJob, resolved0, numFailed0, mitigate);
  }

  /** Resolving the keys of one more batch after a clean run of batches. */
  method ResolveNextBatch(done: seq<BatchJob<CircuitKey>>, batchJob: BatchJob<CircuitKey>,
                          resolved0: ODict<Label, seq<ResultForCircuit>>, numFailed0: nat, mitigate: Mitigator)
    returns (err: Option<ResolveError>, resolved: ODict<Label, seq<ResultForCircuit>>, numFailed: nat)
    requires FirstFailure(IterBatches(done), mitigate).None?
    requires resolved0 == Group(Survivors(IterBatches(done), mitigate))
    requires numFailed0 == FailedCount(IterBatches(done), mitigate)
    ensures err == FirstFailure(IterBatches(done + [batchJob]), mitigate)
    ensures err.None? ==>
              && resolved == Group(Survivors(IterBatches(done + [batchJob]), mitigate))
              && numFailed == FailedCount(IterBatches(done + [batchJob]), mitigate)
  {
    var before := IterBatches(done);
    var items := before + BatchItems(batchJob);
    assert items[..|before|] == before;
    IterBatchesAppend(done, [batchJob]);
    assert IterBatches([batchJob]) == BatchItems(batchJob) + IterBatches([]) == BatchItems(batchJob);
    assert IterBatches(done + [batchJob]) == items;
    err, resolved, numFailed := ResolveItems(items, |before|, resolved0, numFailed0, mitigate);
  }

  /** One more batch adds its items at the end. */
  lemma {:induction false} IterBatchesSnoc(jobs: seq<BatchJob<CircuitKey>>, i: nat)
    requires i < |jobs|
    ensures IterBatches(jobs[..i + 1]) == IterBatches(jobs[..i]) + BatchItems(jobs[i])
  {
    assert jobs[..i + 1] == jobs[..i] + [jobs[i]];
    IterBatchesAppend(jobs[..i], [jobs[i]]);
    assert IterBatches([jobs[i]]) == BatchItems(jobs[i]) + IterBatches([]);
  }

  /** The batch that raises first is the last one pulled. */
  lemma {:induction false} PulledAt(jobs: seq<BatchJob<CircuitKey>>, i: nat, mitigate: Mitigator)
    requires i < |jobs|
    requires FirstFailure(IterBatches(jobs[..i]), mitigate).None?
    requires FirstFailure(BatchItems(jobs[i]), mitigate).Some?
    ensures BatchesPulled(jobs, mitigate) == i + 1
  {
    if i > 0 {
      var front := jobs[..i];
      assert front[0] == jobs[0];
      assert front[1..] == jobs[1..][..i - 1];
      FirstFailureAppend(BatchItems(jobs[0]), IterBatches(front[1..]), mitigate);
      assert jobs[1..][i - 1] == jobs[i];
      PulledAt(jobs[1..], i - 1, mitigate);
    }
  }

  /** A run that stops at batch `i`: resolution raises that batch's first error and warns of nothing. */
  lemma {:induction false} StopsAt(jobs: seq<BatchJob<CircuitKey>>, i: nat, mitigate: Mitigator)
    requires i < |jobs|
    requires FirstFailure(IterBatches(jobs[..i]), mitigate).None?
    requires FirstFailure(IterBatches(jobs[..i + 1]), mitigate).Some?
    ensures Resolved(jobs, mitigate) == Failure(FirstFailure(IterBatches(jobs[..i + 1]), mitigate).value)
    ensures !Warned(jobs, mitigate)
    ensures BatchesPulled(jobs, mitigate) == i + 1
  {
    IterBatchesSnoc(jobs, i);
    FirstFailureAppend(IterBatches(jobs[..i]), BatchItems(jobs[i]), mitigate);
    PulledAt(jobs, i, mitigate);
    var here := IterBatches(jobs[..i + 1]);
    var rest := IterBatches(jobs[i + 1..]);
    assert jobs == jobs[..i + 1] + jobs[i + 1..];
    IterBatchesAppend(jobs[..i + 1], jobs[i + 1..]);
    assert IterBatches(jobs) == here + rest;
    FirstFailureAppend(here, rest, mitigate);
    assert FirstFailure(IterBatches(jobs), mitigate) == FirstFailure(here, mitigate);
  }

  /**
   * `run_experiment` on a mock simulator described by `info`: collect the
   * circuits, look the circuit limit up and split them into batches. An
   * asynchronous run submits every batch and records the jobs' ids; a
   * synchronous one resolves the batches as the generator submits them, so
   * it stops submitting at the first batch whose resolution raises.
   */
  method RunExperiment<P, C>(
    experiments: FourierExperimentSet, phis: seq<real>, asynchronous: bool,
    backend: MockSimulator<C>, info: Limits.BackendInfo,
    postselection: Assembler<P>, directSum: Assembler<P>, bind: (P, real) -> C, mitigate: Mitigator)
    returns (r: Result<RunOutput, RunError>, warned: bool)
    requires backend.Valid()
    modifies backend
    ensures backend.Valid()
    ensures var collected := CollectCircuitsAndKeys(experiments, phis, postselection, directSum, bind);
            var limits := Limits.GetLimits(info);
            && (collected.Failure? ==> r == Failure(CollectFailure(collected.error)) && !warned && backend.jobCount == old(backend.jobCount))
            && (collected.Success? && limits.Failure? ==>
                  r == Failure(LimitsFailure(limits.error)) && !warned && backend.jobCount == old(backend.jobCount))
            && (collected.Success? && limits.Success? ==>
                  var bs := Batches(collected.value.0, collected.value.1, limits.value.maxCircuits);
                  && (bs.Failure? ==> r == Failure(BatchingFailure(bs.error)) && !warned && backend.jobCount == old(backend.jobCount))
                  && (bs.Success? ==>
                        var jobs := Submitted(backend, old(backend.jobCount), bs.value, experiments.numShots);
                        && (asynchronous ==>
                              && r == Success(AsyncResult(AsyncData(jobs))) && !warned
                              && backend.jobCount == old(backend.jobCount) + |bs.value|
                              && backend.runs == old(backend.runs) + Requests(bs.value, experiments.numShots))
                        && (!asynchronous ==>
                              && r == AsRunOutput(Resolved(jobs, mitigate)) && warned == Warned(jobs, mitigate)
                              && backend.jobCount == old(backend.jobCount) + BatchesPulled(jobs, mitigate)
                              && backend.runs == old(backend.runs) + Requests(bs.value[..BatchesPulled(jobs, mitigate)], experiments.numShots))))
  {
    warned := false;
    var collected := CollectCircuitsAndKeys(experiments, phis, postselection, directSum, bind);
    if collected.Failure? {
      return Failure(CollectFailure(collected.error)), false;
    }
    var (circuits, keys) := collected.value;
    var limits := Limits.GetLimits(info);
    if limits.Failure? {
      return Failure(LimitsFailure(limits.error)), false;
    }
    var start := backend.jobCount;
    if asynchronous {
      var batches := ExecuteInBatches(backend, circuits, keys, experiments.numShots, limits.value.maxCircuits);
      if batches.Failure? {
        return Failure(BatchingFailure(batches.error)), false;
      }
      assert batches.value == Submitted(backend, start, Batches(circuits, keys, limits.value.maxCircuits).value, experiments.numShots);
      r := Success(AsyncResult(AsyncData(batches.value)));
    } else {
      var batches := BatchCircuitsWithKeys(circuits, keys, limits.value.maxCircuits);
      if batches.Failure? {
        return Failure(BatchingFailure(batches.error)), false;
      }
      var resolved;
      resolved, warned := SubmitAndResolve(backend, batches.value, experiments.numShots, mitigate);
      r := AsRunOutput(resolved);
    }
  }

  // ---------------------------------------------------------------- asynchronous data

  function JobIds(data: seq<BatchResult>): (ids: seq<string>)
    ensures |ids| == |data| && forall i :: 0 <= i < |data| ==> ids[i] == data[i].jobId
  {
    seq(|data|, i requires 0 <= i < |data| => data[i].jobId)
  }

  function Statuses(jobs: seq<Job>): (ss: seq<JobStatus>)
    ensures |ss| == |jobs| && forall i :: 0 <= i < |jobs| ==> ss[i] == jobs[i].status
  {
    seq(|jobs|, i requires 0 <= i < |jobs| => jobs[i].status)
  }

  function StatusNames(jobs: seq<Job>): (names: seq<string>)
    ensures |names| == |jobs| && forall i :: 0 <= i < |jobs| ==> names[i] == StatusName(jobs[i].status)
  {
    seq(|jobs|, i requires 0 <= i < |jobs| => StatusName(jobs[i].status))
  }

  /**
   * `fetch_statuses`: the jobs of the data retrieved by id, and the number
   * of jobs with each status name, in order of first appearance.
   */
  function FetchStatuses(data: seq<BatchResult>, store: JobStore): (r: Result<ODict<string, nat>, RetrieveError>)
    ensures r.Success? <==> forall i :: 0 <= i < |data| ==> data[i].jobId in store
    ensures r.Failure? ==> exists i :: 0 <= i < |data| && r.error == JobNotFound(data[i].jobId) && data[i].jobId !in store
  {
    match RetrieveJobs(store, JobIds(data))
    case Failure(e) => Failure(e)
    case Success(jobs) => Success(Count(StatusNames(jobs)))
  }

  /**
   * The tally counts every job once: its counts add up to the number of
   * batches, and each status appears with the number of jobs in that status,
   * exactly when some job is in it.
   */
  lemma StatusTally(data: seq<BatchResult>, store: JobStore, s: JobStatus)
    requires forall i :: 0 <= i < |data| ==> data[i].jobId in store
    ensures var jobs := RetrieveJobs(store, JobIds(data)).value;
            var tally := FetchStatuses(data, store).value;
            && SumValues(tally) == |data|
            && Keys(tally) == Dedup(StatusNames(jobs))
            && Lookup(tally, StatusName(s)) == if s in Statuses(jobs) then Some(multiset(Statuses(jobs))[s]) else None
  {
    var jobs := RetrieveJobs(store, JobIds(data)).value;
    CountSumsToLength(StatusNames(jobs));
    CountKeys(StatusNames(jobs));
    CountLookup(StatusNames(jobs), StatusName(s));
    StatusCount(jobs, s);
  }

  lemma StatusesSnoc(jobs: seq<Job>)
    requires |jobs| > 0
    ensures StatusNames(jobs) == StatusNames(jobs[..|jobs| - 1]) + [StatusName(jobs[|jobs| - 1].status)]
    ensures Statuses(jobs) == Statuses(jobs[..|jobs| - 1]) + [jobs[|jobs| - 1].status]
  {
  }

  lemma {:induction false} StatusCount(jobs: seq<Job>, s: JobStatus)
    ensures StatusName(s) in StatusNames(jobs) <==> s in Statuses(jobs)
    ensures multiset(StatusNames(jobs))[StatusName(s)] == multiset(Statuses(jobs))[s]
  {
    if |jobs| > 0 {
      var init := jobs[..|jobs| - 1];
      var last := jobs[|jobs| - 1];
      StatusesSnoc(jobs);
      StatusCount(init, s);
      StatusNameInjective(s, last.status);
      MultisetSnoc(StatusNames(init), StatusName(last.status), StatusName(s));
      MultisetSnoc(Statuses(init), last.status, s);
    }
  }

  /** `{job.job_id(): job for job in jobs}`: a later job with the same id replaces an earlier one. */
  function JobsById(jobs: seq<Job>): map<string, Job>
  {
    if |jobs| == 0 then map[] else JobsById(jobs[..|jobs| - 1])[jobs[|jobs| - 1].id := jobs[|jobs| - 1]]
  }

  /** Mapping jobs that agree on every shared id files each under its own id. */
  lemma {:induction false} JobsByIdFilesEach(jobs: seq<Job>)
    requires forall i, j :: 0 <= i < |jobs| && 0 <= j < |jobs| && jobs[i].id == jobs[j].id ==> jobs[i] == jobs[j]
    ensures forall id :: id in JobsById(jobs) <==> exists i :: 0 <= i < |jobs| && jobs[i].id == id
    ensures forall i :: 0 <= i < |jobs| ==> jobs[i].id in JobsById(jobs) && JobsById(jobs)[jobs[i].id] == jobs[i]
  {
    if |jobs| > 0 {
      var init := jobs[..|jobs| - 1];
      assert forall i :: 0 <= i < |init| ==> init[i] == jobs[i];
      JobsByIdFilesEach(init);
    }
  }

  datatype ResolveResultsError =
    | RetrievalFailure(retrieveError: RetrieveError)
    | MissingJob(jobId: string)                    // `jobs_mapping[entry.job_id]`
    | Unresolved(resolveError: ResolveError)

  /** `[BatchJob(jobs_mapping[entry.job_id], entry.keys) for entry in data]`: the first unmapped id raises. */
  function RebuildBatches(data: seq<BatchResult>, mapping: map<string, Job>): (r: Result<seq<BatchJob<CircuitKey>>, string>)
    ensures r.Success? <==> forall i :: 0 <= i < |data| ==> data[i].jobId in mapping
    ensures r.Success? ==> |r.value| == |data| && forall i :: 0 <= i < |data| ==> r.value[i] == BatchJob(mapping[data[i].jobId], data[i].keys)
    ensures r.Failure? ==> r.error !in mapping && exists i :: 0 <= i < |data| && data[i].jobId == r.error
  {
    if |data| == 0 then Success([])
    else if data[0].jobId !in mapping then Failure(data[0].jobId)
    else
      match RebuildBatches(data[1..], mapping)
      case Failure(id) => Failure(id)
      case Success(rest) =>
        assert forall i :: 1 <= i < |data| ==> data[i] == data[1..][i - 1];
        Success([BatchJob(mapping[data[0].jobId], data[0].keys)] + rest)
  }

  function AsResolveResults(r: Result<seq<SingleResult>, ResolveError>): Result<seq<SingleResult>, ResolveResultsError>
  {
    match r
    case Success(results) => Success(results)
    case Failure(e) => Failure(Unresolved(e))
  }

  /**
   * `resolve_results`: retrieve the data's jobs from the backend whose jobs
   * are `store`, map them by the id each reports, rebuild the batches in the
   * order of the data, and resolve them.
   */
  method ResolveResults(data: seq<BatchResult>, store: JobStore, mitigate: Mitigator)
    returns (r: Result<seq<SingleResult>, ResolveResultsError>, warned: bool)
    ensures var retrieved := RetrieveJobs(store, JobIds(data));
            && (retrieved.Failure? ==> r == Failure(RetrievalFailure(retrieved.error)) && !warned)
            && (retrieved.Success? ==>
                  var rebuilt := RebuildBatches(data, JobsById(retrieved.value));
                  && (rebuilt.Failure? ==> r == Failure(MissingJob(rebuilt.error)) && !warned)
                  && (rebuilt.Success? ==> r == AsResolveResults(Resolved(rebuilt.value, mitigate)) && warned == Warned(rebuilt.value, mitigate)))
  {
    var retrieved := RetrieveJobs(store, JobIds(data));
    if retrieved.Failure? {
      return Failure(RetrievalFailure(retrieved.error)), false;
    }
    var jobsMapping := JobsById(retrieved.value);
    var batches := RebuildBatches(data, jobsMapping);
    if batches.Failure? {
      return Failure(MissingJob(batches.error)), false;
    }
    var resolved;
    resolved, warned := ResolveBatches(batches.value, mitigate);
    r := AsResolveResults(resolved);
  }

  /**
   * Resolving later gives what resolving at once would have: when the
   * backend still files every submitted job under its id, the batches
   * `resolve_results` rebuilds from the asynchronous data are the submitted
   * ones.
   */
  lemma AsyncDataRebuildsBatches(jobs: seq<BatchJob<CircuitKey>>, store: JobStore)
    requires FiledById(store)
    requires forall j :: 0 <= j < |jobs| ==> jobs[j].job.id in store && store[jobs[j].job.id] == jobs[j].job
    ensures RetrieveJobs(store, JobIds(AsyncData(jobs))).Success?
    ensures RebuildBatches(AsyncData(jobs), JobsById(RetrieveJobs(store, JobIds(AsyncData(jobs))).value)) == Success(jobs)
  {
    var data := AsyncData(jobs);
    var retrieved := RetrieveJobs(store, JobIds(data)).value;
    assert forall i :: 0 <= i < |retrieved| ==> retrieved[i] == jobs[i].job;
    JobsByIdFilesEach(retrieved);
    var rebuilt := RebuildBatches(data, JobsById(retrieved));
    assert forall i :: 0 <= i < |data| ==> data[i].jobId == retrieved[i].id;
    assert rebuilt.Success?;
    assert rebuilt.value == jobs;
  }

  // ---------------------------------------------------------------- tabulating

  /** A probability estimate from keyword arguments `<circuit name>_counts`; the formulas themselves are not modelled. */
  type Formula = ODict<string, Distribution> -> real

  datatype Row = Row(target: nat, ancilla: nat, phi: real, discProb: real, mitDiscProb: Option<real>)

  datatype Table = Table(columns: seq<string>, rows: seq<Row>)

  datatype TabulateError =
    | ArgumentMismatch // the keyword arguments are not the formula's parameters (a `TypeError`)
    | EmptyData        // `rows[0]` of no rows
    | ColumnMismatch   // a row has more values than the four columns the first row chose

  const BaseColumns: seq<string> := ["target", "ancilla", "phi", "disc_prob"]
  const MitigatedColumns: seq<string> := ["target", "ancilla", "phi", "disc_prob", "mit_disc_prob"]

  /** Counts read as numbers of the same value. */
  function AsDistribution(h: Histogram): (d: Distribution)
    ensures |d| == |h| && forall i :: 0 <= i < |h| ==> d[i] == (h[i].0, h[i].1 as real)
  {
    seq(|h|, i requires 0 <= i < |h| => (h[i].0, h[i].1 as real))
  }

  /** `{f"{info.name}_counts": info.histogram for info in results}`. */
  function CountsArguments(results: seq<ResultForCircuit>): ODict<string, Distribution>
  {
    if |results| == 0 then []
    else
      var last := results[|results| - 1];
      Assign(CountsArguments(results[..|results| - 1]), last.name + "_counts", AsDistribution(last.histogram))
  }

  /** The keyword names `CountsArguments` passes. */
  function ArgumentNames(results: seq<ResultForCircuit>): set<string>
  {
    set c | 0 <= c < |results| :: results[c].name + "_counts"
  }

  /** Later results with a name already seen overwrite the entry, so the keys are exactly the names. */
  lemma {:induction false} CountsArgumentsKeys(results: seq<ResultForCircuit>)
    ensures (set k | k in Keys(CountsArguments(results))) == ArgumentNames(results)
    decreases |results|
  {
    if |results| > 0 {
      var init := results[..|results| - 1];
      var last := results[|results| - 1];
      CountsArgumentsKeys(init);
      AssignKeys(CountsArguments(init), last.name + "_counts", AsDistribution(last.histogram));
      assert ArgumentNames(results) == ArgumentNames(init) + {last.name + "_counts"} by {
        forall k | k in ArgumentNames(results)
          ensures k in ArgumentNames(init) + {last.name + "_counts"}
        {
          var c :| 0 <= c < |results| && k == results[c].name + "_counts";
          if c < |results| - 1 {
            assert init[c] == results[c];
          }
        }
        forall k | k in ArgumentNames(init)
          ensures k in ArgumentNames(results)
        {
          var c :| 0 <= c < |init| && k == init[c].name + "_counts";
          assert results[c] == init[c];
        }
      }
    }
  }

  /** `{f"{info.name}_counts": info.mitigated_histogram for info in results}`, a missing histogram kept as `None`. */
  function MitigatedDictionary(results: seq<ResultForCircuit>): ODict<string, Option<Distribution>>
  {
    if |results| == 0 then []
    else
      var last := results[|results| - 1];
      Assign(MitigatedDictionary(results[..|results| - 1]), last.name + "_counts", last.mitigatedHistogram)
  }

  /** Result `c` is the last one with its name, so a dictionary built in order keeps its value for that name. */
  predicate LastOfName(results: seq<ResultForCircuit>, c: int)
  {
    0 <= c < |results| && forall d :: c < d < |results| ==> results[d].name != results[c].name
  }

  /** Appending the same suffix keeps different names different. */
  lemma SuffixCancels(a: string, b: string, suffix: string)
    ensures a + suffix == b + suffix ==> a == b
  {
    if a + suffix == b + suffix {
      assert a == (a + suffix)[..|a|];
      assert b == (b + suffix)[..|b|];
    }
  }

  /** Every name has a last result. */
  lemma {:induction false} LastOfNameExists(results: seq<ResultForCircuit>, c: nat)
    requires c < |results|
    ensures exists d :: LastOfName(results, d) && results[d].name == results[c].name
    decreases |results| - c
  {
    if !LastOfName(results, c) {
      var d :| c < d < |results| && results[d].name == results[c].name;
      LastOfNameExists(results, d);
    }
  }

  /** The keyword names are those of the plain histograms, each once. */
  lemma {:induction false} MitigatedDictionaryKeys(results: seq<ResultForCircuit>)
    ensures Keys(MitigatedDictionary(results)) == Keys(CountsArguments(results))
    ensures Distinct(Keys(MitigatedDictionary(results)))
    decreases |results|
  {
    if |results| > 0 {
      var n := |results| - 1;
      var last := results[n];
      var k := last.name + "_counts";
      var d0 := MitigatedDictionary(results[..n]);
      MitigatedDictionaryKeys(results[..n]);
      AssignKeys(d0, k, last.mitigatedHistogram);
      AssignKeys(CountsArguments(results[..n]), k, AsDistribution(last.histogram));
      if k !in Keys(d0) {
        var ks := Keys(d0) + [k];
        forall a, b | 0 <= a < b < |ks|
          ensures ks[a] != ks[b]
        {
          if b == |ks| - 1 {
            assert ks[a] == Keys(d0)[a];
          }
        }
      }
    }
  }

  /** Each keyword name keeps the value of its name's last result. */
  lemma {:induction false} MitigatedDictionaryLookup(results: seq<ResultForCircuit>)
    ensures forall c :: LastOfName(results, c) ==>
              Lookup(MitigatedDictionary(results), results[c].name + "_counts") == Some(results[c].mitigatedHistogram)
    decreases |results|
  {
    if |results| > 0 {
      var n := |results| - 1;
      var init := results[..n];
      var last := results[n];
      var k := last.name + "_counts";
      MitigatedDictionaryLookup(init);
      AssignLookup(MitigatedDictionary(init), k, last.mitigatedHistogram);
      forall c | LastOfName(results, c)
        ensures Lookup(MitigatedDictionary(results), results[c].name + "_counts") == Some(results[c].mitigatedHistogram)
      {
        if c < n {
          SuffixCancels(results[c].name, last.name, "_counts");
          assert LastOfName(init, c) by {
            forall d | c < d < |init|
              ensures init[d].name != init[c].name
            {
              assert init[d] == results[d];
            }
          }
        }
      }
    }
  }

  /** Every item of the dictionary is the name and value of a result that is last with its name. */
  lemma MitigatedDictionaryItems(results: seq<ResultForCircuit>, p: nat)
    requires p < |MitigatedDictionary(results)|
    ensures exists c :: LastOfName(results, c) &&
              MitigatedDictionary(results)[p] == (results[c].name + "_counts", results[c].mitigatedHistogram)
  {
    var d := MitigatedDictionary(results);
    MitigatedDictionaryKeys(results);
    MitigatedDictionaryLookup(results);
    CountsArgumentsKeys(results);
    assert Keys(d)[p] == d[p].0;
    assert d[p].0 in ArgumentNames(results);
    var c0 :| 0 <= c0 < |results| && d[p].0 == results[c0].name + "_counts";
    LastOfNameExists(results, c0);
    var c :| LastOfName(results, c) && results[c].name == results[c0].name;
    LookupAt(d, p);
  }

  /** Every result that is last with its name has its name and value as an item of the dictionary. */
  lemma MitigatedDictionaryCovers(results: seq<ResultForCircuit>, c: nat)
    requires LastOfName(results, c)
    ensures exists p :: 0 <= p < |MitigatedDictionary(results)| &&
              MitigatedDictionary(results)[p] == (results[c].name + "_counts", results[c].mitigatedHistogram)
  {
    var d := MitigatedDictionary(results);
    var key := results[c].name + "_counts";
    MitigatedDictionaryKeys(results);
    MitigatedDictionaryLookup(results);
    LookupPresent(d, key);
    var p :| 0 <= p < |d| && Keys(d)[p] == key;
    LookupAt(d, p);
  }

  /**
   * The mitigated keyword arguments: absent when a value of the dictionary is
   * `None`, because the formula then raises `AttributeError`. A result whose
   * name comes again later does not count, since its value is overwritten.
   */
  function MitigatedArguments(results: seq<ResultForCircuit>): (args: Option<ODict<string, Distribution>>)
    ensures args.Some? <==> forall c :: LastOfName(results, c) ==> results[c].mitigatedHistogram.Some?
    ensures args.Some? ==> Distinct(Keys(args.value)) && (set k | k in Keys(args.value)) == ArgumentNames(results)
    ensures args.Some? ==> forall c :: LastOfName(results, c) ==>
              (results[c].name + "_counts", results[c].mitigatedHistogram.value) in args.value
  {
    var d := MitigatedDictionary(results);
    MitigatedDictionaryKeys(results);
    CountsArgumentsKeys(results);
    if forall p :: 0 <= p < |d| ==> d[p].1.Some? then
      var u := seq(|d|, p requires 0 <= p < |d| => (d[p].0, d[p].1.value));
      assert Keys(u) == Keys(d);
      assert forall c :: LastOfName(results, c) ==>
               results[c].mitigatedHistogram.Some? && (results[c].name + "_counts", results[c].mitigatedHistogram.value) in u by {
        forall c | LastOfName(results, c)
          ensures results[c].mitigatedHistogram.Some? && (results[c].name + "_counts", results[c].mitigatedHistogram.value) in u
        {
          MitigatedDictionaryCovers(results, c);
          var p :| 0 <= p < |d| && d[p] == (results[c].name + "_counts", results[c].mitigatedHistogram);
          assert u[p] == (results[c].name + "_counts", results[c].mitigatedHistogram.value);
        }
      }
      Some(u)
    else
      assert exists c :: LastOfName(results, c) && results[c].mitigatedHistogram.None? by {
        var p :| 0 <= p < |d| && d[p].1.None?;
        MitigatedDictionaryItems(results, p);
      }
      None
  }

  /**
   * `_make_row`: the estimate from the histograms and, when the last result of
   * every circuit name has one, from the mitigated histograms.
   */
  function MakeRow(entry: SingleResult, formula: Formula): Row
  {
    var mitigated := MitigatedArguments(entry.resultsPerCircuit);
    Row(entry.target, entry.ancilla, entry.phi, formula(CountsArguments(entry.resultsPerCircuit)),
        if mitigated.Some? then Some(formula(mitigated.value)) else None)
  }

  /** `_make_row` over every entry, in order. */
  function MakeRows(data: seq<SingleResult>, formula: Formula): (rows: seq<Row>)
    ensures |rows| == |data|
    ensures forall i :: 0 <= i < |data| ==> rows[i] == MakeRow(data[i], formula)
  {
    seq(|data|, i requires 0 <= i < |data| => MakeRow(data[i], formula))
  }

  /** The postselection formula when the method is "postselection" in any case, the direct-sum one otherwise. */
  function ChooseFormula(methodName: string, postselection: Formula, directSum: Formula): Formula
  {
    if Lower(methodName) == PostselectionMethod then postselection else directSum
  }

  /** The parameters of `compute_probabilities_from_direct_sum_measurements`. */
  const DirectSumParameters: set<string> := {"id_counts", "u_counts"}
  /** The parameters of `compute_probabilities_from_postselection_measurements`. */
  const PostselectionParameters: set<string> := {"id_v0_counts", "id_v1_counts", "u_v0_counts", "u_v1_counts"}

  /** The parameters of the formula `ChooseFormula` picks. */
  function ChooseParameters(methodName: string): set<string>
  {
    if Lower(methodName) == PostselectionMethod then PostselectionParameters else DirectSumParameters
  }

  /** The entry's keyword arguments bind the formula's parameters: none missing and none unexpected. */
  predicate Binds(entry: SingleResult, parameters: set<string>)
  {
    ArgumentNames(entry.resultsPerCircuit) == parameters
  }

  /** The circuit names the two schemes assemble are exactly their formulas' parameters. */
  lemma SchemeNamesBind(entry: SingleResult, methodName: string)
    requires Lower(methodName) == PostselectionMethod ==>
               (|entry.resultsPerCircuit| == 4 &&
                entry.resultsPerCircuit[0].name == "id_v0" && entry.resultsPerCircuit[1].name == "id_v1" &&
                entry.resultsPerCircuit[2].name == "u_v0" && entry.resultsPerCircuit[3].name == "u_v1")
    requires Lower(methodName) != PostselectionMethod ==>
               (|entry.resultsPerCircuit| == 2 &&
                entry.resultsPerCircuit[0].name == "id" && entry.resultsPerCircuit[1].name == "u")
    ensures Binds(entry, ChooseParameters(methodName))
  {
    var rs := entry.resultsPerCircuit;
    if Lower(methodName) == PostselectionMethod {
      assert rs[0].name + "_counts" == "id_v0_counts";
      assert rs[1].name + "_counts" == "id_v1_counts";
      assert rs[2].name + "_counts" == "u_v0_counts";
      assert rs[3].name + "_counts" == "u_v1_counts";
      assert ArgumentNames(rs) == PostselectionParameters;
    } else {
      assert rs[0].name + "_counts" == "id_counts";
      assert rs[1].name + "_counts" == "u_counts";
      assert ArgumentNames(rs) == DirectSumParameters;
    }
  }

  /**
   * `tabulate_results`: one row per resolved label, in order; the first row
   * decides whether the table has the mitigated column. Calling the formula
   * with the circuits' keyword arguments raises `TypeError` when an entry's
   * circuit names are not the formula's parameters.
   */
  function TabulateResults(data: seq<SingleResult>, methodName: string, postselection: Formula, directSum: Formula)
    : (r: Result<Table, TabulateError>)
    ensures r == Failure(ArgumentMismatch) <==> exists i :: 0 <= i < |data| && !Binds(data[i], ChooseParameters(methodName))
    ensures |data| == 0 ==> r == Failure(EmptyData)
    ensures |data| > 0 && (forall i :: 0 <= i < |data| ==> Binds(data[i], ChooseParameters(methodName))) ==>
              (r.Failure? <==> MakeRow(data[0], ChooseFormula(methodName, postselection, directSum)).mitDiscProb.None? &&
                               exists i :: 0 <= i < |data| && MakeRow(data[i], ChooseFormula(methodName, postselection, directSum)).mitDiscProb.Some?)
    ensures r.Success? ==>
              var formula := ChooseFormula(methodName, postselection, directSum);
              && |r.value.rows| == |data|
              && (forall i :: 0 <= i < |data| ==> Binds(data[i], ChooseParameters(methodName)))
              && (forall i :: 0 <= i < |data| ==>
                    && r.value.rows[i].target == data[i].target
                    && r.value.rows[i].ancilla == data[i].ancilla
                    && r.value.rows[i].phi == data[i].phi
                    && r.value.rows[i].discProb == formula(CountsArguments(data[i].resultsPerCircuit))
                    && (r.value.rows[i].mitDiscProb.Some? <==>
                          forall c :: LastOfName(data[i].resultsPerCircuit, c) ==> data[i].resultsPerCircuit[c].mitigatedHistogram.Some?))
              && (r.value.columns == BaseColumns <==> r.value.rows[0].mitDiscProb.None?)
              && (r.value.columns == BaseColumns || r.value.columns == MitigatedColumns)
  {
    var rows := MakeRows(data, ChooseFormula(methodName, postselection, directSum));
    if exists i :: 0 <= i < |data| && !Binds(data[i], ChooseParameters(methodName)) then Failure(ArgumentMismatch)
    else if |rows| == 0 then Failure(EmptyData)
    else if rows[0].mitDiscProb.None? then
      if exists i :: 0 <= i < |rows| && rows[i].mitDiscProb.Some? then Failure(ColumnMismatch)
      else Success(Table(BaseColumns, rows))
    else Success(Table(MitigatedColumns, rows))
  }

  /** Two results named "id", the first without a mitigated histogram, then one named "u". */
  function OverwrittenResults(h: Histogram, m: Distribution): seq<ResultForCircuit>
  {
    [ResultForCircuit("id", h, None, None), ResultForCircuit("id", h, None, Some(m)),
     ResultForCircuit("u", h, None, Some(m))]
  }

  /** The later "id" result overwrites the earlier one, so the mitigated arguments exist. */
  lemma OverwrittenMitigated(h: Histogram, m: Distribution)
    ensures MitigatedArguments(OverwrittenResults(h, m)).Some?
  {
    var results := OverwrittenResults(h, m);
    assert !LastOfName(results, 0) by {
      assert results[1].name == results[0].name;
    }
  }

  /** A first result whose name the second repeats adds no keyword argument name. */
  lemma RepeatedNameKeepsArguments(results: seq<ResultForCircuit>)
    requires |results| >= 2 && results[0].name == results[1].name
    ensures ArgumentNames(results) == ArgumentNames(results[1..])
  {
    var rest := results[1..];
    forall k | k in ArgumentNames(results)
      ensures k in ArgumentNames(rest)
    {
      var c :| 0 <= c < |results| && k == results[c].name + "_counts";
      assert k == rest[if c == 0 then 0 else c - 1].name + "_counts";
    }
    forall k | k in ArgumentNames(rest)
      ensures k in ArgumentNames(results)
    {
      var c :| 0 <= c < |rest| && k == rest[c].name + "_counts";
      assert k == results[c + 1].name + "_counts";
    }
  }

  /** The overwritten entry still binds the direct-sum parameters. */
  lemma OverwrittenBinds(h: Histogram, m: Distribution)
    ensures Binds(SingleResult(0, 1, 0.0, OverwrittenResults(h, m)), ChooseParameters("direct_sum"))
  {
    var results := OverwrittenResults(h, m);
    assert Lower("direct_sum") != PostselectionMethod by {
      assert Lower("direct_sum")[0] == 'd';
    }
    var rest := results[1..];
    RepeatedNameKeepsArguments(results);
    SchemeNamesBind(SingleResult(0, 1, 0.0, rest), "direct_sum");
  }

  /** A table whose entries all bind and whose first row has a mitigated value has the mitigated column. */
  lemma MitigatedTable(data: seq<SingleResult>, methodName: string, postselection: Formula, directSum: Formula)
    requires |data| > 0
    requires forall i :: 0 <= i < |data| ==> Binds(data[i], ChooseParameters(methodName))
    requires MakeRow(data[0], ChooseFormula(methodName, postselection, directSum)).mitDiscProb.Some?
    ensures var r := TabulateResults(data, methodName, postselection, directSum);
            r.Success? && r.value.columns == MitigatedColumns
  {
  }

  /**
   * An entry whose first "id" result lacks a mitigated histogram but whose last one has it is
   * tabulated with the mitigated column: the dictionary keeps the later value.
   */
  lemma OverwrittenNameExample(h: Histogram, m: Distribution, f: Formula)
    ensures var r := TabulateResults([SingleResult(0, 1, 0.0, OverwrittenResults(h, m))], "direct_sum", f, f);
            r.Success? && r.value.columns == MitigatedColumns
  {
    var data := [SingleResult(0, 1, 0.0, OverwrittenResults(h, m))];
    OverwrittenBinds(h, m);
    OverwrittenMitigated(h, m);
    MitigatedTable(data, "direct_sum", f, f);
  }
}
