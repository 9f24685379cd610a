/**
 * The failing mock end to end: batches submitted to a mock simulator whose
 * jobs at chosen submission indices fail, then resolved. When every batch
 * holds the circuits of one label, resolution keeps one group per batch
 * whose job ran. With the command-line test's experiment (three qubit
 * pairs, three angles, the two direct-sum circuits, two circuits per job and
 * the second and third jobs failing), 14 of the 18 results survive, in 7
 * groups, and the warning is logged.
 */
module FailingMockScenario {
  import opened Wrappers
  import opened CommonModels
  import opened OrderedDicts
  import opened FourierModels
  import opened Batching
  import opened Testing
  import opened ExperimentRunner

  /** A batch holds as many keys as circuits, at least one, all under one label. */
  predicate LabelledBatch<C>(batch: BatchWithKey<C, CircuitKey>, lab: Label)
  {
    && 1 <= |batch.keys| == |batch.circuits|
    && forall i :: 0 <= i < |batch.keys| ==> LabelOf(batch.keys[i]) == lab
  }

  /** Every batch is labelled by its own label; no label repeats. */
  predicate LabelledBatches<C>(bs: seq<BatchWithKey<C, CircuitKey>>, labels: seq<Label>)
  {
    && |labels| == |bs|
    && Distinct(labels)
    && forall j :: 0 <= j < |bs| ==> LabelledBatch(bs[j], labels[j])
  }

  /** The simulator measures a valid histogram for every circuit of a batch. */
  predicate SimulatesBatch<C>(backend: MockSimulator<C>, batch: BatchWithKey<C, CircuitKey>, shots: nat)
  {
    forall i :: 0 <= i < |batch.circuits| ==> IsSynchronousHistogram(backend.simulate(batch.circuits[i], shots))
  }

  /** ... and so for every circuit of the batches. */
  predicate SimulatesHistograms<C>(backend: MockSimulator<C>, bs: seq<BatchWithKey<C, CircuitKey>>, shots: nat)
  {
    forall j :: 0 <= j < |bs| ==> SimulatesBatch(backend, bs[j], shots)
  }

  /** What a batch's job yields when it runs: one unmitigated result per key. */
  function MockResults<C>(backend: MockSimulator<C>, batch: BatchWithKey<C, CircuitKey>, shots: nat): (rs: seq<ResultForCircuit>)
    requires |batch.keys| <= |batch.circuits|
    ensures |rs| == |batch.keys|
  {
    seq(|batch.keys|, i requires 0 <= i < |batch.keys| =>
      ResultForCircuit(batch.keys[i].name, backend.simulate(batch.circuits[i], shots), None, None))
  }

  /** The expected groups: one per batch whose job runs, in batch order, under the batch's label. */
  function MockGroups<C>(backend: MockSimulator<C>, start: nat, bs: seq<BatchWithKey<C, CircuitKey>>, shots: nat, labels: seq<Label>)
    : ODict<Label, seq<ResultForCircuit>>
    requires |labels| == |bs| && forall j :: 0 <= j < |bs| ==> |bs[j].keys| <= |bs[j].circuits|
  {
    if |bs| == 0 then []
    else
      var n := |bs| - 1;
      MockGroups(backend, start, bs[..n], shots, labels[..n])
      + (if start + n in backend.failJobIndices then [] else [(labels[n], MockResults(backend, bs[n], shots))])
  }

  /** The number of keys in the batches whose job fails. */
  function FailedKeys<C>(backend: MockSimulator<C>, start: nat, bs: seq<BatchWithKey<C, CircuitKey>>): nat
  {
    if |bs| == 0 then 0
    else
      var n := |bs| - 1;
      FailedKeys(backend, start, bs[..n]) + (if start + n in backend.failJobIndices then |bs[n].keys| else 0)
  }

  /** The number of the first `n` submissions from `start` on that fail. */
  function FailingRuns(start: nat, n: nat, failJobIndices: seq<int>): nat
  {
    if n == 0 then 0 else FailingRuns(start, n - 1, failJobIndices) + (if start + n - 1 in failJobIndices then 1 else 0)
  }

  lemma {:induction false} MockGroupsLabels<C>(backend: MockSimulator<C>, start: nat, bs: seq<BatchWithKey<C, CircuitKey>>, shots: nat, labels: seq<Label>)
    requires |labels| == |bs| && forall j :: 0 <= j < |bs| ==> |bs[j].keys| <= |bs[j].circuits|
    ensures forall g :: 0 <= g < |MockGroups(backend, start, bs, shots, labels)| ==> MockGroups(backend, start, bs, shots, labels)[g].0 in labels
  {
    if |bs| > 0 {
      var n := |bs| - 1;
      MockGroupsLabels(backend, start, bs[..n], shots, labels[..n]);
    }
  }

  /** One group is missing per failed run. */
  lemma {:induction false} MockGroupsCount<C>(backend: MockSimulator<C>, start: nat, bs: seq<BatchWithKey<C, CircuitKey>>, shots: nat, labels: seq<Label>)
    requires |labels| == |bs| && forall j :: 0 <= j < |bs| ==> |bs[j].keys| <= |bs[j].circuits|
    ensures |MockGroups(backend, start, bs, shots, labels)| + FailingRuns(start, |bs|, backend.failJobIndices) == |bs|
  {
    if |bs| > 0 {
      var n := |bs| - 1;
      MockGroupsCount(backend, start, bs[..n], shots, labels[..n]);
    }
  }

  /** With batches of one size, each group holds that many results. */
  lemma {:induction false} MockGroupsSizes<C>(backend: MockSimulator<C>, start: nat, bs: seq<BatchWithKey<C, CircuitKey>>, shots: nat, labels: seq<Label>, size: nat)
    requires |labels| == |bs| && forall j :: 0 <= j < |bs| ==> |bs[j].keys| == size <= |bs[j].circuits|
    ensures forall g :: 0 <= g < |MockGroups(backend, start, bs, shots, labels)| ==> |MockGroups(backend, start, bs, shots, labels)[g].1| == size
  {
    if |bs| > 0 {
      var n := |bs| - 1;
      MockGroupsSizes(backend, start, bs[..n], shots, labels[..n], size);
    }
  }

  /** With batches of one size, the failed runs lose that many keys each. */
  lemma {:induction false} FailedKeysCount<C>(backend: MockSimulator<C>, start: nat, bs: seq<BatchWithKey<C, CircuitKey>>, size: nat)
    requires forall j :: 0 <= j < |bs| ==> |bs[j].keys| == size
    ensures FailedKeys(backend, start, bs) == size * FailingRuns(start, |bs|, backend.failJobIndices)
  {
    if |bs| > 0 {
      var n := |bs| - 1;
      FailedKeysCount(backend, start, bs[..n], size);
      var f := FailingRuns(start, n, backend.failJobIndices);
      assert size * (f + 1) == size * f + size;
    }
  }

  /** The items the resolution iterates over, job after job, as submission builds them up. */
  function MockItems<C>(backend: MockSimulator<C>, start: nat, bs: seq<BatchWithKey<C, CircuitKey>>, shots: nat): seq<Item>
  {
    if |bs| == 0 then []
    else
      var n := |bs| - 1;
      MockItems(backend, start, bs[..n], shots) + BatchItems(BatchJob(backend.JobFor(start + n, bs[n].circuits, shots), bs[n].keys))
  }

  lemma MockItemsSnoc<C>(backend: MockSimulator<C>, start: nat, bs: seq<BatchWithKey<C, CircuitKey>>, shots: nat)
    requires |bs| > 0
    ensures MockItems(backend, start, bs, shots)
            == MockItems(backend, start, bs[..|bs| - 1], shots) + BatchItems(BatchJob(backend.JobFor(start + (|bs| - 1), bs[|bs| - 1].circuits, shots), bs[|bs| - 1].keys))
  {
  }

  /** They are the items of the submitted jobs. */
  lemma {:induction false} MockItemsAreSubmitted<C>(backend: MockSimulator<C>, start: nat, bs: seq<BatchWithKey<C, CircuitKey>>, shots: nat)
    ensures MockItems(backend, start, bs, shots) == IterBatches(Submitted(backend, start, bs, shots))
  {
    if |bs| > 0 {
      MockItemsAreSubmitted(backend, start, bs[..|bs| - 1], shots);
      SubmittedJobsSnoc(backend, start, bs, shots);
    }
  }

  /**
   * Resolving the jobs the mock returns for labelled batches raises nowhere,
   * keeps one group per batch whose job ran, holding that batch's results in
   * key order, and counts every key of the failed batches.
   */
  lemma MockResolution<C>(backend: MockSimulator<C>, start: nat, bs: seq<BatchWithKey<C, CircuitKey>>, shots: nat,
                          labels: seq<Label>, mitigate: Mitigator)
    requires !backend.withMitigation
    requires LabelledBatches(bs, labels)
    requires SimulatesHistograms(backend, bs, shots)
    ensures var items := IterBatches(Submitted(backend, start, bs, shots));
            && FirstFailure(items, mitigate).None?
            && Group(Survivors(items, mitigate)) == MockGroups(backend, start, bs, shots, labels)
            && FailedCount(items, mitigate) == FailedKeys(backend, start, bs)
  {
    MockItemsAreSubmitted(backend, start, bs, shots);
    MockNeverRaises(backend, start, bs, shots, mitigate);
    MockSurvivors(backend, start, bs, shots, labels, mitigate);
  }

  /** No extraction raises: a failed job yields no result, and a job that ran has a valid histogram per key. */
  lemma {:induction false} MockNeverRaises<C>(backend: MockSimulator<C>, start: nat, bs: seq<BatchWithKey<C, CircuitKey>>, shots: nat,
                                              mitigate: Mitigator)
    requires !backend.withMitigation
    requires forall j :: 0 <= j < |bs| ==> |bs[j].keys| <= |bs[j].circuits|
    requires SimulatesHistograms(backend, bs, shots)
    ensures FirstFailure(MockItems(backend, start, bs, shots), mitigate).None?
  {
    if |bs| > 0 {
      var n := |bs| - 1;
      assert SimulatesHistograms(backend, bs[..n], shots);
      MockNeverRaises(backend, start, bs[..n], shots, mitigate);
      var last := BatchJob(backend.JobFor(start + n, bs[n].circuits, shots), bs[n].keys);
      LastBatchOutcome(backend, start + n, bs[n], shots, mitigate);
      FirstFailureAppend(MockItems(backend, start, bs[..n], shots), BatchItems(last), mitigate);
    }
  }

  /** The items of one batch's job: none raises. */
  lemma LastBatchOutcome<C>(backend: MockSimulator<C>, k: nat, batch: BatchWithKey<C, CircuitKey>, shots: nat, mitigate: Mitigator)
    requires !backend.withMitigation && |batch.keys| <= |batch.circuits|
    requires forall i :: 0 <= i < |batch.circuits| ==> IsSynchronousHistogram(backend.simulate(batch.circuits[i], shots))
    ensures FirstFailure(BatchItems(BatchJob(backend.JobFor(k, batch.circuits, shots), batch.keys)), mitigate).None?
  {
    var last := BatchJob(backend.JobFor(k, batch.circuits, shots), batch.keys);
    if k in backend.failJobIndices {
      FailedBatch(last, mitigate);
    } else {
      SucceededBatch(last, mitigate);
    }
  }

  /** The groups and the failure count of resolving the mock's jobs. */
  lemma {:induction false} MockSurvivors<C>(backend: MockSimulator<C>, start: nat, bs: seq<BatchWithKey<C, CircuitKey>>, shots: nat,
                                            labels: seq<Label>, mitigate: Mitigator)
    requires !backend.withMitigation
    requires LabelledBatches(bs, labels)
    requires SimulatesHistograms(backend, bs, shots)
    ensures Group(Survivors(MockItems(backend, start, bs, shots), mitigate)) == MockGroups(backend, start, bs, shots, labels)
    ensures FailedCount(MockItems(backend, start, bs, shots), mitigate) == FailedKeys(backend, start, bs)
  {
    if |bs| > 0 {
      var n := |bs| - 1;
      LabelledPrefix(backend, bs, shots, labels);
      MockSurvivors(backend, start, bs[..n], shots, labels[..n], mitigate);
      if start + n in backend.failJobIndices {
        FailedStep(backend, start, bs, shots, labels, mitigate);
      } else {
        LastGroup(backend, start, bs, shots, labels, Survivors(MockItems(backend, start, bs[..n], shots), mitigate), mitigate);
        RanStep(backend, start, bs, shots, labels, mitigate);
      }
    }
  }

  /** The step of `MockSurvivors` when the last job fails: no new group, and its keys are counted. */
  lemma FailedStep<C>(backend: MockSimulator<C>, start: nat, bs: seq<BatchWithKey<C, CircuitKey>>, shots: nat,
                      labels: seq<Label>, mitigate: Mitigator)
    requires |labels| == |bs| > 0 && forall j :: 0 <= j < |bs| ==> |bs[j].keys| <= |bs[j].circuits|
    requires start + (|bs| - 1) in backend.failJobIndices
    requires Group(Survivors(MockItems(backend, start, bs[..|bs| - 1], shots), mitigate))
             == MockGroups(backend, start, bs[..|bs| - 1], shots, labels[..|bs| - 1])
    requires FailedCount(MockItems(backend, start, bs[..|bs| - 1], shots), mitigate) == FailedKeys(backend, start, bs[..|bs| - 1])
    ensures Group(Survivors(MockItems(backend, start, bs, shots), mitigate)) == MockGroups(backend, start, bs, shots, labels)
    ensures FailedCount(MockItems(backend, start, bs, shots), mitigate) == FailedKeys(backend, start, bs)
  {
    var n := |bs| - 1;
    var a := MockItems(backend, start, bs[..n], shots);
    var last := BatchJob(backend.JobFor(start + n, bs[n].circuits, shots), bs[n].keys);
    var b := BatchItems(last);
    MockItemsSnoc(backend, start, bs, shots);
    FailedPrefix(b, mitigate);
    FailedRunKeepsGroups(backend, start, bs, shots, labels);
    assert Survivors(a, mitigate) + Survivors(b, mitigate) == Survivors(a, mitigate);
    AppendStep(MockItems(backend, start, bs, shots), a, b, mitigate, MockGroups(backend, start, bs, shots, labels), FailedKeys(backend, start, bs));
  }

  lemma FailedRunKeepsGroups<C>(backend: MockSimulator<C>, start: nat, bs: seq<BatchWithKey<C, CircuitKey>>, shots: nat, labels: seq<Label>)
    requires |labels| == |bs| > 0 && forall j :: 0 <= j < |bs| ==> |bs[j].keys| <= |bs[j].circuits|
    requires start + (|bs| - 1) in backend.failJobIndices
    ensures MockGroups(backend, start, bs, shots, labels) == MockGroups(backend, start, bs[..|bs| - 1], shots, labels[..|bs| - 1])
    ensures FailedKeys(backend, start, bs) == FailedKeys(backend, start, bs[..|bs| - 1]) + |bs[|bs| - 1].keys|
  {
    var n := |bs| - 1;
    assert MockGroups(backend, start, bs, shots, labels) == MockGroups(backend, start, bs[..n], shots, labels[..n]) + [];
  }

  /** The step of `MockSurvivors` when the last job runs: one new group, nothing counted. */
  lemma RanStep<C>(backend: MockSimulator<C>, start: nat, bs: seq<BatchWithKey<C, CircuitKey>>, shots: nat,
                   labels: seq<Label>, mitigate: Mitigator)
    requires |labels| == |bs| > 0 && forall j :: 0 <= j < |bs| ==> |bs[j].keys| <= |bs[j].circuits|
    requires start + (|bs| - 1) !in backend.failJobIndices
    requires FailedCount(MockItems(backend, start, bs[..|bs| - 1], shots), mitigate) == FailedKeys(backend, start, bs[..|bs| - 1])
    requires var last := BatchJob(backend.JobFor(start + (|bs| - 1), bs[|bs| - 1].circuits, shots), bs[|bs| - 1].keys);
             && FailedCount(BatchItems(last), mitigate) == 0
             && Group(Survivors(MockItems(backend, start, bs[..|bs| - 1], shots), mitigate) + Survivors(BatchItems(last), mitigate))
                == MockGroups(backend, start, bs, shots, labels)
    ensures Group(Survivors(MockItems(backend, start, bs, shots), mitigate)) == MockGroups(backend, start, bs, shots, labels)
    ensures FailedCount(MockItems(backend, start, bs, shots), mitigate) == FailedKeys(backend, start, bs)
  {
    var n := |bs| - 1;
    var a := MockItems(backend, start, bs[..n], shots);
    var b := BatchItems(BatchJob(backend.JobFor(start + n, bs[n].circuits, shots), bs[n].keys));
    MockItemsSnoc(backend, start, bs, shots);
    assert FailedKeys(backend, start, bs) == FailedKeys(backend, start, bs[..n]);
    AppendStep(MockItems(backend, start, bs, shots), a, b, mitigate, MockGroups(backend, start, bs, shots, labels), FailedKeys(backend, start, bs));
  }

  /** Survivors and failure counts of two runs of items combine into those of their concatenation. */
  lemma AppendStep(items: seq<Item>, a: seq<Item>, b: seq<Item>, mitigate: Mitigator, groups: ODict<Label, seq<ResultForCircuit>>, failed: nat)
    requires items == a + b
    requires Group(Survivors(a, mitigate) + Survivors(b, mitigate)) == groups
    requires FailedCount(a, mitigate) + FailedCount(b, mitigate) == failed
    ensures Group(Survivors(items, mitigate)) == groups
    ensures FailedCount(items, mitigate) == failed
  {
    SurvivorsAppend(a, b, mitigate);
  }

  lemma LabelledPrefix<C>(backend: MockSimulator<C>, bs: seq<BatchWithKey<C, CircuitKey>>, shots: nat, labels: seq<Label>)
    requires LabelledBatches(bs, labels) && SimulatesHistograms(backend, bs, shots) && |bs| > 0
    ensures LabelledBatches(bs[..|bs| - 1], labels[..|bs| - 1])
    ensures SimulatesHistograms(backend, bs[..|bs| - 1], shots)
  {
    var n := |bs| - 1;
    assert Distinct(labels[..n]);
  }

  /** Submitting one more batch adds its job's items after the others. */
  lemma SubmittedJobsSnoc<C>(backend: MockSimulator<C>, start: nat, bs: seq<BatchWithKey<C, CircuitKey>>, shots: nat)
    requires |bs| > 0
    ensures var n := |bs| - 1;
            IterBatches(Submitted(backend, start, bs, shots))
            == IterBatches(Submitted(backend, start, bs[..n], shots)) + BatchItems(BatchJob(backend.JobFor(start + n, bs[n].circuits, shots), bs[n].keys))
  {
    var n := |bs| - 1;
    var jobs := Submitted(backend, start, bs, shots);
    var initJobs := Submitted(backend, start, bs[..n], shots);
    var last := jobs[n];
    assert jobs == initJobs + [last];
    IterBatchesAppend(initJobs, [last]);
    assert IterBatches([last]) == BatchItems(last) by {
      assert [last][1..] == [];
    }
  }

  /** A job that ran adds its batch's results as a new group under the batch's label. */
  lemma LastGroup<C>(backend: MockSimulator<C>, start: nat, bs: seq<BatchWithKey<C, CircuitKey>>, shots: nat,
                     labels: seq<Label>, s: seq<(Label, ResultForCircuit)>, mitigate: Mitigator)
    requires !backend.withMitigation && LabelledBatches(bs, labels) && SimulatesHistograms(backend, bs, shots) && |bs| > 0
    requires start + (|bs| - 1) !in backend.failJobIndices
    requires Group(s) == MockGroups(backend, start, bs[..|bs| - 1], shots, labels[..|bs| - 1])
    ensures var last := BatchJob(backend.JobFor(start + (|bs| - 1), bs[|bs| - 1].circuits, shots), bs[|bs| - 1].keys);
            && FailedCount(BatchItems(last), mitigate) == 0
            && Group(s + Survivors(BatchItems(last), mitigate)) == MockGroups(backend, start, bs, shots, labels)
  {
    var n := |bs| - 1;
    var last := BatchJob(backend.JobFor(start + n, bs[n].circuits, shots), bs[n].keys);
    SucceededBatch(last, mitigate);
    var run := UnmitigatedResults(last);
    assert Values(run) == MockResults(backend, bs[n], shots);
    LabelledPrefix(backend, bs, shots, labels);
    MockGroupsLabels(backend, start, bs[..n], shots, labels[..n]);
    GroupKeys(s);
    assert labels[n] !in Keys(s);
    GroupFreshRun(s, run);
  }

  /** Total number of results in groups of one size. */
  lemma {:induction false} UniformTotalLength<K, V>(d: ODict<K, seq<V>>, size: nat)
    requires forall g :: 0 <= g < |d| ==> |d[g].1| == size
    ensures TotalLength(d) == size * |d|
  {
    if |d| > 0 {
      UniformTotalLength(d[1..], size);
      assert size * |d| == size + size * (|d| - 1);
    }
  }

  // ---------------------------------------------------------------- the command-line test

  /** The qubit pairs of the command-line test's experiment. */
  const TestQubits: seq<QubitsPair> := [QubitsPair(0, 1), QubitsPair(1, 0), QubitsPair(2, 5)]
  /** Its angles: three steps from 0 to 2. */
  const TestPhis: seq<real> := [0.0, 1.0, 2.0]

  lemma TestLabelsAreDistinct()
    ensures |EnumerateExperimentLabels(TestQubits, TestPhis)| == 9
    ensures Distinct(EnumerateExperimentLabels(TestQubits, TestPhis))
    ensures forall l :: 0 <= l < 9 ==>
              EnumerateExperimentLabels(TestQubits, TestPhis)[l].target >= 0 && EnumerateExperimentLabels(TestQubits, TestPhis)[l].ancilla >= 0
  {
    var ls := EnumerateExperimentLabels(TestQubits, TestPhis);
    assert ls == PairLabels(TestQubits[0], TestPhis) + PairLabels(TestQubits[1], TestPhis) + PairLabels(TestQubits[2], TestPhis) by {
      assert TestQubits[1..][1..][1..] == [];
    }
    assert ls == [Label(0, 1, 0.0), Label(0, 1, 1.0), Label(0, 1, 2.0),
                  Label(1, 0, 0.0), Label(1, 0, 1.0), Label(1, 0, 2.0),
                  Label(2, 5, 0.0), Label(2, 5, 1.0), Label(2, 5, 2.0)];
  }

  lemma TestFailingRuns()
    ensures FailingRuns(0, 9, FailingMockJobIndices) == 2
  {
    var f := FailingMockJobIndices;
    assert FailingRuns(0, 3, f) == 2;
    assert FailingRuns(0, 6, f) == 2;
  }

  /** The test's circuits and keys split into 9 jobs of two, each holding the two circuits of one label. */
  lemma TestBatches<P, C>(directSum: Assembler<P>, bind: (P, real) -> C, names: seq<string>)
    requires |names| == 2 && forall t, a :: Keys(directSum(t, a)) == names
    ensures var labels := EnumerateExperimentLabels(TestQubits, TestPhis);
            var pairs := CircuitKeyPairs(labels, directSum, bind);
            var bs := Chunks(Keys(pairs), Values(pairs), 2);
            && |pairs| == 18 && |bs| == 9
            && LabelledBatches(bs, labels)
            && forall j :: 0 <= j < |bs| ==> |bs[j].keys| == 2
  {
    var labels := EnumerateExperimentLabels(TestQubits, TestPhis);
    TestLabelsAreDistinct();
    var pairs := CircuitKeyPairs(labels, directSum, bind);
    KeyAt(labels, directSum, bind, names, 0, 0);
    var circuits := Keys(pairs);
    var keys := Values(pairs);
    var bs := Chunks(circuits, keys, 2);
    ChunkCount(circuits, keys, 2);
    assert |bs| == 9;
    forall j | 0 <= j < 9
      ensures |bs[j].keys| == 2 == |bs[j].circuits|
      ensures forall i :: 0 <= i < |bs[j].keys| ==> LabelOf(bs[j].keys[i]) == labels[j]
    {
      ChunkAt(circuits, keys, 2, j);
      forall i | 0 <= i < 2
        ensures LabelOf(bs[j].keys[i]) == labels[j]
      {
        KeyAt(labels, directSum, bind, names, j, i);
        assert bs[j].keys[i] == keys[j * 2 + i];
      }
    }
  }

  lemma SimulatesEverywhere<C>(backend: MockSimulator<C>, bs: seq<BatchWithKey<C, CircuitKey>>, shots: nat)
    requires forall c: C, n: nat :: IsSynchronousHistogram(backend.simulate(c, n))
    ensures SimulatesHistograms(backend, bs, shots)
  {
  }

  /** With the direct-sum method, collecting the test's experiment gives its circuit/key pairs, cut into jobs of two. */
  lemma TestCollect<P, C>(experiment: FourierExperimentSet, postselection: Assembler<P>, directSum: Assembler<P>, bind: (P, real) -> C, names: seq<string>)
    requires experiment.qubits == TestQubits && experiment.methodName == DirectSumMethod
    requires |names| == 2 && forall t, a :: Keys(directSum(t, a)) == names
    ensures var pairs := CircuitKeyPairs(EnumerateExperimentLabels(TestQubits, TestPhis), directSum, bind);
            && CollectCircuitsAndKeys(experiment, TestPhis, postselection, directSum, bind) == Success((Keys(pairs), Values(pairs)))
            && Batches(Keys(pairs), Values(pairs), Some(Limits.MockMaxCircuits)) == Success(Chunks(Keys(pairs), Values(pairs), 2))
  {
    assert experiment.methodName != PostselectionMethod by {
      assert experiment.methodName[0] == 'd';
    }
    TestBatches(directSum, bind, names);
  }

  /** Nine labelled jobs of two with the failing mock's indices: seven groups of two survive, four results are lost. */
  lemma TestResolution<C>(backend: MockSimulator<C>, bs: seq<BatchWithKey<C, CircuitKey>>, shots: nat, mitigate: Mitigator)
    requires backend.failJobIndices == FailingMockJobIndices && !backend.withMitigation
    requires LabelledBatches(bs, EnumerateExperimentLabels(TestQubits, TestPhis)) && SimulatesHistograms(backend, bs, shots)
    requires |bs| == 9 && forall j :: 0 <= j < |bs| ==> |bs[j].keys| == 2
    ensures var jobs := Submitted(backend, 0, bs, shots);
            && Resolved(jobs, mitigate).Success?
            && |Resolved(jobs, mitigate).value| == 7
            && (forall g :: 0 <= g < 7 ==> |Resolved(jobs, mitigate).value[g].resultsPerCircuit| == 2)
            && TotalLength(Group(Survivors(IterBatches(jobs), mitigate))) == 14
            && FailedCount(IterBatches(jobs), mitigate) == 4
            && Warned(jobs, mitigate)
  {
    var labels := EnumerateExperimentLabels(TestQubits, TestPhis);
    TestLabelsAreDistinct();
    MockResolution(backend, 0, bs, shots, labels, mitigate);
    TestGroups(backend, bs, shots);
    var groups := MockGroups(backend, 0, bs, shots, labels);
    ValidGroups(groups);
    var jobs := Submitted(backend, 0, bs, shots);
    assert Resolved(jobs, mitigate) == ToSingleResults(groups);
  }

  /** The expected groups of the test: seven of two, under labels of non-negative qubits, and four keys lost. */
  lemma TestGroups<C>(backend: MockSimulator<C>, bs: seq<BatchWithKey<C, CircuitKey>>, shots: nat)
    requires backend.failJobIndices == FailingMockJobIndices
    requires |bs| == 9 && forall j :: 0 <= j < |bs| ==> |bs[j].keys| == 2 <= |bs[j].circuits|
    ensures var groups := MockGroups(backend, 0, bs, shots, EnumerateExperimentLabels(TestQubits, TestPhis));
            && |groups| == 7
            && (forall g :: 0 <= g < 7 ==> |groups[g].1| == 2 && groups[g].0.target >= 0 && groups[g].0.ancilla >= 0)
            && TotalLength(groups) == 14
            && FailedKeys(backend, 0, bs) == 4
  {
    var labels := EnumerateExperimentLabels(TestQubits, TestPhis);
    TestLabelsAreDistinct();
    MockGroupsCount(backend, 0, bs, shots, labels);
    MockGroupsSizes(backend, 0, bs, shots, labels, 2);
    FailedKeysCount(backend, 0, bs, 2);
    MockGroupsLabels(backend, 0, bs, shots, labels);
    TestFailingRuns();
    var groups := MockGroups(backend, 0, bs, shots, labels);
    UniformTotalLength(groups, 2);
  }

  /** Groups under labels of non-negative qubits all validate, one record each, holding the group's results. */
  lemma ValidGroups(groups: ODict<Label, seq<ResultForCircuit>>)
    requires forall g :: 0 <= g < |groups| ==> groups[g].0.target >= 0 && groups[g].0.ancilla >= 0
    ensures ToSingleResults(groups).Success?
    ensures |ToSingleResults(groups).value| == |groups|
    ensures forall g :: 0 <= g < |groups| ==> ToSingleResults(groups).value[g].resultsPerCircuit == groups[g].1
  {
  }

  /**
   * The failing mock with the command-line test's experiment: the 18
   * circuits go out in 9 jobs of two, the two failed jobs lose their 4
   * results, and the other 14 come back in 7 groups of two, with the warning.
   */
  lemma FailingMockCliScenario<P, C>(
    backend: MockSimulator<C>, experiment: FourierExperimentSet,
    postselection: Assembler<P>, directSum: Assembler<P>, bind: (P, real) -> C, names: seq<string>, mitigate: Mitigator)
    requires backend.failJobIndices == FailingMockJobIndices && !backend.withMitigation
    requires experiment.qubits == TestQubits && experiment.methodName == DirectSumMethod
    requires |names| == 2 && forall t, a :: Keys(directSum(t, a)) == names
    requires forall c: C, n: nat :: IsSynchronousHistogram(backend.simulate(c, n))
    ensures CollectCircuitsAndKeys(experiment, TestPhis, postselection, directSum, bind).Success?
    ensures var (circuits, keys) := CollectCircuitsAndKeys(experiment, TestPhis, postselection, directSum, bind).value;
            var bs := Batches(circuits, keys, Some(Limits.MockMaxCircuits)).value;
            var jobs := Submitted(backend, 0, bs, experiment.numShots);
            && |circuits| == 18 && |bs| == 9
            && Resolved(jobs, mitigate).Success?
            && |Resolved(jobs, mitigate).value| == 7
            && (forall g :: 0 <= g < 7 ==> |Resolved(jobs, mitigate).value[g].resultsPerCircuit| == 2)
            && TotalLength(Group(Survivors(IterBatches(jobs), mitigate))) == 14
            && FailedCount(IterBatches(jobs), mitigate) == 4
            && Warned(jobs, mitigate)
  {
    var labels := EnumerateExperimentLabels(TestQubits, TestPhis);
    var pairs := CircuitKeyPairs(labels, directSum, bind);
    TestCollect(experiment, postselection, directSum, bind, names);
    TestBatches(directSum, bind, names);
    var bs := Chunks(Keys(pairs), Values(pairs), 2);
    var shots := experiment.numShots;
    SimulatesEverywhere(backend, bs, shots);
    TestResolution(backend, bs, shots, mitigate);
  }
}
