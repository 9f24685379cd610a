/**
 * The data of a Fourier discrimination experiment: the experiment set and its
 * validation, the labels it enumerates, and the records a run produces (the
 * result of one circuit, the results of one label, and the id and keys of one
 * submitted batch).
 */
module FourierModels {
  import opened Wrappers
  import opened CommonModels
  import opened OrderedDicts
  import Jobs

  /** `(target, ancilla, circuit name, phi)`: what identifies a submitted circuit. */
  datatype CircuitKey = CircuitKey(target: int, ancilla: int, name: string, phi: real)

  /** `(target, ancilla, phi)`: one label of the experiment set. */
  datatype Label = Label(target: int, ancilla: int, phi: real)

  /** The label a circuit key belongs to. */
  function LabelOf(key: CircuitKey): Label
  {
    Label(key.target, key.ancilla, key.phi)
  }

  const ExperimentType: string := "discrimination-fourier"
  const DirectSumMethod: string := "direct_sum"
  const PostselectionMethod: string := "postselection"

  datatype FourierExperimentSet = FourierExperimentSet(
    qubits: seq<QubitsPair>,
    angles: AnglesRange,
    gateset: Option<string>,
    methodName: string,
    numShots: nat)

  // ---------------------------------------------------------------- qubit pairs of a set

  /** The ordered `(target, ancilla)` tuples of a list of pairs. */
  function PairTuples(qubits: seq<QubitsPair>): (ts: seq<(nat, nat)>)
    ensures |ts| == |qubits|
    ensures forall i :: 0 <= i < |qubits| ==> ts[i] == (qubits[i].target, qubits[i].ancilla)
  {
    seq(|qubits|, i requires 0 <= i < |qubits| => (qubits[i].target, qubits[i].ancilla))
  }

  /**
   * `check_if_all_pairs_of_qubits_are_different`: the list is rejected when
   * the set of its tuples is smaller than the list, that is, iff some ordered
   * pair occurs twice; otherwise it is returned unchanged.
   */
  function CheckIfAllPairsOfQubitsAreDifferent(qubits: seq<QubitsPair>): (r: Result<seq<QubitsPair>, Violation>)
    ensures r.Success? <==> Distinct(PairTuples(qubits))
    ensures r.Success? ==> r.value == qubits
    ensures r.Failure? ==> r.error == DuplicatePairs
  {
    var tuples := PairTuples(qubits);
    DistinctIffSetSize(tuples);
    if |set t | t in tuples| != |tuples| then Failure(DuplicatePairs) else Success(qubits)
  }

  /** Only equal ordered tuples collide: a pair and its reverse may both appear, a repeated pair may not. */
  lemma PairOrderMatters()
    ensures CheckIfAllPairsOfQubitsAreDifferent([QubitsPair(5, 4), QubitsPair(4, 5)]).Success?
    ensures CheckIfAllPairsOfQubitsAreDifferent([QubitsPair(0, 1), QubitsPair(2, 3), QubitsPair(0, 1)]).Failure?
  {
    var repeated := PairTuples([QubitsPair(0, 1), QubitsPair(2, 3), QubitsPair(0, 1)]);
    assert repeated[0] == repeated[2];
  }

  // ---------------------------------------------------------------- validation of a set

  /**
   * The `qubits` field: each item is a `QubitsPair`; when any item fails
   * the field has failed and the pair validator does not run.
   */
  function ValidatePairs(raw: seq<(RawValue, RawValue)>): (r: Result<seq<QubitsPair>, seq<Violation>>)
    ensures r.Success? <==> forall i :: 0 <= i < |raw| ==> ValidateQubitsPair(raw[i].0, raw[i].1).Success?
    ensures r.Success? ==> |r.value| == |raw| && forall i :: 0 <= i < |raw| ==> r.value[i] == ValidateQubitsPair(raw[i].0, raw[i].1).value
    ensures r.Failure? ==> |r.error| > 0
  {
    if |raw| == 0 then Success([])
    else
      var first := ValidateQubitsPair(raw[0].0, raw[0].1);
      var rest := ValidatePairs(raw[1..]);
      assert forall i :: 1 <= i < |raw| ==> raw[i] == raw[1..][i - 1];
      match (first, rest)
      case (Success(p), Success(ps)) => Success([p] + ps)
      case (Success(_), Failure(es)) => Failure(es)
      case (Failure(e), Success(_)) => Failure(e.violations)
      case (Failure(e), Failure(es)) => Failure(e.violations + es)
  }

  /**
   * `FourierExperimentSet`: the fields are validated in declaration order
   * and every violation is collected; the duplicate-pairs check runs only on
   * a list whose items all validated. An exception escaping the evaluation
   * of an angle aborts the validation.
   */
  function ValidateFourierExperimentSet(
    typeTag: string, qubits: seq<(RawValue, RawValue)>,
    start: AngleInput, stop: AngleInput, numSteps: RawValue,
    gateset: Option<string>, methodName: string, numShots: RawValue, floatOfText: string -> Option<real>): (r: Result<FourierExperimentSet, ModelError>)
    ensures var angles := ValidateAnglesRange(start, stop, numSteps, floatOfText);
            angles.Failure? && angles.error.Raised? ==> r == Failure(angles.error)
    ensures r.Success? <==>
              && typeTag == ExperimentType
              && ValidatePairs(qubits).Success?
              && CheckIfAllPairsOfQubitsAreDifferent(ValidatePairs(qubits).value).Success?
              && ValidateAnglesRange(start, stop, numSteps, floatOfText).Success?
              && (methodName == DirectSumMethod || methodName == PostselectionMethod)
              && ValidateStrictPositiveInt(numShots, "num_shots").Success?
    ensures r.Success? ==>
              && r.value.qubits == ValidatePairs(qubits).value
              && r.value.angles == ValidateAnglesRange(start, stop, numSteps, floatOfText).value
              && r.value.gateset == gateset && r.value.methodName == methodName
              && r.value.numShots == numShots.i && r.value.numShots > 0
  {
    var angles := ValidateAnglesRange(start, stop, numSteps, floatOfText);
    if angles.Failure? && angles.error.Raised? then Failure(angles.error)
    else
      var typeErrors := if typeTag == ExperimentType then [] else [UnexpectedLiteral("type")];
      var pairs := ValidatePairs(qubits);
      var pairErrors :=
        if pairs.Failure? then pairs.error
        else
          var checked := CheckIfAllPairsOfQubitsAreDifferent(pairs.value);
          if checked.Failure? then [checked.error] else [];
      var angleErrors := if angles.Failure? then angles.error.violations else [];
      var methodErrors := if methodName == DirectSumMethod || methodName == PostselectionMethod then [] else [UnexpectedLiteral("method")];
      var shots := ValidateStrictPositiveInt(numShots, "num_shots");
      var shotErrors := if shots.Failure? then [shots.error] else [];
      var errors := typeErrors + pairErrors + angleErrors + methodErrors + shotErrors;
      if |errors| > 0 then Failure(ValidationError(errors))
      else Success(FourierExperimentSet(pairs.value, angles.value, gateset, methodName, shots.value))
  }

  // ---------------------------------------------------------------- labels

  /** The labels of one pair, one per phi, in phi order. */
  function PairLabels(pair: QubitsPair, phis: seq<real>): (ls: seq<Label>)
    ensures |ls| == |phis|
    ensures forall j :: 0 <= j < |phis| ==> ls[j] == Label(pair.target, pair.ancilla, phis[j])
  {
    seq(|phis|, j requires 0 <= j < |phis| => Label(pair.target, pair.ancilla, phis[j]))
  }

  /**
   * `enumerate_experiment_labels`, for the phi values `phis` the angle range
   * spans: pair-major, then phi.
   */
  function EnumerateExperimentLabels(qubits: seq<QubitsPair>, phis: seq<real>): seq<Label>
  {
    if |qubits| == 0 then [] else PairLabels(qubits[0], phis) + EnumerateExperimentLabels(qubits[1..], phis)
  }

  /** There is one label per pair and phi. */
  lemma {:induction false} LabelsLength(qubits: seq<QubitsPair>, phis: seq<real>)
    ensures |EnumerateExperimentLabels(qubits, phis)| == |qubits| * |phis|
  {
    if |qubits| > 0 {
      LabelsLength(qubits[1..], phis);
      RowMajorStep(|qubits|, |phis|, 0, 0);
    }
  }

  /** The label at `i * |phis| + j` is that of pair `i` and phi `j`. */
  lemma {:induction false} LabelAt(qubits: seq<QubitsPair>, phis: seq<real>, i: nat, j: nat)
    requires i < |qubits| && j < |phis|
    ensures i * |phis| + j < |EnumerateExperimentLabels(qubits, phis)|
    ensures EnumerateExperimentLabels(qubits, phis)[i * |phis| + j] == Label(qubits[i].target, qubits[i].ancilla, phis[j])
  {
    var m := |phis|;
    var head := PairLabels(qubits[0], phis);
    var rest := EnumerateExperimentLabels(qubits[1..], phis);
    var all := EnumerateExperimentLabels(qubits, phis);
    assert all == head + rest;
    if i > 0 {
      LabelAt(qubits[1..], phis, i - 1, j);
      RowMajorStep(|qubits|, m, i, j);
      assert qubits[i] == qubits[1..][i - 1];
      assert all[m + ((i - 1) * m + j)] == rest[(i - 1) * m + j];
    } else {
      assert i * m == 0;
      assert all[j] == head[j];
    }
  }

  /** The labels are pair-major: pair `i` and phi `j` label position `i * |phis| + j`. */
  lemma {:induction false} LabelsArePairMajor(qubits: seq<QubitsPair>, phis: seq<real>)
    ensures forall i, j :: 0 <= i < |qubits| && 0 <= j < |phis| ==> LabelIsAt(qubits, phis, i, j)
  {
    forall i, j | 0 <= i < |qubits| && 0 <= j < |phis|
      ensures LabelIsAt(qubits, phis, i, j)
    {
      LabelAt(qubits, phis, i, j);
    }
  }

  /** Position `i * |phis| + j` of the labels exists and holds pair `i` with phi `j`. */
  predicate LabelIsAt(qubits: seq<QubitsPair>, phis: seq<real>, i: nat, j: nat)
    requires i < |qubits| && j < |phis|
  {
    var labels := EnumerateExperimentLabels(qubits, phis);
    i * |phis| + j < |labels| && labels[i * |phis| + j] == Label(qubits[i].target, qubits[i].ancilla, phis[j])
  }

  /** Index arithmetic of a row-major layout with `m` columns: row `i` starts one row after row `i - 1`. */
  lemma RowMajorStep(n: nat, m: nat, i: nat, j: nat)
    requires n > 0
    ensures n * m == m + (n - 1) * m && (n - 1) * m >= 0
    ensures 0 < i < n && j < m ==> i * m + j == m + ((i - 1) * m + j) && (i - 1) * m + j < (n - 1) * m
  {
    MonotoneProduct(0, n - 1, m);
    if 0 < i < n && j < m {
      assert (i - 1) * m + m == i * m;
      MonotoneProduct(i, n - 1, m);
    }
  }

  lemma {:induction false} MonotoneProduct(a: nat, b: nat, m: nat)
    requires a <= b
    ensures a * m <= b * m
    decreases b - a
  {
    if a < b {
      MonotoneProduct(a + 1, b, m);
      assert (a + 1) * m == a * m + m;
    }
  }

  // ---------------------------------------------------------------- results

  /** `QubitMitigationInfo`: the readout error rates of one qubit. */
  datatype QubitMitigationInfo = QubitMitigationInfo(probMeas0Prep1: real, probMeas1Prep0: real)

  datatype MitigationInfo = MitigationInfo(target: QubitMitigationInfo, ancilla: QubitMitigationInfo)

  /** A quasi-probability distribution over bitstrings, as error mitigation returns it. */
  type Distribution = seq<(string, real)>

  datatype ResultForCircuit = ResultForCircuit(
    name: string,
    histogram: Histogram,
    mitigationInfo: Option<MitigationInfo>,
    mitigatedHistogram: Option<Distribution>)

  datatype SingleResult = SingleResult(target: nat, ancilla: nat, phi: real, resultsPerCircuit: seq<ResultForCircuit>)

  datatype BatchResult = BatchResult(jobId: string, keys: seq<CircuitKey>)

  /** `properties.qubit_property(qubit)` of a qubit the properties do not describe. */
  datatype PropertyError = BackendPropertyError(qubit: int)

  /**
   * `QubitMitigationInfo.from_job_properties`: the two readout error rates
   * of `qubit` in the job's properties; an undescribed qubit raises.
   */
  function FromJobProperties(props: map<int, Jobs.QubitProperties>, qubit: int): (r: Result<QubitMitigationInfo, PropertyError>)
    ensures r.Success? <==> qubit in props
    ensures r.Success? ==> r.value.probMeas0Prep1 == props[qubit].probMeas0Prep1 && r.value.probMeas1Prep0 == props[qubit].probMeas1Prep0
    ensures r.Failure? ==> r.error == BackendPropertyError(qubit)
  {
    if qubit in props then Success(QubitMitigationInfo(props[qubit].probMeas0Prep1, props[qubit].probMeas1Prep0))
    else Failure(BackendPropertyError(qubit))
  }

  /** `SingleResult`: both qubits must be valid qubit indices. */
  function ValidateSingleResult(target: int, ancilla: int, phi: real, results: seq<ResultForCircuit>): (r: Result<SingleResult, ModelError>)
    ensures r.Success? <==> target >= 0 && ancilla >= 0
    ensures r.Success? ==> r.value == SingleResult(target, ancilla, phi, results)
  {
    var t := ValidateQubit(RawInt(target), "target");
    var a := ValidateQubit(RawInt(ancilla), "ancilla");
    var fieldErrors := (if t.Failure? then [t.error] else []) + (if a.Failure? then [a.error] else []);
    if |fieldErrors| > 0 then Failure(ValidationError(fieldErrors))
    else Success(SingleResult(t.value, a.value, phi, results))
  }
}
