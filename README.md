# PyQBench batch submission and result resolution, in Dafny

PyQBench benchmarks quantum devices with Fourier discrimination experiments.
An experiment set names qubit pairs, a range of angles phi, a method
(`direct_sum` or `postselection`) and a number of shots. The runner builds
every circuit of the set and tags each one with a key
`(target, ancilla, circuit name, phi)`. It then cuts the work list into
batches that fit the backend's circuit limit and submits one job per batch.
Later it resolves the jobs' histograms back into one record per
`(target, ancilla, phi)`. A failed job drops only its own results, and a
warning is logged.

This project models that pipeline and proves its laws:

- **Batching** is a method whose loop advances two slices in lockstep, like
  the two shared iterators. It is proved equal to a recursive specification.
  Partition, size, count and key/circuit correspondence laws are proved
  about that specification.
- **Submission** runs against the test suite's mock simulator, a class with
  a job counter, a job dictionary and failure indices.
- **Resolution** (`_resolve_batches`) is a method with a loop. It is proved
  equal to a specification that yields:
  - the first extraction error, or
  - the groups of surviving results in first-appearance order, together
    with the failure count that decides the warning.

  In a synchronous run, batches are submitted lazily while they are resolved.
  The model proves that the run stops submitting after the first batch whose
  extraction raises.
- **Around it:**
  - the status tally of asynchronous runs;
  - the rebuilding of batches from asynchronous data;
  - tabulation;
  - the older runner with its nested regrouping and placeholder strings.
- **Lookups and validators:**
  - the circuit/shot limit lookup, which models `singledispatch` as the
    first registered class of a method resolution order;
  - job retrieval;
  - the pydantic validators of the experiment and backend descriptions;
  - the restricted arithmetic evaluator;
  - the histogram marginal counter.
- **End to end**, the failing mock (jobs 1 and 2 fail) runs the
  command-line test's experiment: 3 pairs, 3 angles, 2 direct-sum circuits,
  2 circuits per job. The proof shows that 18 circuits go out in 9 jobs,
  that 14 results survive in 7 groups of two, and that the warning is
  logged.

Modelling choices:

- **Circuits** are an opaque type parameter. The assemblers that build
  them, and the binding of phi, are function parameters.
- **Histograms** are sequences of `(bitstring, count)` in dictionary order.
  A Python dictionary is an insertion-ordered sequence of pairs
  (`OrderedDicts`).
- **The mock's Aer simulation** is a `simulate` function. Its random job
  ids are an injective `uuid` function of the submission index.
- **An exception** becomes a `Failure` value, and so does `exit(1)`.
- **phi** is a `real` drawn from a given sequence, and `np.pi` is the exact
  value of the double nearest to pi.
- **The two runners differ in the method they test.**
  - The current runner `_collect_circuits_and_keys` uses postselection
    circuits exactly when the method is `"postselection"`.
  - The older runner's synchronous path uses direct-sum circuits exactly
    when the method is `"direct_sum"`.
  - The model keeps both tests as written.

Modules:

| module | file | models |
|---|---|---|
| Wrappers | wrappers.dfy | `Option`, `Result` |
| PyStrings | py_strings.dfy | `str.split`, `str.isidentifier` (ASCII), `str.lower`, `startswith`, `in` |
| OrderedDicts | ordered_dicts.dfy | `dict` assignment, `defaultdict(list)` grouping, `Counter` |
| Batching | batching.dfy | qbench/batching.py |
| Utils | utils.dfy | qbench/utils.py |
| Jobs | jobs.dfy | qbench/jobs.py, job values |
| Limits | limits.dfy | qbench/limits.py |
| Expressions | expressions.dfy | qbench/_expressions.py |
| CommonModels | common_models.dfy | qbench/common_models.py |
| BackendModels | backend_models.dfy | qbench/backend_models.py |
| FourierModels | fourier_models.dfy | qbench/fourier/_models.py |
| Testing | testing.dfy | qbench/testing.py |
| ExperimentRunner | experiment_runner.dfy | qbench/fourier/experiment_runner.py |
| LegacyRunner | legacy_runner.dfy | qbench/fourier/_experiment_runner.py |
| FailingMockScenario | failing_mock_scenario.dfy | the failing-backend command-line test, end to end |

## Model

| member | source | states |
|---|---|---|
| Batching.CeilDivIsCeiling | qbench/batching.py:40 | `math.ceil(n / k)` is the least number of batches of `k` that holds `n` circuits, and is never positive for a negative `k` |
| Batching.BatchCircuitsWithKeys | qbench/batching.py:23-49 | The slicing loop returns the batching specification:<br>- no limit gives one batch with all circuits and the keys unchanged;<br>- a limit of 0 raises `ZeroDivisionError`;<br>- a negative limit gives no batches;<br>- otherwise consecutive slices of `k` circuits and of `k` keys. |
| Batching.ChunkCount | qbench/batching.py:40-49 | There are `ceil(n / k)` batches of `n` circuits, so no circuits give no batches |
| Batching.ChunkAt | qbench/batching.py:41-49 | The `j`-th batch of a full stretch holds circuits `j*k .. j*k+k` and the keys at the same positions |
| Batching.ChunkSizes | qbench/batching.py:31-35 | Every batch but the last holds exactly `k` circuits; the last holds between 1 and `k` |
| Batching.ChunksPartition | qbench/batching.py:41-49 | The batches' circuits concatenate to the input circuits. Their keys are a prefix of the input keys, and are all of them when there are no more keys than circuits. Duplicate keys are carried as they are. |
| Batching.ChunksKeepCorrespondence | qbench/batching.py:26-36 | With one key per circuit, every batch has as many keys as circuits, and pairing the batches' keys with their circuits gives back `zip(circuits, keys)` |
| Batching.ChunkSizesAreExpected | qbench/batching.py:31-35 | The batch sizes depend only on the number of circuits and the limit |
| Batching.BatchSizeExamples | tests/test_batching.py:17-33 | 5 circuits by 2 give sizes 2,2,1; 10 by 3 give 3,3,3,1; 8 by 4 give 4,4; 10 without a limit give 10 |
| Batching.ExecuteInBatches | qbench/batching.py:52-83 | One `run` per batch, in batch order, each with the given shots; the j-th `BatchJob` holds the job of run `start + j` and exactly the keys of batch `j`. A limit of 0 raises before anything is submitted, and the backend is unchanged. |
| Batching.SubmitBatches | qbench/batching.py:76-80 | The generator's loop: the job counter goes up by the number of batches, and the runs and jobs are those of the batches in order |
| Batching.RunBatch | qbench/batching.py:78 | One `run`: the batch's circuits and shots are recorded, and its keys stay beside the returned job |
| Utils.CharAt | qbench/utils.py:9 | `bitstring[qubit_index]` succeeds exactly for `-len <= index < len`, counting negative indices from the end |
| Utils.CountSpecificMeasurements | qbench/utils.py:5-10 | Succeeds exactly when every bitstring's character at the index reads as an integer. The sum is then the total count of the entries whose character is the digit asked for (`Matching`). An empty histogram gives 0. With non-negative counts the sum lies between 0 and the total. |
| Utils.CountAppend | qbench/utils.py:5-10 | Counting over two histograms in turn: the first one's error wins, then the second one's; otherwise the two sums add up |
| Utils.CountOne | qbench/utils.py:9 | One entry fails as its character lookup or `int()` fails, and otherwise counts its count exactly when its character is the digit asked for |
| Utils.ZeroAndOneCountsPartitionTotal | qbench/utils.py:5-10 | For binary bitstrings, the counts for 0 and for 1 at one index add up to the total count |
| Utils.CountExamples | tests/test_utils.py:8-21 | The three histograms of the utility test give 25, 0 and 7 |
| Jobs.StatusNameInjective | qbench/fourier/experiment_runner.py:310 | Two statuses have the same `.name` exactly when they are equal, so tallying names tallies statuses |
| Jobs.RetrieveJob | qbench/testing.py:70-72 | `retrieve_job` finds the job filed under the id; an unknown id raises, naming that id |
| Jobs.RetrieveJobs | qbench/jobs.py:10-19 | The default strategy succeeds exactly when every id is known. It then returns one job per id, the i-th filed under `job_ids[i]`; otherwise the error names an unknown requested id. |
| Jobs.RetrievedIdsAreRequested | qbench/jobs.py:16-18 | From a store that files jobs by their own id, the set of retrieved job ids is the set of requested ids, whatever the order |
| Jobs.RetrieveJobsExamples | qbench/jobs.py:19 | No ids give no jobs; a repeated id is retrieved once per occurrence |
| Limits.Dispatch | qbench/limits.py:17-25 | `singledispatch` picks a registration exactly when some class in the resolution order is registered, and it picks the first such class |
| Limits.AwsLimits | qbench/limits.py:33-42 | The lucy, aspen and simulator tests are tried in that order, giving 10000, 100000 and 100000 shots with no circuit limit. A device passing none of them raises. |
| Limits.GetLimits | qbench/limits.py:17-60 | No limits for an unregistered backend; otherwise the registration's limits:<br>- AWS by device;<br>- IBMQ both limits from its configuration;<br>- Aer the configured shots;<br>- the mock 2 circuits and the configured shots.<br>Only AWS can fail. |
| Limits.MockRegistrationWins | qbench/limits.py:53-60 | The mock simulator, an Aer subclass, gets its own limit of 2 circuits |
| Limits.UnregisteredSubclassInherits | qbench/limits.py:17-25 | A class without a registration of its own gets its nearest registered ancestor's limits |
| Limits.UnrelatedBackendHasNoLimits | tests/test_limits.py:24-30 | A backend unrelated to every registration, such as Braket's local simulator, has no limits |
| Limits.CircuitLimitIsPositive | qbench/limits.py:45-60 | Every circuit limit the lookup reports is at least 1, given an IBMQ configuration with at least one experiment, so batching never divides by zero |
| Limits.AwsExamples | tests/test_limits.py:33-54 | "Lucy" gets 10000 shots and "Aspen-M-2" 100000; an unknown device that is not a simulator raises |
| Expressions.ApplyReal | qbench/_expressions.py:11-14 | On two reals, `+ - *` always succeed and `/` raises `ZeroDivisionError` exactly for a zero divisor |
| Expressions.ApplyComplex | qbench/_expressions.py:11-14 | With a complex operand the result is complex. Only division can raise, with `ZeroDivisionError`, and it does for the divisor 0. |
| Expressions.Apply | qbench/_expressions.py:41 | A mapped operator raises `TypeError` exactly when an operand is not a number. Any other error is a division by zero. Without division two numbers always combine, and a complex result needs a complex operand. |
| Expressions.Negate | qbench/_expressions.py:46 | `op.neg` succeeds exactly on numbers, keeps a real real, and raises `TypeError` on anything else |
| Expressions.EvalNode | qbench/_expressions.py:29-53 | Success only for a bare constant of any kind, or for a tree of numeric constants, `pi`, the four mapped binary operators and unary minus. Such trees without division always evaluate, and to a number; any other tree without division raises an error other than division by zero. A complex value needs a complex constant. |
| Expressions.EvalExpr | qbench/_expressions.py:18-26 | Parsed text evaluates its tree. Text that does not parse raises `SyntaxError`, and an argument that is not text raises `TypeError`. |
| Expressions.EvaluationOrder | qbench/_expressions.py:39-46 | An unmapped operator raises `KeyError` whatever its operands are. Then the left operand's error wins over the right one's. |
| Expressions.NonNumericOperandRaises | qbench/_expressions.py:41-46 | An operand that is not a number, such as a string, `None` or `...`, makes a mapped operator and unary minus raise `TypeError` |
| Expressions.OperatorsAreArithmetic | qbench/_expressions.py:9-15 | Unary minus negates and `+ - * /` compute their values. Division by zero raises. |
| Expressions.EvaluatedExamples | tests/test_models.py:210-226 | "-2 * pi" and "3 * pi" evaluate to -2π and 3π. "2 * x" and "4 * test" raise `ValueError`; a list literal raises `TypeError`. |
| Expressions.ConstantExamples | qbench/_expressions.py:34-41 | A string constant is returned as it is, and adding it to a number raises `TypeError`. `1j * 1j` is -1. Dividing by `0j` raises, and so does text that does not parse. |
| CommonModels.CheckIsCorrectObjectPath | qbench/common_models.py:86-100 | An accepted path is returned unchanged. The colon-count error is raised exactly when the path does not hold one colon, and the other errors are the module-path and class-name errors. |
| CommonModels.ObjectPathAccepted | qbench/common_models.py:86-100 | Every dotted path of identifiers, then a colon, then an identifier, is accepted |
| CommonModels.ObjectPathAcceptedShape | qbench/common_models.py:86-100 | Every accepted path has that shape, so with `ObjectPathAccepted` acceptance is characterised both ways |
| CommonModels.ObjectPathVerdict | qbench/common_models.py:92-98 | With one colon, the module segments are checked first and then the object name |
| CommonModels.ObjectNameRejected | qbench/common_models.py:97-98 | A valid module path followed by a colon-free non-identifier fails with the class-name error |
| CommonModels.TwoColonsRejected | tests/test_models.py:30 | "provider.path:test:xyz" fails with the colon-count error |
| CommonModels.DigitLeadingModuleRejected | tests/test_models.py:31 | "1provider.path:Provider" fails with the module-path error |
| CommonModels.DigitLeadingNameRejected | tests/test_models.py:32 | "provider:2Provider" fails with the class-name error |
| CommonModels.PunctuatedNameRejected | tests/test_models.py:33 | "provider.path:Provider)" fails with the class-name error |
| CommonModels.MockProviderPathAccepted | tests/fourier/test_fourier_cli.py:63-65 | "qbench.testing:MockProvider" is accepted |
| CommonModels.ValidateQubit | qbench/common_models.py:31-33 | `Qubit` accepts exactly strict integers that are at least 0 |
| CommonModels.ValidateStrictPositiveInt | qbench/common_models.py:40-42 | `StrictPositiveInt` accepts exactly strict integers above 0 |
| CommonModels.TwoQubitPatternAdmitsTrailingNewline | qbench/common_models.py:36-37 | The pattern as written accepts "01\n", which is not a two-qubit bitstring |
| CommonModels.TwoQubitPatternDifference | qbench/common_models.py:36-37 | The pattern accepts every two-qubit bitstring. It accepts something else exactly when that is a two-qubit bitstring followed by a newline. |
| CommonModels.ValidateTwoQubitBitstring | qbench/common_models.py:36-37 | The intended type accepts exactly strict strings of two binary digits and returns them |
| CommonModels.ValidateQubitsPair | qbench/common_models.py:66-74 | Succeeds exactly for two qubit indices that differ, keeping both; every failure carries at least one violation |
| CommonModels.ParseArithmeticExpression | qbench/common_models.py:22-28 | Numbers pass through. Anything else is evaluated and its value returned, whatever its kind. A `TypeError` or `ValueError` from the evaluation, including a non-text argument, becomes an invalid-expression error. Any other error escapes: `SyntaxError`, `KeyError` or `ZeroDivisionError`. |
| CommonModels.ParseOutcomes | qbench/common_models.py:25-28 | Text that does not parse escapes as `SyntaxError`; an argument that is not text, such as `None`, is an invalid expression |
| CommonModels.CoerceFloat | qbench/common_models.py:45-47 | The `float` field accepts exactly a real, or a text that `float()` reads. `None` is refused as missing, and anything else is not a float. |
| CommonModels.ValidateAngleBound | qbench/common_models.py:46-51 | A bound succeeds exactly when the pre-validator and then the float coercion succeed, with the coerced value. A pre-validator error is passed on unchanged, and each failure carries one violation unless it escapes. |
| CommonModels.ConstantBounds | qbench/common_models.py:46-51 | An expression of one constant: a string is read as a float; `None` is refused; a complex number is not a float, even with a zero imaginary part |
| CommonModels.ValidateAnglesRange | qbench/common_models.py:45-63 | Succeeds exactly when both bounds validate, `num_steps` is an integer, and the root checks hold: start not above stop, and one step when start equals stop. The validated values are kept. An escaping error of start, then of stop, aborts the validation. |
| CommonModels.AnglesRangeExamples | tests/test_models.py:196-230 | Start 2 and stop 1 give the start-above-stop violation. Equal bounds with 2 steps fail and with 1 step succeed. 0 to 4 in 3 steps succeeds. |
| CommonModels.ExpressionAnglesExamples | tests/test_models.py:210-226 | "-2 * pi" to "3 * pi" gives -2π to 3π. "2 * x" as start and "4 * [1, 2, 3]" as stop are validation errors. |
| CommonModels.ValidateSimpleBackendDescription | qbench/common_models.py:103-113 | Valid exactly when the provider is an object path; `asynchronous` defaults to false; a failure carries the path's violation |
| CommonModels.ValidateBackendFactoryDescription | qbench/common_models.py:116-131 | Valid exactly when the factory is an object path; `asynchronous` defaults to false; a failure carries the path's violation |
| BackendModels.Asynchronous | qbench/backend_models.py:42-80 | `asynchronous` is always false for the simple and factory descriptions, and is the field for IBMQ |
| BackendModels.ValidateSimpleBackendDescription | qbench/backend_models.py:35-48 | Valid exactly when the provider is an object path, and never asynchronous |
| BackendModels.ValidateBackendFactoryDescription | qbench/backend_models.py:51-69 | Valid exactly when the factory is an object path, and never asynchronous |
| BackendModels.ValidateIBMQBackendDescription | qbench/backend_models.py:78-91 | Asynchronous exactly when set to true; false by default |
| FourierModels.CheckIfAllPairsOfQubitsAreDifferent | qbench/fourier/_models.py:35-40 | The list is returned unchanged exactly when no ordered `(target, ancilla)` tuple occurs twice, and is rejected otherwise |
| FourierModels.PairOrderMatters | qbench/fourier/_models.py:37-38 | (5,4) and (4,5) may both appear; a repeated (0,1) is rejected |
| FourierModels.ValidatePairs | qbench/fourier/_models.py:29 | The list field succeeds exactly when every item is a valid `QubitsPair`, keeping them in order |
| FourierModels.ValidateFourierExperimentSet | qbench/fourier/_models.py:27-40 | Valid exactly when all of these hold:<br>- the type tag is right;<br>- every pair is valid and none repeats;<br>- the angles are valid;<br>- the method is one of the two;<br>- the shots are a positive integer.<br>An exception escaping an angle expression aborts validation. |
| FourierModels.LabelsLength | qbench/fourier/_models.py:42-47 | There are `len(qubits) * num_steps` labels |
| FourierModels.LabelAt | qbench/fourier/_models.py:42-47 | The label at `i * |phis| + j` carries pair `i`'s target and ancilla and phi `j` |
| FourierModels.LabelsArePairMajor | qbench/fourier/_models.py:42-47 | That holds for every pair and phi: the labels are pair-major |
| FourierModels.FromJobProperties | qbench/fourier/_models.py:62-69 | The two readout error rates of a described qubit; an undescribed qubit raises |
| FourierModels.ValidateSingleResult | qbench/fourier/_models.py:84-88 | `SingleResult` is valid exactly when both qubit indices are at least 0, and keeps its fields |
| Testing.MockProperties | qbench/testing.py:27-40 | Qubits 0 to 19 carry the readout errors 0.37 and 0.21, and no other qubit is described |
| Testing.MakeJobFail | qbench/testing.py:13-22 | The job reports ERROR and reading its result raises `QiskitError`; its id and properties stay |
| Testing.AddMitigationInfo | qbench/testing.py:25-46 | The job gets the mock's properties; its id, status and result stay |
| Testing.MockSimulator.JobFor | qbench/testing.py:74-83 | The job of the k-th run has id `uuid(k)`. It fails with ERROR exactly when k is a failure index. Otherwise it holds one simulated histogram per circuit. It carries the mock properties exactly with the mitigation wrapper. |
| Testing.MockSimulator.constructor | qbench/testing.py:56-64 | A new simulator has run nothing: job count 0 and an empty job dictionary |
| Testing.MockSimulator.Run | qbench/testing.py:74-83 | The k-th call returns job k, which fails exactly when k is a failure index. The job is filed under a fresh id, the count goes up by exactly one, and the run is recorded. |
| Testing.MockSimulator.RetrieveJob | qbench/testing.py:70-72 | An id is found exactly when some earlier run issued it, and the job found is that run's job |
| Testing.Named | qbench/testing.py:115-119 | No name gives all backends; a name gives exactly the backends with that name |
| Testing.NamedAppend | qbench/testing.py:115-119 | The filter keeps the backends' order: filtering two lists in turn is filtering each |
| Testing.MockProvider.constructor | qbench/testing.py:86-98 | The three cached creators start with empty caches |
| Testing.MockProvider.Backends | qbench/testing.py:104-119 | Each cache, once filled, still holds the same simulator, so its job store is shared. An empty cache gets a fresh simulator that has run nothing. The result is the three filtered by name. |
| Testing.MockProvider.ResetCaches | qbench/testing.py:121-129 | All three caches are cleared |
| Testing.NamedPicksMock | qbench/testing.py:110-119 | Asking for "mock-backend" picks out the plain mock alone |
| Testing.SharedJobStore | tests/test_mock_simulator.py:6-18 | A job run on the plain mock is retrieved again through a second request for that backend. After a cache reset, the new simulator does not know the job's id. |
| ExperimentRunner.LabelCircuits | qbench/fourier/experiment_runner.py:175-182 | A label contributes one pair per assembled circuit, in the assembler's order. The circuit is bound to the label's phi, and its key is `(target, ancilla, name, phi)`. |
| ExperimentRunner.CircuitKeyPairsCorrespond | qbench/fourier/experiment_runner.py:175-185 | Every key names a label and a circuit the assembler produces for its qubits, beside that circuit bound to the key's phi. There are no pairs exactly when no label has a circuit. |
| ExperimentRunner.KeyAt | qbench/fourier/experiment_runner.py:175-182 | When every pair gets the same circuit names, there are `|labels| * |names|` keys, and key `l*|names| + n` is circuit `n` of label `l` |
| ExperimentRunner.IterBatchesAppend | qbench/fourier/experiment_runner.py:188-200 | Iterating a concatenation of batches iterates each part in turn |
| ExperimentRunner.IterBatchesKeys | qbench/fourier/experiment_runner.py:188-200 | The flat iteration visits every key of every batch exactly once, in order |
| ExperimentRunner.ExtractResultFromJob | qbench/fourier/experiment_runner.py:102-139 | No result exactly when reading the counts raises. Too few histograms raise `IndexError`. With properties, an error about them is raised exactly when one of the two qubits is undescribed. A result holds the i-th valid histogram, with the calibration and the mitigated histogram exactly when the job has properties. |
| ExperimentRunner.FirstFailure | qbench/fourier/experiment_runner.py:216-217 | There is no error exactly when every item's extraction succeeds |
| ExperimentRunner.ToSingleResults | qbench/fourier/experiment_runner.py:228-233 | One `SingleResult` per group, in group order, with the group's label and results. It fails exactly when some label has a negative qubit. |
| ExperimentRunner.ResolveItems | qbench/fourier/experiment_runner.py:213-221 | The loop from any point after a clean prefix: it stops with exactly the first extraction error. Otherwise its dictionary holds the grouped survivors and its counter the failures. |
| ExperimentRunner.ResolveBatches | qbench/fourier/experiment_runner.py:203-233 | On batches already submitted, the loop with its dictionary and counter returns the resolution specification. It warns exactly when it gets past the loop with some failure counted. |
| ExperimentRunner.NoResultIsLost | qbench/fourier/experiment_runner.py:215-221 | Without an extraction error, successes plus failures equal the number of keys, and the groups hold every success |
| ExperimentRunner.ResolvedGroups | qbench/fourier/experiment_runner.py:213-233 | The groups are the labels with at least one survivor, in order of first survivor, and each holds its label's results in submission order |
| ExperimentRunner.FailedBatch | qbench/fourier/experiment_runner.py:118-121 | A failed job raises nowhere, contributes no result and counts all of its keys |
| ExperimentRunner.SucceededBatch | qbench/fourier/experiment_runner.py:118-139 | A job that ran without properties and with valid histograms contributes one unmitigated result per key, in key order, and counts none |
| ExperimentRunner.BatchesPulledStops | qbench/fourier/experiment_runner.py:188-200 | When no extraction raises, every batch is pulled from the generator. Otherwise the batches pulled are a clean run, then the batch whose first error is the resolution's error. |
| ExperimentRunner.PulledAt | qbench/fourier/experiment_runner.py:188-200 | The batch that raises first, after a clean run, is the last one pulled |
| ExperimentRunner.StopsAt | qbench/fourier/experiment_runner.py:216-217 | A run that stops at batch `i` resolves to that batch's first error, does not warn, and pulled `i + 1` batches |
| ExperimentRunner.ResolveNextBatch | qbench/fourier/experiment_runner.py:196-221 | Resolving one more batch's keys after a clean run gives the resolution state of the longer run |
| ExperimentRunner.PullBatch | qbench/batching.py:76-79 | Pulling from the generator runs the next batch as the next job and records the run, and its keys are then resolved |
| ExperimentRunner.SubmitAndResolve | qbench/fourier/experiment_runner.py:286-288 | The synchronous path: the result and warning are the resolution of the submitted jobs. The generator runs exactly the batches pulled, that is up to and including the first batch whose extraction raises. The job count and the recorded runs say so. |
| ExperimentRunner.StoppedRun | qbench/fourier/experiment_runner.py:216-217 | A run whose batch `i` raises first ends with that error, without a warning, after `i + 1` batches |
| ExperimentRunner.CompletedRun | qbench/fourier/experiment_runner.py:223-233 | A run in which nothing raises pulls every batch and resolves them all |
| ExperimentRunner.RunExperiment | qbench/fourier/experiment_runner.py:236-290 | Collect the circuits, look up the limit, split into batches; each failing step stops before any submission. An asynchronous run submits every batch and records one `BatchResult` per job. A synchronous run resolves the jobs, and submits only the batches pulled before resolution raises. |
| ExperimentRunner.FetchStatuses | qbench/fourier/experiment_runner.py:293-310 | Succeeds exactly when every job id is known; otherwise the error names an unknown id of the data |
| ExperimentRunner.StatusTally | qbench/fourier/experiment_runner.py:307-310 | The counts add up to the number of jobs. The names appear in order of first appearance. Each status is listed exactly when some job has it, with the number of such jobs. |
| ExperimentRunner.JobsByIdFilesEach | qbench/fourier/experiment_runner.py:331 | The mapping by id holds exactly the jobs' ids, each filed under its own job |
| ExperimentRunner.RebuildBatches | qbench/fourier/experiment_runner.py:333 | One `BatchJob` per entry, in the order of the data, rebuilt by id; an unmapped id raises |
| ExperimentRunner.ResolveResults | qbench/fourier/experiment_runner.py:313-343 | The result is, in order of precedence:<br>- a retrieval failure;<br>- else a missing mapped job;<br>- else the resolution of the rebuilt batches, with its warning. |
| ExperimentRunner.AsyncDataRebuildsBatches | qbench/fourier/experiment_runner.py:328-333 | Resolving later gives what resolving at once would have: the batches rebuilt from the asynchronous data are the submitted ones |
| ExperimentRunner.MitigatedArguments | qbench/fourier/experiment_runner.py:362-372 | The keyword dictionary keeps, for each circuit name, the last result's mitigated histogram. The mitigated value exists exactly when the last result of every name has one, and then its arguments are distinct `<name>_counts` keys, each bound to that last histogram |
| ExperimentRunner.MitigatedDictionaryKeys | qbench/fourier/experiment_runner.py:366-369 | The mitigated dictionary has the same distinct keys, in the same order, as the dictionary of plain counts |
| ExperimentRunner.MitigatedDictionaryLookup | qbench/fourier/experiment_runner.py:366-369 | Looking up a name's key finds the mitigated histogram of the last result with that name |
| ExperimentRunner.MitigatedDictionaryItems | qbench/fourier/experiment_runner.py:366-369 | Every item of the mitigated dictionary is the key and mitigated histogram of the last result of some name |
| ExperimentRunner.MitigatedDictionaryCovers | qbench/fourier/experiment_runner.py:366-369 | The last result of every name appears as an item of the mitigated dictionary |
| ExperimentRunner.LastOfNameExists | qbench/fourier/experiment_runner.py:366-369 | Every result has a last result of the same name at or after it |
| ExperimentRunner.RepeatedNameKeepsArguments | qbench/fourier/experiment_runner.py:359 | A result whose name the next result repeats adds no keyword name |
| ExperimentRunner.OverwrittenMitigated | qbench/fourier/experiment_runner.py:366-369 | With two `id` results, the first without a mitigated histogram, the later value wins and the mitigated arguments exist |
| ExperimentRunner.OverwrittenBinds | qbench/fourier/experiment_runner.py:359 | That repeated-name entry still binds the direct-sum parameters |
| ExperimentRunner.MitigatedTable | qbench/fourier/experiment_runner.py:378-386 | When every entry binds and the first row has a mitigated value, the table succeeds with the mitigated column |
| ExperimentRunner.OverwrittenNameExample | qbench/fourier/experiment_runner.py:362-386 | The repeated-name entry is tabulated with the mitigated column |
| ExperimentRunner.CountsArgumentsKeys | qbench/fourier/experiment_runner.py:359 | The keyword names passed are exactly `<name>_counts` for the circuits' names; a repeated name is passed once |
| ExperimentRunner.SchemeNamesBind | qbench/schemes/direct_sum.py:51-53 | The circuit names of each scheme (`id`, `u`; `id_v0`, `id_v1`, `u_v0`, `u_v1`) bind exactly the parameters of its formula |
| ExperimentRunner.TabulateResults | qbench/fourier/experiment_runner.py:346-387 | A `TypeError` is raised exactly when some entry's keyword names are not the chosen formula's parameters. Otherwise no data fails. Each row is `target, ancilla, phi` and the chosen formula over the counts, plus a mitigated value exactly when the last result of every circuit name has a mitigated histogram. The first row decides the columns, and the frame fails when a later row is longer than the first. |
| LegacyRunner.VerifyResultsAreAsyncOrFail | qbench/fourier/_experiment_runner.py:30-33 | Succeeds exactly when every entry is asynchronous data, keeping the batches; otherwise the runner exits |
| LegacyRunner.SweepAngle | qbench/fourier/_experiment_runner.py:71-82 | One job per circuit at one phi. Success gives each circuit's simulated histogram by name. The first failing job raises. |
| LegacyRunner.SweepCircuits | qbench/fourier/_experiment_runner.py:45-83 | One `ResultForAngle` per phi, in order, each holding exactly the map's names with their histograms, after `|phis| * |map|` runs; a failing job raises |
| LegacyRunner.RunExperimentSynchronously | qbench/fourier/_experiment_runner.py:181-215 | One sweep per pair, in order, with the direct-sum circuits exactly when the method is "direct_sum" |
| LegacyRunner.SweepKeyPairsAreLabelMajor | qbench/fourier/_experiment_runner.py:251-259 | Nesting pair, phi and circuit name gives the keys of enumerating the labels and then the names |
| LegacyRunner.RunnersCollectAlike | qbench/fourier/_experiment_runner.py:221-264 | The older and the current runner collect the same circuits and keys, and fail alike when there are none |
| LegacyRunner.RunExperimentAsynchronously | qbench/fourier/_experiment_runner.py:267-287 | Collect, look up the limit, submit the batches, and record one `BatchResult` per batch with its job's id and keys |
| LegacyRunner.RunExperiment | qbench/fourier/_experiment_runner.py:290-326 | Asynchronous runs give only asynchronous entries; synchronous ones give one resolved entry per pair |
| LegacyRunner.FetchStatuses | qbench/fourier/_experiment_runner.py:329-348 | Exits exactly when some entry is synchronous. Otherwise it gives the tally, whose counts add up to the number of entries, and succeeds when every id is known. |
| LegacyRunner.PlaceholderNamesJob | qbench/fourier/_experiment_runner.py:392 | The intended placeholders of two jobs are equal exactly when the jobs are |
| LegacyRunner.PlaceholderAsWritten | qbench/fourier/_experiment_runner.py:392 | As written, the placeholder is the prefix followed by the literal 14 characters `{job.job_id()}` |
| LegacyRunner.PlaceholderAsWrittenLosesJobId | qbench/fourier/_experiment_runner.py:392 | As written, two different jobs leave the same placeholder, while the intended ones differ |
| LegacyRunner.WithMitigationInfo | qbench/fourier/_experiment_runner.py:395-408 | Without properties the entry has no calibration. With properties it has both qubits' rates, and fails exactly when a qubit is undescribed. |
| LegacyRunner.ExtractResultFromJob | qbench/fourier/_experiment_runner.py:388-409 | An `IBMQJobFailureError` leaves the placeholder, while the mock's `QiskitError` escapes. Otherwise the entry is the i-th histogram, or `IndexError` when there are too few. The calibration is added in both kept cases. |
| LegacyRunner.EntryTuples | qbench/fourier/_experiment_runner.py:411-418 | One tuple per remaining key of the entry, in order; a key whose job is unmapped raises |
| LegacyRunner.EntryTuplesExtract | qbench/fourier/_experiment_runner.py:411-418 | The entry's tuples exist exactly when every remaining key's job is mapped and its extraction succeeds. Each tuple's result is the extraction of its key's histogram, at that key's index, from the entry's job. Otherwise the error is that of the first failing key |
| LegacyRunner.EntryTuplesAgree | qbench/fourier/_experiment_runner.py:411-418 | The same from the entry's first key, stated against the results of the entry's keys |
| LegacyRunner.JoinAgrees | qbench/fourier/_experiment_runner.py:411-418 | Joining two runs of tuples, with the first error winning, keeps each tuple paired with its key's result |
| LegacyRunner.ResultTuples | qbench/fourier/_experiment_runner.py:411-418 | The tuples carry exactly the keys of the data, entry by entry |
| LegacyRunner.ResultTuplesAreOutcomes | qbench/fourier/_experiment_runner.py:411-418 | The tuples exist exactly when every key of every entry has a result. The `n`-th tuple is the `n`-th key with its result. Otherwise the error is that of the first failing key |
| LegacyRunner.OutcomeAt | qbench/fourier/_experiment_runner.py:411-418 | The `q`-th key of batch `b` sits after the keys of the earlier batches, and its result is extracted from batch `b`'s job at index `q` |
| LegacyRunner.StoreSpec | qbench/fourier/_experiment_runner.py:424-425 | Storing one key changes only its pair's entry. There it changes only that phi's entry, and the name's slot within it. |
| LegacyRunner.RegroupFindsLast | qbench/fourier/_experiment_runner.py:420-425 | Every key finds the last result stored under it, so a repeated key overwrites; other keys find nothing |
| LegacyRunner.RegroupPairs | qbench/fourier/_experiment_runner.py:420-443 | One top-level entry per distinct `(target, ancilla)`, in first-appearance order |
| LegacyRunner.RegroupPhis | qbench/fourier/_experiment_runner.py:420-443 | Within a pair, one entry per distinct phi, in first-appearance order |
| LegacyRunner.RegroupNames | qbench/fourier/_experiment_runner.py:420-443 | Within a pair and a phi, one slot per distinct name, in first-appearance order |
| LegacyRunner.RegroupKeepsDistinctKeys | qbench/fourier/_experiment_runner.py:420-425 | When no key repeats, every key finds its own result |
| LegacyRunner.ResolvedEntries | qbench/fourier/_experiment_runner.py:427-443 | One pair result per top-level entry, with its qubits, and one `ResultForAngle` per phi with that phi's circuits |
| LegacyRunner.ResolvedLayout | qbench/fourier/_experiment_runner.py:427-443 | The resolved list has one result per distinct pair in first-appearance order, each with its distinct phis in first-appearance order |
| LegacyRunner.ResolveResults | qbench/fourier/_experiment_runner.py:351-445 | The storing loop returns the resolution specification:<br>- exits on synchronous data;<br>- retrieves and maps the jobs;<br>- builds the tuples;<br>- regroups and lists. |
| OrderedDicts.AssignSpec | qbench/fourier/_experiment_runner.py:425 | `d[k] = v` replaces a present key's value in place and appends a new key; `k` then finds `v` and other keys keep their values |
| OrderedDicts.DedupOrder | qbench/fourier/experiment_runner.py:228-233 | The distinct elements are listed in order of first appearance |
| OrderedDicts.CountKeys | qbench/fourier/experiment_runner.py:310 | `Counter` has one key per distinct element, in first-appearance order |
| OrderedDicts.CountLookup | qbench/fourier/experiment_runner.py:310 | `Counter` maps each present element to its number of occurrences, and holds no other |
| OrderedDicts.CountSumsToLength | qbench/fourier/experiment_runner.py:310 | The counts add up to the number of elements counted |
| OrderedDicts.DistinctIffSetSize | qbench/fourier/_models.py:38 | `len(set(xs)) == len(xs)` exactly when no element repeats |
| OrderedDicts.GroupKeys | qbench/fourier/experiment_runner.py:213-221 | `defaultdict(list)` with appends has its keys in first-appearance order |
| OrderedDicts.GroupLookup | qbench/fourier/experiment_runner.py:221 | A key's list holds exactly the values appended under it, in order; other keys have none |
| OrderedDicts.GroupTotalLength | qbench/fourier/experiment_runner.py:213-221 | The lists hold as many values as were appended |
| PyStrings.Split | qbench/common_models.py:87 | `str.split(sep)` gives one more piece than separators, none holding the separator |
| PyStrings.JoinSplit | qbench/common_models.py:87 | Joining the pieces of a split gives back the string |
| PyStrings.SplitAtFirstSeparator | qbench/common_models.py:87-92 | A separator after a separator-free prefix cuts exactly there |
| PyStrings.SplitJoin | qbench/common_models.py:94 | Splitting a join of separator-free pieces gives back the pieces |
| PyStrings.IdentifierHasNoPunctuation | qbench/common_models.py:94-97 | An identifier holds no dot and no colon |
| PyStrings.Lower | qbench/limits.py:34-36 | `str.lower` keeps the length and lowers each ASCII letter |
| FailingMockScenario.MockItemsAreSubmitted | qbench/testing.py:74-83 | The items resolved are those of the jobs the mock returned for the batches |
| FailingMockScenario.MockNeverRaises | qbench/fourier/experiment_runner.py:118-121 | With the mock's jobs, no extraction raises: a failed job yields nothing and a job that ran has valid histograms |
| FailingMockScenario.MockGroupsCount | qbench/testing.py:77-78 | One group goes missing per failed run |
| FailingMockScenario.FailedKeysCount | qbench/fourier/experiment_runner.py:215-219 | With batches of one size, each failed run loses that many keys |
| FailingMockScenario.MockSurvivors | qbench/fourier/experiment_runner.py:215-221 | Resolving the mock's jobs for labelled batches keeps one group per batch whose job ran, with that batch's results in key order. It counts every key of the failed batches. |
| FailingMockScenario.MockResolution | qbench/fourier/experiment_runner.py:203-233 | The same for the submitted jobs, which never raise |
| FailingMockScenario.TestLabelsAreDistinct | tests/fourier/test_fourier_cli.py:41-58 | The test's experiment has 9 distinct labels with non-negative qubits |
| FailingMockScenario.TestFailingRuns | qbench/testing.py:93 | Of runs 0 to 8, exactly two are failure indices of the failing mock |
| FailingMockScenario.TestBatches | tests/fourier/test_fourier_cli.py:118-122 | The 18 circuits go out in jobs of two, 9 of them, each holding the two circuits of one label |
| FailingMockScenario.TestCollect | qbench/fourier/experiment_runner.py:256-266 | Collecting the test's experiment gives its pairs, and the mock's limit of 2 cuts them into jobs of two |
| FailingMockScenario.TestResolution | tests/fourier/test_fourier_cli.py:145-161 | The nine jobs resolve into 7 groups of two. 14 results survive, 4 are lost, and the warning is logged. |
| FailingMockScenario.TestGroups | tests/fourier/test_fourier_cli.py:145-167 | The expected groups: seven of two under labels of non-negative qubits, and four keys lost |
| FailingMockScenario.ValidGroups | qbench/fourier/experiment_runner.py:228-233 | Groups under non-negative qubits all validate, one record each with the group's results |
| FailingMockScenario.FailingMockCliScenario | tests/fourier/test_fourier_cli.py:116-167 | The failing mock with the test's experiment: 18 circuits in 9 jobs; 14 results survive in 7 groups of two; 4 are lost; the warning is logged |

## Left out

- Circuit construction (`assemble_*`, the Fourier components, `bind_parameters`, `transpile`): circuits are an opaque type, and the assemblers and the binding of phi are parameters.
- `np.linspace` and `float(phi)`: phi values are a given sequence of reals. Floating-point rounding, and the float arithmetic of the expression evaluator, are not modelled.
- Strings are ASCII only: `str.isidentifier` and `str.lower` are modelled for ASCII letters, digits and `_`.
- The probability formulas, M3 mitigation, `_mitigate` and `_matrix_from_mitigation_info`: these are floating-point and library code. Tabulation takes the two formulas as parameters, and extraction takes the mitigator as a parameter.
- Backend creation (`create_backend`, `_import_object`, IBMQ accounts, environment tokens): the runners take the mock simulator and a description of the backend's classes and configuration as given.
- Aer simulation is the mock's `simulate` function, and the random `uuid4` job ids are an injective `uuid` function of the submission index.
- `run_options`, `**kwargs` and `show_progress` of `execute_in_batches`, as well as `tqdm`, logging text, the CLI, YAML and `_log_*`/`_backend_name`: presentation only. The one warning of `_resolve_batches` is the `warned` result.
- The pandas `DataFrame` is reduced to its rows and column names.
- `execute_in_batches` is a lazy generator. The asynchronous path consumes it whole, so every batch is submitted (`ExecuteInBatches`). The synchronous path pulls one batch at a time while resolving, and stops at the first extraction error (`SubmitAndResolve`). The progress bar wrapped around it is not modelled.
- The `lru_cache` of the three simulator creators is global to the module, so the model has one `MockProvider` object standing for every provider of a run.
- Testing.MockSimulator.RetrieveJob: fresh `uuid4` ids are the injective `uuid` parameter of the submission index, and every simulator shares it. So the `k`-th job of one simulator has the id of the `k`-th job of another, and asking one simulator for the other's id finds its own job. With random ids, the source raises `KeyError` there with near certainty.
- FourierModels.FromJobProperties: a described qubit always carries both readout error rates. The `KeyError` of a qubit whose properties lack one of them is not modelled.
- `RunExperiment` takes the backend's class chain, name and limits as parameters that describe the created backend. It does not check that they agree with the description's `create_backend`.
- Expressions: the `float()` of a text value is the `floatOfText` parameter of the validators, because parsing decimal text is not modelled.
- Expressions.Apply: `str` and `bytes` operands raise `TypeError` for every operator. Python concatenates two texts with `+` and repeats a text with `*` by an integer, so `"'1' + '2'"` is 12.0 in the source and a validation error here.
- Expressions: `bool` and `int` constants are the real numbers they denote. The four supported operators give the same number for both, so only the Python type of the result is lost.
- Expressions.ApplyComplex: division by a complex number checks `c*c + d*d == 0`. The model does not prove that this happens exactly when `c` and `d` are both zero, because the solver's nonlinear real arithmetic is not reliable there. `ConstantExamples` shows that `1/0j` raises in both readings.
- LegacyRunner.ExtractResultFromJob: a failed job gives the corrected placeholder that names the job id (`PlaceholderNamesJob`), not the as-written constant text. `PlaceholderAsWrittenLosesJobId` models the string as written.
- ExperimentRunner.ExtractResultFromJob: histograms are validated with the intended two-character bitstring type (`ValidateTwoQubitBitstring`). The as-written pattern also admits a key with a trailing newline, which `TwoQubitPatternAdmitsTrailingNewline` shows; a result holding such a key is rejected here and accepted by the source.
- `get_counts()` returning a single dictionary for a one-circuit job is not distinguished: a job always holds a list of histograms.
- The IBMQ `retrieve_jobs` strategy is commented out in the source, so only the default strategy is modelled.
- The unused helpers `mitigation_error_for_qubit` and `mitigation_info` of the older runner (qbench/fourier/_experiment_runner.py:371-386) are never called.
- The older runner imports `FourierDiscriminationExperiment`, `ResultForAngle` and `FourierDiscriminationResult`, which qbench/fourier/_models.py does not define, so their shapes are inferred from their use. `exit(1)` there is the `SynchronousResults` error.
- Batching.BatchSizeExamples: states the circuit counts of the test's batches, not the key counts. `ChunksKeepCorrespondence` gives equal key counts when there is one key per circuit, as in the test.
- LegacyRunner.RunExperimentSynchronously: states each pair's qubits, phis and circuit names, not the histograms. `SweepCircuits` states those.
- LegacyRunner.RunExperiment: states only the kind and number of entries; its two branches are stated by `RunExperimentAsynchronously` and `RunExperimentSynchronously`.
- LegacyRunner.FetchStatuses: states the counts' sum, not the per-status tally, which `ExperimentRunner.StatusTally` states for the same computation.
- ExperimentRunner.FetchStatuses: states when the tally exists; its contents are stated by `StatusTally`.
- LegacyRunner.ResultTuples: states the keys of the tuples; each tuple's result, and the error when one fails, are stated by `ResultTuplesAreOutcomes`.
- LegacyRunner.EntryTuples: states the keys of the tuples and the unmapped job; each tuple's result, and the error of the first failing key, are stated by `EntryTuplesExtract`.
- ExperimentRunner.MitigatedArguments: the formulas are parameters that never raise. When some last mitigated histogram is `None`, the model gives no mitigated value, as the source does when that `None` raises `AttributeError` inside the formula. The source's formulas can fail in other ways that escape `_make_row`. A zero marginal raises `ZeroDivisionError`. A direct-sum entry whose `u` result alone lacks a mitigated histogram passes `None` to qiskit's `marginal_counts`, which raises an error other than `AttributeError`.
- Expressions.EvalNode: does not state the error of a tree that divides, beyond what `OperatorsAreArithmetic` states for one division.

## Findings

| source | as written | input that shows it | evidently intended | confidence | as-written member | corrected member |
|---|---|---|---|---|---|---|
| qbench/common_models.py:37 | `TwoQubitBitstring` checks `^[01]{2}$` with a match, and `$` also matches before a final newline | "01\n" is accepted as a two-qubit bitstring | exactly two characters, each 0 or 1 | not executed | CommonModels.TwoQubitPatternAdmitsTrailingNewline | CommonModels.ValidateTwoQubitBitstring |
| qbench/fourier/_experiment_runner.py:392 | the placeholder `"Failed IBMQJobFailureError for job {job.job_id()}"` lacks the `f` prefix, unlike the warning on the next line | any two different failed jobs leave the same placeholder text | the placeholder names the failed job's id | not executed | LegacyRunner.PlaceholderAsWrittenLosesJobId | LegacyRunner.PlaceholderNamesJob |
