/**
 * Jobs as the pipeline sees them, and their retrieval from a backend. A
 * backend is abstracted as its job store: a map from job id to job.
 */
module Jobs {
  import opened Wrappers
  import opened CommonModels

  /** Qiskit's job statuses. */
  datatype JobStatus = Initializing | Queued | Validating | Running | Cancelled | Done | Error

  /** `status.name`. */
  function StatusName(s: JobStatus): string
  {
    match s
    case Initializing => "INITIALIZING"
    case Queued => "QUEUED"
    case Validating => "VALIDATING"
    case Running => "RUNNING"
    case Cancelled => "CANCELLED"
    case Done => "DONE"
    case Error => "ERROR"
  }

  /** Distinct statuses have distinct names, so tallying names tallies statuses. */
  lemma StatusNameInjective(s: JobStatus, t: JobStatus)
    ensures StatusName(s) == StatusName(t) <==> s == t
  {
  }

  /**
   * The exceptions reading a job's result can raise: a generic `QiskitError`,
   * or an `IBMQJobFailureError`, which is a subclass of it.
   */
  datatype FailureKind = QiskitFailure | IBMQJobFailure

  /** What `job.result().get_counts()` gives: one histogram per circuit of the job, or an exception. */
  datatype JobOutcome = Counts(histograms: seq<Histogram>) | Raises(kind: FailureKind)

  /** The calibration of one qubit in a job's backend properties. */
  datatype QubitProperties = QubitProperties(probMeas0Prep1: real, probMeas1Prep0: real)

  /**
   * A job: its id, its status, the outcome of asking for its result and,
   * when the job has a `properties` attribute, the calibration per qubit index.
   */
  datatype Job = Job(id: string, status: JobStatus, outcome: JobOutcome, properties: Option<map<int, QubitProperties>>)

  type JobStore = map<string, Job>

  datatype RetrieveError = JobNotFound(id: string)

  /** `backend.retrieve_job(job_id)` on a backend whose jobs are `store`. */
  function RetrieveJob(store: JobStore, jobId: string): (r: Result<Job, RetrieveError>)
    ensures r.Success? <==> jobId in store
    ensures r.Success? ==> r.value == store[jobId]
    ensures r.Failure? ==> r.error == JobNotFound(jobId)
  {
    if jobId in store then Success(store[jobId]) else Failure(JobNotFound(jobId))
  }

  /**
   * `retrieve_jobs`, the default strategy: one retrieval per id, in order;
   * the first id that cannot be retrieved raises.
   */
  function RetrieveJobs(store: JobStore, jobIds: seq<string>): (r: Result<seq<Job>, RetrieveError>)
    ensures r.Success? <==> forall i :: 0 <= i < |jobIds| ==> jobIds[i] in store
    ensures r.Success? ==> |r.value| == |jobIds| && forall i :: 0 <= i < |jobIds| ==> r.value[i] == store[jobIds[i]]
    ensures r.Failure? ==> exists i :: 0 <= i < |jobIds| && r.error == JobNotFound(jobIds[i]) && jobIds[i] !in store
  {
    if |jobIds| == 0 then Success([])
    else
      match RetrieveJob(store, jobIds[0])
      case Failure(e) => Failure(e)
      case Success(job) =>
        match RetrieveJobs(store, jobIds[1..])
        case Failure(e) => Failure(e)
        case Success(rest) => Success([job] + rest)
  }

  /** A store in which every job is filed under its own id. */
  predicate FiledById(store: JobStore)
  {
    forall id :: id in store ==> store[id].id == id
  }

  /**
   * The jobs retrieved from a store filed by id carry exactly the requested
   * ids: callers may rely on the set of ids, whichever order a strategy uses.
   */
  lemma RetrievedIdsAreRequested(store: JobStore, jobIds: seq<string>)
    requires FiledById(store)
    requires RetrieveJobs(store, jobIds).Success?
    ensures (set j | j in RetrieveJobs(store, jobIds).value :: j.id) == set i | i in jobIds
  {
    var jobs := RetrieveJobs(store, jobIds).value;
    forall id | id in jobIds
      ensures id in set j | j in jobs :: j.id
    {
      var i :| 0 <= i < |jobIds| && jobIds[i] == id;
      assert jobs[i].id == id;
    }
  }

  /** An empty request retrieves nothing; a repeated id is retrieved once per occurrence. */
  lemma RetrieveJobsExamples(store: JobStore, a: string)
    requires a in store
    ensures RetrieveJobs(store, []) == Success([])
    ensures RetrieveJobs(store, [a, a]) == Success([store[a], store[a]])
  {
    var r := RetrieveJobs(store, [a, a]);
    assert r.Success?;
    assert r.value == [store[a], store[a]];
  }
}
