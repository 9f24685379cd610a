/**
 * The mock backend: a simulator that keeps every job it ran, so that jobs can
 * be retrieved later by id, and that makes the runs at chosen submission
 * indices fail. Circuits are opaque values of type `C`; what the simulator
 * measures for a circuit and which id it gives the k-th job are parameters.
 */
module Testing {
  import opened Wrappers
  import opened CommonModels
  import opened Jobs

  /** Number of qubits, and calibration values, in the properties of the mitigation mock. */
  const MitigationQubits: nat := 20
  const MockProbMeas1Prep0: real := 0.21
  const MockProbMeas0Prep1: real := 0.37

  /** The backend properties `_add_mitigation_info` attaches: the same calibration on qubits 0 to 19. */
  function MockProperties(): (props: map<int, QubitProperties>)
    ensures forall q :: q in props <==> 0 <= q < MitigationQubits
    ensures forall q :: q in props ==> props[q] == QubitProperties(MockProbMeas0Prep1, MockProbMeas1Prep0)
  {
    map q: int | 0 <= q < MitigationQubits :: MockQubitProperties(q)
  }

  /** The calibration `_add_mitigation_info` reports, the same for every qubit. */
  function MockQubitProperties(q: int): QubitProperties
  {
    QubitProperties(MockProbMeas0Prep1, MockProbMeas1Prep0)
  }

  /** `_make_job_fail`: the job then reports ERROR and reading its result raises `QiskitError`. */
  function MakeJobFail(job: Job): (r: Job)
    ensures r.status == Error && r.outcome == Raises(QiskitFailure)
    ensures r.id == job.id && r.properties == job.properties
  {
    job.(status := Error, outcome := Raises(QiskitFailure))
  }

  /** `_add_mitigation_info`: the job then has the mock's backend properties; nothing else changes. */
  function AddMitigationInfo(job: Job): (r: Job)
    ensures r.properties == Some(MockProperties())
    ensures r.id == job.id && r.status == job.status && r.outcome == job.outcome
  {
    job.(properties := Some(MockProperties()))
  }

  ghost predicate Injective(uuid: nat -> string)
  {
    forall i: nat, j: nat :: i != j ==> uuid(i) != uuid(j)
  }

  class MockSimulator<C> {
    const name: string
    const failJobIndices: seq<int>
    /** Whether `_add_mitigation_info` is among the job wrappers. */
    const withMitigation: bool
    /** `configuration().max_shots`. */
    const maxShots: nat
    /** The id the simulator gives its k-th job. */
    const uuid: nat -> string
    /** The histogram the simulator measures for a circuit run with a number of shots. */
    const simulate: (C, nat) -> Histogram

    var jobCount: nat
    var jobDict: map<string, Job>
    /** The circuits and shots of every run so far, in submission order. */
    ghost var runs: seq<(seq<C>, nat)>

    ghost predicate Valid()
      reads this
    {
      && Injective(uuid)
      && |runs| == jobCount
      && jobDict.Keys == Issued(jobCount)
      && forall k: nat :: k < jobCount ==> jobDict[uuid(k)] == JobFor(k, runs[k].0, runs[k].1)
    }

    /** The ids of the first `n` jobs. */
    function Issued(n: nat): set<string>
    {
      set k: nat | k < n :: uuid(k)
    }

    /**
     * The job the k-th run produces, once stored: it fails iff k is one of
     * the failure indices, and otherwise holds one simulated histogram per
     * circuit; with the mitigation wrapper it carries the mock properties.
     */
    function JobFor(k: nat, circuits: seq<C>, shots: nat): (job: Job)
      ensures job.id == uuid(k)
      ensures job.status == (if k in failJobIndices then Error else Done)
      ensures job.outcome.Raises? <==> k in failJobIndices
      ensures job.outcome.Raises? ==> job.outcome.kind == QiskitFailure
      ensures job.outcome.Counts? ==>
                && |job.outcome.histograms| == |circuits|
                && forall i :: 0 <= i < |circuits| ==> job.outcome.histograms[i] == simulate(circuits[i], shots)
      ensures job.properties == if withMitigation then Some(MockProperties()) else None
    {
      var ran := Job(uuid(k), Done, Counts(seq(|circuits|, i requires 0 <= i < |circuits| => simulate(circuits[i], shots))), None);
      var stored := if k in failJobIndices then MakeJobFail(ran) else ran;
      if withMitigation then AddMitigationInfo(stored) else stored
    }

    /** A new simulator has run nothing and stores no job. */
    constructor (name: string, failJobIndices: seq<int>, withMitigation: bool, maxShots: nat,
                 uuid: nat -> string, simulate: (C, nat) -> Histogram)
      requires Injective(uuid)
      ensures Valid()
      ensures this.name == name && this.failJobIndices == failJobIndices && this.withMitigation == withMitigation
      ensures this.maxShots == maxShots && this.uuid == uuid && this.simulate == simulate
      ensures jobCount == 0 && jobDict == map[] && runs == []
    {
      this.name := name;
      this.failJobIndices := failJobIndices;
      this.withMitigation := withMitigation;
      this.maxShots := maxShots;
      this.uuid := uuid;
      this.simulate := simulate;
      jobCount := 0;
      jobDict := map[];
      runs := [];
      new;
      assert Issued(0) == {};
    }

    /**
     * `run`: the job of this submission is stored under its id and returned;
     * the job counter goes up by one.
     */
    method Run(circuits: seq<C>, shots: nat) returns (job: Job)
      requires Valid()
      modifies this
      ensures Valid()
      ensures job == JobFor(old(jobCount), circuits, shots)
      ensures job.outcome.Raises? <==> old(jobCount) in failJobIndices
      ensures job.id !in old(jobDict)
      ensures jobCount == old(jobCount) + 1
      ensures jobDict == old(jobDict)[job.id := job]
      ensures runs == old(runs) + [(circuits, shots)]
    {
      job := JobFor(jobCount, circuits, shots);
      assert forall k: nat :: k < jobCount ==> uuid(k) != uuid(jobCount);
      assert job.id !in jobDict;
      jobDict := jobDict[job.id := job];
      runs := runs + [(circuits, shots)];
      jobCount := jobCount + 1;
      assert Issued(jobCount) == Issued(jobCount - 1) + {job.id};
      forall k: nat | k < jobCount
        ensures jobDict[uuid(k)] == JobFor(k, runs[k].0, runs[k].1)
      {
        if k < jobCount - 1 {
          assert uuid(k) != uuid(jobCount - 1);
        }
      }
    }

    /** `retrieve_job`: the job filed under `jobId`; an id this simulator never issued is not found. */
    method RetrieveJob(jobId: string) returns (r: Result<Job, RetrieveError>)
      requires Valid()
      ensures r == Jobs.RetrieveJob(jobDict, jobId)
      ensures r.Success? <==> exists k: nat :: k < jobCount && uuid(k) == jobId
      ensures forall k: nat :: k < jobCount && uuid(k) == jobId ==> r == Success(JobFor(k, runs[k].0, runs[k].1))
    {
      if jobId in jobDict {
        r := Success(jobDict[jobId]);
      } else {
        r := Failure(JobNotFound(jobId));
      }
    }
  }

  /** Name of the plain mock, which has no failures and no mitigation info. */
  const MockBackendName: string := "mock-backend"
  /** Name of the failing mock, whose second and third jobs fail. */
  const FailingMockBackendName: string := "failing-mock-backend"
  const FailingMockJobIndices: seq<int> := [1, 2]
  /** Name of the mock whose jobs carry mitigation info. */
  const MitigationMockBackendName: string := "mock-backend-with-mitigation"

  /** `backends(name)`: all the backends when no name is given, otherwise those with that name. */
  function Named<C>(all: seq<MockSimulator<C>>, name: Option<string>): (r: seq<MockSimulator<C>>)
    ensures name.None? ==> r == all
    ensures name.Some? ==> forall i :: 0 <= i < |r| ==> r[i] in all && r[i].name == name.value
    ensures name.Some? ==> forall i :: 0 <= i < |all| && all[i].name == name.value ==> all[i] in r
  {
    if name.None? then all
    else if |all| == 0 then []
    else (if all[0].name == name.value then [all[0]] else []) + Named(all[1..], name)
  }

  /** Filtering keeps the backends' order: filtering two lists one after the other is filtering each. */
  lemma {:induction false} NamedAppend<C>(a: seq<MockSimulator<C>>, b: seq<MockSimulator<C>>, name: Option<string>)
    ensures Named(a + b, name) == Named(a, name) + Named(b, name)
  {
    if name.Some? && |a| > 0 {
      assert (a + b)[0] == a[0];
      assert (a + b)[1..] == a[1..] + b;
      NamedAppend(a[1..], b, name);
    } else if name.Some? {
      assert a + b == b;
    }
  }

  /**
   * The three cached mock simulators and the provider that hands them out.
   * The caches are global, so every provider sees the same instances: one
   * object models them all.
   */
  class MockProvider<C> {
    const maxShots: nat
    const uuid: nat -> string
    const simulate: (C, nat) -> Histogram

    /** The caches of the three creators; `None` when the creator has not run since the last reset. */
    var mock: Option<MockSimulator<C>>
    var failing: Option<MockSimulator<C>>
    var withMitigation: Option<MockSimulator<C>>

    ghost predicate Valid()
      reads this
    {
      && Injective(uuid)
      && (mock.Some? ==> mock.value.name == MockBackendName && mock.value.failJobIndices == [] && !mock.value.withMitigation)
      && (failing.Some? ==> failing.value.name == FailingMockBackendName && failing.value.failJobIndices == FailingMockJobIndices && !failing.value.withMitigation)
      && (withMitigation.Some? ==> withMitigation.value.name == MitigationMockBackendName && withMitigation.value.failJobIndices == [] && withMitigation.value.withMitigation)
    }

    constructor (maxShots: nat, uuid: nat -> string, simulate: (C, nat) -> Histogram)
      requires Injective(uuid)
      ensures Valid()
      ensures this.uuid == uuid
      ensures mock.None? && failing.None? && withMitigation.None?
    {
      this.maxShots := maxShots;
      this.uuid := uuid;
      this.simulate := simulate;
      mock := None;
      failing := None;
      withMitigation := None;
    }

    /**
     * `backends(name)`: each creator returns its cached simulator, creating
     * a new one only when its cache is empty; the result filters the three by name.
     */
    method Backends(name: Option<string>) returns (backends: seq<MockSimulator<C>>)
      requires Valid()
      modifies this
      ensures Valid()
      ensures mock.Some? && failing.Some? && withMitigation.Some?
      ensures old(mock).Some? ==> mock == old(mock)
      ensures old(failing).Some? ==> failing == old(failing)
      ensures old(withMitigation).Some? ==> withMitigation == old(withMitigation)
      ensures old(mock).None? ==> fresh(mock.value) && mock.value.Valid() && mock.value.jobCount == 0 && mock.value.jobDict == map[]
      ensures old(failing).None? ==> fresh(failing.value) && failing.value.Valid() && failing.value.jobCount == 0 && failing.value.jobDict == map[]
      ensures old(withMitigation).None? ==> fresh(withMitigation.value) && withMitigation.value.Valid() && withMitigation.value.jobCount == 0 && withMitigation.value.jobDict == map[]
      ensures backends == Named([mock.value, failing.value, withMitigation.value], name)
    {
      if mock.None? {
        var b := new MockSimulator(MockBackendName, [], false, maxShots, uuid, simulate);
        mock := Some(b);
      }
      if failing.None? {
        var b := new MockSimulator(FailingMockBackendName, FailingMockJobIndices, false, maxShots, uuid, simulate);
        failing := Some(b);
      }
      if withMitigation.None? {
        var b := new MockSimulator(MitigationMockBackendName, [], true, maxShots, uuid, simulate);
        withMitigation := Some(b);
      }
      backends := Named([mock.value, failing.value, withMitigation.value], name);
    }

    /** `reset_caches`: the next `backends` call creates new simulators. */
    method ResetCaches()
      requires Valid()
      modifies this
      ensures Valid()
      ensures mock.None? && failing.None? && withMitigation.None?
    {
      mock := None;
      failing := None;
      withMitigation := None;
    }
  }

  /** Asking by the plain mock's name picks the plain mock out of the three. */
  lemma NamedPicksMock<C>(mock: MockSimulator<C>, failing: MockSimulator<C>, withMitigation: MockSimulator<C>)
    requires mock.name == MockBackendName && failing.name == FailingMockBackendName && withMitigation.name == MitigationMockBackendName
    ensures Named([mock, failing, withMitigation], Some(MockBackendName)) == [mock]
  {
    var all := [mock, failing, withMitigation];
    assert failing.name != MockBackendName by {
      assert failing.name[5] != MockBackendName[5];
    }
    assert withMitigation.name != MockBackendName by {
      assert |withMitigation.name| != |MockBackendName|;
    }
    assert all[1..][1..][1..] == [];
    assert Named(all[1..][1..], Some(MockBackendName)) == [];
    assert Named(all[1..], Some(MockBackendName)) == [];
  }

  /**
   * Two providers share one simulator and hence its jobs; after a reset, the
   * simulator handed out is a new one that stores none of the earlier jobs.
   */
  method SharedJobStore<C>(provider: MockProvider<C>, circuits: seq<C>) returns (job: Job, retrieved: Result<Job, RetrieveError>, missing: Result<Job, RetrieveError>)
    requires provider.Valid()
    modifies provider
    ensures retrieved == Success(job)
    ensures missing == Failure(JobNotFound(job.id))
  {
    provider.ResetCaches();
    var first := provider.Backends(Some(MockBackendName));
    NamedPicksMock(provider.mock.value, provider.failing.value, provider.withMitigation.value);
    var backend := first[0];
    job := backend.Run(circuits, 100);
    var again := provider.Backends(Some(MockBackendName));
    assert again == first;
    retrieved := again[0].RetrieveJob(job.id);
    provider.ResetCaches();
    var renewed := provider.Backends(Some(MockBackendName));
    assert renewed[0] != backend;
    missing := renewed[0].RetrieveJob(job.id);
  }
}
