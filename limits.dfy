/**
 * Backend limits: the maximum number of circuits in one job and of shots per
 * circuit, looked up by the class of the backend. The lookup dispatches on
 * the backend's method resolution order, so the most specific registered
 * class decides.
 */
module Limits {
  import opened Wrappers
  import opened PyStrings

  /** `Limits`; `None` stands for no limit. */
  datatype Limits = Limits(maxCircuits: Option<int>, maxShots: Option<int>)

  /** The classes with a registered lookup, and any other class. */
  datatype BackendClass =
    | AWSBraketBackendClass
    | IBMQBackendClass
    | AerSimulatorClass
    | MockSimulatorClass
    | OtherClass(className: string)

  datatype Configuration = Configuration(maxShots: int, maxExperiments: int)

  /**
   * What the lookup reads of a backend: its method resolution order (its own
   * class first), its name, the summary of its device documentation and its
   * configuration.
   */
  datatype BackendInfo = BackendInfo(mro: seq<BackendClass>, name: string, deviceSummary: string, configuration: Configuration)

  datatype LimitsError = NotImplementedError(deviceName: string)

  /** AWS device names and limits. */
  const LucyName: string := "lucy"
  const AspenPrefix: string := "aspen"
  const SimulatorMarker: string := "simulator"
  const LucyMaxShots: int := 10000
  const AspenMaxShots: int := 100000
  const AwsSimulatorMaxShots: int := 100000
  /** The mock simulator accepts two circuits per job. */
  const MockMaxCircuits: int := 2

  predicate Registered(c: BackendClass)
  {
    !c.OtherClass?
  }

  /** The registration `singledispatch` picks: the first registered class in the resolution order. */
  function Dispatch(mro: seq<BackendClass>): (r: Option<BackendClass>)
    ensures r.Some? <==> exists i :: 0 <= i < |mro| && Registered(mro[i])
    ensures r.Some? ==> Registered(r.value) && exists i :: 0 <= i < |mro| && mro[i] == r.value && forall j :: 0 <= j < i ==> !Registered(mro[j])
  {
    if |mro| == 0 then None
    else if Registered(mro[0]) then Some(mro[0])
    else
      var r := Dispatch(mro[1..]);
      assert forall i :: 1 <= i < |mro| ==> mro[i] == mro[1..][i - 1];
      r
  }

  /** `_get_limits_for_aws_backend`: the three tests are tried in order; an unknown device raises. */
  function AwsLimits(b: BackendInfo): (r: Result<Limits, LimitsError>)
    ensures Lower(b.name) == LucyName ==> r == Success(Limits(None, Some(LucyMaxShots)))
    ensures Lower(b.name) != LucyName && StartsWith(Lower(b.name), AspenPrefix) ==> r == Success(Limits(None, Some(AspenMaxShots)))
    ensures (Lower(b.name) != LucyName && !StartsWith(Lower(b.name), AspenPrefix) && Contains(b.deviceSummary, SimulatorMarker))
            ==> r == Success(Limits(None, Some(AwsSimulatorMaxShots)))
    ensures r.Failure? <==> Lower(b.name) != LucyName && !StartsWith(Lower(b.name), AspenPrefix) && !Contains(b.deviceSummary, SimulatorMarker)
    ensures r.Success? ==> r.value.maxCircuits.None?
  {
    if Lower(b.name) == LucyName then Success(Limits(None, Some(LucyMaxShots)))
    else if StartsWith(Lower(b.name), AspenPrefix) then Success(Limits(None, Some(AspenMaxShots)))
    else if Contains(b.deviceSummary, SimulatorMarker) then Success(Limits(None, Some(AwsSimulatorMaxShots)))
    else Failure(NotImplementedError(b.name))
  }

  /** `get_limits`: no limits for an unregistered backend, otherwise the registration's limits. */
  function GetLimits(b: BackendInfo): (r: Result<Limits, LimitsError>)
    ensures Dispatch(b.mro).None? ==> r == Success(Limits(None, None))
    ensures Dispatch(b.mro) == Some(AWSBraketBackendClass) ==> r == AwsLimits(b)
    ensures Dispatch(b.mro) == Some(IBMQBackendClass) ==>
              r == Success(Limits(Some(b.configuration.maxExperiments), Some(b.configuration.maxShots)))
    ensures Dispatch(b.mro) == Some(AerSimulatorClass) ==> r == Success(Limits(None, Some(b.configuration.maxShots)))
    ensures Dispatch(b.mro) == Some(MockSimulatorClass) ==> r == Success(Limits(Some(MockMaxCircuits), Some(b.configuration.maxShots)))
    ensures r.Failure? ==> Dispatch(b.mro) == Some(AWSBraketBackendClass)
  {
    match Dispatch(b.mro)
    case None => Success(Limits(None, None))
    case Some(AWSBraketBackendClass) => AwsLimits(b)
    case Some(IBMQBackendClass) => Success(Limits(Some(b.configuration.maxExperiments), Some(b.configuration.maxShots)))
    case Some(AerSimulatorClass) => Success(Limits(None, Some(b.configuration.maxShots)))
    case Some(MockSimulatorClass) => Success(Limits(Some(MockMaxCircuits), Some(b.configuration.maxShots)))
    case Some(OtherClass(_)) => Success(Limits(None, None))
  }

  /** The mock simulator is an Aer simulator, yet its own registration wins. */
  lemma MockRegistrationWins(b: BackendInfo, rest: seq<BackendClass>)
    requires b.mro == [MockSimulatorClass, AerSimulatorClass] + rest
    ensures GetLimits(b) == Success(Limits(Some(MockMaxCircuits), Some(b.configuration.maxShots)))
  {
  }

  /** A subclass without a registration of its own inherits the lookup of its nearest registered ancestor. */
  lemma UnregisteredSubclassInherits(b: BackendInfo, sub: string, ancestors: seq<BackendClass>)
    requires b.mro == [OtherClass(sub)] + ancestors
    ensures GetLimits(b) == GetLimits(b.(mro := ancestors))
  {
    assert b.mro[1..] == ancestors;
  }

  /** A backend of a class unrelated to every registration, such as Braket's local simulator, has no limits. */
  lemma UnrelatedBackendHasNoLimits(b: BackendInfo)
    requires forall i :: 0 <= i < |b.mro| ==> b.mro[i].OtherClass?
    ensures GetLimits(b) == Success(Limits(None, None))
  {
  }

  /** Every circuit limit the lookup reports is at least one, as batching needs, given a sane IBMQ configuration. */
  lemma CircuitLimitIsPositive(b: BackendInfo)
    requires GetLimits(b).Success?
    requires Dispatch(b.mro) == Some(IBMQBackendClass) ==> b.configuration.maxExperiments >= 1
    ensures GetLimits(b).value.maxCircuits.None? || GetLimits(b).value.maxCircuits.value >= 1
  {
  }

  /** The AWS devices of the limit tests. */
  lemma AwsExamples(b: BackendInfo, lucy: string, aspen: string, other: string)
    requires b.mro == [AWSBraketBackendClass]
    requires lucy == "Lucy" && aspen == "Aspen-M-2" && other == "unknown_backend"
    ensures GetLimits(b.(name := lucy)) == Success(Limits(None, Some(10000)))
    ensures GetLimits(b.(name := aspen)) == Success(Limits(None, Some(100000)))
    ensures !Contains(b.deviceSummary, SimulatorMarker) ==> GetLimits(b.(name := other)).Failure?
  {
    assert Lower(lucy) == LucyName;
    assert Lower(aspen)[..5] == AspenPrefix;
    assert Lower(other) != LucyName by { assert |Lower(other)| != |LucyName|; }
    assert !StartsWith(Lower(other), AspenPrefix) by { assert Lower(other)[0] == 'u'; }
  }
}
