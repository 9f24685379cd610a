/**
 * The second set of backend descriptions, in which only the IBMQ description
 * can ask for asynchronous execution: for the other two, `asynchronous` is a
 * property that is always false. Their object-path check has the same body as
 * the one of the common models, and is that one.
 */
module BackendModels {
  import opened Wrappers
  import CommonModels

  datatype BackendDescription =
    | SimpleBackendDescription(provider: string, name: string)
    | BackendFactoryDescription(factory: string)
    | IBMQBackendDescription(name: string, asynchronous: bool)

  /** The `asynchronous` property: a constant false for the first two kinds, the field for IBMQ. */
  function Asynchronous(d: BackendDescription): (r: bool)
    ensures d.SimpleBackendDescription? ==> !r
    ensures d.BackendFactoryDescription? ==> !r
    ensures d.IBMQBackendDescription? ==> r == d.asynchronous
  {
    match d
    case SimpleBackendDescription(_, _) => false
    case BackendFactoryDescription(_) => false
    case IBMQBackendDescription(_, a) => a
  }

  function ValidateSimpleBackendDescription(provider: string, name: string): (r: Result<BackendDescription, CommonModels.ModelError>)
    ensures r.Success? <==> CommonModels.CheckIsCorrectObjectPath(provider).Success?
    ensures r.Success? ==> r.value == SimpleBackendDescription(provider, name) && !Asynchronous(r.value)
  {
    match CommonModels.CheckIsCorrectObjectPath(provider)
    case Failure(v) => Failure(CommonModels.ValidationError([v]))
    case Success(p) => Success(SimpleBackendDescription(p, name))
  }

  function ValidateBackendFactoryDescription(factory: string): (r: Result<BackendDescription, CommonModels.ModelError>)
    ensures r.Success? <==> CommonModels.CheckIsCorrectObjectPath(factory).Success?
    ensures r.Success? ==> r.value == BackendFactoryDescription(factory) && !Asynchronous(r.value)
  {
    match CommonModels.CheckIsCorrectObjectPath(factory)
    case Failure(v) => Failure(CommonModels.ValidationError([v]))
    case Success(f) => Success(BackendFactoryDescription(f))
  }

  /** The IBMQ description: `asynchronous` defaults to false and can be set either way. */
  function ValidateIBMQBackendDescription(name: string, asynchronous: Option<bool>): (r: BackendDescription)
    ensures Asynchronous(r) <==> asynchronous == Some(true)
    ensures r.IBMQBackendDescription? && r.name == name
  {
    IBMQBackendDescription(name, if asynchronous.Some? then asynchronous.value else false)
  }
}
