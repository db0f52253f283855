/** Request bodies of the registry routes and the field constraints their
    schemas declare (app/schemas/model.py). A body that breaks a constraint
    is refused with 422 before any handler runs; the detail names the field. */
module Schemas {
  import opened Wrappers
  import opened Http
  import opened Entities

  const MinNameLength := 1
  const MaxNameLength := 100
  const MinTagLength := 1
  const MaxTagLength := 50
  const MinReplicas := 1
  const MaxReplicas := 10

  /** A replica count the schemas accept. */
  type ReplicaCount = r: int | MinReplicas <= r <= MaxReplicas witness MinReplicas

  datatype ModelCreate = ModelCreate(name: string, modelType: ModelType)

  /** `modelId` is optional in the body: the route fills it in from the path. */
  datatype VersionCreate = VersionCreate(versionTag: string, s3Path: string, modelId: Option<int>)

  /** `versionId` is optional in the body: the route fills it in from the path. */
  datatype DeploymentCreate = DeploymentCreate(replicas: ReplicaCount, versionId: Option<int>)

  datatype DeploymentUpdate = DeploymentUpdate(replicas: Option<ReplicaCount>, url: Option<string>)

  /** Validates a ModelCreate body: a name of 1..100 characters and a known type value. */
  function ParseModelCreate(name: string, typeValue: string): (r: Result<ModelCreate, HttpError>)
    ensures r.Success? <==> MinNameLength <= |name| <= MaxNameLength && typeValue in {"sklearn", "pytorch"}
    ensures r.Success? ==> r.value.name == name && ModelTypeValue(r.value.modelType) == typeValue
    ensures r.Failure? ==> r.error.Unprocessable?
  {
    if !(MinNameLength <= |name| <= MaxNameLength) then Failure(Unprocessable("name"))
    else match ParseModelType(typeValue)
      case None => Failure(Unprocessable("type"))
      case Some(t) => Success(ModelCreate(name, t))
  }

  /** Validates a ModelVersionCreate body: a tag of 1..50 characters; s3_path
      is required but unconstrained and model_id may be absent. */
  function ParseVersionCreate(versionTag: string, s3Path: string, modelId: Option<int>): (r: Result<VersionCreate, HttpError>)
    ensures r.Success? <==> MinTagLength <= |versionTag| <= MaxTagLength
    ensures r.Success? ==> r.value == VersionCreate(versionTag, s3Path, modelId)
    ensures r.Failure? ==> r.error.Unprocessable?
  {
    if MinTagLength <= |versionTag| <= MaxTagLength then Success(VersionCreate(versionTag, s3Path, modelId))
    else Failure(Unprocessable("version_tag"))
  }

  /** Validates a DeploymentCreate body: replicas defaults to 1 and must lie in [1, 10]. */
  function ParseDeploymentCreate(replicas: Option<int>, versionId: Option<int>): (r: Result<DeploymentCreate, HttpError>)
    ensures replicas.None? ==> r == Success(DeploymentCreate(DefaultReplicas, versionId))
    ensures r.Success? <==> replicas.None? || MinReplicas <= replicas.value <= MaxReplicas
    ensures r.Success? && replicas.Some? ==> r.value.replicas == replicas.value
    ensures r.Success? ==> r.value.versionId == versionId
    ensures r.Failure? ==> r.error.Unprocessable?
  {
    match replicas
    case None => Success(DeploymentCreate(DefaultReplicas, versionId))
    case Some(n) =>
      if MinReplicas <= n <= MaxReplicas then Success(DeploymentCreate(n, versionId))
      else Failure(Unprocessable("replicas"))
  }

  /** Validates a DeploymentUpdate body: every field optional; replicas, when given, in [1, 10]. */
  function ParseDeploymentUpdate(replicas: Option<int>, url: Option<string>): (r: Result<DeploymentUpdate, HttpError>)
    ensures r.Success? <==> replicas.None? || MinReplicas <= replicas.value <= MaxReplicas
    ensures r.Success? ==> r.value.url == url && (r.value.replicas.Some? <==> replicas.Some?)
    ensures r.Success? && replicas.Some? ==> r.value.replicas.value == replicas.value
    ensures r.Failure? ==> r.error.Unprocessable?
  {
    match replicas
    case None => Success(DeploymentUpdate(None, url))
    case Some(n) =>
      if MinReplicas <= n <= MaxReplicas then Success(DeploymentUpdate(Some(n), url))
      else Failure(Unprocessable("replicas"))
  }

  /** The boundary cases the schema tests pin down: 0 and 11 replicas are refused, 1 and 10 accepted. */
  lemma ReplicaBounds(versionId: Option<int>)
    ensures ParseDeploymentCreate(Some(0), versionId).Failure?
    ensures ParseDeploymentCreate(Some(11), versionId).Failure?
    ensures ParseDeploymentCreate(Some(1), versionId).Success?
    ensures ParseDeploymentCreate(Some(10), versionId).Success?
    ensures ParseDeploymentCreate(None, versionId).value.replicas == 1
  {
  }
}
