/** The registry routes (app/api/v1/models.py) that do more than forward to a
    service: the two create routes overwrite the body's parent id with the one
    in the path, the status route parses its query value, and the upload route
    chains get_version -> get_model -> upload -> update_version_s3_path.
    A body or query value that fails validation is refused with 422 before the
    handler runs. */
module ModelsApi {
  import opened Wrappers
  import opened Http
  import opened Entities
  import opened Schemas
  import opened ModelRepository
  import opened RegistryService
  import opened StorageService

  /** POST /models/{model_id}/versions with body (version_tag, s3_path, model_id?). */
  function CreateVersionRouteSpec(t: Tables, modelId: int, versionTag: string, s3Path: string, bodyModelId: Option<int>, userId: int)
    : (Result<ModelVersion, HttpError>, Tables)
  {
    match ParseVersionCreate(versionTag, s3Path, bodyModelId)
    case Failure(e) => (Failure(e), t)
    case Success(data) => CreateVersionSpec(t, data.(modelId := Some(modelId)), userId)
  }

  /** The path's model id is the one used: whatever the body says, the route
      behaves as if the body named the path's model. */
  lemma PathModelIdWins(t: Tables, modelId: int, versionTag: string, s3Path: string, bodyModelId: Option<int>, userId: int)
    ensures CreateVersionRouteSpec(t, modelId, versionTag, s3Path, bodyModelId, userId)
         == CreateVersionRouteSpec(t, modelId, versionTag, s3Path, None, userId)
    ensures MinTagLength <= |versionTag| <= MaxTagLength ==>
      CreateVersionRouteSpec(t, modelId, versionTag, s3Path, bodyModelId, userId)
        == CreateVersionSpec(t, VersionCreate(versionTag, s3Path, Some(modelId)), userId)
    ensures !(MinTagLength <= |versionTag| <= MaxTagLength) ==>
      CreateVersionRouteSpec(t, modelId, versionTag, s3Path, bodyModelId, userId).0.Failure? &&
      CreateVersionRouteSpec(t, modelId, versionTag, s3Path, bodyModelId, userId).0.error.Unprocessable? &&
      CreateVersionRouteSpec(t, modelId, versionTag, s3Path, bodyModelId, userId).1 == t
  {
  }

  /** POST /versions/{version_id}/deployments with body (replicas?, version_id?). */
  function CreateDeploymentRouteSpec(t: Tables, versionId: int, replicas: Option<int>, bodyVersionId: Option<int>, userId: int, timestamp: int)
    : (Result<Deployment, HttpError>, Tables)
  {
    match ParseDeploymentCreate(replicas, bodyVersionId)
    case Failure(e) => (Failure(e), t)
    case Success(data) => CreateDeploymentSpec(t, data.(versionId := Some(versionId)), userId, timestamp)
  }

  /** The path's version id is the one used, replicas default to 1, and replicas
      outside [1, 10] are refused with 422 before any lookup. */
  lemma PathVersionIdWins(t: Tables, versionId: int, replicas: Option<int>, bodyVersionId: Option<int>, userId: int, timestamp: int)
    ensures CreateDeploymentRouteSpec(t, versionId, replicas, bodyVersionId, userId, timestamp)
         == CreateDeploymentRouteSpec(t, versionId, replicas, None, userId, timestamp)
    ensures replicas.None? ==>
      CreateDeploymentRouteSpec(t, versionId, replicas, bodyVersionId, userId, timestamp)
        == CreateDeploymentSpec(t, DeploymentCreate(1, Some(versionId)), userId, timestamp)
    ensures replicas.Some? && !(MinReplicas <= replicas.value <= MaxReplicas) ==>
      CreateDeploymentRouteSpec(t, versionId, replicas, bodyVersionId, userId, timestamp)
        == (Failure(Unprocessable("replicas")), t)
  {
  }

  /** PATCH /versions/{version_id}/status?status=...: the value must name a status. */
  function UpdateStatusRouteSpec(t: Tables, versionId: int, statusText: string, userId: int): (Result<ModelVersion, HttpError>, Tables)
  {
    match ParseStatus(statusText)
    case None => (Failure(Unprocessable("status")), t)
    case Some(status) => UpdateStatusSpec(t, versionId, status, userId)
  }

  /** The route hands every valid status to the service unchanged and refuses
      anything else with 422, touching nothing. */
  lemma StatusForwarded(t: Tables, versionId: int, status: VersionStatus, statusText: string, userId: int)
    ensures UpdateStatusRouteSpec(t, versionId, StatusValue(status), userId) == UpdateStatusSpec(t, versionId, status, userId)
    ensures statusText !in {"Building", "Ready", "Failed"} ==>
      UpdateStatusRouteSpec(t, versionId, statusText, userId) == (Failure(Unprocessable("status")), t)
  {
    StatusValues(status, statusText);
  }

  /** POST /versions/{version_id}/upload: the answer, the tables and the stored objects afterwards. */
  function UploadRouteSpec(t: Tables, objects: map<string, seq<byte>>, faults: map<string, PutFault>, bucket: string,
                           versionId: int, userId: int, modelFile: UploadFile, requirementsFile: UploadFile)
    : (Result<ModelVersion, HttpError>, Tables, map<string, seq<byte>>)
  {
    match VersionAccess(t, versionId, userId)
    case Failure(e) => (Failure(e), t, objects)
    case Success(version) =>
      match ModelAccess(t, version.modelId, userId)
      case Failure(e) => (Failure(e), t, objects)
      case Success(model) =>
        var (uploaded, objects') :=
          UploadSpec(objects, faults, bucket, userId, model.name, version.versionTag, modelFile, requirementsFile);
        match uploaded
        case Failure(e) => (Failure(e), t, objects')
        case Success((modelPath, _)) =>
          var (r, t') := UpdateS3PathSpec(t, versionId, modelPath, userId);
          (r, t', objects')
  }

  /** The upload route checks the version (NotFound, then Forbidden) before any
      storage call; when the upload succeeds the version's s3_path becomes the
      model file's path, and when it fails s3_path is left as it was. */
  lemma UploadRouteOutcome(t: Tables, objects: map<string, seq<byte>>, faults: map<string, PutFault>, bucket: string,
                           versionId: int, userId: int, modelFile: UploadFile, requirementsFile: UploadFile)
    ensures var (r, t', objects') := UploadRouteSpec(t, objects, faults, bucket, versionId, userId, modelFile, requirementsFile);
      && (VersionAccess(t, versionId, userId).Failure? ==>
            r == Failure(VersionAccess(t, versionId, userId).error) && t' == t && objects' == objects)
      && (VersionAccess(t, versionId, userId).Success? ==>
            var v := t.versions[versionId];
            var m := t.models[v.modelId];
            var (uploaded, stored) := UploadSpec(objects, faults, bucket, userId, m.name, v.versionTag, modelFile, requirementsFile);
            && objects' == stored
            && (uploaded.Failure? ==> r == Failure(uploaded.error) && t' == t)
            && (uploaded.Success? ==>
                  && r.Success? && r.value == v.(s3Path := uploaded.value.0)
                  && t'.versions == t.versions[versionId := r.value]
                  && t'.models == t.models && t'.deployments == t.deployments))
  {
  }

  /** The upload route as the handler runs it, over the session and the object store. */
  method UploadModelArtifactsRoute(models: ModelService, versions: ModelVersionService, store: ObjectStore,
                                   versionId: int, userId: int, modelFile: UploadFile, requirementsFile: UploadFile)
    returns (r: Result<ModelVersion, HttpError>)
    requires models.db == versions.db
    requires Registry(versions.db.Tables())
    modifies versions.db, store`objects
    ensures Registry(versions.db.Tables())
    ensures (r, versions.db.Tables(), store.objects) ==
      UploadRouteSpec(old(versions.db.Tables()), old(store.objects), store.faults, store.bucket,
                      versionId, userId, modelFile, requirementsFile)
  {
    var version := versions.GetVersion(versionId, userId);
    if version.Failure? {
      return Failure(version.error);
    }
    var model := models.GetModel(version.value.modelId, userId);
    if model.Failure? {
      return Failure(ModelNotFound);
    }
    var paths := UploadModelArtifacts(store, userId, model.value.name, version.value.versionTag, modelFile, requirementsFile);
    if paths.Failure? {
      return Failure(paths.error);
    }
    r := versions.UpdateVersionS3Path(versionId, paths.value.0, userId);
  }

  /** POST /models/{model_id}/versions as the handler runs it. */
  method CreateModelVersionRoute(service: ModelVersionService, modelId: int, versionTag: string, s3Path: string,
                                 bodyModelId: Option<int>, userId: int)
    returns (r: Result<ModelVersion, HttpError>)
    requires Registry(service.db.Tables())
    modifies service.db
    ensures Registry(service.db.Tables())
    ensures (r, service.db.Tables()) ==
      CreateVersionRouteSpec(old(service.db.Tables()), modelId, versionTag, s3Path, bodyModelId, userId)
  {
    var body := ParseVersionCreate(versionTag, s3Path, bodyModelId);
    if body.Failure? {
      return Failure(body.error);
    }
    var data := body.value.(modelId := Some(modelId));
    r := service.CreateVersion(data, userId);
  }

  /** POST /versions/{version_id}/deployments as the handler runs it. */
  method CreateDeploymentRoute(service: DeploymentService, versionId: int, replicas: Option<int>,
                               bodyVersionId: Option<int>, userId: int, timestamp: int)
    returns (r: Result<Deployment, HttpError>)
    requires Registry(service.db.Tables())
    modifies service.db
    ensures Registry(service.db.Tables())
    ensures (r, service.db.Tables()) ==
      CreateDeploymentRouteSpec(old(service.db.Tables()), versionId, replicas, bodyVersionId, userId, timestamp)
  {
    var body := ParseDeploymentCreate(replicas, bodyVersionId);
    if body.Failure? {
      return Failure(body.error);
    }
    var data := body.value.(versionId := Some(versionId));
    r := service.CreateDeployment(data, userId, timestamp);
  }

  /** PATCH /versions/{version_id}/status as the handler runs it. */
  method UpdateVersionStatusRoute(service: ModelVersionService, versionId: int, statusText: string, userId: int)
    returns (r: Result<ModelVersion, HttpError>)
    requires Registry(service.db.Tables())
    modifies service.db
    ensures Registry(service.db.Tables())
    ensures (r, service.db.Tables()) == UpdateStatusRouteSpec(old(service.db.Tables()), versionId, statusText, userId)
  {
    var status := ParseStatus(statusText);
    if status.None? {
      return Failure(Unprocessable("status"));
    }
    r := service.UpdateVersionStatus(versionId, status.value, userId);
  }
}
