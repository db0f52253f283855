/** The registry's business rules (app/services/model_service.py): every call
    re-derives ownership along Deployment -> ModelVersion -> Model -> user and
    answers NotFound, Forbidden, BadRequest or success.

    Each guard chain is a function over a snapshot of the tables; each writing
    operation has a specification function giving its answer and the tables it
    leaves, and the service classes' methods are proved to behave exactly so. */
module RegistryService {
  import opened Wrappers
  import opened Http
  import opened Entities
  import opened Schemas
  import opened ModelRepository

  const ModelNotFound: HttpError := NotFound("Model not found")
  const VersionNotFound: HttpError := NotFound("Model version not found")
  const DeploymentNotFound: HttpError := NotFound("Deployment not found")
  const AccessDenied: HttpError := Forbidden("Access denied")

  /** What an uncaught IntegrityError becomes at the HTTP boundary. */
  const ServerError: HttpError := InternalError("Internal Server Error")

  function DuplicateTag(tag: string): HttpError
  {
    BadRequest("Version tag '" + tag + "' already exists for this model")
  }

  function NotReady(status: VersionStatus): HttpError
  {
    BadRequest("Cannot deploy version with status '" + StatusValue(status) + "'. Version must be READY.")
  }

  /** Model `modelId` exists and belongs to `userId`. */
  predicate Owns(t: Tables, modelId: int, userId: int)
  {
    modelId in t.models && t.models[modelId].userId == userId
  }

  /** Some version of `modelId` carries exactly this tag. */
  predicate HasTag(t: Tables, modelId: int, tag: string)
  {
    exists id :: id in t.versions && t.versions[id].modelId == modelId && t.versions[id].versionTag == tag
  }

  /** The rule the service keeps on top of the database: a tag appears at most once per model. */
  predicate TagsUnique(t: Tables)
  {
    forall a, b :: a in t.versions && b in t.versions && a != b && t.versions[a].modelId == t.versions[b].modelId
      ==> t.versions[a].versionTag != t.versions[b].versionTag
  }

  /** The registry invariant every service operation keeps. */
  predicate Registry(t: Tables)
  {
    WellFormed(t) && TagsUnique(t)
  }

  // Guard chains

  /** get_model: the caller's own model, or NotFound. */
  function ModelAccess(t: Tables, modelId: int, userId: int): (r: Result<Model, HttpError>)
    ensures r.Success? <==> Owns(t, modelId, userId)
    ensures r.Success? ==> r.value == t.models[modelId]
    ensures r.Failure? ==> r.error == ModelNotFound
  {
    if Owns(t, modelId, userId) then Success(t.models[modelId]) else Failure(ModelNotFound)
  }

  /** get_version: NotFound when the version is absent, otherwise Forbidden
      unless its model is the caller's. */
  function VersionAccess(t: Tables, versionId: int, userId: int): (r: Result<ModelVersion, HttpError>)
    ensures r.Success? <==> versionId in t.versions && Owns(t, t.versions[versionId].modelId, userId)
    ensures r.Success? ==> r.value == t.versions[versionId]
    ensures versionId !in t.versions ==> r == Failure(VersionNotFound)
    ensures versionId in t.versions && r.Failure? ==> r.error == AccessDenied
  {
    if versionId !in t.versions then Failure(VersionNotFound)
    else if !Owns(t, t.versions[versionId].modelId, userId) then Failure(AccessDenied)
    else Success(t.versions[versionId])
  }

  /** get_deployment: NotFound for the deployment, then NotFound for its
      version, then Forbidden unless the version's model is the caller's. */
  function DeploymentAccess(t: Tables, deploymentId: int, userId: int): (r: Result<Deployment, HttpError>)
    ensures r.Success? <==>
      && deploymentId in t.deployments
      && VersionAccess(t, t.deployments[deploymentId].versionId, userId).Success?
    ensures r.Success? ==> r.value == t.deployments[deploymentId]
    ensures deploymentId !in t.deployments ==> r == Failure(DeploymentNotFound)
    ensures deploymentId in t.deployments && r.Failure? ==>
      r.error == VersionAccess(t, t.deployments[deploymentId].versionId, userId).error
  {
    if deploymentId !in t.deployments then Failure(DeploymentNotFound)
    else match VersionAccess(t, t.deployments[deploymentId].versionId, userId)
      case Failure(e) => Failure(e)
      case Success(_) => Success(t.deployments[deploymentId])
  }

  /** The checks of create_version: the caller's model (NotFound otherwise,
      also when the body carries no model_id), then a tag new to that model. */
  function VersionCreateCheck(t: Tables, data: VersionCreate, userId: int): (r: Result<int, HttpError>)
  {
    if data.modelId.None? || !Owns(t, data.modelId.value, userId) then Failure(ModelNotFound)
    else if HasTag(t, data.modelId.value, data.versionTag) then Failure(DuplicateTag(data.versionTag))
    else Success(data.modelId.value)
  }

  /** The checks of create_deployment: the version's guard chain, then its status must be Ready. */
  function DeployCheck(t: Tables, data: DeploymentCreate, userId: int): (r: Result<ModelVersion, HttpError>)
  {
    if data.versionId.None? then Failure(VersionNotFound)
    else match VersionAccess(t, data.versionId.value, userId)
      case Failure(e) => Failure(e)
      case Success(v) => if v.status != Ready then Failure(NotReady(v.status)) else Success(v)
  }

  // Specifications of the writing operations: (answer, tables afterwards)

  function CreateModelSpec(t: Tables, data: ModelCreate, userId: int): (Model, Tables)
  {
    var m := Model(t.nextModelId, userId, data.name, data.modelType);
    (m, t.(models := t.models[m.id := m], nextModelId := t.nextModelId + 1))
  }

  function DeleteModelSpec(t: Tables, modelId: int, userId: int): (Outcome<HttpError>, Tables)
  {
    match ModelAccess(t, modelId, userId)
    case Failure(e) => (Fail(e), t)
    case Success(_) => (Pass, DeleteModelCascade(t, modelId))
  }

  function CreateVersionSpec(t: Tables, data: VersionCreate, userId: int): (Result<ModelVersion, HttpError>, Tables)
  {
    match VersionCreateCheck(t, data, userId)
    case Failure(e) => (Failure(e), t)
    case Success(modelId) =>
      var v := NewVersion(t.nextVersionId, modelId, data.versionTag, data.s3Path);
      (Success(v), t.(versions := t.versions[v.id := v], nextVersionId := t.nextVersionId + 1))
  }

  /** update_version_status: any status may replace any other. */
  function UpdateStatusSpec(t: Tables, versionId: int, status: VersionStatus, userId: int): (Result<ModelVersion, HttpError>, Tables)
  {
    match VersionAccess(t, versionId, userId)
    case Failure(e) => (Failure(e), t)
    case Success(v) =>
      var u := v.(status := status);
      (Success(u), t.(versions := t.versions[versionId := u]))
  }

  function UpdateS3PathSpec(t: Tables, versionId: int, s3Path: string, userId: int): (Result<ModelVersion, HttpError>, Tables)
  {
    match VersionAccess(t, versionId, userId)
    case Failure(e) => (Failure(e), t)
    case Success(v) =>
      var u := v.(s3Path := s3Path);
      (Success(u), t.(versions := t.versions[versionId := u]))
  }

  /** Some deployment already carries this k8s_service_name. */
  predicate NameInUse(t: Tables, name: string)
  {
    exists id :: id in t.deployments && t.deployments[id].k8sServiceName == name
  }

  /** create_deployment at second `timestamp`. A name clash (a second
      deployment of the version within the same second) breaks the unique
      constraint and surfaces as a server error. */
  function CreateDeploymentSpec(t: Tables, data: DeploymentCreate, userId: int, timestamp: int): (Result<Deployment, HttpError>, Tables)
  {
    match DeployCheck(t, data, userId)
    case Failure(e) => (Failure(e), t)
    case Success(_) =>
      var name := ServiceName(data.versionId.value, timestamp);
      if NameInUse(t, name) then (Failure(ServerError), t)
      else
        var d := Deployment(t.nextDeploymentId, data.versionId.value, name, None, data.replicas);
        (Success(d), t.(deployments := t.deployments[d.id := d], nextDeploymentId := t.nextDeploymentId + 1))
  }

  function DeleteDeploymentSpec(t: Tables, deploymentId: int, userId: int): (Outcome<HttpError>, Tables)
  {
    match DeploymentAccess(t, deploymentId, userId)
    case Failure(e) => (Fail(e), t)
    case Success(_) => (Pass, t.(deployments := t.deployments - {deploymentId}))
  }

  // Properties of the rules

  /** A model that is absent and a model owned by someone else look the same
      to get_model and delete_model, and delete_model then changes nothing. */
  lemma ForeignModelLooksAbsent(t: Tables, modelId: int, userId: int)
    requires !Owns(t, modelId, userId)
    ensures ModelAccess(t, modelId, userId) == ModelAccess(t.(models := t.models - {modelId}), modelId, userId)
    ensures ModelAccess(t, modelId, userId) == Failure(ModelNotFound)
    ensures DeleteModelSpec(t, modelId, userId) == (Fail(ModelNotFound), t)
  {
  }

  /** A successful delete_model removes the model, every version of it and every
      deployment of those versions, and keeps everything else. */
  lemma DeleteModelEffect(t: Tables, modelId: int, userId: int)
    requires Registry(t)
    ensures var (r, t') := DeleteModelSpec(t, modelId, userId);
      && (r.Pass? <==> Owns(t, modelId, userId))
      && (r.Pass? ==>
            && modelId !in t'.models
            && (forall v :: v in t'.versions ==> t'.versions[v].modelId != modelId)
            && (forall d :: d in t'.deployments ==> t'.versions[t'.deployments[d].versionId].modelId != modelId)
            && (forall m :: m in t.models && m != modelId ==> m in t'.models && t'.models[m] == t.models[m])
            && (forall v :: v in t.versions && t.versions[v].modelId != modelId ==> v in t'.versions))
      && Registry(t')
  {
    var (r, t') := DeleteModelSpec(t, modelId, userId);
    if r.Pass? {
      CascadesPreserveWellFormed(t, modelId, 0);
      DeleteModelCascadeEffect(t, modelId);
    }
  }

  /** A model the caller creates is visible to them, invisible to everyone else,
      and leaves the other tables alone. */
  lemma CreateModelEffect(t: Tables, data: ModelCreate, userId: int, otherUser: int)
    requires Registry(t)
    requires otherUser != userId
    ensures var (m, t') := CreateModelSpec(t, data, userId);
      && m.id !in t.models
      && ModelAccess(t', m.id, userId) == Success(m)
      && ModelAccess(t', m.id, otherUser) == Failure(ModelNotFound)
      && m.name == data.name && m.modelType == data.modelType
      && t'.versions == t.versions && t'.deployments == t.deployments
      && Registry(t')
  {
  }

  /** create_version refuses with NotFound when the model is not the caller's,
      then with BadRequest when the tag exists for that model; either way the
      tables are untouched. */
  lemma CreateVersionRejections(t: Tables, data: VersionCreate, userId: int)
    ensures data.modelId.None? ==> CreateVersionSpec(t, data, userId) == (Failure(ModelNotFound), t)
    ensures data.modelId.Some? && !Owns(t, data.modelId.value, userId) ==>
      CreateVersionSpec(t, data, userId) == (Failure(ModelNotFound), t)
    ensures data.modelId.Some? && Owns(t, data.modelId.value, userId) && HasTag(t, data.modelId.value, data.versionTag) ==>
      CreateVersionSpec(t, data, userId) == (Failure(DuplicateTag(data.versionTag)), t)
    ensures CreateVersionSpec(t, data, userId).0.Failure? ==> CreateVersionSpec(t, data, userId).1 == t
  {
  }

  /** A successful create_version adds exactly one version, of the requested
      model, with the requested tag and path, in status Building. */
  lemma CreateVersionSuccess(t: Tables, data: VersionCreate, userId: int)
    requires Registry(t)
    ensures var (r, t') := CreateVersionSpec(t, data, userId);
      && (r.Success? <==>
            data.modelId.Some? && Owns(t, data.modelId.value, userId) && !HasTag(t, data.modelId.value, data.versionTag))
      && (r.Success? ==>
            && r.value.status == Building
            && r.value.modelId == data.modelId.value
            && r.value.versionTag == data.versionTag && r.value.s3Path == data.s3Path
            && r.value.id !in t.versions
            && t'.versions == t.versions[r.value.id := r.value]
            && |t'.versions| == |t.versions| + 1
            && t'.models == t.models && t'.deployments == t.deployments)
      && Registry(t')
  {
    var (r, t') := CreateVersionSpec(t, data, userId);
    if r.Success? {
      var v := r.value;
      assert v.id !in t.versions;
      forall a, b | a in t'.versions && b in t'.versions && a != b && t'.versions[a].modelId == t'.versions[b].modelId
        ensures t'.versions[a].versionTag != t'.versions[b].versionTag
      {
        if a == v.id {
          assert b in t.versions && t.versions[b].modelId == v.modelId;
        } else if b == v.id {
          assert a in t.versions && t.versions[a].modelId == v.modelId;
        }
      }
    }
  }

  /** Every operation on a version shares the guard chain: while it fails, the
      version cannot be read, updated or deployed, and nothing changes. */
  lemma VersionGuardShared(t: Tables, versionId: int, userId: int, status: VersionStatus, s3Path: string, replicas: ReplicaCount, timestamp: int)
    requires VersionAccess(t, versionId, userId).Failure?
    ensures var e := VersionAccess(t, versionId, userId).error;
      && (e == VersionNotFound <==> versionId !in t.versions)
      && (e == AccessDenied <==> versionId in t.versions)
      && UpdateStatusSpec(t, versionId, status, userId) == (Failure(e), t)
      && UpdateS3PathSpec(t, versionId, s3Path, userId) == (Failure(e), t)
      && CreateDeploymentSpec(t, DeploymentCreate(replicas, Some(versionId)), userId, timestamp) == (Failure(e), t)
  {
  }

  /** update_version_status writes any status over any other and changes no other field or row. */
  lemma UpdateStatusEffect(t: Tables, versionId: int, status: VersionStatus, userId: int)
    requires Registry(t)
    ensures var (r, t') := UpdateStatusSpec(t, versionId, status, userId);
      && (r.Success? <==> VersionAccess(t, versionId, userId).Success?)
      && (r.Success? ==>
            && r.value.status == status
            && r.value == t.versions[versionId].(status := status)
            && t'.versions == t.versions[versionId := r.value]
            && t'.versions.Keys == t.versions.Keys
            && t'.models == t.models && t'.deployments == t.deployments)
      && Registry(t')
  {
    var (r, t') := UpdateStatusSpec(t, versionId, status, userId);
    if r.Success? {
      assert forall v :: v in t'.versions ==>
        t'.versions[v].modelId == t.versions[v].modelId && t'.versions[v].versionTag == t.versions[v].versionTag;
    }
  }

  /** update_version_s3_path changes s3_path only. */
  lemma UpdateS3PathEffect(t: Tables, versionId: int, s3Path: string, userId: int)
    requires Registry(t)
    ensures var (r, t') := UpdateS3PathSpec(t, versionId, s3Path, userId);
      && (r.Success? <==> VersionAccess(t, versionId, userId).Success?)
      && (r.Success? ==>
            && r.value == t.versions[versionId].(s3Path := s3Path)
            && r.value.status == t.versions[versionId].status
            && t'.versions == t.versions[versionId := r.value]
            && t'.models == t.models && t'.deployments == t.deployments)
      && Registry(t')
  {
    var (r, t') := UpdateS3PathSpec(t, versionId, s3Path, userId);
    if r.Success? {
      assert forall v :: v in t'.versions ==>
        t'.versions[v].modelId == t.versions[v].modelId && t'.versions[v].versionTag == t.versions[v].versionTag;
    }
  }

  /** create_deployment refuses in the order NotFound, Forbidden, BadRequest
      (status not Ready), and no refusal adds a deployment. */
  lemma CreateDeploymentRejections(t: Tables, data: DeploymentCreate, userId: int, timestamp: int)
    ensures var (r, t') := CreateDeploymentSpec(t, data, userId, timestamp);
      && (data.versionId.None? || data.versionId.value !in t.versions ==> r == Failure(VersionNotFound))
      && ((data.versionId.Some? && data.versionId.value in t.versions
             && !Owns(t, t.versions[data.versionId.value].modelId, userId)) ==> r == Failure(AccessDenied))
      && ((data.versionId.Some? && VersionAccess(t, data.versionId.value, userId).Success?
             && t.versions[data.versionId.value].status != Ready) ==>
              r == Failure(NotReady(t.versions[data.versionId.value].status)))
      && (r.Failure? ==> t' == t)
  {
  }

  /** A successful create_deployment needs the caller's Ready version and adds
      exactly one deployment of it, named after the version and the second,
      with the requested replicas and no url. */
  lemma CreateDeploymentSuccess(t: Tables, data: DeploymentCreate, userId: int, timestamp: int)
    requires Registry(t)
    ensures var (r, t') := CreateDeploymentSpec(t, data, userId, timestamp);
      && (r.Success? ==>
            && data.versionId.Some?
            && VersionAccess(t, data.versionId.value, userId).Success?
            && t.versions[data.versionId.value].status == Ready
            && r.value.versionId == data.versionId.value
            && r.value.k8sServiceName == ServiceName(data.versionId.value, timestamp)
            && r.value.url.None? && r.value.replicas == data.replicas
            && r.value.id !in t.deployments
            && t'.deployments == t.deployments[r.value.id := r.value]
            && |t'.deployments| == |t.deployments| + 1
            && t'.models == t.models && t'.versions == t.versions)
      && Registry(t')
  {
    var (r, t') := CreateDeploymentSpec(t, data, userId, timestamp);
    if r.Success? {
      var d := r.value;
      assert d.id !in t.deployments;
      forall a, b | a in t'.deployments && b in t'.deployments && a != b
        ensures t'.deployments[a].k8sServiceName != t'.deployments[b].k8sServiceName
      {
        if a == d.id {
          assert b in t.deployments;
        } else if b == d.id {
          assert a in t.deployments;
        }
      }
    }
  }

  /** A Ready version the caller owns can always be deployed (unless the name is
      taken); forcing any other status blocks deploying it. */
  lemma StatusGatesDeploy(t: Tables, versionId: int, status: VersionStatus, userId: int, replicas: ReplicaCount)
    requires VersionAccess(t, versionId, userId).Success?
    ensures var t' := UpdateStatusSpec(t, versionId, status, userId).1;
      DeployCheck(t', DeploymentCreate(replicas, Some(versionId)), userId).Success? <==> status == Ready
    ensures var t' := UpdateStatusSpec(t, versionId, status, userId).1;
      status != Ready ==> DeployCheck(t', DeploymentCreate(replicas, Some(versionId)), userId) == Failure(NotReady(status))
  {
  }

  /** A successful delete_deployment removes exactly that deployment; a refused one changes nothing. */
  lemma DeleteDeploymentEffect(t: Tables, deploymentId: int, userId: int)
    requires Registry(t)
    ensures var (r, t') := DeleteDeploymentSpec(t, deploymentId, userId);
      && (r.Pass? <==> DeploymentAccess(t, deploymentId, userId).Success?)
      && (r.Fail? ==> r.error == DeploymentAccess(t, deploymentId, userId).error && t' == t)
      && (r.Pass? ==>
            && deploymentId !in t'.deployments
            && |t'.deployments| == |t.deployments| - 1
            && (forall d :: d in t.deployments && d != deploymentId ==> d in t'.deployments && t'.deployments[d] == t.deployments[d])
            && t'.models == t.models && t'.versions == t.versions)
      && Registry(t')
  {
    var (r, t') := DeleteDeploymentSpec(t, deploymentId, userId);
    if r.Pass? {
      forall a, b | a in t'.deployments && b in t'.deployments && a != b
        ensures t'.deployments[a].k8sServiceName != t'.deployments[b].k8sServiceName
      {
        assert t'.deployments[a] == t.deployments[a] && t'.deployments[b] == t.deployments[b];
      }
    }
  }

  /** A deployment readable by a user hangs off a version and a model that user owns. */
  lemma DeploymentOwnershipChain(t: Tables, deploymentId: int, userId: int)
    requires DeploymentAccess(t, deploymentId, userId).Success?
    ensures var d := DeploymentAccess(t, deploymentId, userId).value;
      && d.versionId in t.versions
      && Owns(t, t.versions[d.versionId].modelId, userId)
  {
  }

  // The services over one database session

  class ModelService {
    const db: Database

    constructor (db: Database)
      ensures this.db == db
    {
      this.db := db;
    }

    method CreateModel(data: ModelCreate, userId: int) returns (m: Model)
      requires Registry(db.Tables())
      modifies db
      ensures Registry(db.Tables())
      ensures (m, db.Tables()) == CreateModelSpec(old(db.Tables()), data, userId)
    {
      m := db.CreateModel(data, userId);
    }

    method GetModel(modelId: int, userId: int) returns (r: Result<Model, HttpError>)
      ensures r == ModelAccess(db.Tables(), modelId, userId)
    {
      var model := db.GetModelById(modelId, userId);
      if model.None? {
        return Failure(ModelNotFound);
      }
      r := Success(model.value);
    }

    /** Exactly the caller's models. */
    method GetAllModels(userId: int) returns (ms: set<Model>)
      ensures forall m :: m in ms <==> m in db.models.Values && m.userId == userId
    {
      ms := db.GetAllModelsByUser(userId);
    }

    method DeleteModel(modelId: int, userId: int) returns (r: Outcome<HttpError>)
      requires Registry(db.Tables())
      modifies db
      ensures Registry(db.Tables())
      ensures (r, db.Tables()) == DeleteModelSpec(old(db.Tables()), modelId, userId)
    {
      DeleteModelEffect(db.Tables(), modelId, userId);
      var model := db.GetModelById(modelId, userId);
      if model.None? {
        return Fail(ModelNotFound);
      }
      db.DeleteModel(model.value);
      r := Pass;
    }
  }

  class ModelVersionService {
    const db: Database

    constructor (db: Database)
      ensures this.db == db
    {
      this.db := db;
    }

    method CreateVersion(data: VersionCreate, userId: int) returns (r: Result<ModelVersion, HttpError>)
      requires Registry(db.Tables())
      modifies db
      ensures Registry(db.Tables())
      ensures (r, db.Tables()) == CreateVersionSpec(old(db.Tables()), data, userId)
    {
      CreateVersionSuccess(db.Tables(), data, userId);
      if data.modelId.None? {
        return Failure(ModelNotFound);
      }
      var model := db.GetModelById(data.modelId.value, userId);
      if model.None? {
        return Failure(ModelNotFound);
      }
      var existing := db.GetVersionByModelAndTag(data.modelId.value, data.versionTag);
      if existing.Some? {
        return Failure(DuplicateTag(data.versionTag));
      }
      var created := db.CreateVersion(data);
      r := Success(created.value);
    }

    method GetVersion(versionId: int, userId: int) returns (r: Result<ModelVersion, HttpError>)
      ensures r == VersionAccess(db.Tables(), versionId, userId)
    {
      var version := db.GetVersionById(versionId);
      if version.None? {
        return Failure(VersionNotFound);
      }
      var model := db.GetModelById(version.value.modelId, userId);
      if model.None? {
        return Failure(AccessDenied);
      }
      r := Success(version.value);
    }

    /** Exactly the versions of the caller's model. */
    method GetVersionsByModel(modelId: int, userId: int) returns (r: Result<set<ModelVersion>, HttpError>)
      ensures r.Success? <==> Owns(db.Tables(), modelId, userId)
      ensures r.Failure? ==> r.error == ModelNotFound
      ensures r.Success? ==> forall v :: v in r.value <==> v in db.versions.Values && v.modelId == modelId
    {
      var model := db.GetModelById(modelId, userId);
      if model.None? {
        return Failure(ModelNotFound);
      }
      var versions := db.GetVersionsByModel(modelId);
      r := Success(versions);
    }

    method UpdateVersionStatus(versionId: int, status: VersionStatus, userId: int) returns (r: Result<ModelVersion, HttpError>)
      requires Registry(db.Tables())
      modifies db
      ensures Registry(db.Tables())
      ensures (r, db.Tables()) == UpdateStatusSpec(old(db.Tables()), versionId, status, userId)
    {
      UpdateStatusEffect(db.Tables(), versionId, status, userId);
      var version := db.GetVersionById(versionId);
      if version.None? {
        return Failure(VersionNotFound);
      }
      var model := db.GetModelById(version.value.modelId, userId);
      if model.None? {
        return Failure(AccessDenied);
      }
      var updated := version.value.(status := status);
      db.UpdateVersion(updated);
      r := Success(updated);
    }

    method UpdateVersionS3Path(versionId: int, s3Path: string, userId: int) returns (r: Result<ModelVersion, HttpError>)
      requires Registry(db.Tables())
      modifies db
      ensures Registry(db.Tables())
      ensures (r, db.Tables()) == UpdateS3PathSpec(old(db.Tables()), versionId, s3Path, userId)
    {
      UpdateS3PathEffect(db.Tables(), versionId, s3Path, userId);
      var version := db.GetVersionById(versionId);
      if version.None? {
        return Failure(VersionNotFound);
      }
      var model := db.GetModelById(version.value.modelId, userId);
      if model.None? {
        return Failure(AccessDenied);
      }
      var updated := version.value.(s3Path := s3Path);
      db.UpdateVersion(updated);
      r := Success(updated);
    }
  }

  class DeploymentService {
    const db: Database

    constructor (db: Database)
      ensures this.db == db
    {
      this.db := db;
    }

    /** `timestamp` is the second at which the row is created. */
    method CreateDeployment(data: DeploymentCreate, userId: int, timestamp: int) returns (r: Result<Deployment, HttpError>)
      requires Registry(db.Tables())
      modifies db
      ensures Registry(db.Tables())
      ensures (r, db.Tables()) == CreateDeploymentSpec(old(db.Tables()), data, userId, timestamp)
    {
      CreateDeploymentSuccess(db.Tables(), data, userId, timestamp);
      if data.versionId.None? {
        return Failure(VersionNotFound);
      }
      var version := db.GetVersionById(data.versionId.value);
      if version.None? {
        return Failure(VersionNotFound);
      }
      var model := db.GetModelById(version.value.modelId, userId);
      if model.None? {
        return Failure(AccessDenied);
      }
      if version.value.status != Ready {
        return Failure(NotReady(version.value.status));
      }
      var created := db.CreateDeployment(data, timestamp);
      if created.Failure? {
        return Failure(ServerError);
      }
      r := Success(created.value);
    }

    method GetDeployment(deploymentId: int, userId: int) returns (r: Result<Deployment, HttpError>)
      ensures r == DeploymentAccess(db.Tables(), deploymentId, userId)
    {
      var deployment := db.GetDeploymentById(deploymentId);
      if deployment.None? {
        return Failure(DeploymentNotFound);
      }
      var version := db.GetVersionById(deployment.value.versionId);
      if version.None? {
        return Failure(VersionNotFound);
      }
      var model := db.GetModelById(version.value.modelId, userId);
      if model.None? {
        return Failure(AccessDenied);
      }
      r := Success(deployment.value);
    }

    /** Exactly the deployments of a version the caller owns. */
    method GetDeploymentsByVersion(versionId: int, userId: int) returns (r: Result<set<Deployment>, HttpError>)
      ensures r.Success? <==> VersionAccess(db.Tables(), versionId, userId).Success?
      ensures r.Failure? ==> r.error == VersionAccess(db.Tables(), versionId, userId).error
      ensures r.Success? ==> forall d :: d in r.value <==> d in db.deployments.Values && d.versionId == versionId
    {
      var version := db.GetVersionById(versionId);
      if version.None? {
        return Failure(VersionNotFound);
      }
      var model := db.GetModelById(version.value.modelId, userId);
      if model.None? {
        return Failure(AccessDenied);
      }
      var deployments := db.GetDeploymentsByVersion(versionId);
      r := Success(deployments);
    }

    method DeleteDeployment(deploymentId: int, userId: int) returns (r: Outcome<HttpError>)
      requires Registry(db.Tables())
      modifies db
      ensures Registry(db.Tables())
      ensures (r, db.Tables()) == DeleteDeploymentSpec(old(db.Tables()), deploymentId, userId)
    {
      DeleteDeploymentEffect(db.Tables(), deploymentId, userId);
      var deployment := db.GetDeploymentById(deploymentId);
      if deployment.None? {
        return Fail(DeploymentNotFound);
      }
      var version := db.GetVersionById(deployment.value.versionId);
      if version.None? {
        return Fail(VersionNotFound);
      }
      var model := db.GetModelById(version.value.modelId, userId);
      if model.None? {
        return Fail(AccessDenied);
      }
      db.DeleteDeployment(deployment.value);
      r := Pass;
    }
  }
}
