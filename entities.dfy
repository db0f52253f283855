/** The registry's records (app/models/model.py): the two enumerations, the
    Model -> ModelVersion -> Deployment rows, the constraints the database
    declares on them and the cascading deletes of the relationships. */
module Entities {
  import opened Wrappers

  datatype ModelType = Sklearn | Pytorch

  /** The stored value of each ModelType member. */
  function ModelTypeValue(t: ModelType): string
  {
    match t
    case Sklearn => "sklearn"
    case Pytorch => "pytorch"
  }

  /** The ModelType member whose value is `s`, if any (what the enum constructor accepts). */
  function ParseModelType(s: string): (r: Option<ModelType>)
    ensures r.Some? <==> s == "sklearn" || s == "pytorch"
  {
    if s == "sklearn" then Some(Sklearn)
    else if s == "pytorch" then Some(Pytorch)
    else None
  }

  /** Exactly two model types, and parsing inverts the value mapping. */
  lemma ModelTypeValues(t: ModelType, s: string)
    ensures ModelTypeValue(t) in {"sklearn", "pytorch"}
    ensures ParseModelType(ModelTypeValue(t)) == Some(t)
    ensures ParseModelType(s) == Some(t) ==> ModelTypeValue(t) == s
  {
  }

  datatype VersionStatus = Building | Ready | Failed

  function StatusValue(s: VersionStatus): string
  {
    match s
    case Building => "Building"
    case Ready => "Ready"
    case Failed => "Failed"
  }

  function ParseStatus(s: string): (r: Option<VersionStatus>)
    ensures r.Some? <==> s in {"Building", "Ready", "Failed"}
  {
    if s == "Building" then Some(Building)
    else if s == "Ready" then Some(Ready)
    else if s == "Failed" then Some(Failed)
    else None
  }

  /** Exactly three statuses with distinct values, and parsing inverts the value mapping. */
  lemma StatusValues(st: VersionStatus, s: string)
    ensures StatusValue(st) in {"Building", "Ready", "Failed"}
    ensures ParseStatus(StatusValue(st)) == Some(st)
    ensures ParseStatus(s) == Some(st) ==> StatusValue(st) == s
  {
  }

  /** Column default of ModelVersion.status. */
  const DefaultStatus: VersionStatus := Building

  /** Column default of Deployment.replicas. */
  const DefaultReplicas: int := 1

  datatype Model = Model(id: int, userId: int, name: string, modelType: ModelType)

  datatype ModelVersion = ModelVersion(id: int, modelId: int, versionTag: string, s3Path: string, status: VersionStatus)

  /** `url` is nullable: None until something writes a route back. */
  datatype Deployment = Deployment(id: int, versionId: int, k8sServiceName: string, url: Option<string>, replicas: int)

  /** A new version row with the column default for status. */
  function NewVersion(id: int, modelId: int, versionTag: string, s3Path: string): (v: ModelVersion)
    ensures v.status == Building
    ensures v.id == id && v.modelId == modelId && v.versionTag == versionTag && v.s3Path == s3Path
  {
    ModelVersion(id, modelId, versionTag, s3Path, DefaultStatus)
  }

  /** The three registry tables, keyed by primary key, with the next value of
      each table's id sequence. */
  datatype Tables = Tables(
    models: map<int, Model>,
    versions: map<int, ModelVersion>,
    deployments: map<int, Deployment>,
    nextModelId: int,
    nextVersionId: int,
    nextDeploymentId: int)

  /** What the database itself enforces: primary keys match the rows, ids
      come from the sequences, foreign keys resolve, and k8s_service_name is unique. */
  predicate WellFormed(t: Tables)
  {
    && (forall id :: id in t.models ==> t.models[id].id == id && id < t.nextModelId)
    && (forall id :: id in t.versions ==>
          t.versions[id].id == id && id < t.nextVersionId && t.versions[id].modelId in t.models)
    && (forall id :: id in t.deployments ==>
          t.deployments[id].id == id && id < t.nextDeploymentId && t.deployments[id].versionId in t.versions)
    && ServiceNamesUnique(t.deployments)
  }

  predicate ServiceNamesUnique(deployments: map<int, Deployment>)
  {
    forall a, b :: a in deployments && b in deployments && a != b ==>
      deployments[a].k8sServiceName != deployments[b].k8sServiceName
  }

  /** Ids of the versions of model `modelId`. */
  function VersionsOf(t: Tables, modelId: int): (ids: set<int>)
    ensures forall v :: v in ids <==> v in t.versions && t.versions[v].modelId == modelId
  {
    set v | v in t.versions && t.versions[v].modelId == modelId
  }

  /** Deletes version `versionId` and, by the relationship's cascade, every deployment of it. */
  function DeleteVersionCascade(t: Tables, versionId: int): (r: Tables)
  {
    t.(versions := t.versions - {versionId},
       deployments := map d | d in t.deployments && t.deployments[d].versionId != versionId :: t.deployments[d])
  }

  /** Deletes model `modelId`, its versions and their deployments. */
  function DeleteModelCascade(t: Tables, modelId: int): (r: Tables)
  {
    var gone := VersionsOf(t, modelId);
    t.(models := t.models - {modelId},
       versions := map v | v in t.versions && v !in gone :: t.versions[v],
       deployments := map d | d in t.deployments && t.deployments[d].versionId !in gone :: t.deployments[d])
  }

  /** Deleting a version removes it and exactly its deployments; every other row is kept as it was. */
  lemma DeleteVersionCascadeEffect(t: Tables, versionId: int)
    ensures var r := DeleteVersionCascade(t, versionId);
      && r.models == t.models
      && r.versions.Keys == t.versions.Keys - {versionId}
      && (forall v :: v in r.versions ==> r.versions[v] == t.versions[v])
      && (forall d :: d in t.deployments ==>
            (d in r.deployments <==> t.deployments[d].versionId != versionId))
      && (forall d :: d in r.deployments ==> r.deployments[d] == t.deployments[d])
  {
  }

  /** Deleting a model removes it, all its versions and all their deployments, and nothing else. */
  lemma DeleteModelCascadeEffect(t: Tables, modelId: int)
    requires WellFormed(t)
    ensures var r := DeleteModelCascade(t, modelId);
      && r.models.Keys == t.models.Keys - {modelId}
      && (forall v :: v in t.versions ==> (v in r.versions <==> t.versions[v].modelId != modelId))
      && (forall d :: d in t.deployments ==>
            (d in r.deployments <==> t.versions[t.deployments[d].versionId].modelId != modelId))
      && (forall v :: v in r.versions ==> r.versions[v] == t.versions[v])
      && (forall d :: d in r.deployments ==> r.deployments[d] == t.deployments[d])
  {
  }

  /** The cascades never leave a dangling foreign key behind. */
  lemma CascadesPreserveWellFormed(t: Tables, modelId: int, versionId: int)
    requires WellFormed(t)
    ensures WellFormed(DeleteModelCascade(t, modelId))
    ensures WellFormed(DeleteVersionCascade(t, versionId))
  {
    var r := DeleteModelCascade(t, modelId);
    forall v | v in r.versions ensures r.versions[v].modelId in r.models {
      assert v !in VersionsOf(t, modelId);
    }
    forall a, b | a in r.deployments && b in r.deployments && a != b
      ensures r.deployments[a].k8sServiceName != r.deployments[b].k8sServiceName
    {
      assert t.deployments[a] == r.deployments[a] && t.deployments[b] == r.deployments[b];
    }
    var q := DeleteVersionCascade(t, versionId);
    forall a, b | a in q.deployments && b in q.deployments && a != b
      ensures q.deployments[a].k8sServiceName != q.deployments[b].k8sServiceName
    {
      assert t.deployments[a] == q.deployments[a] && t.deployments[b] == q.deployments[b];
    }
  }
}
