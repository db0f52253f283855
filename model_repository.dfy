/** The registry tables behind one database session and the queries and
    writes of ModelRepository, ModelVersionRepository and DeploymentRepository
    (app/repositories/model_repository.py). Each write commits at once. */
module ModelRepository {
  import opened Wrappers
  import opened Text
  import opened Entities
  import opened Schemas

  /** A write the database refused because it broke one of its constraints. */
  datatype DbError = IntegrityError(constraint: string)

  /** `model-{version_id}-{timestamp}`, the generated k8s_service_name. */
  function ServiceName(versionId: int, timestamp: int): (name: string)
  {
    "model-" + IntToString(versionId) + "-" + IntToString(timestamp)
  }

  /** Different (version, second) pairs give different names: a clash needs two
      deployments of the same version created within the same second. */
  lemma ServiceNameInjective(v1: int, t1: int, v2: int, t2: int)
    requires ServiceName(v1, t1) == ServiceName(v2, t2)
    ensures v1 == v2 && t1 == t2
  {
    var a1, b1 := IntToString(v1), IntToString(t1);
    var a2, b2 := IntToString(v2), IntToString(t2);
    var n := ServiceName(v1, t1);
    assert n == "model-" + a1 + "-" + b1 == "model-" + a2 + "-" + b2;
    var s1, s2 := a1 + "-" + b1, a2 + "-" + b2;
    assert s1 == n[6..] == s2;
    // The version part ends at the first '-' after its optional sign.
    if |a1| != |a2| {
      var short, long := if |a1| < |a2| then a1 else a2, if |a1| < |a2| then a2 else a1;
      assert s1[|short|] == '-';
      assert long[|short|] == '-';
      DashNotInNumber(long, |short|);
    }
    assert |a1| == |a2|;
    assert a1 == s1[..|a1|] == s2[..|a2|] == a2;
    assert b1 == s1[|a1| + 1..] == s2[|a2| + 1..] == b2;
    IntToStringInjective(v1, v2);
    IntToStringInjective(t1, t2);
  }

  /** Inside a rendered integer a '-' can only stand first. */
  lemma DashNotInNumber(a: string, k: nat)
    requires exists i :: a == IntToString(i)
    requires 0 < k < |a|
    ensures a[k] != '-'
  {
    var i :| a == IntToString(i);
    if i < 0 {
      assert a[k] == NatToString(-i)[k - 1];
    }
  }

  class Database {
    var models: map<int, Model>
    var versions: map<int, ModelVersion>
    var deployments: map<int, Deployment>
    var nextModelId: int
    var nextVersionId: int
    var nextDeploymentId: int

    /** The committed contents of the three tables. */
    function Tables(): Tables
      reads this
    {
      Entities.Tables(models, versions, deployments, nextModelId, nextVersionId, nextDeploymentId)
    }

    ghost predicate Valid()
      reads this
    {
      WellFormed(Tables())
    }

    /** An empty database; every id sequence starts at 1. */
    constructor ()
      ensures Valid()
      ensures models == map[] && versions == map[] && deployments == map[]
      ensures nextModelId == 1 && nextVersionId == 1 && nextDeploymentId == 1
    {
      models, versions, deployments := map[], map[], map[];
      nextModelId, nextVersionId, nextDeploymentId := 1, 1, 1;
    }

    // ModelRepository

    /** The model with this id, provided it belongs to this user. */
    method GetModelById(modelId: int, userId: int) returns (m: Option<Model>)
      ensures m.Some? <==> modelId in models && models[modelId].userId == userId
      ensures m.Some? ==> m.value == models[modelId]
    {
      if modelId in models && models[modelId].userId == userId {
        m := Some(models[modelId]);
      } else {
        m := None;
      }
    }

    /** Every model of this user (the query has no ORDER BY, so only the set is modelled). */
    method GetAllModelsByUser(userId: int) returns (ms: set<Model>)
      ensures forall m :: m in ms <==> m in models.Values && m.userId == userId
    {
      ms := set m | m in models.Values && m.userId == userId;
    }

    method CreateModel(data: ModelCreate, userId: int) returns (m: Model)
      requires Valid()
      modifies this
      ensures Valid()
      ensures m == Model(old(nextModelId), userId, data.name, data.modelType)
      ensures m.id !in old(models) && models == old(models)[m.id := m]
      ensures versions == old(versions) && deployments == old(deployments)
      ensures nextModelId == old(nextModelId) + 1
      ensures nextVersionId == old(nextVersionId) && nextDeploymentId == old(nextDeploymentId)
    {
      m := Model(nextModelId, userId, data.name, data.modelType);
      models := models[m.id := m];
      nextModelId := nextModelId + 1;
    }

    /** Deletes the model row; the relationship cascades to its versions and their deployments. */
    method DeleteModel(model: Model)
      requires Valid() && model.id in models
      modifies this
      ensures Valid()
      ensures Tables() == DeleteModelCascade(old(Tables()), model.id)
    {
      CascadesPreserveWellFormed(Tables(), model.id, 0);
      var t := DeleteModelCascade(Tables(), model.id);
      models, versions, deployments := t.models, t.versions, t.deployments;
    }

    // ModelVersionRepository

    method GetVersionById(versionId: int) returns (v: Option<ModelVersion>)
      ensures v.Some? <==> versionId in versions
      ensures v.Some? ==> v.value == versions[versionId]
    {
      v := if versionId in versions then Some(versions[versionId]) else None;
    }

    method GetVersionsByModel(modelId: int) returns (vs: set<ModelVersion>)
      ensures forall v :: v in vs <==> v in versions.Values && v.modelId == modelId
    {
      vs := set v | v in versions.Values && v.modelId == modelId;
    }

    /** A version of `modelId` whose tag equals `versionTag` exactly (case-sensitive). */
    method GetVersionByModelAndTag(modelId: int, versionTag: string) returns (v: Option<ModelVersion>)
      ensures v.None? <==> forall id :: id in versions ==> !(versions[id].modelId == modelId && versions[id].versionTag == versionTag)
      ensures v.Some? ==> v.value in versions.Values && v.value.modelId == modelId && v.value.versionTag == versionTag
    {
      if id :| id in versions && versions[id].modelId == modelId && versions[id].versionTag == versionTag {
        v := Some(versions[id]);
      } else {
        v := None;
      }
    }

    /** Inserts a version that copies model_id, version_tag and s3_path from the
        request and always starts as Building. A missing or unknown model_id
        breaks the NOT NULL or the foreign-key constraint. */
    method CreateVersion(data: VersionCreate) returns (r: Result<ModelVersion, DbError>)
      requires Valid()
      modifies this
      ensures Valid()
      ensures r.Success? <==> data.modelId.Some? && data.modelId.value in old(models)
      ensures r.Success? ==>
        && r.value == NewVersion(old(nextVersionId), data.modelId.value, data.versionTag, data.s3Path)
        && r.value.id !in old(versions)
        && versions == old(versions)[r.value.id := r.value]
        && nextVersionId == old(nextVersionId) + 1
      ensures r.Failure? ==> versions == old(versions) && nextVersionId == old(nextVersionId)
      ensures models == old(models) && deployments == old(deployments)
      ensures nextModelId == old(nextModelId) && nextDeploymentId == old(nextDeploymentId)
    {
      if data.modelId.None? || data.modelId.value !in models {
        return Failure(IntegrityError("model_versions.model_id"));
      }
      var v := ModelVersion(nextVersionId, data.modelId.value, data.versionTag, data.s3Path, Building);
      versions := versions[v.id := v];
      nextVersionId := nextVersionId + 1;
      r := Success(v);
    }

    /** Commits a version whose fields the caller changed in place; the row keeps its id and model. */
    method UpdateVersion(v: ModelVersion)
      requires Valid() && v.id in versions && v.modelId == versions[v.id].modelId
      modifies this
      ensures Valid()
      ensures versions == old(versions)[v.id := v]
      ensures models == old(models) && deployments == old(deployments)
      ensures nextModelId == old(nextModelId) && nextVersionId == old(nextVersionId)
      ensures nextDeploymentId == old(nextDeploymentId)
    {
      versions := versions[v.id := v];
    }

    // DeploymentRepository

    method GetDeploymentById(deploymentId: int) returns (d: Option<Deployment>)
      ensures d.Some? <==> deploymentId in deployments
      ensures d.Some? ==> d.value == deployments[deploymentId]
    {
      d := if deploymentId in deployments then Some(deployments[deploymentId]) else None;
    }

    method GetDeploymentsByVersion(versionId: int) returns (ds: set<Deployment>)
      ensures forall d :: d in ds <==> d in deployments.Values && d.versionId == versionId
    {
      ds := set d | d in deployments.Values && d.versionId == versionId;
    }

    /** The deployment with this k8s_service_name; there is at most one. */
    method GetDeploymentByServiceName(name: string) returns (d: Option<Deployment>)
      requires Valid()
      ensures d.None? <==> forall id :: id in deployments ==> deployments[id].k8sServiceName != name
      ensures d.Some? ==> d.value in deployments.Values && d.value.k8sServiceName == name
      ensures d.Some? ==> forall id :: id in deployments && deployments[id].k8sServiceName == name ==> deployments[id] == d.value
    {
      if id :| id in deployments && deployments[id].k8sServiceName == name {
        d := Some(deployments[id]);
      } else {
        d := None;
      }
    }

    /** Inserts a deployment named `model-{version_id}-{timestamp}` with the
        requested version and replicas and no url. `timestamp` stands for
        `int(time.time())`. A missing or unknown version, or a name already in
        use, breaks a constraint and nothing is written. */
    method CreateDeployment(data: DeploymentCreate, timestamp: int) returns (r: Result<Deployment, DbError>)
      requires Valid()
      modifies this
      ensures Valid()
      ensures r.Success? <==>
        && data.versionId.Some? && data.versionId.value in old(versions)
        && forall id :: id in old(deployments) ==>
             old(deployments)[id].k8sServiceName != ServiceName(data.versionId.value, timestamp)
      ensures r.Success? ==>
        && r.value == Deployment(old(nextDeploymentId), data.versionId.value,
                                 ServiceName(data.versionId.value, timestamp), None, data.replicas)
        && r.value.id !in old(deployments)
        && deployments == old(deployments)[r.value.id := r.value]
        && nextDeploymentId == old(nextDeploymentId) + 1
      ensures r.Failure? ==> deployments == old(deployments) && nextDeploymentId == old(nextDeploymentId)
      ensures models == old(models) && versions == old(versions)
      ensures nextModelId == old(nextModelId) && nextVersionId == old(nextVersionId)
    {
      if data.versionId.None? {
        return Failure(IntegrityError("deployments.version_id"));
      }
      var name := ServiceName(data.versionId.value, timestamp);
      if data.versionId.value !in versions {
        return Failure(IntegrityError("deployments.version_id"));
      }
      if exists id :: id in deployments && deployments[id].k8sServiceName == name {
        return Failure(IntegrityError("deployments.k8s_service_name"));
      }
      var d := Deployment(nextDeploymentId, data.versionId.value, name, None, data.replicas);
      deployments := deployments[d.id := d];
      nextDeploymentId := nextDeploymentId + 1;
      r := Success(d);
    }

    /** Deletes exactly this deployment row. */
    method DeleteDeployment(d: Deployment)
      requires Valid() && d.id in deployments
      modifies this
      ensures Valid()
      ensures deployments == old(deployments) - {d.id}
      ensures models == old(models) && versions == old(versions)
      ensures nextModelId == old(nextModelId) && nextVersionId == old(nextVersionId)
      ensures nextDeploymentId == old(nextDeploymentId)
    {
      deployments := deployments - {d.id};
    }
  }
}
