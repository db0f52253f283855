# KubeServe core in Dafny

KubeServe hosts machine-learning models for its users. A user registers,
creates a **Model**, adds **ModelVersions** with their artifacts, and asks for
a **Deployment** of a version. This project models the core of that platform
and proves properties of it:

- **Registry** (`entities.dfy`, `schemas.dfy`, `model_repository.dfy`, `model_service.dfy`, `models_api.dfy`).
  - The three tables live in a `Database` class: maps from id to row, plus the id sequences.
  - Schemas: the enum values, column defaults and request-body constraints.
  - The repositories' queries and writes, including the cascades (deleting a model deletes its versions, and deleting a version deletes its deployments).
  - Each service re-derives ownership along Deployment → Version → Model → user and answers NotFound, Forbidden, BadRequest or success. Every writing service method is proved equal to a pure specification function over a table snapshot. Lemmas about those functions state the rules:
    - a tag appears at most once per model;
    - a new version is `Building`;
    - only a `Ready` version can be deployed;
    - replicas lie in 1..10;
    - a rejection leaves the tables untouched.
  - The routes: the path id overrides the body's id, and the upload route chains get_version → get_model → upload → update_version_s3_path.
- **Artifact storage** (`storage_service.py`, modelled in `storage_service.dfy`).
  - The extension check is a loop with an early exit. The model proves it equal to "some allowed extension is a suffix of the lower-cased name".
  - Also modelled: the size limits, name sanitisation, the `models/{user}/{name}/{tag}/{file}` key layout and the upload pipeline.
  - The pipeline runs over a fake object store that returns `s3://{bucket}/{key}` and fails on chosen keys.
- **Helm provisioning** (`helm.dfy`).
  - The exact `helm install` / `uninstall` / `status` argument lists and the defaults.
  - The public URL.
  - How an exit status and stderr are classified.
  - Running a command is a parameter of type `Command -> ProcessResult`.
- **Tenant isolation on Kubernetes** (`kubernetes.dfy`).
  - The API server is a fake cluster state with injected failing calls. It answers 404 for absent objects and 409 for existing ones.
  - The client's idempotent operations and `setup_user_namespace` are proved equal to specification functions. Those functions are proved idempotent, ordered and tolerant of 404/409.
- **User registry** (`user_repository.dfy`, `user_service.dfy`).
  - The users table has unique emails.
  - Registration stores hash(password).
  - Authentication returns None in both failure cases.
  - The token claims are modelled.
  - Hashing, verification and token signing are function parameters.

Shared modules: `Wrappers` (Option/Result/Outcome), `Http` (HTTP errors and their
status codes), `Text` (decimal rendering of integers, ASCII lower-casing,
suffix/substring tests, split-at-first, `x or default`).

Clock values (`int(time.time())` in deployment names) are parameters. So are
the settings the code reads (`MINIO_ENDPOINT`, `INGRESS_HOST`,
`INGRESS_BASE_PATH`).

The repository's own tests expect more than its code does
(tests/test_deployment_service.py:192-286, tests/test_kubernetes.py:264-307).
The model follows the code:

- `create_deployment` only inserts the row. It never calls Helm, never writes a URL back and never rolls back.
- `delete_deployment` never undeploys.
- Registration never sets up a user namespace.
- The public URL is `http://{host}:30080{path}` with the path `{INGRESS_BASE_PATH}/{release_name}`, not a path ending in the deployment id.
- Two deployments of one version created in the same second get the same name. The unique column then refuses the second insert, and the model answers 500 for it (`RegistryService.CreateDeploymentSpec`).

## Model

| member | source | states |
|---|---|---|
| Entities.ParseModelType | app/models/model.py:13-16 | a model type is accepted exactly when it is "sklearn" or "pytorch" |
| Entities.ModelTypeValues | app/models/model.py:13-16 | each type's stored value is one of the two strings and parses back to that type; a string that parses is that type's value |
| Entities.ParseStatus | app/models/model.py:19-23 | a status is accepted exactly when it is "Building", "Ready" or "Failed" |
| Entities.StatusValues | app/models/model.py:19-23 | the three statuses round-trip through their stored values in both directions |
| Entities.NewVersion | app/models/model.py:48-52 | a new version row has status Building whatever else it carries |
| Entities.DeleteVersionCascadeEffect | app/models/model.py:58 | deleting a version removes it and exactly the deployments that point at it; every other row is unchanged |
| Entities.DeleteModelCascadeEffect | app/models/model.py:40-58 | deleting a model removes it, exactly its versions, and exactly the deployments of those versions; the remaining rows are unchanged |
| Entities.CascadesPreserveWellFormed | app/models/model.py:32-75 | after either cascade every foreign key still resolves, ids still match their rows, and service names stay unique |
| Schemas.ParseModelCreate | app/schemas/model.py:13-23 | a body is accepted iff the name has 1..100 characters and the type is a valid value; name and type are kept; otherwise 422 |
| Schemas.ParseVersionCreate | app/schemas/model.py:54-70 | accepted iff the tag has 1..50 characters; s3_path is free and model_id optional; otherwise 422 |
| Schemas.ParseDeploymentCreate | app/schemas/model.py:104-117 | replicas default to 1, are accepted iff within 1..10, and version_id is optional; otherwise 422 |
| Schemas.ParseDeploymentUpdate | app/schemas/model.py:120-124 | optional replicas, when present, must lie in 1..10; url passes through; otherwise 422 |
| Schemas.ReplicaBounds | app/schemas/model.py:107 | 0 and 11 replicas are refused, 1 and 10 accepted, and an omitted count becomes 1 |
| ModelRepository.ServiceNameInjective | app/repositories/model_repository.py:270-282 | `model-{version_id}-{timestamp}` names differ unless both the version and the second are equal |
| ModelRepository.Database.GetModelById | app/repositories/model_repository.py:27-41 | a model is returned iff both its id and its user_id match, otherwise none |
| ModelRepository.Database.GetAllModelsByUser | app/repositories/model_repository.py:43-54 | exactly the models whose user_id is the argument |
| ModelRepository.Database.CreateModel | app/repositories/model_repository.py:56-75 | inserts one model with the next id, the given user, name and type; no other table changes |
| ModelRepository.Database.DeleteModel | app/repositories/model_repository.py:91-99 | the tables become the model cascade of the old tables and stay well formed |
| ModelRepository.Database.GetVersionById | app/repositories/model_repository.py:114-127 | the version with exactly this id, or none |
| ModelRepository.Database.GetVersionsByModel | app/repositories/model_repository.py:129-142 | exactly the versions whose model_id is the argument |
| ModelRepository.Database.GetVersionByModelAndTag | app/repositories/model_repository.py:144-163 | none iff no version matches both model_id and the exact tag; otherwise one that matches both |
| ModelRepository.Database.CreateVersion | app/repositories/model_repository.py:165-184 | succeeds iff the model exists; the new row copies model_id, tag and s3_path with status Building; a failure writes nothing |
| ModelRepository.Database.UpdateVersion | app/repositories/model_repository.py:186-199 | commits the changed row under its id; no other row or table changes |
| ModelRepository.Database.GetDeploymentById | app/repositories/model_repository.py:213-226 | the deployment with exactly this id, or none |
| ModelRepository.Database.GetDeploymentsByVersion | app/repositories/model_repository.py:228-241 | exactly the deployments whose version_id is the argument |
| ModelRepository.Database.GetDeploymentByServiceName | app/repositories/model_repository.py:243-258 | none iff no deployment has the name, otherwise the single one that has it |
| ModelRepository.Database.CreateDeployment | app/repositories/model_repository.py:260-282 | succeeds iff the version exists and the generated name is free; the row is named `model-{version_id}-{timestamp}`, copies version and replicas, has no url; a failure writes nothing |
| ModelRepository.Database.DeleteDeployment | app/repositories/model_repository.py:298-306 | removes exactly that deployment row and nothing else |
| RegistryService.ModelAccess | app/services/model_service.py:60-80 | success iff the model exists and belongs to the caller; every failure is "Model not found" |
| RegistryService.VersionAccess | app/services/model_service.py:166-195 | success iff the version exists and its model is the caller's; an absent version is 404, checked before ownership, which is 403 |
| RegistryService.DeploymentAccess | app/services/model_service.py:355-393 | an absent deployment is 404; otherwise the answer is its version's access result |
| RegistryService.ForeignModelLooksAbsent | app/services/model_service.py:60-112 | for get_model and delete_model, a model owned by someone else gives the same answer as a missing one: 404 with nothing deleted |
| RegistryService.DeleteModelEffect | app/services/model_service.py:95-112 | delete succeeds iff the caller owns the model; it then removes the model, all its versions and their deployments, keeps every other model and version, and keeps the registry invariant |
| RegistryService.CreateModelEffect | app/services/model_service.py:39-58 | a created model gets a fresh id and is visible to its owner only, with the given name and type |
| RegistryService.CreateVersionRejections | app/services/model_service.py:128-160 | a missing or unowned model is 404; a tag the model already has is 400 with the tag in the message; every rejection leaves the tables unchanged |
| RegistryService.CreateVersionSuccess | app/services/model_service.py:128-164 | success iff the model is owned and the tag is new; then exactly one Building row with the given fields is added, and tags stay unique per model |
| RegistryService.VersionGuardShared | app/services/model_service.py:224-348 | update_status, update_s3_path and create_deployment all answer a failed version check the same way (404 if absent, 403 if unowned) and change nothing |
| RegistryService.UpdateStatusEffect | app/services/model_service.py:224-258 | on an owned version, any status is written, with no transition guard, and no other field or row changes |
| RegistryService.UpdateS3PathEffect | app/services/model_service.py:260-294 | on an owned version only s3_path changes; the status and every other row are kept |
| RegistryService.CreateDeploymentRejections | app/services/model_service.py:311-348 | rejections come in the order 404 (no version), 403 (not owner), 400 (status not Ready, status named in the message), and none adds a deployment |
| RegistryService.CreateDeploymentSuccess | app/services/model_service.py:311-353 | a success implies an owned Ready version and adds exactly one deployment for it, with the generated name, no url and the requested replicas |
| RegistryService.StatusGatesDeploy | app/services/model_service.py:343-348 | after a status update, a deployment of that version passes the checks iff the new status is Ready |
| RegistryService.DeleteDeploymentEffect | app/services/model_service.py:431-464 | delete succeeds iff the deployment check passes; it then removes exactly that deployment and keeps all others; a failure changes nothing |
| RegistryService.DeploymentOwnershipChain | app/services/model_service.py:355-393 | a deployment the caller may see has an existing version whose model the caller owns |
| RegistryService.ModelService.CreateModel | app/services/model_service.py:39-58 | behaves as CreateModelSpec and keeps the registry invariant |
| RegistryService.ModelService.GetModel | app/services/model_service.py:60-80 | answers exactly the model access check |
| RegistryService.ModelService.GetAllModels | app/services/model_service.py:82-93 | exactly the caller's models |
| RegistryService.ModelService.DeleteModel | app/services/model_service.py:95-112 | behaves as DeleteModelSpec and keeps the registry invariant |
| RegistryService.ModelVersionService.CreateVersion | app/services/model_service.py:128-164 | behaves as CreateVersionSpec and keeps the registry invariant |
| RegistryService.ModelVersionService.GetVersion | app/services/model_service.py:166-195 | answers exactly the version access check |
| RegistryService.ModelVersionService.GetVersionsByModel | app/services/model_service.py:197-222 | 404 unless the caller owns the model; otherwise exactly its versions |
| RegistryService.ModelVersionService.UpdateVersionStatus | app/services/model_service.py:224-258 | behaves as UpdateStatusSpec and keeps the registry invariant |
| RegistryService.ModelVersionService.UpdateVersionS3Path | app/services/model_service.py:260-294 | behaves as UpdateS3PathSpec and keeps the registry invariant |
| RegistryService.DeploymentService.CreateDeployment | app/services/model_service.py:311-353 | behaves as CreateDeploymentSpec and keeps the registry invariant |
| RegistryService.DeploymentService.GetDeployment | app/services/model_service.py:355-393 | answers exactly the deployment access check |
| RegistryService.DeploymentService.GetDeploymentsByVersion | app/services/model_service.py:395-429 | the version check's error, or exactly the deployments of that version |
| RegistryService.DeploymentService.DeleteDeployment | app/services/model_service.py:431-464 | behaves as DeleteDeploymentSpec and keeps the registry invariant |
| ModelsApi.PathModelIdWins | app/api/v1/models.py:118-140 | the body's model_id never matters: the route acts on the path's model; a bad tag is 422 and changes nothing |
| ModelsApi.PathVersionIdWins | app/api/v1/models.py:268-290 | the body's version_id never matters; omitted replicas mean 1; replicas outside 1..10 are 422 before any lookup |
| ModelsApi.StatusForwarded | app/api/v1/models.py:187-207 | each valid status value reaches the service unchanged; any other value is 422 and changes nothing |
| ModelsApi.UploadRouteOutcome | app/api/v1/models.py:215-259 | the version is checked (404, then 403) before any storage call; on upload success s3_path becomes the model file's path; on failure s3_path is untouched |
| ModelsApi.UploadModelArtifactsRoute | app/api/v1/models.py:215-259 | the handler's sequence behaves as UploadRouteSpec over tables and stored objects |
| ModelsApi.CreateModelVersionRoute | app/api/v1/models.py:118-140 | the handler behaves as CreateVersionRouteSpec |
| ModelsApi.CreateDeploymentRoute | app/api/v1/models.py:268-290 | the handler behaves as CreateDeploymentRouteSpec |
| ModelsApi.UpdateVersionStatusRoute | app/api/v1/models.py:187-207 | the handler behaves as UpdateStatusRouteSpec |
| StorageService.ValidateFile | app/services/storage_service.py:28-59 | a missing or empty filename is 400; otherwise the file passes iff some allowed extension ends the lower-cased name, and a refusal names the allowed extensions |
| StorageService.AcceptedNamesDiffer | app/services/storage_service.py:21-22 | no filename is acceptable both as a model file and as a requirements file |
| StorageService.ModelNameCaseIgnored | app/services/storage_service.py:49-53 | "model.PKL" is accepted as a model file: the extension test ignores case |
| StorageService.FileCheckRefusals | app/services/storage_service.py:42-59 | "model.txt" is refused as a model file; an empty or missing filename is refused as missing |
| StorageService.SanitizeProperties | app/services/storage_service.py:81-84 | sanitising keeps the length, lower-cases kept characters, turns every other character into '_', leaves no other characters, and is idempotent |
| StorageService.ObjectKeyLayout | app/services/storage_service.py:64-86 | keys are `models/{user}/{sanitised name}/{tag}/` followed by the filename, and two files under one prefix share a key iff their names are equal |
| StorageService.ObjectStore.PutObject | app/core/storage.py:47-92 | stores the bytes under the key and returns `s3://{bucket}/{key}`, or fails and stores nothing |
| StorageService.UploadModelArtifacts | app/services/storage_service.py:88-174 | the pipeline behaves as UploadSpec over the stored objects |
| StorageService.UploadChecksComeFirst | app/services/storage_service.py:112-138 | any validation, read or size failure answers before anything is stored, model file checks before requirements file checks; a size at the limit passes and one byte more is 400 |
| StorageService.UploadOutcome | app/services/storage_service.py:140-174 | success returns (model path, requirements path), in that order, with both objects stored under distinct keys and all others kept; a failed second put leaves the first object stored, and a failed first put stores nothing |
| HelmDeployment.SetFlags | app/services/deployment_service.py:115-136 | every value is preceded by its own `--set` and the values keep their order |
| HelmDeployment.InstallCommandShape | app/services/deployment_service.py:115-136 | the install command is `helm install <release> <chart> --namespace <ns> --create-namespace` followed by the fourteen `--set` values in their fixed order, booleans lower-case |
| HelmDeployment.InstallDefaults | app/services/deployment_service.py:110-112 | omitted image, host and path become `{minio host}:5001/kubeserve-base`, INGRESS_HOST and `{INGRESS_BASE_PATH}/{release}` |
| HelmDeployment.DefaultInstallRequest | app/services/deployment_service.py:65-81 | a call passing only the seven required arguments has SSL off, one replica, tag "latest", ingress on, and no image, host or path |
| HelmDeployment.DefaultCallValues | app/services/deployment_service.py:74-136 | such a call installs with `model.s3UseSSL=false`, `deployment.replicas=1`, `deployment.image.tag=latest`, `ingress.enabled=true` and the default image, host and path |
| HelmDeployment.DefaultCallUrl | app/services/deployment_service.py:78-163 | because ingress defaults to on, a successful install of such a call answers with `http://{INGRESS_HOST}:30080{INGRESS_BASE_PATH}/{release}` |
| HelmDeployment.DeployOutcome | app/services/deployment_service.py:107-163 | a missing chart fails before any command; a non-zero exit fails with stderr; success echoes release and namespace, with url `http://{host}:30080{path}` iff ingress is enabled |
| HelmDeployment.UndeployOutcome | app/services/deployment_service.py:165-200 | runs exactly `helm uninstall <release> --namespace <ns>`; succeeds iff the exit is 0 or lower-cased stderr contains "not found" |
| HelmDeployment.StatusOutcome | app/services/deployment_service.py:202-237 | a non-zero exit gives {status: not_found, error: stderr}, exit 0 gives {status: deployed, output: stdout} |
| Text.BeforeFirst | app/core/kubernetes_client.py:158 | the result is the longest prefix without the separator, and the whole string when it has none |
| Text.OrDefault | app/services/deployment_service.py:110-112 | an omitted or empty value gives way to the fallback; any other value is kept |
| Text.Lower | app/services/storage_service.py:51 | lower-casing keeps the length, maps each character, and leaves no upper-case letter |
| Kubernetes.NamespaceExistsOutcome | app/core/kubernetes_client.py:38-54 | true when the read succeeds, false on 404, any other status raised |
| Kubernetes.CreateNamespaceOutcome | app/core/kubernetes_client.py:56-86 | an existing namespace means no create at all; a new one is created with its labels; 409 on create is success; other failures change nothing |
| Kubernetes.StepFrames | app/core/kubernetes_client.py:56-207 | each set-up step writes only its own kind of object, and a failed step writes nothing |
| Kubernetes.QuotaOutcome | app/core/kubernetes_client.py:88-134 | the quota holds exactly cpu and memory as request and limit and the pod count as text; an existing quota (409) is kept as it was |
| Kubernetes.PolicyShape | app/core/kubernetes_client.py:136-207 | the policy selects every pod, restricts egress only, allows exactly UDP/TCP 53, TCP on the storage port and TCP 443; the storage host is the endpoint before its first ':' |
| Kubernetes.SetupOutcome | app/core/kubernetes_client.py:209-247 | setup returns `user-{id}` and leaves that namespace (labelled if new), its quota and its policy in place, touching no other namespace and no ingress |
| Kubernetes.SetupIdempotent | app/core/kubernetes_client.py:209-247 | running setup again answers the same and changes nothing |
| Kubernetes.SetupStopsAtFailure | app/core/kubernetes_client.py:228-247 | steps run namespace, quota, policy and stop at the first failure; a failed setup adds no policy, and a failed namespace step changes nothing |
| Kubernetes.DeleteNamespaceOutcome | app/core/kubernetes_client.py:249-267 | a successful delete removes the namespace and, in a consistent cluster, every quota, policy and ingress in it while keeping other namespaces' ingresses; consistency is kept; 404 is success; other failures change nothing |
| Kubernetes.WritesKeepConsistent | app/core/kubernetes_client.py:56-369 | no API write the client makes (namespace, quota, policy, ingress create or delete) leaves an object in a namespace that does not exist |
| Kubernetes.IngressOutcome | app/core/kubernetes_client.py:269-369 | create_ingress answers `http://{host}{path}` on creation and on 409, storing the Prefix route to the service; delete_ingress treats 404 as success |
| Kubernetes.KubernetesClient.NamespaceExists | app/core/kubernetes_client.py:38-54 | behaves as NamespaceExistsSpec |
| Kubernetes.KubernetesClient.CreateNamespace | app/core/kubernetes_client.py:56-86 | behaves as CreateNamespaceSpec on the cluster |
| Kubernetes.KubernetesClient.CreateResourceQuota | app/core/kubernetes_client.py:88-134 | behaves as CreateQuotaSpec on the cluster |
| Kubernetes.KubernetesClient.CreateNetworkPolicy | app/core/kubernetes_client.py:136-207 | behaves as CreatePolicySpec on the cluster |
| Kubernetes.KubernetesClient.SetupUserNamespace | app/core/kubernetes_client.py:209-247 | behaves as SetupSpec on the cluster |
| Kubernetes.KubernetesClient.DeleteNamespace | app/core/kubernetes_client.py:249-267 | behaves as DeleteNamespaceSpec on the cluster |
| Kubernetes.KubernetesClient.CreateIngress | app/core/kubernetes_client.py:269-345 | behaves as CreateIngressSpec on the cluster |
| Kubernetes.KubernetesClient.DeleteIngress | app/core/kubernetes_client.py:347-369 | behaves as DeleteIngressSpec on the cluster |
| UserRepository.RoleValues | app/models/user.py:13-16 | the two roles round-trip through "user" and "admin", and nothing else parses |
| UserRepository.ParseUserCreate | app/schemas/user.py:11-16 | accepted iff the password has at least 8 characters and any given role is valid; the role defaults to "user"; otherwise 422 |
| UserRepository.UserWithEmail | app/repositories/user_repository.py:39-50 | none iff no row has the email, otherwise a row with exactly that email |
| UserRepository.EmailLookupUnique | app/models/user.py:25 | with emails unique, the lookup by email finds the one row that has it |
| UserRepository.InsertUserEffect | app/repositories/user_repository.py:52-71 | create stores exactly the email, hash and role under a fresh id iff the email is free, keeps emails unique, and get_by_email then finds the new row |
| UserRepository.ReplaceUserEffect | app/repositories/user_repository.py:73-85 | update replaces only that row, keeps the table well formed, and refuses an email another row holds |
| UserRepository.UserDatabase.GetById | app/repositories/user_repository.py:26-37 | the row with exactly that id, or none |
| UserRepository.UserDatabase.GetByEmail | app/repositories/user_repository.py:39-50 | none iff no row has exactly that email, otherwise that row |
| UserRepository.UserDatabase.Create | app/repositories/user_repository.py:52-71 | behaves as InsertUser and keeps the table well formed |
| UserRepository.UserDatabase.Update | app/repositories/user_repository.py:73-85 | behaves as ReplaceUser and keeps the table well formed |
| Users.RegisterRejectsTakenEmail | app/services/user_service.py:39-45 | a registered email is refused with 400 "Email already registered" and no user is added |
| Users.RegisterStoresHash | app/services/user_service.py:47-52 | a free email gives a new user at the next id whose stored credential is hash(password); the answer omits the credential |
| Users.RegisterKeepsWellFormed | app/services/user_service.py:26-52 | registration succeeds iff the email is free and always keeps the users table well formed |
| Users.AuthenticateOutcome | app/services/user_service.py:54-72 | None for an unknown email, None when verification fails, the user when it succeeds |
| Users.RegisterThenAuthenticate | app/services/user_service.py:26-72 | after registering, the same credentials authenticate as the new user when the verifier accepts a password against its own hash; a rejected password gives None |
| Users.TokenClaimsIdentify | app/services/user_service.py:114-118 | the claims are exactly sub = str(id) and email, and equal claims mean equal id and email |
| Users.UserService.CreateUser | app/services/user_service.py:26-52 | behaves as RegisterSpec and keeps the users table well formed |
| Users.UserService.AuthenticateUser | app/services/user_service.py:54-72 | behaves as AuthenticateSpec |
| Users.UserService.GetUserById | app/services/user_service.py:74-87 | None iff no user has the id, otherwise that user without the credential |
| Users.UserService.GetUserByEmail | app/services/user_service.py:89-102 | None iff no user has the email, otherwise a user with exactly that email |
| Users.UserService.CreateAccessTokenForUser | app/services/user_service.py:104-118 | the token is the signature of exactly the claims map |

## Left out

- Async sessions, transactions and `refresh`. Every write commits at once, and the model runs sequentially.
- `created_at` / `updated_at` columns and the Pydantic response wrappers. The response records are the rows themselves; for users, the response drops the password hash.
- `ModelRepository.update`, `DeploymentRepository.update`, `ModelUpdate` and `ModelVersionUpdate`. No core operation calls them. `DeploymentUpdate` is modelled as a parser only.
- The `users` foreign key of `models.user_id` and the user → model cascade. The registry treats user ids as plain integers.
- `MultipleResultsFound` from `scalar_one_or_none`. Email and k8s_service_name are unique columns. Tags are unique per model because the service keeps them so (`RegistryService.Registry`).
- A failed insert does not advance the id sequence. PostgreSQL would consume a value, but ids are otherwise opaque.
- Email address syntax (`EmailStr`).
- Python's Unicode-aware `lower()` and `isalnum()`. The model uses their ASCII behaviour.
- The order of extensions in the "File extension not allowed" message. The source joins a Python set, whose iteration order is unspecified; the model uses the listed order.
- The status text in "Cannot deploy version with status …". It renders an enum member with an f-string, which gives `ModelVersionStatus.READY` or `Ready` depending on the Python version. The model uses the stored value.
- StorageService.ValidateFile: takes no `max_size`. The source accepts that argument and never uses it; sizes are checked after reading, as modelled in `ArtifactsCheck`.
- Bucket creation (`_ensure_bucket_exists`), content types and the Minio client.
  - An upload failure is one of two kinds: a storage error or another exception.
  - Reading an upload either yields its bytes or fails with a message.
- The subprocess machinery of `_run_helm_command`: the 300-second timeout and logging. A run either completes with (returncode, stdout, stderr) or times out, and a timeout is re-raised.
- Kubernetes configuration loading and the SDK objects.
  - Only status codes and the stored objects are modelled.
  - Namespace deletion is immediate; in a real cluster the namespace passes through Terminating first.
  - Optional `labels` / `annotations` are taken as maps; `None` is the empty map.
- Kubernetes.DeleteNamespaceOutcome: the "nothing left in it" part is stated for a consistent cluster only. The fake API server can be given objects whose namespace is missing, which a real cluster never holds.
- The inference server, JWT encoding/decoding, password hashing, auth dependencies, configuration loading, the application entry point and the migration.
- Behaviour only the tests expect: Helm calls and rollback in `create_deployment`, undeploy in `delete_deployment`, namespace set-up at registration. The model follows the code.
