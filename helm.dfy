/** The decisions of HelmDeploymentService (app/services/deployment_service.py):
    the fixed argument lists of `helm install`, `helm uninstall` and `helm
    status`, the defaults for image, ingress host and path, the public URL,
    and how each command's outcome is classified. Running a command is a
    parameter `run`; every operation reports the commands it ran. */
module HelmDeployment {
  import opened Wrappers
  import opened Text

  type Command = seq<string>

  /** What running a command produced: its exit status and output, or a timeout. */
  datatype ProcessResult = Completed(returncode: int, stdout: string, stderr: string) | TimedOut

  datatype HelmError =
    | ChartNotFound(chartPath: string)   // ValueError before anything runs
    | SubprocessFailed(message: string)  // SubprocessError raised on a non-zero exit
    | CommandTimedOut(command: Command)  // TimeoutExpired, re-raised

  /** The outcome of an operation and the commands it ran, in order. */
  datatype HelmCall<T> = HelmCall(ran: seq<Command>, result: Result<T, HelmError>)

  /** The settings the service reads: MINIO_ENDPOINT, INGRESS_HOST, INGRESS_BASE_PATH. */
  datatype Settings = Settings(minioEndpoint: string, ingressHost: string, ingressBasePath: string)

  /** The arguments of deploy_model; None stands for an omitted optional argument. */
  datatype InstallRequest = InstallRequest(
    releaseName: string,
    namespace: string,
    s3Path: string,
    s3Endpoint: string,
    s3AccessKey: string,
    s3SecretKey: string,
    s3Bucket: string,
    s3UseSsl: bool,
    replicas: int,
    imageRepository: Option<string>,
    imageTag: string,
    ingressEnabled: bool,
    ingressHost: Option<string>,
    ingressPath: Option<string>)

  /** A call of deploy_model that passes only the seven required arguments:
      SSL off, one replica, image tag "latest", ingress on, and the three
      optional strings omitted. */
  function DefaultInstallRequest(releaseName: string, namespace: string, s3Path: string, s3Endpoint: string,
                                 s3AccessKey: string, s3SecretKey: string, s3Bucket: string): (req: InstallRequest)
    ensures req.releaseName == releaseName && req.namespace == namespace && req.s3Path == s3Path
    ensures req.s3Endpoint == s3Endpoint && req.s3AccessKey == s3AccessKey
    ensures req.s3SecretKey == s3SecretKey && req.s3Bucket == s3Bucket
    ensures !req.s3UseSsl && req.replicas == 1 && req.imageTag == "latest" && req.ingressEnabled
    ensures req.imageRepository.None? && req.ingressHost.None? && req.ingressPath.None?
  {
    InstallRequest(releaseName, namespace, s3Path, s3Endpoint, s3AccessKey, s3SecretKey, s3Bucket,
                   false, 1, None, "latest", true, None, None)
  }

  /** The dictionary deploy_model returns. */
  datatype DeployInfo = DeployInfo(releaseName: string, namespace: string, url: Option<string>, stdout: string)

  /** `str(b).lower()`. */
  function BoolText(b: bool): string
  {
    if b then "true" else "false"
  }

  function DefaultImage(settings: Settings): string
  {
    BeforeFirst(settings.minioEndpoint, ':') + ":5001/kubeserve-base"
  }

  function ImageRepository(settings: Settings, req: InstallRequest): string
  {
    OrDefault(req.imageRepository, DefaultImage(settings))
  }

  function IngressHost(settings: Settings, req: InstallRequest): string
  {
    OrDefault(req.ingressHost, settings.ingressHost)
  }

  function IngressPath(settings: Settings, req: InstallRequest): string
  {
    OrDefault(req.ingressPath, settings.ingressBasePath + "/" + req.releaseName)
  }

  /** The chart values of an install, in the order they are passed. */
  function InstallValues(settings: Settings, req: InstallRequest): (values: seq<string>)
  {
    [ "model.s3Path=" + req.s3Path,
      "model.s3Endpoint=" + req.s3Endpoint,
      "model.s3AccessKey=" + req.s3AccessKey,
      "model.s3SecretKey=" + req.s3SecretKey,
      "model.s3Bucket=" + req.s3Bucket,
      "model.s3UseSSL=" + BoolText(req.s3UseSsl),
      "deployment.replicas=" + IntToString(req.replicas),
      "deployment.image.repository=" + ImageRepository(settings, req),
      "deployment.image.tag=" + req.imageTag,
      "ingress.enabled=" + BoolText(req.ingressEnabled),
      "ingress.hosts[0].host=" + IngressHost(settings, req),
      "ingress.hosts[0].paths[0].path=" + IngressPath(settings, req),
      "ingress.hosts[0].paths[0].pathType=Prefix",
      "monitoring.serviceMonitor.enabled=true" ]
  }

  /** Each value preceded by its own `--set`. */
  function SetFlags(values: seq<string>): (args: seq<string>)
    ensures |args| == 2 * |values|
    ensures forall i :: 0 <= i < |args| ==> args[i] == if i % 2 == 0 then "--set" else values[i / 2]
  {
    if values == [] then []
    else
      var rest := SetFlags(values[1..]);
      var args := ["--set", values[0]] + rest;
      assert forall i :: 2 <= i < |args| ==> args[i] == rest[i - 2];
      args
  }

  function InstallCommand(chartPath: string, settings: Settings, req: InstallRequest): (cmd: Command)
  {
    ["helm", "install", req.releaseName, chartPath, "--namespace", req.namespace, "--create-namespace"]
      + SetFlags(InstallValues(settings, req))
  }

  /** deploy_model: refuse without running anything when the chart is missing;
      otherwise run the install and classify its outcome. */
  function DeployModel(chartExists: bool, chartPath: string, settings: Settings, req: InstallRequest,
                       run: Command -> ProcessResult): HelmCall<DeployInfo>
  {
    if !chartExists then HelmCall([], Failure(ChartNotFound(chartPath)))
    else
      var cmd := InstallCommand(chartPath, settings, req);
      match run(cmd)
      case TimedOut => HelmCall([cmd], Failure(CommandTimedOut(cmd)))
      case Completed(returncode, stdout, stderr) =>
        if returncode != 0 then HelmCall([cmd], Failure(SubprocessFailed("Helm install failed: " + stderr)))
        else
          var url := if req.ingressEnabled
            then Some("http://" + IngressHost(settings, req) + ":30080" + IngressPath(settings, req))
            else None;
          HelmCall([cmd], Success(DeployInfo(req.releaseName, req.namespace, url, stdout)))
  }

  function UninstallCommand(releaseName: string, namespace: string): Command
  {
    ["helm", "uninstall", releaseName, "--namespace", namespace]
  }

  /** undeploy_model: success on exit 0, and also when a failing uninstall says
      the release was "not found" in any letter case. */
  function UndeployModel(releaseName: string, namespace: string, run: Command -> ProcessResult): HelmCall<()>
  {
    var cmd := UninstallCommand(releaseName, namespace);
    match run(cmd)
    case TimedOut => HelmCall([cmd], Failure(CommandTimedOut(cmd)))
    case Completed(returncode, _, stderr) =>
      if returncode == 0 || Contains(Lower(stderr), "not found") then HelmCall([cmd], Success(()))
      else HelmCall([cmd], Failure(SubprocessFailed("Helm uninstall failed: " + stderr)))
  }

  function StatusCommand(releaseName: string, namespace: string): Command
  {
    ["helm", "status", releaseName, "--namespace", namespace, "--output", "json"]
  }

  /** get_deployment_status: a non-zero exit reads as "not_found" with the error text. */
  function GetDeploymentStatus(releaseName: string, namespace: string, run: Command -> ProcessResult): HelmCall<map<string, string>>
  {
    var cmd := StatusCommand(releaseName, namespace);
    match run(cmd)
    case TimedOut => HelmCall([cmd], Failure(CommandTimedOut(cmd)))
    case Completed(returncode, stdout, stderr) =>
      if returncode != 0 then HelmCall([cmd], Success(map["status" := "not_found", "error" := stderr]))
      else HelmCall([cmd], Success(map["status" := "deployed", "output" := stdout]))
  }

  // Properties

  /** The install command: the fixed head, then 14 `--set` pairs in a fixed
      order, booleans in lower case, 35 arguments in all. */
  lemma InstallCommandShape(chartPath: string, settings: Settings, req: InstallRequest)
    ensures var cmd := InstallCommand(chartPath, settings, req);
      && |cmd| == 35
      && cmd[..7] == ["helm", "install", req.releaseName, chartPath, "--namespace", req.namespace, "--create-namespace"]
      && (forall k :: 0 <= k < 14 ==> cmd[7 + 2 * k] == "--set")
      && cmd[8] == "model.s3Path=" + req.s3Path
      && cmd[10] == "model.s3Endpoint=" + req.s3Endpoint
      && cmd[12] == "model.s3AccessKey=" + req.s3AccessKey
      && cmd[14] == "model.s3SecretKey=" + req.s3SecretKey
      && cmd[16] == "model.s3Bucket=" + req.s3Bucket
      && cmd[18] == "model.s3UseSSL=" + (if req.s3UseSsl then "true" else "false")
      && cmd[20] == "deployment.replicas=" + IntToString(req.replicas)
      && cmd[22] == "deployment.image.repository=" + ImageRepository(settings, req)
      && cmd[24] == "deployment.image.tag=" + req.imageTag
      && cmd[26] == "ingress.enabled=" + (if req.ingressEnabled then "true" else "false")
      && cmd[28] == "ingress.hosts[0].host=" + IngressHost(settings, req)
      && cmd[30] == "ingress.hosts[0].paths[0].path=" + IngressPath(settings, req)
      && cmd[32] == "ingress.hosts[0].paths[0].pathType=Prefix"
      && cmd[34] == "monitoring.serviceMonitor.enabled=true"
  {
    var head := ["helm", "install", req.releaseName, chartPath, "--namespace", req.namespace, "--create-namespace"];
    var values := InstallValues(settings, req);
    assert InstallCommand(chartPath, settings, req) == head + SetFlags(values);
    forall k | 0 <= k < 14 ensures InstallCommand(chartPath, settings, req)[7 + 2 * k] == "--set" {
      FlagAt(values, k);
    }
    FlagAt(values, 0);
    FlagAt(values, 1);
    FlagAt(values, 2);
    FlagAt(values, 3);
    FlagAt(values, 4);
    FlagAt(values, 5);
    FlagAt(values, 6);
    FlagAt(values, 7);
    FlagAt(values, 8);
    FlagAt(values, 9);
    FlagAt(values, 10);
    FlagAt(values, 11);
    FlagAt(values, 12);
    FlagAt(values, 13);
  }

  /** The k-th value sits right after the k-th `--set`. */
  lemma FlagAt(values: seq<string>, k: nat)
    requires k < |values|
    ensures |SetFlags(values)| == 2 * |values|
    ensures SetFlags(values)[2 * k] == "--set"
    ensures SetFlags(values)[2 * k + 1] == values[k]
  {
    var flags := SetFlags(values);
    Halves(k);
    assert flags[2 * k] == "--set";
    assert flags[2 * k + 1] == values[k];
  }

  /** The parity and half of 2k and 2k + 1. */
  lemma Halves(k: nat)
    ensures (2 * k) % 2 == 0 && (2 * k + 1) % 2 == 1 && (2 * k + 1) / 2 == k
  {
  }

  /** Omitted arguments take their defaults: the image from the storage host on
      port 5001, the host from the settings, the path `{base}/{release}`. */
  lemma InstallDefaults(settings: Settings, req: InstallRequest)
    requires req.imageRepository.None? && req.ingressHost.None? && req.ingressPath.None?
    ensures ImageRepository(settings, req) == BeforeFirst(settings.minioEndpoint, ':') + ":5001/kubeserve-base"
    ensures ':' !in BeforeFirst(settings.minioEndpoint, ':')
    ensures IngressHost(settings, req) == settings.ingressHost
    ensures IngressPath(settings, req) == settings.ingressBasePath + "/" + req.releaseName
  {
  }

  /** A call that omits every defaulted argument installs with SSL off, one
      replica, tag "latest", ingress on, the default image, host and path. */
  lemma DefaultCallValues(chartPath: string, settings: Settings,
                          releaseName: string, namespace: string, s3Path: string, s3Endpoint: string,
                          s3AccessKey: string, s3SecretKey: string, s3Bucket: string)
    ensures var req := DefaultInstallRequest(releaseName, namespace, s3Path, s3Endpoint, s3AccessKey, s3SecretKey, s3Bucket);
      var cmd := InstallCommand(chartPath, settings, req);
      && cmd[18] == "model.s3UseSSL=false"
      && cmd[20] == "deployment.replicas=1"
      && cmd[22] == "deployment.image.repository=" + BeforeFirst(settings.minioEndpoint, ':') + ":5001/kubeserve-base"
      && cmd[24] == "deployment.image.tag=latest"
      && cmd[26] == "ingress.enabled=true"
      && cmd[28] == "ingress.hosts[0].host=" + settings.ingressHost
      && cmd[30] == "ingress.hosts[0].paths[0].path=" + settings.ingressBasePath + "/" + releaseName
  {
    var req := DefaultInstallRequest(releaseName, namespace, s3Path, s3Endpoint, s3AccessKey, s3SecretKey, s3Bucket);
    var head := ["helm", "install", req.releaseName, chartPath, "--namespace", req.namespace, "--create-namespace"];
    var values := InstallValues(settings, req);
    assert InstallCommand(chartPath, settings, req) == head + SetFlags(values);
    DefaultValues(settings, req);
    FlagAt(values, 5);
    FlagAt(values, 6);
    FlagAt(values, 7);
    FlagAt(values, 8);
    FlagAt(values, 9);
    FlagAt(values, 10);
    FlagAt(values, 11);
  }

  /** The chart values of a call that omits every defaulted argument. */
  lemma DefaultValues(settings: Settings, req: InstallRequest)
    requires !req.s3UseSsl && req.replicas == 1 && req.imageTag == "latest" && req.ingressEnabled
    requires req.imageRepository.None? && req.ingressHost.None? && req.ingressPath.None?
    ensures var values := InstallValues(settings, req);
      && values[5] == "model.s3UseSSL=false"
      && values[6] == "deployment.replicas=1"
      && values[7] == "deployment.image.repository=" + BeforeFirst(settings.minioEndpoint, ':') + ":5001/kubeserve-base"
      && values[8] == "deployment.image.tag=latest"
      && values[9] == "ingress.enabled=true"
      && values[10] == "ingress.hosts[0].host=" + settings.ingressHost
      && values[11] == "ingress.hosts[0].paths[0].path=" + settings.ingressBasePath + "/" + req.releaseName
  {
    assert IntToString(1) == "1";
    InstallDefaults(settings, req);
  }

  /** With ingress on by default, a successful install of a call that omits
      the defaulted arguments answers with the URL
      `http://{INGRESS_HOST}:30080{INGRESS_BASE_PATH}/{release}`. */
  lemma DefaultCallUrl(chartExists: bool, chartPath: string, settings: Settings, run: Command -> ProcessResult,
                       releaseName: string, namespace: string, s3Path: string, s3Endpoint: string,
                       s3AccessKey: string, s3SecretKey: string, s3Bucket: string)
    ensures var req := DefaultInstallRequest(releaseName, namespace, s3Path, s3Endpoint, s3AccessKey, s3SecretKey, s3Bucket);
      var c := DeployModel(chartExists, chartPath, settings, req, run);
      c.result.Success? ==>
        c.result.value.url == Some("http://" + settings.ingressHost + ":30080" + settings.ingressBasePath + "/" + releaseName)
  {
    var req := DefaultInstallRequest(releaseName, namespace, s3Path, s3Endpoint, s3AccessKey, s3SecretKey, s3Bucket);
    InstallDefaults(settings, req);
    assert "http://" + settings.ingressHost + ":30080" + (settings.ingressBasePath + "/" + releaseName)
        == "http://" + settings.ingressHost + ":30080" + settings.ingressBasePath + "/" + releaseName;
  }

  /** deploy_model runs nothing without a chart; a failed install gives no
      result; a successful one echoes release and namespace and has a URL
      exactly when ingress is enabled. */
  lemma DeployOutcome(chartExists: bool, chartPath: string, settings: Settings, req: InstallRequest, run: Command -> ProcessResult)
    ensures var c := DeployModel(chartExists, chartPath, settings, req, run);
      && (!chartExists ==> c.ran == [] && c.result == Failure(ChartNotFound(chartPath)))
      && (chartExists ==> c.ran == [InstallCommand(chartPath, settings, req)])
      && (chartExists && run(InstallCommand(chartPath, settings, req)).Completed?
            && run(InstallCommand(chartPath, settings, req)).returncode != 0 ==>
              c.result == Failure(SubprocessFailed("Helm install failed: " + run(InstallCommand(chartPath, settings, req)).stderr)))
      && (c.result.Success? ==>
            && chartExists
            && run(InstallCommand(chartPath, settings, req)) == Completed(0, c.result.value.stdout, run(InstallCommand(chartPath, settings, req)).stderr)
            && c.result.value.releaseName == req.releaseName
            && c.result.value.namespace == req.namespace
            && (c.result.value.url.Some? <==> req.ingressEnabled)
            && (req.ingressEnabled ==>
                  c.result.value.url.value == "http://" + IngressHost(settings, req) + ":30080" + IngressPath(settings, req)))
  {
  }

  /** undeploy_model runs exactly `helm uninstall <release> --namespace <ns>`;
      a non-zero exit is tolerated exactly when the lower-cased error says "not found". */
  lemma UndeployOutcome(releaseName: string, namespace: string, run: Command -> ProcessResult)
    ensures var c := UndeployModel(releaseName, namespace, run);
      var out := run(["helm", "uninstall", releaseName, "--namespace", namespace]);
      && c.ran == [["helm", "uninstall", releaseName, "--namespace", namespace]]
      && (out.TimedOut? ==> c.result.Failure? && c.result.error.CommandTimedOut?)
      && (out.Completed? ==>
            (c.result.Success? <==> out.returncode == 0 || Contains(Lower(out.stderr), "not found")))
      && (out.Completed? && c.result.Failure? ==>
            c.result.error == SubprocessFailed("Helm uninstall failed: " + out.stderr))
  {
  }

  /** get_deployment_status reads every non-zero exit as "not_found" carrying
      the error text, and exit 0 as "deployed" carrying the output. */
  lemma StatusOutcome(releaseName: string, namespace: string, run: Command -> ProcessResult)
    ensures var c := GetDeploymentStatus(releaseName, namespace, run);
      var out := run(["helm", "status", releaseName, "--namespace", namespace, "--output", "json"]);
      && c.ran == [["helm", "status", releaseName, "--namespace", namespace, "--output", "json"]]
      && (out.Completed? ==> c.result.Success? && "status" in c.result.value)
      && (out.Completed? && out.returncode != 0 ==>
            c.result.value == map["status" := "not_found", "error" := out.stderr])
      && (out.Completed? && out.returncode == 0 ==>
            c.result.value == map["status" := "deployed", "output" := out.stdout])
      && (out.TimedOut? ==> c.result.Failure?)
  {
  }
}
