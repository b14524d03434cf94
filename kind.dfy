/** The kind module: creating, deleting and inspecting local Kubernetes clusters with the
    kind CLI. Each command first lists the existing clusters (`kind get clusters`, one name
    per line) and checks the requested name against the list. Command output is an engine
    result, passed in as `stdout`. */
module Kind {
  import opened Wrappers
  import opened Text
  import opened Dagger

  /** `New`: golang with the docker client, kind at `version`, and the host's docker
      socket. */
  function KindContainer(version: string, dockerSocket: string): Container {
    From("golang")
      .WithFile("/bin/docker", From("docker:dind").FileAt("/usr/local/bin/docker"))
      .WithExec(["go", "install", "sigs.k8s.io/kind@" + version])
      .Then(UnixSocket("/var/run/docker.sock", dockerSocket))
  }

  /** `Version`. */
  function Version(kind: Container, stdout: Container -> Result<string>): Result<string> {
    stdout(kind.WithExec(["kind", "version"]))
  }

  /** `GetClusters`: the output of `kind get clusters`. */
  function GetClusters(kind: Container, stdout: Container -> Result<string>): Result<string> {
    stdout(kind.WithExec(["kind", "get", "clusters"]))
  }

  /** The cluster names of a `kind get clusters` output: its lines. */
  function Lines(clusters: string): seq<string> {
    Split(clusters, '\n')
  }

  /** The name check every command runs: whether `name` is one of the listed lines. */
  method FindCluster(clusters: string, name: string) returns (found: bool)
    ensures found <==> name in Lines(clusters)
  {
    var lines := Split(clusters, '\n');
    for i := 0 to |lines|
      invariant name !in lines[..i]
    {
      if lines[i] == name {
        return true;
      }
    }
    return false;
  }

  function AlreadyExists(name: string): string {
    "Cluster with name '" + name + "' already exists"
  }

  function DoesNotExist(name: string): string {
    "Cluster with name '" + name + "' does not exists"
  }

  // ---------------------------------------------------------------------------
  // CreateCluster

  /** `kind create cluster --name <name>`, then `--config cluster.yaml` when a config file
      is given, then `--image <image>` when an image is named. */
  function CreateArgv(name: string, withConfig: bool, image: string): (argv: seq<string>)
    ensures |argv| >= 5 && argv[..5] == ["kind", "create", "cluster", "--name", name]
  {
    ["kind", "create", "cluster", "--name", name]
    + (if withConfig then ["--config", "cluster.yaml"] else [])
    + (if image != "" then ["--image", image] else [])
  }

  /** Reads a `kind create cluster` command line back: the name, whether a config file is
      passed, and the image (empty when none is). */
  function ParseCreateArgv(argv: seq<string>): Option<(string, bool, string)> {
    if |argv| < 5 || argv[..4] != ["kind", "create", "cluster", "--name"] then None
    else
      var name := argv[4];
      var flags := argv[5..];
      if flags == [] then Some((name, false, ""))
      else if flags == ["--config", "cluster.yaml"] then Some((name, true, ""))
      else if |flags| == 2 && flags[0] == "--image" && flags[1] != "" then Some((name, false, flags[1]))
      else if |flags| == 4 && flags[..2] == ["--config", "cluster.yaml"] && flags[2] == "--image" && flags[3] != ""
      then Some((name, true, flags[3]))
      else None
  }

  /** The command line says exactly which name, config and image were asked for: the
      config flag, when present, comes before the image flag. */
  lemma CreateArgvRoundTrip(name: string, withConfig: bool, image: string)
    ensures ParseCreateArgv(CreateArgv(name, withConfig, image)) == Some((name, withConfig, image))
  {
    var argv := CreateArgv(name, withConfig, image);
    var flags := (if withConfig then ["--config", "cluster.yaml"] else []) + (if image != "" then ["--image", image] else []);
    assert argv == ["kind", "create", "cluster", "--name", name] + flags;
    assert argv[..4] == ["kind", "create", "cluster", "--name"];
    assert argv[4] == name;
    assert argv[5..] == flags;
  }

  /** The container `kind create cluster` runs in: the config file, when given, is mounted
      as `cluster.yaml` first. */
  function CreateContainer(kind: Container, name: string, config: Option<File>, image: string): Container {
    var ctr := if config.Some? then kind.WithFile("cluster.yaml", config.value) else kind;
    ctr.WithExec(CreateArgv(name, config.Some?, image))
  }

  /** `CreateCluster`: the listing error, or an error when the name is listed, or the
      output of creating the cluster. */
  function CreateClusterPlan(kind: Container, name: string, config: Option<File>, image: string,
                             stdout: Container -> Result<string>): Result<string>
  {
    match GetClusters(kind, stdout)
    case Err(e) => Err(e)
    case Ok(clusters) =>
      if name in Lines(clusters) then Err(AlreadyExists(name))
      else stdout(CreateContainer(kind, name, config, image))
  }

  method CreateCluster(kind: Container, name: string, config: Option<File>, image: string,
                       stdout: Container -> Result<string>)
    returns (r: Result<string>)
    ensures r == CreateClusterPlan(kind, name, config, image, stdout)
  {
    var clusters := GetClusters(kind, stdout);
    if clusters.Err? {
      return Err(clusters.error);
    }
    var found := FindCluster(clusters.value, name);
    if found {
      return Err(AlreadyExists(name));
    }
    var flags: seq<string> := [];
    var ctr := kind;
    if config.Some? {
      ctr := ctr.WithFile("cluster.yaml", config.value);
      flags := flags + ["--config", "cluster.yaml"];
    }
    if image != "" {
      flags := flags + ["--image", image];
    }
    assert ["kind", "create", "cluster", "--name", name] + flags == CreateArgv(name, config.Some?, image);
    r := stdout(ctr.WithExec(["kind", "create", "cluster", "--name", name] + flags));
  }

  /** `CreateCluster` refuses a listed name, and otherwise runs the create command in a
      container holding the config file exactly when one is given. */
  lemma CreateClusterGuard(kind: Container, name: string, config: Option<File>, image: string,
                           stdout: Container -> Result<string>)
    requires GetClusters(kind, stdout).Ok?
    ensures name in Lines(GetClusters(kind, stdout).value)
            ==> CreateClusterPlan(kind, name, config, image, stdout) == Err(AlreadyExists(name))
    ensures name !in Lines(GetClusters(kind, stdout).value)
            ==> CreateClusterPlan(kind, name, config, image, stdout) == stdout(CreateContainer(kind, name, config, image))
  {
  }

  lemma CreateContainerFiles(kind: Container, name: string, config: Option<File>, image: string)
    ensures var c := CreateContainer(kind, name, config, image);
            && Commands(c.steps) == Commands(kind.steps) + [CreateArgv(name, config.Some?, image)]
            && CopiedFiles(c.steps) == CopiedFiles(kind.steps) + (if config.Some? then ["cluster.yaml"] else [])
  {
    var ctr := if config.Some? then kind.WithFile("cluster.yaml", config.value) else kind;
    if config.Some? {
      CollectThen(kind, CopyFile("cluster.yaml", config.value), ExecArgv);
      CollectThen(kind, CopyFile("cluster.yaml", config.value), CopiedFilePath);
    } else {
      assert Commands(kind.steps) + [] == Commands(kind.steps);
      assert CopiedFiles(kind.steps) + [] == CopiedFiles(kind.steps);
    }
    CollectThen(ctr, Exec(CreateArgv(name, config.Some?, image), Plain), ExecArgv);
    CollectThen(ctr, Exec(CreateArgv(name, config.Some?, image), Plain), CopiedFilePath);
  }

  // ---------------------------------------------------------------------------
  // DeleteCluster, Kubeconfig, Logs, as written: the guard refuses a LISTED name

  /** The guard of `DeleteCluster`, `Kubeconfig` and `Logs` as written: the listing error,
      or an error when the name IS listed. */
  function ExistingGuard(kind: Container, name: string, stdout: Container -> Result<string>): Option<string> {
    match GetClusters(kind, stdout)
    case Err(e) => Some(e)
    case Ok(clusters) => if name in Lines(clusters) then Some(DoesNotExist(name)) else None
  }

  function DeleteArgv(name: string): seq<string> {
    ["kind", "delete", "cluster", "--name", name]
  }

  function KubeconfigArgv(name: string): seq<string> {
    ["kind", "export", "kubeconfig", "--kubeconfig", "config", "--name", name]
  }

  function LogsArgv(name: string): seq<string> {
    ["kind", "export", "logs", "logs", "--name", name]
  }

  function DeleteClusterPlan(kind: Container, name: string, stdout: Container -> Result<string>): Result<string> {
    match ExistingGuard(kind, name, stdout)
    case Some(e) => Err(e)
    case None => stdout(kind.WithExec(DeleteArgv(name)))
  }

  function KubeconfigPlan(kind: Container, name: string, stdout: Container -> Result<string>): Result<File> {
    match ExistingGuard(kind, name, stdout)
    case Some(e) => Err(e)
    case None => Ok(kind.WithExec(KubeconfigArgv(name)).FileAt("config"))
  }

  function LogsPlan(kind: Container, name: string, stdout: Container -> Result<string>): Result<Directory> {
    match ExistingGuard(kind, name, stdout)
    case Some(e) => Err(e)
    case None => Ok(kind.WithExec(LogsArgv(name)).DirAt("logs"))
  }

  /** The shared check of the three methods below, as the source writes it. */
  method CheckListed(kind: Container, name: string, stdout: Container -> Result<string>) returns (err: Option<string>)
    ensures err == ExistingGuard(kind, name, stdout)
  {
    var clusters := GetClusters(kind, stdout);
    if clusters.Err? {
      return Some(clusters.error);
    }
    var found := FindCluster(clusters.value, name);
    if found {
      return Some(DoesNotExist(name));
    }
    return None;
  }

  method DeleteCluster(kind: Container, name: string, stdout: Container -> Result<string>) returns (r: Result<string>)
    ensures r == DeleteClusterPlan(kind, name, stdout)
  {
    var err := CheckListed(kind, name, stdout);
    if err.Some? {
      return Err(err.value);
    }
    r := stdout(kind.WithExec(DeleteArgv(name)));
  }

  method Kubeconfig(kind: Container, name: string, stdout: Container -> Result<string>) returns (r: Result<File>)
    ensures r == KubeconfigPlan(kind, name, stdout)
  {
    var err := CheckListed(kind, name, stdout);
    if err.Some? {
      return Err(err.value);
    }
    r := Ok(kind.WithExec(KubeconfigArgv(name)).FileAt("config"));
  }

  method Logs(kind: Container, name: string, stdout: Container -> Result<string>) returns (r: Result<Directory>)
    ensures r == LogsPlan(kind, name, stdout)
  {
    var err := CheckListed(kind, name, stdout);
    if err.Some? {
      return Err(err.value);
    }
    r := Ok(kind.WithExec(LogsArgv(name)).DirAt("logs"));
  }

  /** As written, the three commands refuse a listed name with "does not exists" and go
      ahead for a name that is not listed. */
  lemma ExistingGuardAsWritten(kind: Container, name: string, stdout: Container -> Result<string>)
    requires GetClusters(kind, stdout).Ok?
    ensures ExistingGuard(kind, name, stdout).Some? <==> name in Lines(GetClusters(kind, stdout).value)
  {
  }

  /** `Kubeconfig` and `Logs`, when they go ahead, export for the given name to the file
      `config` and the directory `logs`. */
  lemma ExportTargets(kind: Container, name: string, stdout: Container -> Result<string>)
    ensures KubeconfigPlan(kind, name, stdout).Ok?
            ==> var f := KubeconfigPlan(kind, name, stdout).value;
                f.FileIn? && f.path == "config" && Commands(f.ctr.steps) == Commands(kind.steps) + [KubeconfigArgv(name)]
    ensures LogsPlan(kind, name, stdout).Ok?
            ==> var d := LogsPlan(kind, name, stdout).value;
                d.DirIn? && d.path == "logs" && Commands(d.ctr.steps) == Commands(kind.steps) + [LogsArgv(name)]
  {
    CollectThen(kind, Exec(KubeconfigArgv(name), Plain), ExecArgv);
    CollectThen(kind, Exec(LogsArgv(name), Plain), ExecArgv);
  }

  /** A listing holding exactly the cluster `kind`: deleting it is refused with "does not
      exists", while a name that is not listed goes ahead to `kind delete cluster`. */
  lemma DeleteRefusesExistingCluster(kind: Container, stdout: Container -> Result<string>)
    requires GetClusters(kind, stdout) == Ok("kind")
    ensures DeleteClusterPlan(kind, "kind", stdout) == Err(DoesNotExist("kind"))
    ensures DeleteClusterPlan(kind, "other", stdout) == stdout(kind.WithExec(DeleteArgv("other")))
  {
    SplitWithoutSeparator("kind", '\n');
  }

  /** The same listing: `Kubeconfig` and `Logs` refuse the existing cluster too. */
  lemma ExportsRefuseExistingCluster(kind: Container, stdout: Container -> Result<string>)
    requires GetClusters(kind, stdout) == Ok("kind")
    ensures KubeconfigPlan(kind, "kind", stdout) == Err(DoesNotExist("kind"))
    ensures LogsPlan(kind, "kind", stdout) == Err(DoesNotExist("kind"))
    ensures KubeconfigPlan(kind, "other", stdout).Ok? && LogsPlan(kind, "other", stdout).Ok?
  {
    SplitWithoutSeparator("kind", '\n');
  }

  // ---------------------------------------------------------------------------
  // The guard as its error message intends it: refuse a name that is NOT listed

  function ListedGuard(kind: Container, name: string, stdout: Container -> Result<string>): (err: Option<string>)
    ensures GetClusters(kind, stdout).Ok?
            ==> (err.Some? <==> name !in Lines(GetClusters(kind, stdout).value))
    ensures GetClusters(kind, stdout).Err? ==> err == Some(GetClusters(kind, stdout).error)
  {
    match GetClusters(kind, stdout)
    case Err(e) => Some(e)
    case Ok(clusters) => if name !in Lines(clusters) then Some(DoesNotExist(name)) else None
  }

  /** `DeleteCluster` with the intended guard: it deletes only a listed cluster. */
  function DeleteListedCluster(kind: Container, name: string, stdout: Container -> Result<string>): (r: Result<string>)
    ensures GetClusters(kind, stdout).Ok? && name !in Lines(GetClusters(kind, stdout).value)
            ==> r == Err(DoesNotExist(name))
    ensures GetClusters(kind, stdout).Ok? && name in Lines(GetClusters(kind, stdout).value)
            ==> r == stdout(kind.WithExec(DeleteArgv(name)))
  {
    match ListedGuard(kind, name, stdout)
    case Some(e) => Err(e)
    case None => stdout(kind.WithExec(DeleteArgv(name)))
  }

  function KubeconfigOfListed(kind: Container, name: string, stdout: Container -> Result<string>): (r: Result<File>)
    ensures GetClusters(kind, stdout).Ok?
            ==> (r.Ok? <==> name in Lines(GetClusters(kind, stdout).value))
    ensures r.Ok? ==> r.value == kind.WithExec(KubeconfigArgv(name)).FileAt("config")
  {
    match ListedGuard(kind, name, stdout)
    case Some(e) => Err(e)
    case None => Ok(kind.WithExec(KubeconfigArgv(name)).FileAt("config"))
  }

  function LogsOfListed(kind: Container, name: string, stdout: Container -> Result<string>): (r: Result<Directory>)
    ensures GetClusters(kind, stdout).Ok?
            ==> (r.Ok? <==> name in Lines(GetClusters(kind, stdout).value))
    ensures r.Ok? ==> r.value == kind.WithExec(LogsArgv(name)).DirAt("logs")
  {
    match ListedGuard(kind, name, stdout)
    case Some(e) => Err(e)
    case None => Ok(kind.WithExec(LogsArgv(name)).DirAt("logs"))
  }

  /** On a successful listing, the written and the intended guard disagree on every name:
      each lets through exactly the names the other refuses. */
  lemma GuardsDisagree(kind: Container, name: string, stdout: Container -> Result<string>)
    requires GetClusters(kind, stdout).Ok?
    ensures ExistingGuard(kind, name, stdout).None? <==> ListedGuard(kind, name, stdout).Some?
  {
  }
}
