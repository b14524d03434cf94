/** The kcp module: the admin kubeconfig for a kcp server, a client container with the
    kcp kubectl plugins, and the walk that sets up a tree of kcp workspaces from a
    directory of manifests. */
module Kcp {
  import opened Wrappers
  import opened Text
  import opened Dagger
  import opened Seqs

  // ---------------------------------------------------------------------------
  // The admin kubeconfig (Config)

  datatype Cluster = Cluster(name: string, server: string, insecureSkipTlsVerify: bool)
  datatype User = User(name: string, clientCertificateData: string, clientKeyData: string)
  datatype Context = Context(name: string, cluster: string, user: string)

  /** A kubeconfig document. */
  datatype Kubeconfig = Kubeconfig(
    apiVersion: string, kind: string,
    clusters: seq<Cluster>, users: seq<User>, contexts: seq<Context>,
    currentContext: string)

  /** The document `Config` marshals: one cluster `root` served under the endpoint, one
      user `admin` with the client certificate and key, one context `current` joining
      them, selected as the current context. */
  function AdminKubeconfig(endpoint: string, certificate: string, key: string): Kubeconfig {
    Kubeconfig("v1", "Config",
               [Cluster("root", endpoint + "/clusters/root", false)],
               [User("admin", certificate, key)],
               [Context("current", "root", "admin")],
               "current")
  }

  /** The `jq` edit `.clusters[0].cluster["insecure-skip-tls-verify"] = true`; on a
      document without clusters it creates the first one, with empty name and server. */
  function SkipTlsVerify(doc: Kubeconfig): (r: Kubeconfig)
    ensures |r.clusters| >= 1 && r.clusters[0].insecureSkipTlsVerify
    ensures doc.clusters == [] ==> r.clusters == [Cluster("", "", true)]
    ensures doc.clusters != [] ==> && r.clusters[0] == doc.clusters[0].(insecureSkipTlsVerify := true)
                                   && r.clusters[1..] == doc.clusters[1..]
    ensures r.apiVersion == doc.apiVersion && r.kind == doc.kind
    ensures r.users == doc.users && r.contexts == doc.contexts && r.currentContext == doc.currentContext
  {
    if doc.clusters == [] then doc.(clusters := [Cluster("", "", true)])
    else doc.(clusters := [doc.clusters[0].(insecureSkipTlsVerify := true)] + doc.clusters[1..])
  }

  /** What `Config` gets from the engine: the server's HTTPS endpoint (or why the server
      could not be started or asked for it), the client certificate's and key's contents,
      and whether the container that waits for the server and edits the document failed. */
  datatype ConfigInputs = ConfigInputs(
    endpoint: Result<string>, certificate: Result<string>, key: Result<string>, edit: Option<string>)

  /** `Config`: the admin kubeconfig, or the first error met. */
  function Config(inputs: ConfigInputs): Result<Kubeconfig> {
    match inputs.endpoint
    case Err(e) => Err(e)
    case Ok(ep) =>
      match inputs.certificate
      case Err(e) => Err(e)
      case Ok(crt) =>
        match inputs.key
        case Err(e) => Err(e)
        case Ok(key) =>
          match inputs.edit
          case Some(e) => Err(e)
          case None => Ok(SkipTlsVerify(AdminKubeconfig(ep, crt, key)))
  }

  function FindCluster(clusters: seq<Cluster>, name: string): Option<Cluster> {
    if clusters == [] then None
    else if clusters[0].name == name then Some(clusters[0])
    else FindCluster(clusters[1..], name)
  }

  function FindUser(users: seq<User>, name: string): Option<User> {
    if users == [] then None
    else if users[0].name == name then Some(users[0])
    else FindUser(users[1..], name)
  }

  function FindContext(contexts: seq<Context>, name: string): Option<Context> {
    if contexts == [] then None
    else if contexts[0].name == name then Some(contexts[0])
    else FindContext(contexts[1..], name)
  }

  /** How a client reads a kubeconfig: the current context, by name, and the cluster and
      user it names. */
  function CurrentCredentials(doc: Kubeconfig): Option<(Cluster, User)> {
    match FindContext(doc.contexts, doc.currentContext)
    case None => None
    case Some(ctx) =>
      match (FindCluster(doc.clusters, ctx.cluster), FindUser(doc.users, ctx.user))
      case (Some(c), Some(u)) => Some((c, u))
      case _ => None
  }

  /** A client of the kubeconfig `Config` returns reaches the `root` workspace under the
      server's endpoint, skipping TLS verification, as `admin` with the generated client
      certificate and key. */
  lemma ConfigCredentials(inputs: ConfigInputs)
    requires Config(inputs).Ok?
    ensures inputs.endpoint.Ok? && inputs.certificate.Ok? && inputs.key.Ok? && inputs.edit.None?
    ensures Config(inputs).value
            == Kubeconfig("v1", "Config",
                          [Cluster("root", inputs.endpoint.value + "/clusters/root", true)],
                          [User("admin", inputs.certificate.value, inputs.key.value)],
                          [Context("current", "root", "admin")],
                          "current")
    ensures CurrentCredentials(Config(inputs).value)
            == Some((Cluster("root", inputs.endpoint.value + "/clusters/root", true),
                     User("admin", inputs.certificate.value, inputs.key.value)))
  {
  }

  /** `Config` fails exactly when one of its inputs does, with the first error in the
      order the server, the certificate, the key and the edit are asked for. */
  lemma ConfigErrors(inputs: ConfigInputs)
    ensures Config(inputs).Err? <==>
              inputs.endpoint.Err? || inputs.certificate.Err? || inputs.key.Err? || inputs.edit.Some?
    ensures inputs.endpoint.Err? ==> Config(inputs) == Err(inputs.endpoint.error)
    ensures inputs.endpoint.Ok? && inputs.certificate.Err? ==> Config(inputs) == Err(inputs.certificate.error)
    ensures inputs.endpoint.Ok? && inputs.certificate.Ok? && inputs.key.Err? ==> Config(inputs) == Err(inputs.key.error)
    ensures inputs.endpoint.Ok? && inputs.certificate.Ok? && inputs.key.Ok? && inputs.edit.Some?
            ==> Config(inputs) == Err(inputs.edit.value)
  {
  }

  // ---------------------------------------------------------------------------
  // The client container (Client)

  /** The kcp kubectl plugins, in the order they are installed. */
  const Plugins: seq<string> := ["create-workspace", "kcp", "ws"]

  /** The release archive of a plugin for a version, platform and architecture. */
  function PluginArchive(plugin: string, version: string, platform: string, arch: string): string {
    "kubectl-" + plugin + "-plugin_" + version + "_" + platform + "_" + arch + ".tar.gz"
  }

  function PluginUrl(plugin: string, version: string, platform: string, arch: string): string {
    "https://github.com/kcp-dev/kcp/releases/download/v" + version + "/" + PluginArchive(plugin, version, platform, arch)
  }

  /** The commands that download a plugin archive and unpack it into `/usr/local/bin`. */
  function InstallCommands(plugin: string, version: string, platform: string, arch: string): seq<seq<string>> {
    [["wget", PluginUrl(plugin, version, platform, arch)],
     ["tar", "-xf", PluginArchive(plugin, version, platform, arch), "-C", "/usr/local/bin", "--strip-components=1"]]
  }

  function InstallPlugin(c: Container, plugin: string, version: string, platform: string, arch: string): Container {
    var cmds := InstallCommands(plugin, version, platform, arch);
    c.WithExec(cmds[0]).WithExec(cmds[1])
  }

  /** The client container: kubectl with the three plugins and the admin kubeconfig. */
  function ClientContainer(version: string, platform: string, arch: string, config: File): Container {
    var c := From("alpine/kubectl:latest");
    var c := InstallPlugin(c, "create-workspace", version, platform, arch);
    var c := InstallPlugin(c, "kcp", version, platform, arch);
    var c := InstallPlugin(c, "ws", version, platform, arch);
    c.WithFile("/.kube/config", config).WithEnvVariable("KUBECONFIG", "/.kube/config")
  }

  /** `Client`, given what `Config` returned as a file. */
  function Client(config: Result<File>, version: string, platform: string, arch: string): (r: Result<Container>)
    ensures config.Err? ==> r == Err(config.error)
    ensures config.Ok? ==>
              && r.Ok?
              && r.value.base == From("alpine/kubectl:latest").base
              && Commands(r.value.steps) == FlatMap(Plugins, (p: string) => InstallCommands(p, version, platform, arch))
              && |r.value.steps| >= 2
              && r.value.steps[|r.value.steps| - 2] == CopyFile("/.kube/config", config.value)
              && EnvValue(r.value.steps, "KUBECONFIG") == Some("/.kube/config")
  {
    match config
    case Err(e) => Err(e)
    case Ok(f) =>
      ClientCommands(version, platform, arch, f);
      ClientKubeconfig(version, platform, arch, f);
      Ok(ClientContainer(version, platform, arch, f))
  }

  /** A plugin's download URL ends in the archive's own name, which is what `wget` saves it
      as and what `tar` then unpacks. */
  lemma PluginUrlNamesArchive(plugin: string, version: string, platform: string, arch: string)
    ensures HasSuffix(PluginUrl(plugin, version, platform, arch), "/" + PluginArchive(plugin, version, platform, arch))
  {
    var archive := PluginArchive(plugin, version, platform, arch);
    var url := PluginUrl(plugin, version, platform, arch);
    var base := "https://github.com/kcp-dev/kcp/releases/download/v" + version;
    assert url == base + ("/" + archive);
    assert url[|url| - |"/" + archive|..] == "/" + archive;
  }

  /** The client downloads and unpacks the plugins in the fixed order, each archive for the
      requested version, platform and architecture, and runs nothing else. */
  lemma ClientCommands(version: string, platform: string, arch: string, config: File)
    ensures Commands(ClientContainer(version, platform, arch, config).steps)
            == FlatMap(Plugins, (p: string) => InstallCommands(p, version, platform, arch))
  {
    var f := (p: string) => InstallCommands(p, version, platform, arch);
    ClientSteps(version, platform, arch, config);
    CommandsThenConfig(f("create-workspace") + f("kcp") + f("ws"), config);
    ThreeItems("create-workspace", "kcp", "ws", f);
  }

  /** The client's steps: the install commands, then the kubeconfig set-up. */
  lemma ClientSteps(version: string, platform: string, arch: string, config: File)
    ensures var i1 := InstallCommands("create-workspace", version, platform, arch);
            var i2 := InstallCommands("kcp", version, platform, arch);
            var i3 := InstallCommands("ws", version, platform, arch);
            ClientContainer(version, platform, arch, config).steps
            == Execs(i1 + i2 + i3) + [CopyFile("/.kube/config", config), Env("KUBECONFIG", "/.kube/config")]
  {
    var i1 := InstallCommands("create-workspace", version, platform, arch);
    var i2 := InstallCommands("kcp", version, platform, arch);
    var i3 := InstallCommands("ws", version, platform, arch);
    var c0 := From("alpine/kubectl:latest");
    var c1 := InstallPlugin(c0, "create-workspace", version, platform, arch);
    var c2 := InstallPlugin(c1, "kcp", version, platform, arch);
    TwoExecs(c0, i1[0], i1[1]);
    TwoExecs(c1, i2[0], i2[1]);
    TwoExecs(c2, i3[0], i3[1]);
    ExecsAppend(i1, i2);
    ExecsAppend(i1 + i2, i3);
  }

  lemma CommandsThenConfig(cmds: seq<seq<string>>, config: File)
    ensures Commands(Execs(cmds) + [CopyFile("/.kube/config", config), Env("KUBECONFIG", "/.kube/config")]) == cmds
  {
    var tail := [CopyFile("/.kube/config", config), Env("KUBECONFIG", "/.kube/config")];
    CommandsOfExecs(cmds);
    CollectAppend(Execs(cmds), tail, ExecArgv);
    NoCommands(tail);
  }

  /** Steps that run nothing contribute no commands. */
  lemma {:induction false} NoCommands(steps: seq<Step>)
    requires forall i | 0 <= i < |steps| :: !steps[i].Exec?
    ensures Commands(steps) == []
    decreases |steps|
  {
    if steps != [] {
      NoCommands(steps[1..]);
    }
  }

  lemma TwoExecs(c: Container, x: seq<string>, y: seq<string>)
    ensures c.WithExec(x).WithExec(y).steps == c.steps + Execs([x, y])
  {
  }

  lemma ExecsAppend(a: seq<seq<string>>, b: seq<seq<string>>)
    ensures Execs(a + b) == Execs(a) + Execs(b)
  {
  }

  lemma ThreeItems<A, B>(a: A, b: A, c: A, f: A -> seq<B>)
    ensures FlatMap([a, b, c], f) == f(a) + f(b) + f(c)
  {
    assert [a, b, c][..2] == [a, b];
    assert [a, b][..1] == [a];
    assert [a][..0] == [];
    assert FlatMap([a], f) == FlatMap([], f) + f(a);
    assert FlatMap([a, b], f) == FlatMap([a], f) + f(b);
    assert FlatMap([a, b, c], f) == FlatMap([a, b], f) + f(c);
  }

  /** Running the commands in turn. */
  function Execs(cmds: seq<seq<string>>): seq<Step> {
    seq(|cmds|, i requires 0 <= i < |cmds| => Exec(cmds[i], Plain))
  }

  lemma {:induction false} CommandsOfExecs(cmds: seq<seq<string>>)
    ensures Commands(Execs(cmds)) == cmds
    decreases |cmds|
  {
    if cmds != [] {
      assert Execs(cmds)[1..] == Execs(cmds[1..]);
      CommandsOfExecs(cmds[1..]);
    }
  }

  /** The client's kubectl reads the admin kubeconfig: the file is copied to
      `/.kube/config` and `KUBECONFIG` points there. */
  lemma ClientKubeconfig(version: string, platform: string, arch: string, config: File)
    ensures var steps := ClientContainer(version, platform, arch, config).steps;
            && steps[|steps| - 2] == CopyFile("/.kube/config", config)
            && EnvValue(steps, "KUBECONFIG") == Some("/.kube/config")
  {
  }

  // ---------------------------------------------------------------------------
  // The workspace walk (setupWorkspace, WithWorkspaces)

  /** A directory as the walk sees it: what listing its entries returns (the names of
      sub-directories end in `/`), and its sub-directories by name. */
  datatype Tree = Tree(listing: Result<seq<string>>, children: map<string, Tree>)

  /** The error for an entry `d/` whose directory `d` does not exist. */
  const MissingDirectory: string := "no such directory"

  predicate IsManifest(entry: string) {
    HasSuffix(entry, ".yaml") || HasSuffix(entry, ".yml")
  }

  predicate IsSubdirectory(entry: string) {
    !IsManifest(entry) && HasSuffix(entry, "/")
  }

  /** Switch to the workspace at `path` and work in a copy of the directory. */
  function EnterWorkspace(ctr: Container, path: string, dir: Directory): Container {
    ctr.WithExec(["kubectl", "ws", ":" + path]).WithDirectory("/build", dir).WithWorkdir("/build")
  }

  /** `setupWorkspace(ctr, path, dir)`, where `tree` is what the engine lists of `dir` and
      `exitCode` what it reports for a finished plan. */
  function Walk(ctr: Container, path: string, dir: Directory, tree: Tree, exitCode: Container -> Result<int>)
    : Result<Container>
    decreases tree, 2
  {
    match tree.listing
    case Err(e) => Err(e)
    case Ok(entries) => WalkEntries(EnterWorkspace(ctr, path, dir), path, dir, tree, entries, exitCode)
  }

  /** The walk's loop over the remaining entries. */
  function WalkEntries(ctr: Container, path: string, dir: Directory, tree: Tree, entries: seq<string>,
                       exitCode: Container -> Result<int>): Result<Container>
    decreases tree, 1, |entries|
  {
    if entries == [] then Ok(ctr)
    else
      match WalkEntry(ctr, path, dir, tree, entries[0], exitCode)
      case Err(e) => Err(e)
      case Ok(next) => WalkEntries(next, path, dir, tree, entries[1..], exitCode)
  }

  /** One entry: apply a manifest; for a sub-directory create its workspace, walk it from
      there, and record its exit code; ignore anything else. */
  function WalkEntry(ctr: Container, path: string, dir: Directory, tree: Tree, entry: string,
                     exitCode: Container -> Result<int>): Result<Container>
    decreases tree, 0
  {
    if IsManifest(entry) then Ok(ctr.WithExec(["kubectl", "apply", "-f", entry]))
    else if HasSuffix(entry, "/") then
      var name := TrimSuffix(entry, "/");
      var created := ctr.WithExec(["kubectl", "create", "workspace", name]);
      if name !in tree.children then Err(MissingDirectory)
      else
        match Walk(created, path + ":" + name, SubDir(dir, name), tree.children[name], exitCode)
        case Err(e) => Err(e)
        case Ok(child) =>
          match exitCode(child)
          case Err(e) => Err(e)
          case Ok(code) => Ok(created.WithExec(["echo", ConfiguredMessage(name, code)]))
    else Ok(ctr)
  }

  function ConfiguredMessage(name: string, code: int): string {
    "configured " + name + " with exit code " + IntToString(code)
  }

  /** The steps an entry adds to the plan, given its sub-directory's exit code. */
  function EntryPlan(entry: string, code: int): seq<Step> {
    if IsManifest(entry) then [Exec(["kubectl", "apply", "-f", entry], Plain)]
    else if HasSuffix(entry, "/") then
      var name := TrimSuffix(entry, "/");
      [Exec(["kubectl", "create", "workspace", name], Plain), Exec(["echo", ConfiguredMessage(name, code)], Plain)]
    else []
  }

  /** The steps the entries add, given one exit code per entry. */
  function EntriesPlan(entries: seq<string>, codes: seq<int>): seq<Step>
    requires |codes| == |entries|
  {
    if entries == [] then [] else EntryPlan(entries[0], codes[0]) + EntriesPlan(entries[1..], codes[1..])
  }

  /** The steps of the switch into a workspace. */
  function EnterSteps(path: string, dir: Directory): seq<Step> {
    [Exec(["kubectl", "ws", ":" + path], Plain), CopyDir("/build", dir), Workdir("/build")]
  }

  /** The setup walks a directory as a loop over its entries, recursing into
      sub-directories. */
  method SetupWorkspace(ctr: Container, path: string, dir: Directory, tree: Tree,
                        exitCode: Container -> Result<int>)
    returns (r: Result<Container>)
    decreases tree
    ensures r == Walk(ctr, path, dir, tree, exitCode)
  {
    var c := ctr.WithExec(["kubectl", "ws", ":" + path]).WithDirectory("/build", dir).WithWorkdir("/build");
    if tree.listing.Err? {
      return Err(tree.listing.error);
    }
    var entries := tree.listing.value;
    for i := 0 to |entries|
      invariant WalkEntries(c, path, dir, tree, entries[i..], exitCode) == Walk(ctr, path, dir, tree, exitCode)
    {
      assert entries[i..][1..] == entries[i + 1..];
      var entry := entries[i];
      if IsManifest(entry) {
        c := c.WithExec(["kubectl", "apply", "-f", entry]);
      } else if HasSuffix(entry, "/") {
        var name := TrimSuffix(entry, "/");
        c := c.WithExec(["kubectl", "create", "workspace", name]);
        if name !in tree.children {
          return Err(MissingDirectory);
        }
        var child := SetupWorkspace(c, path + ":" + name, SubDir(dir, name), tree.children[name], exitCode);
        if child.Err? {
          return Err(child.error);
        }
        var code := exitCode(child.value);
        if code.Err? {
          return Err(code.error);
        }
        c := c.WithExec(["echo", "configured " + name + " with exit code " + IntToString(code.value)]);
      }
    }
    return Ok(c);
  }

  /** `WithWorkspaces`: the client, a copy of the tree in `/build`, and the walk from the
      `root` workspace. */
  function WithWorkspaces(client: Result<Container>, root: Directory, tree: Tree,
                          exitCode: Container -> Result<int>): (r: Result<Container>)
    ensures client.Err? ==> r == Err(client.error)
    ensures client.Ok? && tree.listing.Err? ==> r == Err(tree.listing.error)
  {
    match client
    case Err(e) => Err(e)
    case Ok(c) => Walk(c.WithDirectory("/build", root).WithWorkdir("/build"), "root", root, tree, exitCode)
  }

  /** The exit codes a successful walk over entries records, one per entry (zero for
      entries that are not sub-directories). */
  function WalkCodes(ctr: Container, path: string, dir: Directory, tree: Tree, entries: seq<string>,
                     exitCode: Container -> Result<int>): (codes: seq<int>)
    requires WalkEntries(ctr, path, dir, tree, entries, exitCode).Ok?
    ensures |codes| == |entries|
    decreases |entries|
  {
    if entries == [] then []
    else
      var next := WalkEntry(ctr, path, dir, tree, entries[0], exitCode).value;
      [EntryCode(ctr, path, dir, tree, entries[0], exitCode)] + WalkCodes(next, path, dir, tree, entries[1..], exitCode)
  }

  /** A successful walk over entries appends exactly the entries' steps in entry order:
      one apply per manifest, a create and an echo of the recorded exit code per
      sub-directory, nothing for other entries, and none of a sub-directory's own steps. */
  lemma {:induction false} WalkEntriesPlan(ctr: Container, path: string, dir: Directory, tree: Tree,
                                           entries: seq<string>, exitCode: Container -> Result<int>)
    requires WalkEntries(ctr, path, dir, tree, entries, exitCode).Ok?
    ensures var c := WalkEntries(ctr, path, dir, tree, entries, exitCode).value;
            && c.base == ctr.base
            && c.steps == ctr.steps + EntriesPlan(entries, WalkCodes(ctr, path, dir, tree, entries, exitCode))
    decreases |entries|
  {
    if entries != [] {
      WalkEntriesStep(ctr, path, dir, tree, entries, exitCode);
      var next := WalkEntry(ctr, path, dir, tree, entries[0], exitCode).value;
      var code := EntryCode(ctr, path, dir, tree, entries[0], exitCode);
      var codes := WalkCodes(next, path, dir, tree, entries[1..], exitCode);
      WalkEntriesPlan(next, path, dir, tree, entries[1..], exitCode);
      assert WalkCodes(ctr, path, dir, tree, entries, exitCode) == [code] + codes;
      PlanStep(ctr.steps, entries, code, codes);
    }
  }

  /** A successful walk over entries is the first entry's step followed by the walk over
      the rest. */
  lemma WalkEntriesStep(ctr: Container, path: string, dir: Directory, tree: Tree,
                        entries: seq<string>, exitCode: Container -> Result<int>)
    requires entries != []
    requires WalkEntries(ctr, path, dir, tree, entries, exitCode).Ok?
    ensures WalkEntry(ctr, path, dir, tree, entries[0], exitCode).Ok?
    ensures WalkEntries(ctr, path, dir, tree, entries, exitCode)
            == WalkEntries(WalkEntry(ctr, path, dir, tree, entries[0], exitCode).value, path, dir, tree, entries[1..], exitCode)
  {
  }

  lemma PlanStep(steps: seq<Step>, entries: seq<string>, code: int, codes: seq<int>)
    requires entries != [] && |codes| == |entries| - 1
    ensures steps + EntryPlan(entries[0], code) + EntriesPlan(entries[1..], codes)
            == steps + EntriesPlan(entries, [code] + codes)
  {
    assert ([code] + codes)[1..] == codes;
  }

  /** The exit code a successful sub-directory entry records (zero for other entries). */
  function EntryCode(ctr: Container, path: string, dir: Directory, tree: Tree, entry: string,
                     exitCode: Container -> Result<int>): (code: int)
    requires WalkEntry(ctr, path, dir, tree, entry, exitCode).Ok?
    ensures WalkEntry(ctr, path, dir, tree, entry, exitCode).value
            == Container(ctr.base, ctr.steps + EntryPlan(entry, code))
  {
    if IsManifest(entry) || !HasSuffix(entry, "/") then 0
    else
      var name := TrimSuffix(entry, "/");
      var created := ctr.WithExec(["kubectl", "create", "workspace", name]);
      exitCode(Walk(created, path + ":" + name, SubDir(dir, name), tree.children[name], exitCode).value).value
  }

  /** A successful walk first switches to the workspace at `path` and copies the directory
      to `/build`, then adds exactly the entries' steps. */
  lemma WalkPlan(ctr: Container, path: string, dir: Directory, tree: Tree, exitCode: Container -> Result<int>)
    requires Walk(ctr, path, dir, tree, exitCode).Ok?
    ensures tree.listing.Ok?
    ensures var c := Walk(ctr, path, dir, tree, exitCode).value;
            var entries := tree.listing.value;
            var start := EnterWorkspace(ctr, path, dir);
            && c.base == ctr.base
            && c.steps == ctr.steps + EnterSteps(path, dir)
                          + EntriesPlan(entries, WalkCodes(start, path, dir, tree, entries, exitCode))
  {
    var entries := tree.listing.value;
    var start := EnterWorkspace(ctr, path, dir);
    WalkEntriesPlan(start, path, dir, tree, entries, exitCode);
    assert start.steps == ctr.steps + EnterSteps(path, dir);
  }

  /** An error listing a directory aborts its walk with that error. */
  lemma WalkListingError(ctr: Container, path: string, dir: Directory, tree: Tree, exitCode: Container -> Result<int>)
    requires tree.listing.Err?
    ensures Walk(ctr, path, dir, tree, exitCode) == Err(tree.listing.error)
  {
  }

  /** An error in walking a sub-directory, or in reading its exit code, aborts the walk
      with that error: no later entry is looked at. */
  lemma WalkEntriesError(ctr: Container, path: string, dir: Directory, tree: Tree,
                         entries: seq<string>, exitCode: Container -> Result<int>)
    requires entries != [] && WalkEntry(ctr, path, dir, tree, entries[0], exitCode).Err?
    ensures WalkEntries(ctr, path, dir, tree, entries, exitCode) == WalkEntry(ctr, path, dir, tree, entries[0], exitCode)
  {
  }

  /** A sub-directory entry fails with the error of the sub-directory's walk or of its
      exit code, and an entry naming a missing directory fails. */
  lemma SubdirectoryError(ctr: Container, path: string, dir: Directory, tree: Tree, entry: string,
                          exitCode: Container -> Result<int>)
    requires IsSubdirectory(entry)
    ensures var name := TrimSuffix(entry, "/");
            var created := ctr.WithExec(["kubectl", "create", "workspace", name]);
            var result := WalkEntry(ctr, path, dir, tree, entry, exitCode);
            && (name !in tree.children ==> result == Err(MissingDirectory))
            && (name in tree.children ==>
                  var child := Walk(created, path + ":" + name, SubDir(dir, name), tree.children[name], exitCode);
                  && (child.Err? ==> result == Err(child.error))
                  && (child.Ok? && exitCode(child.value).Err? ==> result == Err(exitCode(child.value).error)))
  {
  }

  /** The manifests among the entries applied in entry order. */
  function Applies(entries: seq<string>): seq<Step> {
    if entries == [] then [] else ApplyIfManifest(entries[0]) + Applies(entries[1..])
  }

  lemma AppliesCons(steps: seq<Step>, entries: seq<string>)
    requires entries != []
    ensures steps + ApplyIfManifest(entries[0]) + Applies(entries[1..]) == steps + Applies(entries)
  {
    var first := ApplyIfManifest(entries[0]);
    var rest := Applies(entries[1..]);
    assert Applies(entries) == first + rest;
    assert steps + first + rest == steps + (first + rest);
  }

  function ApplyIfManifest(entry: string): seq<Step> {
    if IsManifest(entry) then [Exec(["kubectl", "apply", "-f", entry], Plain)] else []
  }

  /** Over entries without sub-directories the walk cannot fail: it applies the manifests
      in entry order and ignores every other entry. */
  lemma {:induction false} WalkFlatEntries(ctr: Container, path: string, dir: Directory, tree: Tree,
                                           entries: seq<string>, exitCode: Container -> Result<int>)
    requires forall i | 0 <= i < |entries| :: !IsSubdirectory(entries[i])
    ensures WalkEntries(ctr, path, dir, tree, entries, exitCode)
            == Ok(Container(ctr.base, ctr.steps + Applies(entries)))
    decreases |entries|
  {
    if entries != [] {
      var rest := entries[1..];
      var next := Container(ctr.base, ctr.steps + ApplyIfManifest(entries[0]));
      NonSubdirectoryEntry(ctr, path, dir, tree, entries[0], exitCode);
      WalkEntriesCons(ctr, path, dir, tree, entries, exitCode);
      assert forall i | 0 <= i < |rest| :: !IsSubdirectory(rest[i]) by {
        forall i | 0 <= i < |rest| ensures !IsSubdirectory(rest[i]) {
          assert rest[i] == entries[i + 1];
        }
      }
      WalkFlatEntries(next, path, dir, tree, rest, exitCode);
      AppliesCons(ctr.steps, entries);
    } else {
      assert ctr.steps + [] == ctr.steps;
    }
  }

  lemma WalkEntriesCons(ctr: Container, path: string, dir: Directory, tree: Tree,
                        entries: seq<string>, exitCode: Container -> Result<int>)
    requires entries != []
    requires WalkEntry(ctr, path, dir, tree, entries[0], exitCode).Ok?
    ensures WalkEntries(ctr, path, dir, tree, entries, exitCode)
            == WalkEntries(WalkEntry(ctr, path, dir, tree, entries[0], exitCode).value, path, dir, tree, entries[1..], exitCode)
  {
  }

  lemma NonSubdirectoryEntry(ctr: Container, path: string, dir: Directory, tree: Tree, entry: string,
                             exitCode: Container -> Result<int>)
    requires !IsSubdirectory(entry)
    ensures WalkEntry(ctr, path, dir, tree, entry, exitCode) == Ok(Container(ctr.base, ctr.steps + ApplyIfManifest(entry)))
  {
    if !IsManifest(entry) {
      assert ctr.steps + [] == ctr.steps;
    }
  }

  /** `WithWorkspaces` copies the tree to `/build` in the client and starts the walk in the
      `root` workspace. */
  lemma WithWorkspacesPlan(client: Result<Container>, root: Directory, tree: Tree,
                           exitCode: Container -> Result<int>)
    requires WithWorkspaces(client, root, tree, exitCode).Ok?
    ensures client.Ok? && tree.listing.Ok?
    ensures var c := WithWorkspaces(client, root, tree, exitCode).value;
            var ctr := client.value.WithDirectory("/build", root).WithWorkdir("/build");
            var entries := tree.listing.value;
            && WalkEntries(EnterWorkspace(ctr, "root", root), "root", root, tree, entries, exitCode).Ok?
            && c.base == client.value.base
            && c.steps == client.value.steps + [CopyDir("/build", root), Workdir("/build")] + EnterSteps("root", root)
                          + EntriesPlan(entries, WalkCodes(EnterWorkspace(ctr, "root", root), "root", root, tree, entries, exitCode))
  {
    var ctr := client.value.WithDirectory("/build", root).WithWorkdir("/build");
    WalkPlan(ctr, "root", root, tree, exitCode);
    assert ctr.steps == client.value.steps + [CopyDir("/build", root), Workdir("/build")];
  }

  /** A sub-directory `name/` of the workspace at `path` is walked as the workspace
      `path:name`, right after its creation. */
  lemma SubdirectoryWorkspace(ctr: Container, path: string, dir: Directory, tree: Tree, entry: string,
                              exitCode: Container -> Result<int>)
    requires IsSubdirectory(entry)
    requires TrimSuffix(entry, "/") in tree.children
    ensures var name := TrimSuffix(entry, "/");
            var created := ctr.WithExec(["kubectl", "create", "workspace", name]);
            var child := Walk(created, path + ":" + name, SubDir(dir, name), tree.children[name], exitCode);
            child.Ok? ==>
              && |child.value.steps| >= |ctr.steps| + 4
              && child.value.steps[..|ctr.steps| + 4]
                 == ctr.steps + [Exec(["kubectl", "create", "workspace", name], Plain)]
                    + EnterSteps(path + ":" + name, SubDir(dir, name))
  {
    var name := TrimSuffix(entry, "/");
    var created := ctr.WithExec(["kubectl", "create", "workspace", name]);
    var child := Walk(created, path + ":" + name, SubDir(dir, name), tree.children[name], exitCode);
    if child.Ok? {
      WalkPlan(created, path + ":" + name, SubDir(dir, name), tree.children[name], exitCode);
    }
  }
}
