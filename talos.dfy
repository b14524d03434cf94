/** The Talos cluster orchestrator: `New` validates the role counts and builds the plan
    that generates the machine configs, binds one node service per host name, applies
    each node's config, bootstraps the first control plane, waits for the API and for
    every node; `GetNode` is the per-node runtime; `Proxy` puts an Envoy TCP proxy in
    front of the same topology. */
module Talos {
  import opened Wrappers
  import opened Text
  import opened Dagger
  import opened Seqs

  datatype Role = ControlPlane | Worker

  function RoleName(role: Role): string {
    match role
    case ControlPlane => "controlplane"
    case Worker => "worker"
  }

  /** The machine config `talosctl gen config` writes for a role. */
  function ConfigFile(role: Role): string {
    RoleName(role) + ".yaml"
  }

  /** `<name>-<role>-<index>`, with 1-based indices. */
  function Hostname(name: string, role: Role, index: nat): string {
    name + "-" + RoleName(role) + "-" + NatToString(index)
  }

  /** The host names of the first `count` nodes of a role, in index order. */
  function Hostnames(name: string, role: Role, count: nat): seq<string> {
    seq(count, k requires 0 <= k < count => Hostname(name, role, k + 1))
  }

  lemma HostnamesSnoc(name: string, role: Role, n: nat)
    requires n > 0
    ensures Hostnames(name, role, n) == Hostnames(name, role, n - 1) + [Hostname(name, role, n)]
  {
  }

  /** The bootstrap node, spelled as the source spells it. */
  function FirstControlPlane(name: string): string {
    name + "-controlplane-1"
  }

  lemma FirstControlPlaneIsFirstHost(name: string)
    ensures FirstControlPlane(name) == Hostname(name, ControlPlane, 1)
  {
    assert NatToString(1) == "1";
  }

  /** The `<role>-<index>` tail of a host name determines role and index. */
  lemma RoleTagInjective(r1: Role, i: nat, r2: Role, j: nat)
    requires RoleName(r1) + ("-" + NatToString(i)) == RoleName(r2) + ("-" + NatToString(j))
    ensures r1 == r2 && i == j
  {
    var t1 := RoleName(r1) + ("-" + NatToString(i));
    assert RoleName(r1)[0] == t1[0] == RoleName(r2)[0];
    CancelPrefix(RoleName(r1), "-" + NatToString(i), "-" + NatToString(j));
    CancelPrefix("-", NatToString(i), NatToString(j));
    NatToStringInjective(i, j);
  }

  lemma HostnameShape(name: string, r: Role, i: nat)
    ensures Hostname(name, r, i) == (name + "-") + (RoleName(r) + ("-" + NatToString(i)))
  {
  }

  lemma HostnameInjective(name: string, r1: Role, i: nat, r2: Role, j: nat)
    requires Hostname(name, r1, i) == Hostname(name, r2, j)
    ensures r1 == r2 && i == j
  {
    HostnameShape(name, r1, i);
    HostnameShape(name, r2, j);
    CancelPrefix(name + "-", RoleName(r1) + ("-" + NatToString(i)), RoleName(r2) + ("-" + NatToString(j)));
    RoleTagInjective(r1, i, r2, j);
  }

  /** The host names of a cluster are pairwise distinct. */
  lemma ClusterHostnamesDistinct(name: string, controlplanes: nat, workers: nat)
    ensures var hosts := Hostnames(name, ControlPlane, controlplanes) + Hostnames(name, Worker, workers);
            forall a, b | 0 <= a < b < |hosts| :: hosts[a] != hosts[b]
  {
    var cps := Hostnames(name, ControlPlane, controlplanes);
    var hosts := cps + Hostnames(name, Worker, workers);
    forall a, b | 0 <= a < b < |hosts|
      ensures hosts[a] != hosts[b]
    {
      var ra := if a < controlplanes then ControlPlane else Worker;
      var ia := if a < controlplanes then a + 1 else a - controlplanes + 1;
      var rb := if b < controlplanes then ControlPlane else Worker;
      var ib := if b < controlplanes then b + 1 else b - controlplanes + 1;
      assert hosts[a] == Hostname(name, ra, ia);
      assert hosts[b] == Hostname(name, rb, ib);
      if hosts[a] == hosts[b] {
        HostnameInjective(name, ra, ia, rb, ib);
      }
    }
  }

  // ---------------------------------------------------------------------------
  // The node runtime (GetNode)

  /** The mount paths of a node's cache volumes. */
  const CachePaths: set<string> :=
    {"/run", "/system", "/system/state", "/var", "/etc/cni", "/etc/kubernetes", "/usr/libexec/kubernetes", "/opt"}

  /** A path with every `/` turned into `-`: the suffix a mount path gives its volume name. */
  function Dashed(path: string): (r: string)
    ensures |r| == |path|
  {
    seq(|path|, i requires 0 <= i < |path| => if path[i] == '/' then '-' else path[i])
  }

  /** One node's container: the Talos image with its host name, eight host-name-keyed
      cache volumes, a temporary `/tmp`, `/sbin/init` run privileged, and the Talos API
      port. */
  function GetNode(hostname: string, version: string): Container {
    Container(Image("ghcr.io/siderolabs/talos:" + version), [
      NewFile("/etc/hostname", hostname),
      CacheMount("/run", hostname + "-run"),
      CacheMount("/system", hostname + "-system"),
      TempMount("/tmp"),
      CacheMount("/system/state", hostname + "-system-state"),
      CacheMount("/var", hostname + "-var"),
      CacheMount("/etc/cni", hostname + "-etc-cni"),
      CacheMount("/etc/kubernetes", hostname + "-etc-kubernetes"),
      CacheMount("/usr/libexec/kubernetes", hostname + "-usr-libexec-kubernetes"),
      CacheMount("/opt", hostname + "-opt"),
      Env("PLATFORM", "container"),
      Exec(["/sbin/init"], Privileged),
      Expose(50000)])
  }

  lemma DashedCachePaths()
    ensures Dashed("/run") == "-run" && Dashed("/system") == "-system"
    ensures Dashed("/system/state") == "-system-state" && Dashed("/var") == "-var"
    ensures Dashed("/etc/cni") == "-etc-cni" && Dashed("/etc/kubernetes") == "-etc-kubernetes"
    ensures Dashed("/usr/libexec/kubernetes") == "-usr-libexec-kubernetes" && Dashed("/opt") == "-opt"
  {
    DashedShortPaths();
    DashedEtcPaths();
    DashedLongPaths();
  }

  lemma DashedShortPaths()
    ensures Dashed("/run") == "-run" && Dashed("/system") == "-system"
    ensures Dashed("/var") == "-var" && Dashed("/opt") == "-opt"
  {
  }

  lemma DashedEtcPaths()
    ensures Dashed("/etc/cni") == "-etc-cni" && Dashed("/etc/kubernetes") == "-etc-kubernetes"
  {
  }

  lemma DashedLongPaths()
    ensures Dashed("/system/state") == "-system-state"
    ensures Dashed("/usr/libexec/kubernetes") == "-usr-libexec-kubernetes"
  {
  }

  /** The paths a container mounts cache volumes at. */
  function CacheMountPaths(c: Container): set<string> {
    set i | 0 <= i < |c.steps| && c.steps[i].CacheMount? :: c.steps[i].path
  }

  /** A node mounts a cache volume at exactly the eight cache paths. */
  lemma NodeCachePaths(hostname: string, version: string)
    ensures CacheMountPaths(GetNode(hostname, version)) == CachePaths
  {
    var node := GetNode(hostname, version);
    var s := node.steps;
    assert s[1].path == "/run" && s[2].path == "/system" && s[4].path == "/system/state";
    assert s[5].path == "/var" && s[6].path == "/etc/cni" && s[7].path == "/etc/kubernetes";
    assert s[8].path == "/usr/libexec/kubernetes" && s[9].path == "/opt";
  }

  /** Each cache volume is named by the host name followed by its dashed mount path, so
      the same host name finds the same volumes whatever the Talos version. */
  lemma NodeVolumeNames(hostname: string, version: string)
    ensures var node := GetNode(hostname, version);
            forall i | 0 <= i < |node.steps| && node.steps[i].CacheMount? ::
              node.steps[i].volume == hostname + Dashed(node.steps[i].path)
  {
    DashedCachePaths();
  }

  /** The cache volumes of a node, one per cache path. */
  lemma NodeCacheVolumes(hostname: string, version: string)
    ensures CacheVolumes(GetNode(hostname, version)) == (set p | p in CachePaths :: hostname + Dashed(p))
  {
    var node := GetNode(hostname, version);
    var s := node.steps;
    NodeCachePaths(hostname, version);
    NodeVolumeNames(hostname, version);
    forall v | v in CacheVolumes(node) ensures v in (set p | p in CachePaths :: hostname + Dashed(p)) {
      var i :| 0 <= i < |s| && s[i].CacheMount? && s[i].volume == v;
      assert s[i].path in CacheMountPaths(node);
    }
    forall p | p in CachePaths ensures hostname + Dashed(p) in CacheVolumes(node) {
      var i :| 0 <= i < |s| && s[i].CacheMount? && s[i].path == p;
      assert s[i].volume == hostname + Dashed(p);
    }
  }

  /** The rest of a node's runtime: the Talos image of the requested version, the host name
      written to `/etc/hostname`, a temporary `/tmp` and `/sbin/init` run privileged. */
  lemma NodeRuntime(hostname: string, version: string)
    ensures var node := GetNode(hostname, version);
            && node.base == Image("ghcr.io/siderolabs/talos:" + version)
            && NewFile("/etc/hostname", hostname) in node.steps
            && TempMount("/tmp") in node.steps
            && Exec(["/sbin/init"], Privileged) in node.steps
  {
    var s := GetNode(hostname, version).steps;
    assert s[0] == NewFile("/etc/hostname", hostname) && s[3] == TempMount("/tmp");
    assert s[11] == Exec(["/sbin/init"], Privileged);
  }

  /** A node runs with `PLATFORM=container`. */
  lemma NodePlatform(hostname: string, version: string)
    ensures EnvValue(GetNode(hostname, version).steps, "PLATFORM") == Some("container")
  {
    var s := GetNode(hostname, version).steps;
    var t := s[..12];
    assert t[..11][10] == Env("PLATFORM", "container");
    assert EnvValue(s, "PLATFORM") == EnvValue(t, "PLATFORM") == EnvValue(t[..11], "PLATFORM");
  }

  /** A node exposes the Talos API port and nothing else. */
  lemma NodePorts(hostname: string, version: string)
    ensures ExposedPorts(GetNode(hostname, version)) == {50000}
  {
    var node := GetNode(hostname, version);
    var s := node.steps;
    assert s[12] == Expose(50000);
    forall p | p in ExposedPorts(node) ensures p == 50000 {
      var i :| 0 <= i < |s| && s[i].Expose? && s[i].port == p;
    }
  }

  /** A volume name tells which host name and which mount path it belongs to: no dashed
      cache path is a proper suffix of another. */
  lemma VolumeNameUnambiguous(h1: string, p1: string, h2: string, p2: string)
    requires p1 in CachePaths && p2 in CachePaths
    requires h1 + Dashed(p1) == h2 + Dashed(p2)
    ensures h1 == h2 && p1 == p2
  {
    DashedCachePaths();
    var s1, s2 := Dashed(p1), Dashed(p2);
    var v := h1 + s1;
    var n := |v|;
    assert v == h2 + s2;
    assert v[n - 1] == s1[|s1| - 1] && v[n - 1] == s2[|s2| - 1];
    assert |s1| >= 15 && |s2| >= 15 ==> v[n - 15] == s1[|s1| - 15] && v[n - 15] == s2[|s2| - 15];
    assert |s1| == |s2| ==> h1 == v[..|h1|] == h2 && s1 == v[|h1|..] == s2;
  }

  /** Nodes with different host names never share a cache volume. */
  lemma NodeVolumesDisjoint(h1: string, v1: string, h2: string, v2: string)
    requires h1 != h2
    ensures CacheVolumes(GetNode(h1, v1)) !! CacheVolumes(GetNode(h2, v2))
  {
    NodeCacheVolumes(h1, v1);
    NodeCacheVolumes(h2, v2);
    forall x | x in CacheVolumes(GetNode(h1, v1)) && x in CacheVolumes(GetNode(h2, v2))
      ensures false
    {
      var p1 :| p1 in CachePaths && x == h1 + Dashed(p1);
      var p2 :| p2 in CachePaths && x == h2 + Dashed(p2);
      VolumeNameUnambiguous(h1, p1, h2, p2);
    }
  }

  // ---------------------------------------------------------------------------
  // Config generation and per-node commands

  /** The control-plane patch: DHCP on eth1 with the VIP as a shared address. */
  const VipPatchHead: string :=
    "[{\"op\": \"add\", \"path\": \"/machine/network/interfaces\", \"value\": [{\"interface\": \"eth1\", \"dhcp\": true, \"vip\": {\"ip\": \""
  const VipPatchTail: string := "\"}}]}]"

  function VipPatch(vip: string): string {
    VipPatchHead + vip + VipPatchTail
  }

  /** The per-node patch that sets the machine's host name. */
  const HostnamePatchHead: string := "[{\"op\": \"add\", \"path\": \"/machine/network/hostname\", \"value\": \""
  const HostnamePatchTail: string := "\"}]"

  function HostnamePatch(hostname: string): string {
    HostnamePatchHead + hostname + HostnamePatchTail
  }

  function GenerateConfigArgv(name: string, vip: string): seq<string> {
    ["talosctl", "gen", "config", name, "https://" + vip + ":6443", "--additional-sans=localhost," + vip,
     "--config-patch-control-plane=" + VipPatch(vip), "--with-docs=false", "--with-examples=false"]
  }

  function ApplyArgv(hostname: string, role: Role): seq<string> {
    ["talosctl", "--talosconfig", "talosconfig", "-n", hostname, "apply", "--insecure", "-f", ConfigFile(role),
     "--config-patch=" + HostnamePatch(hostname)]
  }

  function WaitNodeArgv(hostname: string): seq<string> {
    ["kubectl", "wait", "--for=create", "node/" + hostname, "--timeout=300s"]
  }

  /** The tools container: talosctl, wait4x and kubectl copied in, configs generated,
      the endpoint set to the VIP. */
  function Toolchain(name: string, version: string, vip: string): Container {
    NewContainer()
      .WithFile("/bin/talosctl", From("ghcr.io/siderolabs/talosctl:" + version).FileAt("/talosctl"))
      .WithFile("/bin/wait4x", From("atkrad/wait4x").FileAt("/usr/bin/wait4x"))
      .WithFile("/bin/kubectl", From("bitnami/kubectl").FileAt("/opt/bitnami/kubectl/bin/kubectl"))
      .WithExec(GenerateConfigArgv(name, vip))
      .WithEnvVariable("TALOSCONFIG", "talosconfig")
      .WithExec(["talosctl", "config", "endpoint", vip])
  }

  /** Bind and configure the first `n` nodes of a role, in index order. */
  function NodeSetup(name: string, version: string, role: Role, n: nat): seq<Step> {
    if n == 0 then []
    else
      var hostname := Hostname(name, role, n);
      NodeSetup(name, version, role, n - 1)
        + [Bind(hostname, GetNode(hostname, version)), Exec(ApplyArgv(hostname, role), Plain)]
  }

  function BootstrapSteps(name: string, vip: string): seq<Step> {
    var first := FirstControlPlane(name);
    [Exec(["talosctl", "-e", first, "-n", first, "bootstrap"], Plain),
     Exec(["wait4x", "tcp", vip + ":6443", "--timeout", "300s"], Plain),
     Exec(["talosctl", "-n", first, "kubeconfig", "kubeconfig"], Plain),
     Env("KUBECONFIG", "kubeconfig")]
  }

  /** Wait for the first `n` nodes of a role to register, in index order. */
  function NodeWaits(name: string, role: Role, n: nat): seq<Step> {
    if n == 0 then []
    else NodeWaits(name, role, n - 1) + [Exec(WaitNodeArgv(Hostname(name, role, n)), Plain)]
  }

  /** The whole bootstrap plan `New` builds. */
  function ClusterPlan(name: string, version: string, controlplanes: nat, workers: nat, vip: string): Container {
    var pre := Toolchain(name, version, vip);
    Container(pre.base,
              pre.steps
              + NodeSetup(name, version, ControlPlane, controlplanes)
              + NodeSetup(name, version, Worker, workers)
              + BootstrapSteps(name, vip)
              + NodeWaits(name, ControlPlane, controlplanes)
              + NodeWaits(name, Worker, workers))
  }

  /** The `Talos` object: the cluster's parameters and its two credential files. */
  datatype TalosCluster = TalosCluster(
    name: string, version: string, controlplanes: nat, workers: nat, vip: string,
    talosconfig: File, kubeconfig: File)

  /** Binds and configures the first `n` nodes of a role on top of `ctr`: one loop of `New`. */
  method ProvisionNodes(ctr: Container, name: string, version: string, role: Role, n: nat)
    returns (c: Container)
    ensures c == Container(ctr.base, ctr.steps + NodeSetup(name, version, role, n))
  {
    c := ctr;
    for i := 0 to n
      invariant c == Container(ctr.base, ctr.steps + NodeSetup(name, version, role, i))
    {
      var hostname := Hostname(name, role, i + 1);
      c := c.WithServiceBinding(hostname, GetNode(hostname, version))
            .WithExec(ApplyArgv(hostname, role));
    }
  }

  /** Waits for the first `n` nodes of a role to register: one loop of `New`. */
  method AwaitNodes(ctr: Container, name: string, role: Role, n: nat) returns (c: Container)
    ensures c == Container(ctr.base, ctr.steps + NodeWaits(name, role, n))
  {
    c := ctr;
    for i := 0 to n
      invariant c == Container(ctr.base, ctr.steps + NodeWaits(name, role, i))
    {
      c := c.WithExec(WaitNodeArgv(Hostname(name, role, i + 1)));
    }
  }

  /** Validates the role counts (control planes first) and builds the bootstrap plan. */
  method New(name: string, version: string, controlplanes: int, workers: int, vip: string)
    returns (r: Result<TalosCluster>)
    ensures controlplanes < 1 ==> r == Err("invalid number of controlplanes " + IntToString(controlplanes))
    ensures controlplanes >= 1 && workers < 0 ==> r == Err("invalid number of workers " + IntToString(workers))
    ensures controlplanes >= 1 && workers >= 0 ==>
              var plan := ClusterPlan(name, version, controlplanes, workers, vip);
              r == Ok(TalosCluster(name, version, controlplanes, workers, vip,
                                   plan.FileAt("talosconfig"), plan.FileAt("kubeconfig")))
  {
    if controlplanes < 1 {
      return Err("invalid number of controlplanes " + IntToString(controlplanes));
    } else if workers < 0 {
      return Err("invalid number of workers " + IntToString(workers));
    }
    var pre := Toolchain(name, version, vip);
    var ctr := ProvisionNodes(pre, name, version, ControlPlane, controlplanes);
    ctr := ProvisionNodes(ctr, name, version, Worker, workers);
    var first := FirstControlPlane(name);
    ctr := ctr.WithExec(["talosctl", "-e", first, "-n", first, "bootstrap"])
             .WithExec(["wait4x", "tcp", vip + ":6443", "--timeout", "300s"])
             .WithExec(["talosctl", "-n", first, "kubeconfig", "kubeconfig"])
             .WithEnvVariable("KUBECONFIG", "kubeconfig");
    assert ctr.steps == pre.steps + NodeSetup(name, version, ControlPlane, controlplanes)
                        + NodeSetup(name, version, Worker, workers) + BootstrapSteps(name, vip);
    ctr := AwaitNodes(ctr, name, ControlPlane, controlplanes);
    ctr := AwaitNodes(ctr, name, Worker, workers);
    assert ctr.steps == pre.steps + NodeSetup(name, version, ControlPlane, controlplanes)
                        + NodeSetup(name, version, Worker, workers) + BootstrapSteps(name, vip)
                        + NodeWaits(name, ControlPlane, controlplanes) + NodeWaits(name, Worker, workers);
    return Ok(TalosCluster(name, version, controlplanes, workers, vip,
                           ctr.FileAt("talosconfig"), ctr.FileAt("kubeconfig")));
  }

  // ---------------------------------------------------------------------------
  // The plan read back as the sequencer's actions

  /** What a step of the bootstrap plan does, read off its command line. */
  datatype Action =
    | GenerateConfig(cluster: string, endpoint: string, options: seq<string>)
    | SetEndpoint(endpoint: string)
    | BindNode(host: string)
    | ApplyConfig(node: string, file: string, patch: string)
    | Bootstrap(endpoint: string, node: string)
    | WaitTcp(address: string, timeout: string)
    | FetchKubeconfig(node: string, output: string)
    | WaitNode(node: string, timeout: string)

  function ClassifyArgv(argv: seq<string>): Option<Action> {
    if |argv| == 9 && argv[0] == "talosctl" && argv[1] == "gen" && argv[2] == "config" then
      Some(GenerateConfig(argv[3], argv[4], argv[5..]))
    else if |argv| == 4 && argv[0] == "talosctl" && argv[1] == "config" && argv[2] == "endpoint" then
      Some(SetEndpoint(argv[3]))
    else if |argv| == 10 && argv[..4] == ["talosctl", "--talosconfig", "talosconfig", "-n"]
            && argv[5..8] == ["apply", "--insecure", "-f"] then
      Some(ApplyConfig(argv[4], argv[8], argv[9]))
    else if |argv| == 6 && argv[0] == "talosctl" && argv[1] == "-e" && argv[3] == "-n" && argv[5] == "bootstrap" then
      Some(Bootstrap(argv[2], argv[4]))
    else if |argv| == 5 && argv[0] == "wait4x" && argv[1] == "tcp" && argv[3] == "--timeout" then
      Some(WaitTcp(argv[2], argv[4]))
    else if |argv| == 5 && argv[0] == "talosctl" && argv[1] == "-n" && argv[3] == "kubeconfig" then
      Some(FetchKubeconfig(argv[2], argv[4]))
    else if |argv| == 5 && argv[0] == "kubectl" && argv[1] == "wait" && argv[2] == "--for=create" && HasPrefix(argv[3], "node/") then
      Some(WaitNode(argv[3][5..], argv[4]))
    else
      None
  }

  function Classify(s: Step): Option<Action> {
    match s
    case Bind(host, _) => Some(BindNode(host))
    case Exec(argv, _) => ClassifyArgv(argv)
    case _ => None
  }

  /** The actions of a plan, in order. */
  function Actions(steps: seq<Step>): seq<Action> {
    Collect(steps, Classify)
  }

  /** The trace of the plan `New` builds. */
  function Trace(name: string, version: string, controlplanes: nat, workers: nat, vip: string): seq<Action> {
    Actions(ClusterPlan(name, version, controlplanes, workers, vip).steps)
  }

  /** Bind a node's service, then apply its role's config with a patch setting its host name. */
  function NodeProvision(h: string, role: Role): seq<Action> {
    [BindNode(h), ApplyConfig(h, ConfigFile(role), "--config-patch=" + HostnamePatch(h))]
  }

  /** Provision each node in turn. */
  function Provision(hosts: seq<string>, role: Role): seq<Action> {
    FlatMap(hosts, h => NodeProvision(h, role))
  }

  /** Wait for each node to register. */
  function Registrations(hosts: seq<string>): seq<Action> {
    seq(|hosts|, i requires 0 <= i < |hosts| => WaitNode(hosts[i], "--timeout=300s"))
  }

  /** The bootstrap sequence as a state machine's transitions: generate configs for the
      VIP endpoint, provision the control planes and then the workers, bootstrap the
      first control plane once, wait for the API port, fetch the kubeconfig, then wait
      for every node. */
  function SequencerActions(name: string, controlplanes: nat, workers: nat, vip: string): seq<Action> {
    var cps := Hostnames(name, ControlPlane, controlplanes);
    var ws := Hostnames(name, Worker, workers);
    ConfigActions(name, vip)
    + Provision(cps, ControlPlane)
    + Provision(ws, Worker)
    + BootActions(name, vip)
    + Registrations(cps + ws)
  }

  /** Generate the configs for the VIP endpoint, then point talosctl at the VIP. */
  function ConfigActions(name: string, vip: string): seq<Action> {
    [GenerateConfig(name, "https://" + vip + ":6443",
                    ["--additional-sans=localhost," + vip, "--config-patch-control-plane=" + VipPatch(vip),
                     "--with-docs=false", "--with-examples=false"]),
     SetEndpoint(vip)]
  }

  /** Bootstrap the first control plane, wait for the API port, fetch the kubeconfig. */
  function BootActions(name: string, vip: string): seq<Action> {
    var first := FirstControlPlane(name);
    [Bootstrap(first, first), WaitTcp(vip + ":6443", "300s"), FetchKubeconfig(first, "kubeconfig")]
  }

  lemma ActionsAppend(a: seq<Step>, b: seq<Step>)
    ensures Actions(a + b) == Actions(a) + Actions(b)
  {
    CollectAppend(a, b, Classify);
  }

  /** Provisioning a list of nodes is provisioning its parts in turn. */
  lemma ProvisionAppend(a: seq<string>, b: seq<string>, role: Role)
    ensures Provision(a + b, role) == Provision(a, role) + Provision(b, role)
  {
    FlatMapAppend(a, b, h => NodeProvision(h, role));
  }

  lemma ProvisionSnoc(hosts: seq<string>, h: string, role: Role)
    ensures Provision(hosts + [h], role) == Provision(hosts, role) + NodeProvision(h, role)
  {
    assert (hosts + [h])[..|hosts|] == hosts;
  }

  /** The `k`-th node is bound at position `2k` and configured right after. */
  lemma ProvisionIndex(hosts: seq<string>, role: Role)
    ensures |Provision(hosts, role)| == 2 * |hosts|
    ensures forall k | 0 <= k < |hosts| ::
              Provision(hosts, role)[2 * k] == BindNode(hosts[k])
              && Provision(hosts, role)[2 * k + 1]
                 == ApplyConfig(hosts[k], ConfigFile(role), "--config-patch=" + HostnamePatch(hosts[k]))
  {
    FlatMapPairs(hosts, h => NodeProvision(h, role));
  }

  /** One node's bind and apply steps read back as its provisioning. */
  lemma NodeStepActions(h: string, version: string, role: Role)
    ensures Actions([Bind(h, GetNode(h, version)), Exec(ApplyArgv(h, role), Plain)]) == NodeProvision(h, role)
  {
    var last := [Bind(h, GetNode(h, version)), Exec(ApplyArgv(h, role), Plain)];
    var apply := ApplyConfig(h, ConfigFile(role), "--config-patch=" + HostnamePatch(h));
    assert ClassifyArgv(ApplyArgv(h, role)) == Some(apply);
    assert Actions(last[1..][1..]) == [];
    assert Actions(last[1..]) == [apply];
  }

  lemma {:induction false} NodeSetupActions(name: string, version: string, role: Role, n: nat)
    ensures Actions(NodeSetup(name, version, role, n)) == Provision(Hostnames(name, role, n), role)
  {
    if n > 0 {
      var h := Hostname(name, role, n);
      var last := [Bind(h, GetNode(h, version)), Exec(ApplyArgv(h, role), Plain)];
      NodeSetupActions(name, version, role, n - 1);
      ActionsAppend(NodeSetup(name, version, role, n - 1), last);
      NodeStepActions(h, version, role);
      HostnamesSnoc(name, role, n);
      ProvisionSnoc(Hostnames(name, role, n - 1), h, role);
    }
  }

  lemma {:induction false} NodeWaitsActions(name: string, role: Role, n: nat)
    ensures Actions(NodeWaits(name, role, n)) == Registrations(Hostnames(name, role, n))
  {
    if n > 0 {
      var h := Hostname(name, role, n);
      NodeWaitsActions(name, role, n - 1);
      CollectAppend(NodeWaits(name, role, n - 1), [Exec(WaitNodeArgv(h), Plain)], Classify);
      assert ("node/" + h)[5..] == h;
      HostnamesSnoc(name, role, n);
      RegistrationsAppend(Hostnames(name, role, n - 1), [h]);
    }
  }

  lemma RegistrationsAppend(a: seq<string>, b: seq<string>)
    ensures Registrations(a + b) == Registrations(a) + Registrations(b)
  {
  }

  /** The actions of a plan that starts with a given step. */
  lemma ActionsCons(s: Step, rest: seq<Step>)
    ensures Actions([s] + rest) == (match Classify(s) case Some(v) => [v] + Actions(rest) case None => Actions(rest))
  {
    assert ([s] + rest)[1..] == rest;
  }

  /** The tools prelude generates the configs for the VIP endpoint and points talosctl at the VIP. */
  lemma ToolchainActions(name: string, version: string, vip: string)
    ensures Actions(Toolchain(name, version, vip).steps) == ConfigActions(name, vip)
  {
    var s := Toolchain(name, version, vip).steps;
    var gen := GenerateConfigArgv(name, vip);
    var endpoint := ["talosctl", "config", "endpoint", vip];
    assert s == [s[0], s[1], s[2]] + ([Exec(gen, Plain)] + ([Env("TALOSCONFIG", "talosconfig")] + ([Exec(endpoint, Plain)] + [])));
    assert ClassifyArgv(gen) == Some(GenerateConfig(name, "https://" + vip + ":6443", gen[5..]));
    assert ClassifyArgv(endpoint) == Some(SetEndpoint(vip));
    ActionsCons(Exec(endpoint, Plain), []);
    ActionsCons(Env("TALOSCONFIG", "talosconfig"), [Exec(endpoint, Plain)] + []);
    ActionsCons(Exec(gen, Plain), [Env("TALOSCONFIG", "talosconfig")] + ([Exec(endpoint, Plain)] + []));
    assert gen[5..] == ["--additional-sans=localhost," + vip, "--config-patch-control-plane=" + VipPatch(vip),
                        "--with-docs=false", "--with-examples=false"];
    assert s[0].CopyFile? && s[1].CopyFile? && s[2].CopyFile?;
    ActionsCons(s[2], []);
    assert [s[2]] + [] == [s[2]];
    ActionsCons(s[1], [s[2]]);
    assert [s[1], s[2]] == [s[1]] + [s[2]];
    ActionsCons(s[0], [s[1], s[2]]);
    assert [s[0], s[1], s[2]] == [s[0]] + [s[1], s[2]];
    var rest := [Exec(gen, Plain)] + ([Env("TALOSCONFIG", "talosconfig")] + ([Exec(endpoint, Plain)] + []));
    ActionsAppend([s[0], s[1], s[2]], rest);
    assert Actions([s[0], s[1], s[2]]) == [];
    assert Actions([Exec(endpoint, Plain)] + []) == [SetEndpoint(vip)];
    assert Actions(rest) == [GenerateConfig(name, "https://" + vip + ":6443", gen[5..]), SetEndpoint(vip)];
  }

  /** The bootstrap steps: bootstrap the first control plane, wait for the API port, fetch the kubeconfig. */
  lemma BootstrapActions(name: string, vip: string)
    ensures Actions(BootstrapSteps(name, vip)) == BootActions(name, vip)
  {
    var first := FirstControlPlane(name);
    var s := BootstrapSteps(name, vip);
    assert s == [s[0]] + ([s[1]] + ([s[2]] + ([s[3]] + [])));
    assert Classify(s[0]) == Some(Bootstrap(first, first));
    assert Classify(s[1]) == Some(WaitTcp(vip + ":6443", "300s"));
    assert Classify(s[2]) == Some(FetchKubeconfig(first, "kubeconfig"));
    ActionsCons(s[3], []);
    ActionsCons(s[2], [s[3]] + []);
    ActionsCons(s[1], [s[2]] + ([s[3]] + []));
    ActionsCons(s[0], [s[1]] + ([s[2]] + ([s[3]] + [])));
  }

  /** The trace of the plan, phase by phase. */
  lemma TracePhases(name: string, version: string, controlplanes: nat, workers: nat, vip: string)
    ensures Trace(name, version, controlplanes, workers, vip)
            == Actions(Toolchain(name, version, vip).steps)
               + Actions(NodeSetup(name, version, ControlPlane, controlplanes))
               + Actions(NodeSetup(name, version, Worker, workers))
               + Actions(BootstrapSteps(name, vip))
               + Actions(NodeWaits(name, ControlPlane, controlplanes))
               + Actions(NodeWaits(name, Worker, workers))
  {
    var pre := Toolchain(name, version, vip).steps;
    var setupC := NodeSetup(name, version, ControlPlane, controlplanes);
    var setupW := NodeSetup(name, version, Worker, workers);
    var boot := BootstrapSteps(name, vip);
    var waitC := NodeWaits(name, ControlPlane, controlplanes);
    var waitW := NodeWaits(name, Worker, workers);
    assert ClusterPlan(name, version, controlplanes, workers, vip).steps == pre + setupC + setupW + boot + waitC + waitW;
    ActionsAppend(pre, setupC);
    ActionsAppend(pre + setupC, setupW);
    ActionsAppend(pre + setupC + setupW, boot);
    ActionsAppend(pre + setupC + setupW + boot, waitC);
    ActionsAppend(pre + setupC + setupW + boot + waitC, waitW);
  }

  /** The sequencer's transitions, phase by phase. */
  lemma SequencerPhases(name: string, controlplanes: nat, workers: nat, vip: string)
    ensures SequencerActions(name, controlplanes, workers, vip)
            == ConfigActions(name, vip)
               + Provision(Hostnames(name, ControlPlane, controlplanes), ControlPlane)
               + Provision(Hostnames(name, Worker, workers), Worker)
               + BootActions(name, vip)
               + Registrations(Hostnames(name, ControlPlane, controlplanes))
               + Registrations(Hostnames(name, Worker, workers))
  {
    RegistrationsAppend(Hostnames(name, ControlPlane, controlplanes), Hostnames(name, Worker, workers));
  }

  /** The plan `New` builds carries out exactly the sequencer's transitions, in order. */
  lemma PlanActions(name: string, version: string, controlplanes: nat, workers: nat, vip: string)
    ensures Trace(name, version, controlplanes, workers, vip) == SequencerActions(name, controlplanes, workers, vip)
  {
    TracePhases(name, version, controlplanes, workers, vip);
    SequencerPhases(name, controlplanes, workers, vip);
    ToolchainActions(name, version, vip);
    BootstrapActions(name, vip);
    NodeSetupActions(name, version, ControlPlane, controlplanes);
    NodeSetupActions(name, version, Worker, workers);
    NodeWaitsActions(name, ControlPlane, controlplanes);
    NodeWaitsActions(name, Worker, workers);
  }
  // ---------------------------------------------------------------------------
  // Properties of the bootstrap sequence

  lemma ProvisionLength(hosts: seq<string>, role: Role)
    ensures |Provision(hosts, role)| == 2 * |hosts|
  {
    FlatMapPairs(hosts, h => NodeProvision(h, role));
  }

  /** Provisioning only binds and configures nodes, two actions per node. */
  lemma ProvisionKinds(hosts: seq<string>, role: Role)
    ensures |Provision(hosts, role)| == 2 * |hosts|
    ensures forall j | 0 <= j < |Provision(hosts, role)| ::
              Provision(hosts, role)[j].BindNode? || Provision(hosts, role)[j].ApplyConfig?
  {
    FlatMapPairs(hosts, h => NodeProvision(h, role));
    FlatMapAll(hosts, h => NodeProvision(h, role), (a: Action) => a.BindNode? || a.ApplyConfig?);
  }

  lemma ConfigKinds(name: string, vip: string)
    ensures |ConfigActions(name, vip)| == 2
    ensures forall j | 0 <= j < |ConfigActions(name, vip)| ::
              ConfigActions(name, vip)[j].GenerateConfig? || ConfigActions(name, vip)[j].SetEndpoint?
  {
  }

  lemma BootKinds(name: string, vip: string)
    ensures var boot := BootActions(name, vip);
            |boot| == 3 && boot[0].Bootstrap? && boot[1].WaitTcp? && boot[2].FetchKubeconfig?
  {
  }

  lemma RegistrationsKinds(hosts: seq<string>)
    ensures |Registrations(hosts)| == |hosts|
    ensures forall j | 0 <= j < |Registrations(hosts)| :: Registrations(hosts)[j].WaitNode?
  {
  }

  /** Ordering in a five-phase sequence whose fourth phase holds the only bootstrap. */
  lemma PhaseOrder(cfg: seq<Action>, pc: seq<Action>, pw: seq<Action>, boot: seq<Action>, regs: seq<Action>)
    requires forall j | 0 <= j < |cfg| :: cfg[j].GenerateConfig? || cfg[j].SetEndpoint?
    requires forall j | 0 <= j < |pc| :: pc[j].BindNode? || pc[j].ApplyConfig?
    requires forall j | 0 <= j < |pw| :: pw[j].BindNode? || pw[j].ApplyConfig?
    requires |boot| == 3 && boot[0].Bootstrap? && boot[1].WaitTcp? && boot[2].FetchKubeconfig?
    requires forall j | 0 <= j < |regs| :: regs[j].WaitNode?
    ensures var acts := cfg + pc + pw + boot + regs;
            var b := |cfg| + |pc| + |pw|;
            forall i | 0 <= i < |acts| ::
              && (acts[i].Bootstrap? <==> i == b)
              && (acts[i].ApplyConfig? ==> i < b)
              && (acts[i].WaitNode? ==> b + 2 < i)
  {
    var acts := cfg + pc + pw + boot + regs;
    var b := |cfg| + |pc| + |pw|;
    forall i | 0 <= i < |acts|
      ensures acts[i].Bootstrap? <==> i == b
      ensures acts[i].ApplyConfig? ==> i < b
      ensures acts[i].WaitNode? ==> b + 2 < i
    {
      if i < |cfg| {
        assert acts[i] == cfg[i];
      } else if i < |cfg| + |pc| {
        assert acts[i] == pc[i - |cfg|];
      } else if i < b {
        assert acts[i] == pw[i - |cfg| - |pc|];
      } else if i == b {
        assert acts[i] == boot[0];
      } else if i == b + 1 {
        assert acts[i] == boot[1];
      } else if i == b + 2 {
        assert acts[i] == boot[2];
      } else {
        assert acts[i] == regs[i - b - 3];
      }
    }
  }

  /** The bootstrap happens exactly once, after every config has been applied and before
      any node is awaited. */
  lemma BootstrapOnce(name: string, controlplanes: nat, workers: nat, vip: string)
    ensures var acts := SequencerActions(name, controlplanes, workers, vip);
            var b := 2 + 2 * (controlplanes + workers);
            && b + 2 < |acts|
            && (forall i | 0 <= i < |acts| :: acts[i].Bootstrap? <==> i == b)
            && (forall i | 0 <= i < |acts| && acts[i].ApplyConfig? :: i < b)
            && (forall i | 0 <= i < |acts| && acts[i].WaitNode? :: b + 2 < i)
  {
    var cps := Hostnames(name, ControlPlane, controlplanes);
    var ws := Hostnames(name, Worker, workers);
    ProvisionKinds(cps, ControlPlane);
    ProvisionKinds(ws, Worker);
    ConfigKinds(name, vip);
    BootKinds(name, vip);
    RegistrationsKinds(cps + ws);
    PhaseOrder(ConfigActions(name, vip), Provision(cps, ControlPlane), Provision(ws, Worker),
               BootActions(name, vip), Registrations(cps + ws));
  }

  /** The bootstrap targets the first control plane as both endpoint and node; the wait for
      the API port on the VIP and the kubeconfig fetch from that node follow it directly. */
  lemma BootstrapTarget(name: string, controlplanes: nat, workers: nat, vip: string)
    ensures var acts := SequencerActions(name, controlplanes, workers, vip);
            var b := 2 + 2 * (controlplanes + workers);
            var first := Hostname(name, ControlPlane, 1);
            && b + 2 < |acts|
            && acts[b] == Bootstrap(first, first)
            && acts[b + 1] == WaitTcp(vip + ":6443", "300s")
            && acts[b + 2] == FetchKubeconfig(first, "kubeconfig")
  {
    var cps := Hostnames(name, ControlPlane, controlplanes);
    var ws := Hostnames(name, Worker, workers);
    ProvisionKinds(cps, ControlPlane);
    ProvisionKinds(ws, Worker);
    FirstControlPlaneIsFirstHost(name);
    var head := ConfigActions(name, vip) + Provision(cps, ControlPlane) + Provision(ws, Worker);
    var boot := BootActions(name, vip);
    assert |head| == 2 + 2 * (controlplanes + workers);
    assert SequencerActions(name, controlplanes, workers, vip) == head + boot + Registrations(cps + ws);
  }

  /** The phases in place: the config actions, the control planes' provisioning, then the
      workers', the bootstrap actions, and the waits for control planes then workers. */
  lemma SequencerPhasesInPlace(name: string, controlplanes: nat, workers: nat, vip: string)
    ensures var acts := SequencerActions(name, controlplanes, workers, vip);
            var cps := Hostnames(name, ControlPlane, controlplanes);
            var ws := Hostnames(name, Worker, workers);
            var c := 2 + 2 * controlplanes;
            var b := c + 2 * workers;
            && |acts| == b + 3 + controlplanes + workers
            && acts[..2] == ConfigActions(name, vip)
            && acts[2..c] == Provision(cps, ControlPlane)
            && acts[c..b] == Provision(ws, Worker)
            && acts[b..b + 3] == BootActions(name, vip)
            && acts[b + 3..] == Registrations(cps + ws)
            && acts[..b] == ConfigActions(name, vip) + Provision(cps, ControlPlane) + Provision(ws, Worker)
  {
    var cps := Hostnames(name, ControlPlane, controlplanes);
    var ws := Hostnames(name, Worker, workers);
    ProvisionLength(cps, ControlPlane);
    ProvisionLength(ws, Worker);
    assert |ConfigActions(name, vip)| == 2 && |BootActions(name, vip)| == 3;
    SliceParts(ConfigActions(name, vip), Provision(cps, ControlPlane), Provision(ws, Worker),
               BootActions(name, vip), Registrations(cps + ws));
  }

  /** The nodes a sequence of actions applies a config to. */
  function AppliedNodes(acts: seq<Action>): set<string> {
    set a | a in acts && a.ApplyConfig? :: a.node
  }

  lemma AppliedNodesAppend(a: seq<Action>, b: seq<Action>)
    ensures AppliedNodes(a + b) == AppliedNodes(a) + AppliedNodes(b)
  {
  }

  /** Provisioning applies a config to exactly the listed nodes. */
  lemma {:induction false} ProvisionApplied(hosts: seq<string>, role: Role)
    ensures AppliedNodes(Provision(hosts, role)) == set h | h in hosts
  {
    if hosts != [] {
      var init := hosts[..|hosts| - 1];
      var h := hosts[|hosts| - 1];
      assert hosts == init + [h];
      ProvisionSnoc(init, h, role);
      ProvisionApplied(init, role);
      AppliedNodesAppend(Provision(init, role), NodeProvision(h, role));
      assert AppliedNodes(NodeProvision(h, role)) == {h};
    }
  }

  /** Before the bootstrap, a config is applied to every node of the cluster and to no
      other. */
  lemma AppliedBeforeBootstrap(name: string, controlplanes: nat, workers: nat, vip: string)
    ensures var acts := SequencerActions(name, controlplanes, workers, vip);
            var b := 2 + 2 * (controlplanes + workers);
            var hosts := Hostnames(name, ControlPlane, controlplanes) + Hostnames(name, Worker, workers);
            && b <= |acts|
            && AppliedNodes(acts[..b]) == set h | h in hosts
  {
    var cps := Hostnames(name, ControlPlane, controlplanes);
    var ws := Hostnames(name, Worker, workers);
    var cfg := ConfigActions(name, vip);
    var pc := Provision(cps, ControlPlane);
    var pw := Provision(ws, Worker);
    SequencerPhasesInPlace(name, controlplanes, workers, vip);
    assert AppliedNodes(cfg) == {} by {
      ConfigKinds(name, vip);
    }
    ProvisionApplied(cps, ControlPlane);
    ProvisionApplied(ws, Worker);
    AppliedThreeParts(cfg, pc, pw, cps, ws);
  }

  lemma AppliedThreeParts(cfg: seq<Action>, pc: seq<Action>, pw: seq<Action>, cps: seq<string>, ws: seq<string>)
    requires AppliedNodes(cfg) == {}
    requires AppliedNodes(pc) == set h | h in cps
    requires AppliedNodes(pw) == set h | h in ws
    ensures AppliedNodes(cfg + pc + pw) == set h | h in cps + ws
  {
    AppliedNodesAppend(cfg, pc);
    AppliedNodesAppend(cfg + pc, pw);
  }

  /** The bootstrap node is one of the cluster's nodes exactly when there is at least one
      control plane; with none, no node carries its name. */
  lemma BootstrapNodeInCluster(name: string, controlplanes: nat, workers: nat)
    ensures FirstControlPlane(name) in Hostnames(name, ControlPlane, controlplanes) + Hostnames(name, Worker, workers)
            <==> controlplanes >= 1
  {
    var cps := Hostnames(name, ControlPlane, controlplanes);
    var ws := Hostnames(name, Worker, workers);
    var first := FirstControlPlane(name);
    FirstControlPlaneIsFirstHost(name);
    if controlplanes >= 1 {
      assert cps[0] == first;
    } else {
      forall k | 0 <= k < |ws| ensures ws[k] != first {
        if ws[k] == first {
          HostnameInjective(name, Worker, k + 1, ControlPlane, 1);
        }
      }
      assert cps + ws == ws;
    }
  }

  /** Waiting for distinct nodes: every wait names a different node, and together the
      waits name exactly the given nodes. */
  lemma RegistrationsDistinct(hosts: seq<string>)
    requires forall a, b | 0 <= a < b < |hosts| :: hosts[a] != hosts[b]
    ensures var regs := Registrations(hosts);
            && |regs| == |hosts|
            && (forall i, j | 0 <= i < j < |regs| :: regs[i].node != regs[j].node)
            && (set i | 0 <= i < |regs| :: regs[i].node) == set h | h in hosts
  {
    var regs := Registrations(hosts);
    forall h | h in hosts ensures h in set i | 0 <= i < |regs| :: regs[i].node {
      var k :| 0 <= k < |hosts| && hosts[k] == h;
      assert regs[k].node == h;
    }
  }

  /** After the kubeconfig is fetched the plan waits once for each node of the cluster
      and for no other: one wait per node, none repeated, control planes and workers
      together. */
  lemma WaitsOncePerNode(name: string, controlplanes: nat, workers: nat, vip: string)
    ensures |SequencerActions(name, controlplanes, workers, vip)| == 5 + 3 * (controlplanes + workers)
    ensures var waits := SequencerActions(name, controlplanes, workers, vip)[5 + 2 * (controlplanes + workers)..];
            && (forall i | 0 <= i < |waits| :: waits[i].WaitNode?)
            && (forall i, j | 0 <= i < j < |waits| :: waits[i].node != waits[j].node)
            && (set i | 0 <= i < |waits| :: waits[i].node)
               == set h | h in Hostnames(name, ControlPlane, controlplanes) + Hostnames(name, Worker, workers)
  {
    var hosts := Hostnames(name, ControlPlane, controlplanes) + Hostnames(name, Worker, workers);
    SequencerPhasesInPlace(name, controlplanes, workers, vip);
    ClusterHostnamesDistinct(name, controlplanes, workers);
    RegistrationsDistinct(hosts);
    RegistrationsKinds(hosts);
  }

  // ---------------------------------------------------------------------------
  // The services the plan binds

  /** Each host name bound to its own node container. */
  function NodeServices(hosts: seq<string>, version: string): seq<(string, Container)> {
    seq(|hosts|, k requires 0 <= k < |hosts| => (hosts[k], GetNode(hosts[k], version)))
  }

  lemma NodeServicesAppend(a: seq<string>, b: seq<string>, version: string)
    ensures NodeServices(a + b, version) == NodeServices(a, version) + NodeServices(b, version)
  {
  }

  /** A plan without service bindings binds nothing. */
  lemma {:induction false} NoBindings(steps: seq<Step>)
    requires forall i | 0 <= i < |steps| :: !steps[i].Bind?
    ensures Bindings(steps) == []
  {
    if steps != [] {
      NoBindings(steps[1..]);
    }
  }

  /** The setup of the first `n` nodes of a role binds each node, in index order, to a
      node container of its own host name. */
  lemma {:induction false} NodeSetupBindings(name: string, version: string, role: Role, n: nat)
    ensures Bindings(NodeSetup(name, version, role, n)) == NodeServices(Hostnames(name, role, n), version)
  {
    if n > 0 {
      var h := Hostname(name, role, n);
      NodeSetupBindings(name, version, role, n - 1);
      BindThenExec(NodeSetup(name, version, role, n - 1), h, GetNode(h, version), ApplyArgv(h, role));
      HostnamesSnoc(name, role, n);
      NodeServicesAppend(Hostnames(name, role, n - 1), [h], version);
    }
  }

  lemma BindThenExec(steps: seq<Step>, h: string, svc: Container, argv: seq<string>)
    ensures Bindings(steps + [Bind(h, svc), Exec(argv, Plain)]) == Bindings(steps) + [(h, svc)]
  {
    var last := [Bind(h, svc), Exec(argv, Plain)];
    CollectAppend(steps, last, BoundService);
    assert Bindings(last[1..][1..]) == [];
    assert Bindings(last[1..]) == [];
  }

  /** Waiting for nodes binds nothing. */
  lemma {:induction false} NodeWaitsUnbound(name: string, role: Role, n: nat)
    ensures forall i | 0 <= i < |NodeWaits(name, role, n)| :: NodeWaits(name, role, n)[i].Exec?
  {
    if n > 0 {
      NodeWaitsUnbound(name, role, n - 1);
    }
  }

  lemma ToolchainUnbound(name: string, version: string, vip: string)
    ensures forall i | 0 <= i < |Toolchain(name, version, vip).steps| :: !Toolchain(name, version, vip).steps[i].Bind?
  {
  }

  /** The plan `New` builds binds every node, control planes first and then workers, each
      under its host name and to a node container of that name, and binds nothing else. */
  lemma ClusterBindings(name: string, version: string, controlplanes: nat, workers: nat, vip: string)
    ensures Bindings(ClusterPlan(name, version, controlplanes, workers, vip).steps)
            == NodeServices(Hostnames(name, ControlPlane, controlplanes) + Hostnames(name, Worker, workers), version)
  {
    var pre := Toolchain(name, version, vip).steps;
    var boot := BootstrapSteps(name, vip);
    var wc := NodeWaits(name, ControlPlane, controlplanes);
    var ww := NodeWaits(name, Worker, workers);
    ToolchainUnbound(name, version, vip);
    NoBindings(pre);
    BootUnbound(name, vip);
    NoBindings(boot);
    NodeWaitsUnbound(name, ControlPlane, controlplanes);
    NodeWaitsUnbound(name, Worker, workers);
    NoBindings(wc);
    NoBindings(ww);
    NodeSetupBindings(name, version, ControlPlane, controlplanes);
    NodeSetupBindings(name, version, Worker, workers);
    BindingsInPhases(pre, NodeSetup(name, version, ControlPlane, controlplanes),
                     NodeSetup(name, version, Worker, workers), boot, wc, ww);
    NodeServicesAppend(Hostnames(name, ControlPlane, controlplanes), Hostnames(name, Worker, workers), version);
  }

  lemma BootUnbound(name: string, vip: string)
    ensures forall i | 0 <= i < |BootstrapSteps(name, vip)| :: !BootstrapSteps(name, vip)[i].Bind?
  {
  }

  /** Only the two setup phases of a plan in six phases bind services. */
  lemma BindingsInPhases(pre: seq<Step>, sc: seq<Step>, sw: seq<Step>, boot: seq<Step>, wc: seq<Step>, ww: seq<Step>)
    requires Bindings(pre) == [] && Bindings(boot) == [] && Bindings(wc) == [] && Bindings(ww) == []
    ensures Bindings(pre + sc + sw + boot + wc + ww) == Bindings(sc) + Bindings(sw)
  {
    CollectAppend(pre, sc, BoundService);
    CollectAppend(pre + sc, sw, BoundService);
    CollectAppend(pre + sc + sw, boot, BoundService);
    CollectAppend(pre + sc + sw + boot, wc, BoundService);
    CollectAppend(pre + sc + sw + boot + wc, ww, BoundService);
  }
}
