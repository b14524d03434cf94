# Dagger modules for Talos, kcp, CUE schemas and kind, modelled in Dafny

This project models four Dagger modules from the `orvis98/daggerverse` repository:

- `talos`: an ephemeral Talos Linux cluster with an Envoy proxy in front of it;
- `kcp`: a kcp server's admin kubeconfig, a client container, and the workspace tree walker;
- `cue-schemas`: vendoring, exporting and publishing CUE schemas;
- `kind`: guards and command lines around the kind CLI.

Each module only *plans* work for the Dagger engine. A `*dagger.Container` is an immutable value, and every builder
call (`WithExec`, `WithServiceBinding`, `WithFile`, ...) returns a new one. The model therefore represents a container as
a value, `Dagger.Container(base, steps)`: a base image plus the ordered list of steps applied to it. A `File` or
`Directory` is a path inside such a container. The contracts state what a plan contains and in what order.

Engine results become inputs to the model:

- what a command prints (`Stdout`);
- directory listings (`Entries`);
- exit codes;
- service endpoints;
- GitHub directory listings (`GetContents`);
- semver parsing;
- YAML parsing and CUE validation of a `sources.yaml` file.

Each of these is a function parameter, or a field of a `World` record of such functions.

Layout, one module per file:

- `wrappers.dfy` (`Wrappers`): `Option` and `Result`.
- `seqs.dfy` (`Seqs`): `FlatMap` and sequence slicing facts.
- `text.dfy` (`Text`): decimal formatting, Go's `strings.Split` on a one-character separator, `strings.Join`,
  `strings.TrimSuffix`, and the last field of a split.
- `dagger.dfy` (`Dagger`): the container plan datatype, the builder functions, and queries over a plan (commands,
  bindings, exposed ports, environment variables, copied files and directories).
- `talos.dfy` (`Talos`): `GetNode` and `New`. The plan of `New` is read back as a sequence of cluster actions. Its
  ordering properties are proved against a reference state-machine sequence (`SequencerActions`).
- `talos_proxy.dfy` (`TalosProxy`): `Proxy`, and the Envoy configuration rendered from a routing table.
- `kcp.dfy` (`Kcp`): `Config`, `Client`, `setupWorkspace` and `WithWorkspaces`.
- `cue_schemas.dfy` (`CueSchemas`): `Container`, the URL lists of `VendorGithub` and `ExportGithub`, module naming,
  `VendorKubernetes`, `VendorTimoni`, `Vendor`, `Export` and `Publish`.
- `kind.dfy` (`Kind`): `CreateCluster`, `DeleteCluster`, `Kubeconfig` and `Logs`.

The Go loops that reassign `ctr`, append to `files` or accumulate `result` are Dafny methods with loops. Each method is
proved equal to a specification function. The lemmas then state the properties of that function.

## Model

| member | source | states |
|---|---|---|
| Talos.FirstControlPlaneIsFirstHost | talos/main.go:170-172 | the node `bootstrap` and `kubeconfig` address, `<name>-controlplane-1`, is the control plane with index 1 |
| Talos.HostnameInjective | talos/main.go:158-169 | two host names `<name>-<role>-<i>` are equal only for the same role and index |
| Talos.ClusterHostnamesDistinct | talos/main.go:158-169 | the control-plane host names followed by the worker host names are pairwise distinct |
| Talos.DashedCachePaths | talos/main.go:79-87 | each cache volume suffix is its mount path with `/` replaced by `-` |
| Talos.NodeCachePaths | talos/main.go:79-87 | a node mounts cache volumes at exactly the eight cache paths |
| Talos.NodeVolumeNames | talos/main.go:79-87 | every cache volume is named by the host name followed by its dashed mount path |
| Talos.NodeCacheVolumes | talos/main.go:79-87 | a node's set of cache volume names is the host name joined with each dashed cache path |
| Talos.VolumeNameUnambiguous | talos/main.go:79-87 | a volume name determines both the host name and the mount path |
| Talos.NodeVolumesDisjoint | talos/main.go:79-87 | nodes with different host names share no cache volume, whatever their versions |
| Talos.NodeRuntime | talos/main.go:75-95 | a node runs the Talos image of its version, writes its host name to `/etc/hostname`, mounts a temporary `/tmp` and runs `/sbin/init` privileged |
| Talos.NodePlatform | talos/main.go:88 | a node's `PLATFORM` is `container` |
| Talos.NodePorts | talos/main.go:94 | a node exposes exactly port 50000 |
| Talos.ProvisionNodes | talos/main.go:158-169 | each of the two binding loops appends, for index 1..n in order, a binding of the node and its `apply` of the role's config |
| Talos.AwaitNodes | talos/main.go:174-181 | each of the two wait loops appends one `kubectl wait` per node, index 1..n in order |
| Talos.New | talos/main.go:114-191 | fewer than one control plane is rejected first, then a negative worker count, each with its message; otherwise the result holds the parameters and the two credential files of the cluster plan |
| Talos.NodeSetupActions | talos/main.go:158-169 | the binding loop's steps read as: bind node i, then apply the role's config with a patch setting host name i, for i = 1..n |
| Talos.NodeWaitsActions | talos/main.go:174-181 | the wait loop's steps read as one registration wait per host name, in index order |
| Talos.ToolchainActions | talos/main.go:141-157 | the tool container generates configs with endpoint `https://<vip>:6443`, SANs `localhost,<vip>` and the VIP patch for control planes only, then sets the talosctl endpoint to the VIP |
| Talos.BootstrapActions | talos/main.go:170-173 | after the nodes come: bootstrap on `<name>-controlplane-1` as endpoint and node, the TCP wait on `<vip>:6443` with a 300 s timeout, then the kubeconfig fetch |
| Talos.TracePhases | talos/main.go:141-181 | the actions of `New`'s plan are those of its six phases, concatenated in order |
| Talos.PlanActions | talos/main.go:141-181 | the actions of `New`'s plan are exactly the reference bootstrap sequence |
| Talos.ProvisionIndex | talos/main.go:158-169 | provisioning has two actions per host: the binding of host k at 2k and its apply at 2k+1 |
| Talos.PhaseOrder | talos/main.go:141-181 | in any sequence laid out in the five phases, the only bootstrap follows all applies and precedes all registration waits |
| Talos.BootstrapOnce | talos/main.go:170-173 | the sequence has exactly one bootstrap, at position 2 + 2·(control planes + workers); every apply comes before it and every node wait after the kubeconfig fetch |
| Talos.BootstrapTarget | talos/main.go:170-173 | the bootstrap targets control plane 1 as endpoint and node, and is followed by the VIP wait and the kubeconfig fetch |
| Talos.SequencerPhasesInPlace | talos/main.go:141-181 | the sequence splits at fixed positions into config generation, control-plane provisioning, worker provisioning, boot, and registration waits |
| Talos.ProvisionApplied | talos/main.go:158-169 | provisioning applies a config to exactly the given hosts |
| Talos.AppliedBeforeBootstrap | talos/main.go:158-173 | before the bootstrap, exactly the cluster's control planes and workers have had a config applied |
| Talos.BootstrapNodeInCluster | talos/main.go:136-140 | the bootstrap node is one of the cluster's hosts exactly when there is at least one control plane, which `New` checks first |
| Talos.RegistrationsDistinct | talos/main.go:174-181 | over distinct hosts, the registration waits are one per host, all distinct, covering every host |
| Talos.WaitsOncePerNode | talos/main.go:174-181 | the sequence ends with exactly one node wait per cluster host, control planes first, and has length 5 + 3·(control planes + workers) |
| Talos.NodeSetupBindings | talos/main.go:158-169 | the binding loop binds node i to `GetNode` of its host name and version, in index order |
| Talos.ClusterBindings | talos/main.go:141-181 | the whole plan binds exactly the control planes then the workers, each to its node container |
| TalosProxy.EnvoyConfigSlots | talos/main.go:22-73 | the rendered configuration is fixed text with the VIP in exactly two slots, the two backend addresses |
| TalosProxy.EnvoyVipRoundTrip | talos/main.go:204 | the VIP can be read back from the rendered configuration |
| TalosProxy.BindBackends | talos/main.go:196-203 | each binding loop of `Proxy` appends the first n nodes of the role as backends, in index order |
| TalosProxy.Serve | talos/main.go:204-208 | the proxy writes `envoy.yaml`, runs Envoy on it, and exposes 6443 and 50000 |
| TalosProxy.Proxy | talos/main.go:193-209 | `Proxy` is the Envoy image with the backends bound, serving the configuration rendered for the cluster's VIP |
| TalosProxy.BackendBindingsServices | talos/main.go:196-203 | a binding loop binds each host name of the role to its backend container |
| TalosProxy.EnvoyServeKinds | talos/main.go:204-208 | serving adds no binding, and its only exposed ports are 6443 then 50000 |
| TalosProxy.ProxyBindings | talos/main.go:196-203 | the proxy binds the control planes then the workers, each to its backend |
| TalosProxy.ProxySameHosts | talos/main.go:196-203 | the proxy binds the same host names, in the same order, as the cluster plan of `New` |
| TalosProxy.BackendPorts | talos/main.go:198-202 | a control-plane backend exposes 50000 and 6443; a worker backend exposes only 50000 |
| TalosProxy.ProxyBackendPorts | talos/main.go:196-203 | every proxied backend exposes 50000, and exposes 6443 exactly when it is a control plane |
| TalosProxy.ProxyPorts | talos/main.go:204-208 | the proxy exposes exactly 6443 and 50000 |
| TalosProxy.ServePorts | talos/main.go:204-208 | behind any bindings, serving exposes exactly 6443 and 50000 |
| Kcp.SkipTlsVerify | kcp/main.go:126 | the edit sets skip-TLS on the first cluster and keeps its name and server, the later clusters, apiVersion, kind, users, contexts and current context; on a document without clusters it creates one with empty name and server |
| Kcp.ConfigCredentials | kcp/main.go:88-126 | a successful `Config` is exactly the document with apiVersion `v1`, kind `Config`, the one cluster `root` at `<endpoint>/clusters/root` skipping TLS verification, the one user `admin` with the client certificate and key, the one context `current` joining them, and current context `current`; resolving that context yields cluster `root` and user `admin` |
| Kcp.ConfigErrors | kcp/main.go:71-131 | `Config` fails exactly when an input does, with the first error, in the order endpoint, certificate, key, edit |
| Kcp.Client | kcp/main.go:145-159 | a `Config` error is returned as is; otherwise the client runs exactly the download-and-unpack commands of create-workspace, kcp and ws in that order, copies the config to `/.kube/config` as its second-last step, and ends with `KUBECONFIG` set to `/.kube/config` |
| Kcp.PluginUrlNamesArchive | kcp/main.go:152-157 | each plugin's download URL ends in the archive name that the following `tar` unpacks |
| Kcp.ClientCommands | kcp/main.go:150-157 | the client runs download-and-unpack for create-workspace, kcp and ws, in that order, and nothing else |
| Kcp.ClientSteps | kcp/main.go:150-159 | the client's steps are the six plugin commands, then the kubeconfig file, then `KUBECONFIG` |
| Kcp.ClientKubeconfig | kcp/main.go:158-159 | the client copies the config to `/.kube/config` and sets `KUBECONFIG` to it |
| Kcp.SetupWorkspace | kcp/main.go:162-193 | the recursive loop over entries computes the walk: the listing error, or the plan for the whole tree |
| Kcp.WithWorkspaces | kcp/main.go:209-216 | a client error is returned as is; with a client, an error listing the root directory is returned as is |
| Kcp.WalkEntriesPlan | kcp/main.go:175-191 | a successful walk over entries appends exactly one apply per manifest, a create and an echo of the recorded exit code per sub-directory, nothing else, and none of a child's own steps |
| Kcp.EntryCode | kcp/main.go:178-189 | the step an entry adds is determined by the entry and the exit code it records |
| Kcp.WalkPlan | kcp/main.go:168-192 | a successful walk first switches to workspace `:<path>` and copies the directory to `/build`, then adds the entries' steps |
| Kcp.WalkListingError | kcp/main.go:171-174 | an error listing a directory aborts its walk with that error |
| Kcp.WalkEntriesError | kcp/main.go:181-188 | a failing entry ends the walk with its error, and later entries are not looked at |
| Kcp.SubdirectoryError | kcp/main.go:178-188 | a sub-directory entry fails with its walk's error or its exit code's error; a missing directory fails |
| Kcp.WalkFlatEntries | kcp/main.go:175-177 | over entries without sub-directories the walk cannot fail, applies the manifests in entry order, and ignores other entries |
| Kcp.NonSubdirectoryEntry | kcp/main.go:175-190 | a manifest adds exactly its apply; an entry that is neither a manifest nor a directory adds nothing |
| Kcp.WithWorkspacesPlan | kcp/main.go:209-219 | a successful result keeps the client's base and its steps, then copies the tree to `/build` and works there, switches to workspace `:root` with the tree, and then adds exactly the root entries' plan: one apply per manifest, a create and an echo per sub-directory, and nothing else |
| Kcp.SubdirectoryWorkspace | kcp/main.go:178-181 | a child's walk starts with the parent's create, then switches to `:<path>:<dir>` with the sub-directory |
| CueSchemas.DownloadUrls | cue-schemas/main.go:123-143 | the URL-building loops compute the URL list, or the first listing error |
| CueSchemas.AppendDirUrls | cue-schemas/main.go:130-140 | the directory loop appends the YAML download URLs of each directory, or returns the first listing error |
| CueSchemas.AppendYamlUrls | cue-schemas/main.go:135-139 | the entry loop appends the download URLs of the YAML entries |
| CueSchemas.DirUrlsFailure | cue-schemas/main.go:130-134 | the first directory whose listing fails ends the list with that error |
| CueSchemas.DirUrlsOk | cue-schemas/main.go:130-134 | the directory part succeeds exactly when every listing does |
| CueSchemas.SourceUrlsFailure | cue-schemas/main.go:130-134 | a source's URL list fails with the error of its first failing directory |
| CueSchemas.YamlUrlsKept | cue-schemas/main.go:135-139 | the kept URLs are exactly those of entries named `.yml` or `.yaml`, at most one per entry |
| CueSchemas.SourceUrlsLayout | cue-schemas/main.go:126-143 | raw file URLs come first, in order, built from owner, repo and ref; then the directory URLs; then the release asset URLs, in order |
| CueSchemas.RefDefaultsToTag | cue-schemas/main.go:123-125 | an empty ref gives the same URLs as the tag |
| CueSchemas.VendorGithub | cue-schemas/main.go:101-159 | the loops of `VendorGithub` compute its plan: URLs, one `timoni mod vendor crds` per URL, then every generated module renamed |
| CueSchemas.RenameModuleSteps | cue-schemas/main.go:152-156 | a module is initialised as `<mod>@v<major>` in its directory, copied to `<mod>-<tag>`, and the original is removed |
| CueSchemas.RenameModulesSteps | cue-schemas/main.go:151-157 | the module loop adds five steps per module, in module order, each block renaming one module |
| CueSchemas.ModuleMajorRoundTrip | cue-schemas/main.go:153 | the major version can be read back from `<mod>@v<major>` |
| CueSchemas.MinorVersionRoundTrip | cue-schemas/main.go:78 | the `<major>.<minor>` passed to `timoni mod vendor k8s` determines both numbers |
| CueSchemas.Vendor | cue-schemas/main.go:170-196 | `Vendor` computes its plan: validation, parsing, the GitHub loop, the Kubernetes loop, then timoni |
| CueSchemas.VendorSources | cue-schemas/main.go:180-189 | the GitHub loop copies every entry of each source's vendored directory, or stops at the first failing source |
| CueSchemas.CopyEntries | cue-schemas/main.go:185-188 | each entry of a vendored directory is copied under its own name, in order |
| CueSchemas.AddKubernetes | cue-schemas/main.go:190-193 | the Kubernetes loop copies `k8s.io-<version>` from each source's vendored directory, in order |
| CueSchemas.GithubDirsFailure | cue-schemas/main.go:180-184 | once a source fails, the GitHub loop ends with that source's error |
| CueSchemas.GithubDirsOk | cue-schemas/main.go:180-189 | the GitHub loop succeeds exactly when every source does |
| CueSchemas.VendorChecksFirst | cue-schemas/main.go:171-178 | a validation error wins over a parse error, and a parse error over the sources |
| CueSchemas.VendorFirstFailure | cue-schemas/main.go:180-184 | `Vendor` fails with the error of the first failing GitHub source |
| CueSchemas.VendorSucceeds | cue-schemas/main.go:180-189 | a valid, parsed file vendors successfully exactly when every GitHub source does |
| CueSchemas.AddEntriesNames | cue-schemas/main.go:186-188 | the entry loop copies exactly the entries' names, in order |
| CueSchemas.GithubDirsNames | cue-schemas/main.go:180-189 | the GitHub loop copies exactly each source's module directories, in source order |
| CueSchemas.KubernetesDirsNames | cue-schemas/main.go:190-193 | the Kubernetes loop copies exactly `k8s.io-<version>` per source, in order |
| CueSchemas.VendorLayout | cue-schemas/main.go:179-195 | the vendored root holds the GitHub modules, then the Kubernetes directories, then `timoni.sh-<TimoniVersion>`, last |
| CueSchemas.ExportGithub | cue-schemas/main.go:254-305 | the loops of `ExportGithub` compute its plan: the URL list, one `wget` per URL, then import and export to `crds.cue` |
| CueSchemas.DownloadsCommands | cue-schemas/main.go:299-301 | the download loop runs one `wget` per URL, in order |
| CueSchemas.ExportGithubCommands | cue-schemas/main.go:297-304 | an exported file is `crds.cue`, made by the toolchain's commands, the downloads of the source's URLs, `cue import`, then `cue export` |
| CueSchemas.ConvertCommands | cue-schemas/main.go:299-303 | after the downloads come exactly `cue import` and `cue export` |
| CueSchemas.Export | cue-schemas/main.go:308-326 | `Export` computes its plan: validation, parsing, then one file per source |
| CueSchemas.ExportSources | cue-schemas/main.go:317-324 | the loop stores each source's CRDs as `<owner>-<repo>.cue`, or stops at the first failing source |
| CueSchemas.ExportFilesFailure | cue-schemas/main.go:318-322 | once a source fails, the export loop ends with that source's error |
| CueSchemas.ExportFilesOk | cue-schemas/main.go:318-324 | the export loop succeeds exactly when every source does |
| CueSchemas.ExportFirstFailure | cue-schemas/main.go:318-322 | `Export` fails with the error of the first failing source |
| CueSchemas.ExportSucceeds | cue-schemas/main.go:309-324 | a validation error comes first; `Export` succeeds exactly when the file is valid, parses, and every source exports |
| CueSchemas.ExportFilesNames | cue-schemas/main.go:323 | the export loop stores exactly the given file names, in order |
| CueSchemas.ExportLayout | cue-schemas/main.go:317-325 | the exported root holds `<owner>-<repo>.cue` per source, in source order |
| CueSchemas.Publish | cue-schemas/main.go:199-251 | `Publish` computes its plan: the vendor error, the registry guard, the password login, then the publish loop |
| CueSchemas.PublishEach | cue-schemas/main.go:237-250 | the loop publishes each module at the last `-`-separated field of its name, gathering outputs until the first failure |
| CueSchemas.PublishModulesFailure | cue-schemas/main.go:245-247 | a failing publish returns the output gathered so far together with its error |
| CueSchemas.PublishAllSucceed | cue-schemas/main.go:237-250 | when every publish succeeds, the result is all outputs concatenated in order, with no error |
| CueSchemas.PublishFirstFailure | cue-schemas/main.go:237-250 | the first failing publish ends the loop with the outputs before it and its error |
| CueSchemas.PublishGuard | cue-schemas/main.go:216-223 | a vendor error is returned with empty output; with neither registry nor service, the result is the missing-registry error |
| CueSchemas.PublishRegistry | cue-schemas/main.go:221-228 | with a registry, modules are published to it with no binding; with only a service, `CUE_REGISTRY` is `<endpoint>+insecure` and the service is bound as `registry` |
| CueSchemas.RegistrySettings | cue-schemas/main.go:221-228 | the registry container's `CUE_REGISTRY` and bindings, by case |
| CueSchemas.PublishCommandKeeps | cue-schemas/main.go:241-243 | publishing a module keeps the base's registry setting and bindings |
| CueSchemas.PublishVersionRoundTrip | cue-schemas/main.go:239-240 | the version published for `<mod>-<tag>` is the tag exactly when the tag has no `-` |
| Kind.FindCluster | kind/main.go:79-83 | the loop over the split listing finds the name exactly when it is one of the lines |
| Kind.CreateArgv | kind/main.go:93 | the create command line starts with `kind create cluster --name <name>` |
| Kind.CreateArgvRoundTrip | kind/main.go:84-93 | the command line determines the name, whether a config is passed, and the image; the config flag comes before the image flag |
| Kind.CreateCluster | kind/main.go:62-95 | the guard and the flag loop compute the create plan |
| Kind.CreateClusterGuard | kind/main.go:79-83 | creating a listed name fails with the already-exists error; otherwise the create command's output is returned |
| Kind.CreateContainerFiles | kind/main.go:85-93 | the create container adds exactly the create command, and `cluster.yaml` exactly when a config is given |
| Kind.CheckListed | kind/main.go:105-113 | the shared guard, as written: the listing error, or an error when the name is listed |
| Kind.DeleteCluster | kind/main.go:98-116 | `DeleteCluster` as written |
| Kind.Kubeconfig | kind/main.go:119-137 | `Kubeconfig` as written |
| Kind.Logs | kind/main.go:140-158 | `Logs` as written |
| Kind.ExistingGuardAsWritten | kind/main.go:109-113 | the guard as written refuses exactly the listed names |
| Kind.ExportTargets | kind/main.go:135-157 | `Kubeconfig` returns file `config` from `kind export kubeconfig`, and `Logs` returns directory `logs` from `kind export logs`, for the given name |
| Kind.DeleteRefusesExistingCluster | kind/main.go:109-115 | with listing `kind`, deleting `kind` fails with "does not exists", and deleting `other` runs the delete |
| Kind.ExportsRefuseExistingCluster | kind/main.go:130-157 | with listing `kind`, both exports of `kind` fail with "does not exists", and both exports of `other` go ahead |
| Kind.ListedGuard | kind/main.go:109-113 | corrected guard: it errors exactly when the name is not listed |
| Kind.DeleteListedCluster | kind/main.go:109-115 | corrected `DeleteCluster`: it refuses an unlisted name and deletes a listed one |
| Kind.KubeconfigOfListed | kind/main.go:130-136 | corrected `Kubeconfig`: it succeeds exactly for a listed name, with file `config` |
| Kind.LogsOfListed | kind/main.go:151-157 | corrected `Logs`: it succeeds exactly for a listed name, with directory `logs` |
| Kind.GuardsDisagree | kind/main.go:109-113 | on every listing, the guard as written lets through exactly the names the corrected guard refuses |
| Text.Split | kind/main.go:79 | `strings.Split` gives at least one part, and no part contains the separator |
| Text.SplitJoin | kind/main.go:79 | splitting a join of separator-free parts gives the parts back |
| Text.JoinSplit | kind/main.go:79 | joining the parts of a split gives the string back |
| Text.LastFieldAfterSeparator | cue-schemas/main.go:239-240 | the last field after a separator is the suffix exactly when the suffix has no separator |
| Text.ParseNatToString | talos/main.go:159 | `%d` formatting of a natural number can be parsed back |
| Text.TrimSuffix | kcp/main.go:179 | trimming a present suffix leaves what precedes it; an absent suffix leaves the string unchanged |

## Left out

- Running anything. `Stdout`, `Start`, `Endpoint`, `Entries`, `ExitCode`, `Contents` and `GetContents` are engine or
  network calls. Their results are inputs (`stdout`, `exitCode`, `Tree`, `World`, `ConfigInputs`).
- The plan is a list of steps. Whether the engine caches, runs or fails a step is not modelled. `wait4x`,
  `kubectl wait` and their timeouts appear only as steps.
- Kcp.Config: the alpine container that installs `jq` and `curl`, polls the server's `/healthz` until it answers 200,
  and runs the `jq` edit is not part of any plan. Only its outcome is modelled, as described in the next line.
- kcp `New` and `Server` are not modelled: openssl certificate generation, and a `CACHEBUST` value taken from the clock.
  `Config` takes the server's endpoint, or its start error, as an input.
- Kcp.Config: `json.Marshal` and the `jq` edit are given as a structured document and `SkipTlsVerify`. The marshalling
  error and the wrapping of the output in a file called `config` are not modelled. The edit container's failure is an
  input (`edit`).
- A walk into a missing sub-directory fails in the engine, not in `setupWorkspace`. The model gives that failure the
  error `MissingDirectory`. Otherwise the tree of directory listings is an input.
- Talos `New` returns Go `error` values built with `fmt.Errorf`. The model returns their messages as strings.
- cue-schemas `Validate`: the embedded `schema.cue` and the CUE validation are not part of this model. `Vendor` and
  `Export` take the validation result and the YAML parse result as inputs.
- Semver parsing is an input (`World.semver`), so the panic of `semver.MustParse` on a malformed version is not modelled.
- cue-schemas ignores the errors of `Entries` and `Contents` (`mods, _ :=`). The model takes their results as
  listings, so an error there shows up as whatever list the engine returns. kcp checks both: a listing error in
  `setupWorkspace` is `Tree.listing`, and a certificate or key error in `Config` is `ConfigInputs.certificate` or `key`.
- Container options without effect on the properties are not modelled: the `Owner` options, `WithEntrypoint`, exposed
  port descriptions, and the exec options other than privileged nesting.
- TalosProxy: the lemmas about bindings and ports hold for any configuration text. The text itself is tied to the VIP by
  `EnvoyConfigSlots` and `EnvoyVipRoundTrip`.
- Talos and kcp `Kubeconfig`/`Talosconfig` fields are files of the plan. Their contents are not modelled.
- The `cue` and `oscal` modules forward an argument list to a CLI and have no logic to state; they are not part of this
  model.
- Kind `New` (`KindContainer`) and `Version` are plain builder chains. No property is stated about them beyond their use
  by the guards.
- Kcp.WithWorkspaces: `root` is an optional argument without a default, and an omitted one reaches `WithDirectory` and
  `setupWorkspace` as nil. The model always takes a directory, so the nil-`root` case is not modelled.
- Talos.GetNode: a node's cache volumes are keyed by host name and reused across runs; the code does not purge stale
  certificates from them, and neither does the model.
- Talos.New: the kubeconfig is fetched from `<name>-controlplane-1` as `talosctl` writes it; the code does not rewrite its
  server address to the proxy, and neither does the model.
- TalosProxy.EnvoyConfig: both Envoy clusters of the template route to the VIP, not to the control-plane host names.
- Go's `int` in Talos `New` is unbounded in the model. Overflow of `i+1` is not modelled.

## Findings

| source | as written | input that shows it | evidently intended | confidence | as-written member | corrected member |
|---|---|---|---|---|---|---|
| kind/main.go:109-113 | `DeleteCluster` returns "Cluster with name '<name>' does not exists" when the name IS in the cluster list, and runs `kind delete cluster` when it is not | `kind get clusters` prints `kind`; `DeleteCluster("kind")` is refused, `DeleteCluster("other")` runs the delete | refuse a name that is not listed, delete a listed one (the message and the `CreateCluster` guard say so) | high; not executed | Kind.DeleteRefusesExistingCluster | Kind.DeleteListedCluster |
| kind/main.go:130-134 | `Kubeconfig` refuses a listed cluster with "does not exists" and exports a kubeconfig for an unlisted name | `kind get clusters` prints `kind`; `Kubeconfig("kind")` fails, `Kubeconfig("other")` succeeds | export only for a listed cluster | high; not executed | Kind.ExportsRefuseExistingCluster | Kind.KubeconfigOfListed |
| kind/main.go:151-155 | `Logs` refuses a listed cluster with "does not exists" and exports logs for an unlisted name | `kind get clusters` prints `kind`; `Logs("kind")` fails, `Logs("other")` succeeds | export logs only for a listed cluster | high; not executed | Kind.ExportsRefuseExistingCluster | Kind.LogsOfListed |
