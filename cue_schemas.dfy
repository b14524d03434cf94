/** The cue-schemas module: vendoring CUE schemas for Kubernetes CRDs published on
    GitHub, for the Kubernetes API and for timoni, exporting CRDs as CUE, and publishing
    the vendored modules to a CUE registry. The GitHub contents API, directory listings,
    semantic-version parsing and command output are engine or library results, passed in
    as a `World` of functions. */
module CueSchemas {
  import opened Wrappers
  import opened Text
  import opened Dagger

  /** The module's settings: the timoni and CUE versions its toolchain installs. */
  datatype Schemas = Schemas(timoniVersion: string, cueVersion: string)

  /** The parts of a semantic version the module uses. */
  datatype Semver = Semver(major: nat, minor: nat)

  /** One entry of a `sources.yaml` `github` list. */
  datatype GithubSource = GithubSource(
    tag: string, ref: string, owner: string, repo: string,
    files: seq<string>, dirs: seq<string>, assets: seq<string>)

  datatype KubernetesSource = KubernetesSource(version: string)

  /** A parsed `sources.yaml`. */
  datatype Sources = Sources(github: seq<GithubSource>, kubernetes: seq<KubernetesSource>)

  /** An item of a GitHub repository directory listing. */
  datatype GithubEntry = GithubEntry(name: string, downloadUrl: string)

  /** What the module learns from outside:
      - `listing(owner, repo, path, ref)`: the GitHub contents API's listing of a directory;
      - `entries(dir)`: a directory's entry names (the source ignores a listing error, which
        leaves the list empty);
      - `semver(s)`: the parsed version;
      - `endpoint(svc)`: a service's endpoint;
      - `stdout(ctr)`: the output of running a container, or its failure. */
  datatype World = World(
    listing: (string, string, string, string) -> Result<seq<GithubEntry>>,
    entries: Directory -> seq<string>,
    semver: string -> Semver,
    endpoint: Container -> string,
    stdout: Container -> Result<string>)

  const TimoniCommand := "github.com/stefanprodan/timoni/cmd/timoni"
  const CueCommand := "cuelang.org/go/cmd/cue"

  /** `Container`: golang with timoni and cue installed at the configured versions. */
  function Toolchain(m: Schemas): Container {
    From("golang")
      .WithExec(["go", "install", TimoniCommand + "@" + m.timoniVersion])
      .WithExec(["go", "install", CueCommand + "@" + m.cueVersion])
  }

  // ---------------------------------------------------------------------------
  // Download URLs of a GitHub source

  const RawHost := "https://raw.githubusercontent.com/"
  const ReleaseHost := "https://github.com/"

  /** The ref URLs are built for: the source's `ref`, or its `tag` when `ref` is empty. */
  function Ref(src: GithubSource): string {
    if src.ref == "" then src.tag else src.ref
  }

  function RawFileUrl(owner: string, repo: string, ref: string, path: string): string {
    RawHost + owner + "/" + repo + "/refs/tags/" + ref + "/" + path
  }

  function AssetUrl(owner: string, repo: string, ref: string, name: string): string {
    ReleaseHost + owner + "/" + repo + "/releases/download/" + ref + "/" + name
  }

  function RawUrls(owner: string, repo: string, ref: string, files: seq<string>): seq<string> {
    seq(|files|, k requires 0 <= k < |files| => RawFileUrl(owner, repo, ref, files[k]))
  }

  function AssetUrls(owner: string, repo: string, ref: string, assets: seq<string>): seq<string> {
    seq(|assets|, k requires 0 <= k < |assets| => AssetUrl(owner, repo, ref, assets[k]))
  }

  predicate IsYaml(name: string) {
    HasSuffix(name, ".yml") || HasSuffix(name, ".yaml")
  }

  /** The download URLs of the YAML entries of a listing, in listing order. */
  function YamlUrls(entries: seq<GithubEntry>): seq<string> {
    if entries == [] then []
    else
      var last := entries[|entries| - 1];
      YamlUrls(entries[..|entries| - 1]) + (if IsYaml(last.name) then [last.downloadUrl] else [])
  }

  /** The YAML download URLs of the listed directories, in order, or the error of the
      first listing that fails. */
  function DirUrls(listing: (string, string, string, string) -> Result<seq<GithubEntry>>,
                   owner: string, repo: string, ref: string, dirs: seq<string>): Result<seq<string>>
  {
    if dirs == [] then Ok([])
    else
      match DirUrls(listing, owner, repo, ref, dirs[..|dirs| - 1])
      case Err(e) => Err(e)
      case Ok(urls) =>
        match listing(owner, repo, dirs[|dirs| - 1], ref)
        case Err(e) => Err(e)
        case Ok(entries) => Ok(urls + YamlUrls(entries))
  }

  /** The URLs of everything a GitHub source names: the raw files, then the YAML files of
      the directories, then the release assets. */
  function SourceUrls(src: GithubSource,
                      listing: (string, string, string, string) -> Result<seq<GithubEntry>>): Result<seq<string>>
  {
    var ref := Ref(src);
    match DirUrls(listing, src.owner, src.repo, ref, src.dirs)
    case Err(e) => Err(e)
    case Ok(dirUrls) => Ok(RawUrls(src.owner, src.repo, ref, src.files) + dirUrls + AssetUrls(src.owner, src.repo, ref, src.assets))
  }

  /** The loops that fill `files` in `VendorGithub` and `ExportGithub`. */
  method DownloadUrls(src: GithubSource,
                      listing: (string, string, string, string) -> Result<seq<GithubEntry>>)
    returns (r: Result<seq<string>>)
    ensures r == SourceUrls(src, listing)
  {
    var ref := src.ref;
    if ref == "" {
      ref := src.tag;
    }
    var files: seq<string> := [];
    for i := 0 to |src.files|
      invariant files == RawUrls(src.owner, src.repo, ref, src.files[..i])
    {
      files := files + [RawFileUrl(src.owner, src.repo, ref, src.files[i])];
    }
    assert src.files[..|src.files|] == src.files;
    var withDirs := AppendDirUrls(files, listing, src.owner, src.repo, ref, src.dirs);
    if withDirs.Err? {
      return Err(withDirs.error);
    }
    files := withDirs.value;
    for i := 0 to |src.assets|
      invariant files == withDirs.value + AssetUrls(src.owner, src.repo, ref, src.assets[..i])
    {
      files := files + [AssetUrl(src.owner, src.repo, ref, src.assets[i])];
    }
    assert src.assets[..|src.assets|] == src.assets;
    assert ref == Ref(src);
    return Ok(files);
  }

  /** The directory loop of `DownloadUrls`: appends the YAML download URLs of each listed
      directory, or stops at the first listing that fails. */
  method AppendDirUrls(files: seq<string>, listing: (string, string, string, string) -> Result<seq<GithubEntry>>,
                       owner: string, repo: string, ref: string, dirs: seq<string>)
    returns (r: Result<seq<string>>)
    ensures r.Ok? == DirUrls(listing, owner, repo, ref, dirs).Ok?
    ensures r.Ok? ==> r.value == files + DirUrls(listing, owner, repo, ref, dirs).value
    ensures r.Err? ==> r.error == DirUrls(listing, owner, repo, ref, dirs).error
  {
    var acc := files;
    for i := 0 to |dirs|
      invariant DirUrls(listing, owner, repo, ref, dirs[..i]).Ok?
      invariant acc == files + DirUrls(listing, owner, repo, ref, dirs[..i]).value
    {
      assert dirs[..i + 1][..i] == dirs[..i];
      var listed := listing(owner, repo, dirs[i], ref);
      if listed.Err? {
        DirUrlsFailure(listing, owner, repo, ref, dirs, i);
        return Err(listed.error);
      }
      acc := AppendYamlUrls(acc, listed.value);
    }
    assert dirs[..|dirs|] == dirs;
    return Ok(acc);
  }

  /** The inner loop of `DownloadUrls`: appends the download URL of each YAML entry. */
  method AppendYamlUrls(files: seq<string>, entries: seq<GithubEntry>) returns (r: seq<string>)
    ensures r == files + YamlUrls(entries)
  {
    r := files;
    for j := 0 to |entries|
      invariant r == files + YamlUrls(entries[..j])
    {
      assert entries[..j + 1][..j] == entries[..j];
      if IsYaml(entries[j].name) {
        r := r + [entries[j].downloadUrl];
      }
    }
    assert entries[..|entries|] == entries;
  }

  /** Once a directory listing fails, the URL list is that listing's error, whatever the
      directories after it. */
  lemma {:induction false} DirUrlsFailure(listing: (string, string, string, string) -> Result<seq<GithubEntry>>,
                                          owner: string, repo: string, ref: string, dirs: seq<string>, k: nat)
    requires k < |dirs|
    requires DirUrls(listing, owner, repo, ref, dirs[..k]).Ok?
    requires listing(owner, repo, dirs[k], ref).Err?
    ensures DirUrls(listing, owner, repo, ref, dirs) == Err(listing(owner, repo, dirs[k], ref).error)
  {
    if |dirs| == k + 1 {
      assert dirs[..|dirs| - 1] == dirs[..k];
    } else {
      assert dirs[..|dirs| - 1][..k] == dirs[..k];
      DirUrlsFailure(listing, owner, repo, ref, dirs[..|dirs| - 1], k);
    }
  }

  /** The directory part succeeds exactly when every listing does. */
  lemma {:induction false} DirUrlsOk(listing: (string, string, string, string) -> Result<seq<GithubEntry>>,
                                     owner: string, repo: string, ref: string, dirs: seq<string>)
    ensures DirUrls(listing, owner, repo, ref, dirs).Ok?
            <==> forall k | 0 <= k < |dirs| :: listing(owner, repo, dirs[k], ref).Ok?
  {
    if dirs != [] {
      var init := dirs[..|dirs| - 1];
      DirUrlsOk(listing, owner, repo, ref, init);
      assert forall k | 0 <= k < |init| :: init[k] == dirs[k];
    }
  }

  /** The first failing directory decides the error of the whole URL list. */
  lemma SourceUrlsFailure(src: GithubSource,
                          listing: (string, string, string, string) -> Result<seq<GithubEntry>>, k: nat)
    requires k < |src.dirs|
    requires forall j | 0 <= j < k :: listing(src.owner, src.repo, src.dirs[j], Ref(src)).Ok?
    requires listing(src.owner, src.repo, src.dirs[k], Ref(src)).Err?
    ensures SourceUrls(src, listing) == Err(listing(src.owner, src.repo, src.dirs[k], Ref(src)).error)
  {
    var prefix := src.dirs[..k];
    assert forall j | 0 <= j < |prefix| :: prefix[j] == src.dirs[j];
    DirUrlsOk(listing, src.owner, src.repo, Ref(src), prefix);
    DirUrlsFailure(listing, src.owner, src.repo, Ref(src), src.dirs, k);
  }

  /** Exactly the download URLs of the `.yml` and `.yaml` entries are kept, in order and
      no more of them than there are entries. */
  lemma {:induction false} YamlUrlsKept(entries: seq<GithubEntry>)
    ensures |YamlUrls(entries)| <= |entries|
    ensures (set u | u in YamlUrls(entries)) == (set e | e in entries && IsYaml(e.name) :: e.downloadUrl)
  {
    if entries != [] {
      var init := entries[..|entries| - 1];
      var last := entries[|entries| - 1];
      YamlUrlsKept(init);
      assert entries == init + [last];
      assert (set e | e in entries && IsYaml(e.name) :: e.downloadUrl)
          == (set e | e in init && IsYaml(e.name) :: e.downloadUrl)
             + (if IsYaml(last.name) then {last.downloadUrl} else {});
    }
  }

  /** The URL list is ordered raw files, directory entries, release assets: the first
      `|files|` URLs are the raw file URLs and the last `|assets|` the asset URLs, each at
      the ref that `Ref` picks. */
  lemma SourceUrlsLayout(src: GithubSource,
                         listing: (string, string, string, string) -> Result<seq<GithubEntry>>)
    requires SourceUrls(src, listing).Ok?
    ensures var urls := SourceUrls(src, listing).value;
            && |src.files| + |src.assets| <= |urls|
            && (forall k | 0 <= k < |src.files| ::
                  urls[k] == RawFileUrl(src.owner, src.repo, Ref(src), src.files[k]))
            && urls[|src.files|..|urls| - |src.assets|] == DirUrls(listing, src.owner, src.repo, Ref(src), src.dirs).value
            && (forall k | 0 <= k < |src.assets| ::
                  urls[|urls| - |src.assets| + k] == AssetUrl(src.owner, src.repo, Ref(src), src.assets[k]))
  {
    var urls := SourceUrls(src, listing).value;
    var raw := RawUrls(src.owner, src.repo, Ref(src), src.files);
    var mid := DirUrls(listing, src.owner, src.repo, Ref(src), src.dirs).value;
    var assets := AssetUrls(src.owner, src.repo, Ref(src), src.assets);
    assert urls == raw + mid + assets;
    assert urls[|src.files|..|urls| - |src.assets|] == mid;
  }

  /** An empty `ref` means the tag: the source gives the same URLs, and asks for the same
      listings, as one whose `ref` is its `tag`. */
  lemma RefDefaultsToTag(src: GithubSource,
                         listing: (string, string, string, string) -> Result<seq<GithubEntry>>)
    requires src.ref == ""
    ensures SourceUrls(src, listing) == SourceUrls(src.(ref := src.tag), listing)
  {
  }

  // ---------------------------------------------------------------------------
  // Vendoring the CRDs of a GitHub source (VendorGithub)

  const ModInit: seq<string> := ["cue", "mod", "init"]

  function VendorCrdArgv(url: string): seq<string> {
    ["timoni", "mod", "vendor", "crds", "-f", url]
  }

  /** The CUE module path of a vendored module: `<mod>@v<major>`. */
  function ModulePath(mod: string, major: nat): string {
    mod + "@v" + NatToString(major)
  }

  function ModuleInitArgv(mod: string, major: nat): seq<string> {
    ["cue", "mod", "init", ModulePath(mod, major), "--source=self"]
  }

  /** The directory a module vendored at `tag` is published from: `<mod>-<tag>`. */
  function VersionedDir(mod: string, tag: string): string {
    mod + "-" + tag
  }

  /** `timoni mod vendor crds -f <url>` for each URL, in order. */
  function VendorCrds(c: Container, urls: seq<string>): Container {
    if urls == [] then c
    else VendorCrds(c, urls[..|urls| - 1]).WithExec(VendorCrdArgv(urls[|urls| - 1]))
  }

  /** The container after vendoring, in `cue.mod/gen`, before the modules are renamed. */
  function GeneratedCrds(m: Schemas, urls: seq<string>): Container {
    VendorCrds(Toolchain(m).WithExec(ModInit), urls).WithWorkdir("cue.mod/gen")
  }

  /** One turn of the module loop: initialise `mod` as `<mod>@v<major>` inside it, copy it
      to `<mod>-<tag>` and remove the original. */
  function RenameModule(c: Container, mod: string, major: nat, tag: string): Container {
    var initialised := c.WithWorkdir(mod).WithExec(ModuleInitArgv(mod, major)).WithWorkdir("..");
    initialised.WithDirectory(VersionedDir(mod, tag), initialised.DirAt(mod)).WithoutDirectory(mod)
  }

  function RenameModules(c: Container, mods: seq<string>, major: nat, tag: string): Container {
    if mods == [] then c
    else RenameModule(RenameModules(c, mods[..|mods| - 1], major, tag), mods[|mods| - 1], major, tag)
  }

  /** `VendorGithub`: the generated modules' directory, or the first listing error. */
  function VendorGithubPlan(m: Schemas, src: GithubSource, w: World): Result<Directory> {
    match SourceUrls(src, w.listing)
    case Err(e) => Err(e)
    case Ok(urls) =>
      var gen := GeneratedCrds(m, urls);
      Ok(RenameModules(gen, w.entries(gen.DirAt(".")), w.semver(src.tag).major, src.tag).DirAt("."))
  }

  method VendorGithub(m: Schemas, src: GithubSource, w: World) returns (r: Result<Directory>)
    ensures r == VendorGithubPlan(m, src, w)
  {
    var major := w.semver(src.tag).major;
    var files := DownloadUrls(src, w.listing);
    if files.Err? {
      return Err(files.error);
    }
    var urls := files.value;
    var ctr := Toolchain(m).WithExec(ModInit);
    for i := 0 to |urls|
      invariant ctr == VendorCrds(Toolchain(m).WithExec(ModInit), urls[..i])
    {
      assert urls[..i + 1][..i] == urls[..i];
      ctr := ctr.WithExec(VendorCrdArgv(urls[i]));
    }
    assert urls[..|urls|] == urls;
    ctr := ctr.WithWorkdir("cue.mod/gen");
    var mods := w.entries(ctr.DirAt("."));
    ghost var gen := ctr;
    for i := 0 to |mods|
      invariant ctr == RenameModules(gen, mods[..i], major, src.tag)
    {
      assert mods[..i + 1][..i] == mods[..i];
      var mod := mods[i];
      ctr := ctr.WithWorkdir(mod).WithExec(ModuleInitArgv(mod, major)).WithWorkdir("..");
      ctr := ctr.WithDirectory(VersionedDir(mod, src.tag), ctr.DirAt(mod)).WithoutDirectory(mod);
    }
    assert mods[..|mods|] == mods;
    return Ok(ctr.DirAt("."));
  }

  /** What one module turn appends: enter the module, initialise it, step back out, copy
      the module as it now stands to `<mod>-<tag>`, remove the original. */
  lemma RenameModuleSteps(c: Container, mod: string, major: nat, tag: string)
    ensures var r := RenameModule(c, mod, major, tag);
            var initialised := Container(c.base, c.steps + [Workdir(mod), Exec(ModuleInitArgv(mod, major), Plain), Workdir("..")]);
            && r.base == c.base
            && r.steps == initialised.steps + [CopyDir(VersionedDir(mod, tag), DirIn(initialised, mod)), RemoveDir(mod)]
  {
    var initialised := c.WithWorkdir(mod).WithExec(ModuleInitArgv(mod, major)).WithWorkdir("..");
    assert initialised.steps == c.steps + [Workdir(mod), Exec(ModuleInitArgv(mod, major), Plain), Workdir("..")];
  }

  /** The module loop takes the modules in order, five steps each, after the steps already
      there: the block of module `k` is one `RenameModule` turn on the container as it
      stood after the modules before it. */
  lemma {:induction false} RenameModulesSteps(c: Container, mods: seq<string>, major: nat, tag: string)
    ensures var r := RenameModules(c, mods, major, tag);
            && r.base == c.base
            && |r.steps| == |c.steps| + 5 * |mods|
            && r.steps[..|c.steps|] == c.steps
    ensures var r := RenameModules(c, mods, major, tag);
            forall k | 0 <= k < |mods| ::
              RenameModule(Container(c.base, r.steps[..|c.steps| + 5 * k]), mods[k], major, tag)
              == Container(c.base, r.steps[..|c.steps| + 5 * k + 5])
  {
    if mods != [] {
      var init := mods[..|mods| - 1];
      var prev := RenameModules(c, init, major, tag);
      RenameModulesSteps(c, init, major, tag);
      RenameModuleSteps(prev, mods[|mods| - 1], major, tag);
      var r := RenameModules(c, mods, major, tag);
      assert r.steps[..|prev.steps|] == prev.steps;
      forall k | 0 <= k < |mods|
        ensures RenameModule(Container(c.base, r.steps[..|c.steps| + 5 * k]), mods[k], major, tag)
                == Container(c.base, r.steps[..|c.steps| + 5 * k + 5])
      {
        var b := |c.steps| + 5 * k;
        if k < |init| {
          assert mods[k] == init[k];
          assert r.steps[..b] == prev.steps[..b];
          assert r.steps[..b + 5] == prev.steps[..b + 5];
        } else {
          assert r.steps[..b] == prev.steps;
          assert r.steps[..b + 5] == r.steps;
        }
      }
    }
  }

  /** The major version reads back from a module path: the digits after the last `@v`. */
  function ModuleMajor(path: string): Option<nat> {
    var v := LastField(path, '@');
    if |v| >= 2 && v[0] == 'v' && AllDigits(v[1..]) then Some(ParseDigits(v[1..])) else None
  }

  lemma ModuleMajorRoundTrip(mod: string, major: nat)
    ensures ModuleMajor(ModulePath(mod, major)) == Some(major)
  {
    var v := "v" + NatToString(major);
    assert ModulePath(mod, major) == mod + ['@'] + v;
    assert '@' !in v by {
      assert forall i | 1 <= i < |v| :: IsDigit(v[i]);
    }
    LastFieldAfterSeparator(mod, '@', v);
    assert v[1..] == NatToString(major);
    ParseNatToString(major);
  }

  // ---------------------------------------------------------------------------
  // Kubernetes API and timoni schemas (VendorKubernetes, VendorTimoni)

  /** The `<major>.<minor>` argument of `timoni mod vendor k8s -v`. */
  function MinorVersion(sv: Semver): string {
    NatToString(sv.major) + "." + NatToString(sv.minor)
  }

  /** Reads `<major>.<minor>` back. */
  function ParseMinorVersion(s: string): Option<Semver> {
    var parts := Split(s, '.');
    if |parts| == 2 && parts[0] != [] && parts[1] != [] && AllDigits(parts[0]) && AllDigits(parts[1])
    then Some(Semver(ParseDigits(parts[0]), ParseDigits(parts[1])))
    else None
  }

  lemma DigitsWithoutDot(n: nat)
    ensures '.' !in NatToString(n)
  {
    var s := NatToString(n);
    assert forall i | 0 <= i < |s| :: IsDigit(s[i]);
  }

  /** The `-v` argument gives back the major and minor version it was built from. */
  lemma MinorVersionRoundTrip(sv: Semver)
    ensures ParseMinorVersion(MinorVersion(sv)) == Some(sv)
  {
    var a := NatToString(sv.major);
    var b := NatToString(sv.minor);
    DigitsWithoutDot(sv.major);
    DigitsWithoutDot(sv.minor);
    SplitAround(a, '.', b);
    SplitWithoutSeparator(a, '.');
    SplitWithoutSeparator(b, '.');
    assert MinorVersion(sv) == a + ['.'] + b;
    assert Split(MinorVersion(sv), '.') == [a, b];
    ParseNatToString(sv.major);
    ParseNatToString(sv.minor);
  }

  function KubernetesDir(version: string): string {
    "k8s.io-" + version
  }

  /** The container holding the vendored `k8s.io` module for `sv`. */
  function KubernetesModule(m: Schemas, sv: Semver): Container {
    Toolchain(m)
      .WithExec(ModInit)
      .WithExec(["timoni", "mod", "vendor", "k8s", "-v", MinorVersion(sv)])
      .WithWorkdir("cue.mod/gen/k8s.io")
      .WithExec(ModuleInitArgv("k8s.io", sv.major))
  }

  /** `VendorKubernetes`: a directory holding the module under `k8s.io-<version>`. */
  function VendorKubernetesPlan(m: Schemas, version: string, sv: Semver): Directory {
    NewContainer().WithDirectory(KubernetesDir(version), KubernetesModule(m, sv).DirAt(".")).DirAt(".")
  }

  function TimoniDir(m: Schemas): string {
    "timoni.sh-" + m.timoniVersion
  }

  /** The container holding the `timoni.sh` module of a fresh timoni module. */
  function TimoniModule(m: Schemas, sv: Semver): Container {
    Toolchain(m)
      .WithExec(["timoni", "mod", "init", "derp"])
      .WithWorkdir("derp/cue.mod/pkg/timoni.sh")
      .WithExec(ModuleInitArgv("timoni.sh", sv.major))
  }

  /** `VendorTimoni`: a directory holding the module under `timoni.sh-<TimoniVersion>`. */
  function VendorTimoniPlan(m: Schemas, sv: Semver): Directory {
    NewContainer().WithDirectory(TimoniDir(m), TimoniModule(m, sv).DirAt(".")).DirAt(".")
  }

  // ---------------------------------------------------------------------------
  // Vendoring a sources.yaml file (Vendor)

  /** Copies each entry `e` of `d` to `e`, in order. */
  function AddEntries(c: Container, d: Directory, es: seq<string>): Container {
    if es == [] then c
    else AddEntries(c, d, es[..|es| - 1]).WithDirectory(es[|es| - 1], SubDir(d, es[|es| - 1]))
  }

  /** What each GitHub source of a file vendors, in source order. */
  function VendoredAll(m: Schemas, srcs: seq<GithubSource>, w: World): (r: seq<Result<Directory>>)
    ensures |r| == |srcs|
  {
    seq(|srcs|, k requires 0 <= k < |srcs| => VendorGithubPlan(m, srcs[k], w))
  }

  /** The GitHub loop of `Vendor`, over what each source vendored: each directory's
      entries are copied in, or the loop stops at the first failure. */
  function GithubDirs(c: Container, vendored: seq<Result<Directory>>, entries: Directory -> seq<string>): Result<Container> {
    if vendored == [] then Ok(c)
    else
      match GithubDirs(c, vendored[..|vendored| - 1], entries)
      case Err(e) => Err(e)
      case Ok(before) =>
        match vendored[|vendored| - 1]
        case Err(e) => Err(e)
        case Ok(d) => Ok(AddEntries(before, d, entries(d)))
  }

  /** The Kubernetes loop of `Vendor`. */
  function KubernetesDirs(m: Schemas, c: Container, srcs: seq<KubernetesSource>, w: World): Container {
    if srcs == [] then c
    else
      var v := srcs[|srcs| - 1].version;
      KubernetesDirs(m, c, srcs[..|srcs| - 1], w)
        .WithDirectory(KubernetesDir(v), SubDir(VendorKubernetesPlan(m, v, w.semver(v)), KubernetesDir(v)))
  }

  /** `Vendor`: the validation error, else the parse error, else the first failing GitHub
      source's error, else the directory of all modules with timoni's last. */
  function VendorPlan(m: Schemas, validation: Option<string>, sources: Result<Sources>, w: World): Result<Directory> {
    if validation.Some? then Err(validation.value)
    else
      match sources
      case Err(e) => Err(e)
      case Ok(s) =>
        match GithubDirs(NewContainer(), VendoredAll(m, s.github, w), w.entries)
        case Err(e) => Err(e)
        case Ok(c) =>
          var k := KubernetesDirs(m, c, s.kubernetes, w);
          var timoni := VendorTimoniPlan(m, w.semver(m.timoniVersion));
          Ok(k.WithDirectory(TimoniDir(m), SubDir(timoni, TimoniDir(m))).DirAt("."))
  }

  method Vendor(m: Schemas, validation: Option<string>, sources: Result<Sources>, w: World)
    returns (r: Result<Directory>)
    ensures r == VendorPlan(m, validation, sources, w)
  {
    if validation.Some? {
      return Err(validation.value);
    }
    if sources.Err? {
      return Err(sources.error);
    }
    var s := sources.value;
    var github := VendorSources(m, s.github, w);
    if github.Err? {
      return Err(github.error);
    }
    var ctr := AddKubernetes(m, github.value, s.kubernetes, w);
    var timoni := VendorTimoniPlan(m, w.semver(m.timoniVersion));
    ctr := ctr.WithDirectory(TimoniDir(m), SubDir(timoni, TimoniDir(m)));
    return Ok(ctr.DirAt("."));
  }

  /** The GitHub loop of `Vendor`. */
  method VendorSources(m: Schemas, srcs: seq<GithubSource>, w: World) returns (r: Result<Container>)
    ensures r == GithubDirs(NewContainer(), VendoredAll(m, srcs, w), w.entries)
  {
    ghost var vendored := VendoredAll(m, srcs, w);
    var ctr := NewContainer();
    for i := 0 to |srcs|
      invariant GithubDirs(NewContainer(), vendored[..i], w.entries) == Ok(ctr)
    {
      var mods := VendorGithub(m, srcs[i], w);
      assert vendored[i] == mods;
      assert vendored[..i + 1][..i] == vendored[..i];
      if mods.Err? {
        GithubDirsFailure(NewContainer(), vendored, w.entries, i);
        return Err(mods.error);
      }
      ctr := CopyEntries(ctr, mods.value, w.entries(mods.value));
      assert GithubDirs(NewContainer(), vendored[..i + 1], w.entries) == Ok(ctr);
    }
    assert vendored[..|srcs|] == vendored;
    return Ok(ctr);
  }

  /** The entry loop of `Vendor`. */
  method CopyEntries(c: Container, d: Directory, es: seq<string>) returns (r: Container)
    ensures r == AddEntries(c, d, es)
  {
    r := c;
    for j := 0 to |es|
      invariant r == AddEntries(c, d, es[..j])
    {
      assert es[..j + 1][..j] == es[..j];
      r := r.WithDirectory(es[j], SubDir(d, es[j]));
    }
    assert es[..|es|] == es;
  }

  /** The Kubernetes loop of `Vendor`. */
  method AddKubernetes(m: Schemas, c: Container, srcs: seq<KubernetesSource>, w: World) returns (r: Container)
    ensures r == KubernetesDirs(m, c, srcs, w)
  {
    r := c;
    for i := 0 to |srcs|
      invariant r == KubernetesDirs(m, c, srcs[..i], w)
    {
      assert srcs[..i + 1][..i] == srcs[..i];
      var v := srcs[i].version;
      var mods := VendorKubernetesPlan(m, v, w.semver(v));
      r := r.WithDirectory(KubernetesDir(v), SubDir(mods, KubernetesDir(v)));
    }
    assert srcs[..|srcs|] == srcs;
  }

  /** Once a GitHub source fails, `Vendor`'s GitHub loop ends with that source's error. */
  lemma {:induction false} GithubDirsFailure(c: Container, vendored: seq<Result<Directory>>,
                                             entries: Directory -> seq<string>, k: nat)
    requires k < |vendored|
    requires GithubDirs(c, vendored[..k], entries).Ok?
    requires vendored[k].Err?
    ensures GithubDirs(c, vendored, entries) == Err(vendored[k].error)
  {
    if |vendored| == k + 1 {
      assert vendored[..|vendored| - 1] == vendored[..k];
    } else {
      assert vendored[..|vendored| - 1][..k] == vendored[..k];
      GithubDirsFailure(c, vendored[..|vendored| - 1], entries, k);
    }
  }

  /** The GitHub loop succeeds exactly when every source does. */
  lemma {:induction false} GithubDirsOk(c: Container, vendored: seq<Result<Directory>>, entries: Directory -> seq<string>)
    ensures GithubDirs(c, vendored, entries).Ok? <==> forall k | 0 <= k < |vendored| :: vendored[k].Ok?
  {
    if vendored != [] {
      var init := vendored[..|vendored| - 1];
      GithubDirsOk(c, init, entries);
      assert forall k | 0 <= k < |init| :: init[k] == vendored[k];
    }
  }

  /** `Vendor` checks the file before it reads it: a validation error wins over a parse
      error, and a parse error over anything the sources would do. */
  lemma VendorChecksFirst(m: Schemas, validation: Option<string>, sources: Result<Sources>, w: World)
    ensures validation.Some? ==> VendorPlan(m, validation, sources, w) == Err(validation.value)
    ensures validation.None? && sources.Err? ==> VendorPlan(m, validation, sources, w) == Err(sources.error)
  {
  }

  /** `Vendor` fails with the error of the first failing GitHub source. */
  lemma VendorFirstFailure(m: Schemas, s: Sources, w: World, k: nat)
    requires k < |s.github|
    requires forall j | 0 <= j < k :: VendorGithubPlan(m, s.github[j], w).Ok?
    requires VendorGithubPlan(m, s.github[k], w).Err?
    ensures VendorPlan(m, None, Ok(s), w) == Err(VendorGithubPlan(m, s.github[k], w).error)
  {
    var vendored := VendoredAll(m, s.github, w);
    var prefix := vendored[..k];
    assert forall j | 0 <= j < |prefix| :: prefix[j] == vendored[j];
    GithubDirsOk(NewContainer(), prefix, w.entries);
    GithubDirsFailure(NewContainer(), vendored, w.entries, k);
  }

  /** A checked and parsed file vendors successfully exactly when every GitHub source does. */
  lemma VendorSucceeds(m: Schemas, s: Sources, w: World)
    ensures VendorPlan(m, None, Ok(s), w).Ok? <==> forall k | 0 <= k < |s.github| :: VendorGithubPlan(m, s.github[k], w).Ok?
  {
    var vendored := VendoredAll(m, s.github, w);
    GithubDirsOk(NewContainer(), vendored, w.entries);
    assert forall k | 0 <= k < |vendored| :: vendored[k] == VendorGithubPlan(m, s.github[k], w);
  }

  /** The module directories the GitHub sources contribute, in source order. */
  function VendoredNames(vendored: seq<Result<Directory>>, entries: Directory -> seq<string>): seq<string> {
    if vendored == [] then []
    else
      VendoredNames(vendored[..|vendored| - 1], entries)
      + match vendored[|vendored| - 1]
        case Ok(d) => entries(d)
        case Err(_) => []
  }

  function KubernetesNames(srcs: seq<KubernetesSource>): seq<string> {
    seq(|srcs|, k requires 0 <= k < |srcs| => KubernetesDir(srcs[k].version))
  }

  lemma {:induction false} AddEntriesNames(c: Container, d: Directory, es: seq<string>)
    ensures CopiedDirs(AddEntries(c, d, es).steps) == CopiedDirs(c.steps) + es
  {
    if es != [] {
      var init := es[..|es| - 1];
      AddEntriesNames(c, d, init);
      CollectThen(AddEntries(c, d, init), CopyDir(es[|es| - 1], SubDir(d, es[|es| - 1])), CopiedDirPath);
      assert init + [es[|es| - 1]] == es;
    } else {
      assert CopiedDirs(c.steps) + [] == CopiedDirs(c.steps);
    }
  }

  lemma {:induction false} GithubDirsNames(c: Container, vendored: seq<Result<Directory>>, entries: Directory -> seq<string>)
    requires GithubDirs(c, vendored, entries).Ok?
    ensures CopiedDirs(GithubDirs(c, vendored, entries).value.steps) == CopiedDirs(c.steps) + VendoredNames(vendored, entries)
  {
    if vendored != [] {
      var init := vendored[..|vendored| - 1];
      GithubDirsNames(c, init, entries);
      var d := vendored[|vendored| - 1].value;
      AddEntriesNames(GithubDirs(c, init, entries).value, d, entries(d));
    } else {
      assert CopiedDirs(c.steps) + [] == CopiedDirs(c.steps);
    }
  }

  lemma {:induction false} KubernetesDirsNames(m: Schemas, c: Container, srcs: seq<KubernetesSource>, w: World)
    ensures CopiedDirs(KubernetesDirs(m, c, srcs, w).steps) == CopiedDirs(c.steps) + KubernetesNames(srcs)
  {
    if srcs != [] {
      var init := srcs[..|srcs| - 1];
      var v := srcs[|srcs| - 1].version;
      KubernetesDirsNames(m, c, init, w);
      CollectThen(KubernetesDirs(m, c, init, w),
                  CopyDir(KubernetesDir(v), SubDir(VendorKubernetesPlan(m, v, w.semver(v)), KubernetesDir(v))),
                  CopiedDirPath);
      assert KubernetesNames(srcs) == KubernetesNames(init) + [KubernetesDir(v)];
    } else {
      assert CopiedDirs(c.steps) + [] == CopiedDirs(c.steps);
    }
  }

  /** What `Vendor` returns: the root of a container whose copied directories are the
      GitHub modules in source order, then `k8s.io-<version>` for each Kubernetes source,
      then `timoni.sh-<TimoniVersion>`, last. */
  lemma VendorLayout(m: Schemas, s: Sources, w: World)
    requires VendorPlan(m, None, Ok(s), w).Ok?
    ensures var d := VendorPlan(m, None, Ok(s), w).value;
            && d.DirIn? && d.path == "."
            && CopiedDirs(d.ctr.steps)
               == VendoredNames(VendoredAll(m, s.github, w), w.entries) + KubernetesNames(s.kubernetes) + [TimoniDir(m)]
  {
    var vendored := VendoredAll(m, s.github, w);
    var c := GithubDirs(NewContainer(), vendored, w.entries).value;
    GithubDirsNames(NewContainer(), vendored, w.entries);
    KubernetesDirsNames(m, c, s.kubernetes, w);
    var k := KubernetesDirs(m, c, s.kubernetes, w);
    var timoni := VendorTimoniPlan(m, w.semver(m.timoniVersion));
    var last := CopyDir(TimoniDir(m), SubDir(timoni, TimoniDir(m)));
    assert VendorPlan(m, None, Ok(s), w) == Ok(k.Then(last).DirAt("."));
    CollectThen(k, last, CopiedDirPath);
    assert CopiedDirs(NewContainer().steps) == [];
    assert CopiedDirs(c.steps) == VendoredNames(vendored, w.entries);
  }

  // ---------------------------------------------------------------------------
  // Exporting CRDs as CUE (ExportGithub, Export)

  const ImportArgv: seq<string> :=
    ["cue", "import", "-fl", "strings.ToLower(kind)", "-l", "strings.ToLower(metadata.name)", "-o", "all.cue"]
  const ExportArgv: seq<string> :=
    ["cue", "export", "-e", "customresourcedefinition", "-o", "crds.cue", "all.cue"]

  /** `wget <url>` for each URL, in order. */
  function Downloads(c: Container, urls: seq<string>): Container {
    if urls == [] then c
    else Downloads(c, urls[..|urls| - 1]).WithExec(["wget", urls[|urls| - 1]])
  }

  /** `ExportGithub`: `crds.cue` of a container that downloads every URL of the source
      and converts them, or the first listing error. */
  function ExportGithubPlan(m: Schemas, src: GithubSource,
                            listing: (string, string, string, string) -> Result<seq<GithubEntry>>): Result<File>
  {
    match SourceUrls(src, listing)
    case Err(e) => Err(e)
    case Ok(urls) =>
      Ok(Downloads(Toolchain(m).WithWorkdir("/tmp/gen"), urls).WithExec(ImportArgv).WithExec(ExportArgv).FileAt("crds.cue"))
  }

  method ExportGithub(m: Schemas, src: GithubSource,
                      listing: (string, string, string, string) -> Result<seq<GithubEntry>>)
    returns (r: Result<File>)
    ensures r == ExportGithubPlan(m, src, listing)
  {
    var files := DownloadUrls(src, listing);
    if files.Err? {
      return Err(files.error);
    }
    var urls := files.value;
    var ctr := Toolchain(m).WithWorkdir("/tmp/gen");
    for i := 0 to |urls|
      invariant ctr == Downloads(Toolchain(m).WithWorkdir("/tmp/gen"), urls[..i])
    {
      assert urls[..i + 1][..i] == urls[..i];
      ctr := ctr.WithExec(["wget", urls[i]]);
    }
    assert urls[..|urls|] == urls;
    ctr := ctr.WithExec(ImportArgv).WithExec(ExportArgv);
    return Ok(ctr.FileAt("crds.cue"));
  }

  function WgetCommands(urls: seq<string>): seq<seq<string>> {
    seq(|urls|, k requires 0 <= k < |urls| => ["wget", urls[k]])
  }

  lemma {:induction false} DownloadsCommands(c: Container, urls: seq<string>)
    ensures Commands(Downloads(c, urls).steps) == Commands(c.steps) + WgetCommands(urls)
  {
    if urls != [] {
      var init := urls[..|urls| - 1];
      DownloadsCommands(c, init);
      CollectThen(Downloads(c, init), Exec(["wget", urls[|urls| - 1]], Plain), ExecArgv);
      assert WgetCommands(urls) == WgetCommands(init) + [["wget", urls[|urls| - 1]]];
    } else {
      assert Commands(c.steps) + [] == Commands(c.steps);
    }
  }

  /** `ExportGithub` downloads every URL of the source, in order, after installing the
      toolchain and before converting them, and returns `crds.cue`. */
  lemma ExportGithubCommands(m: Schemas, src: GithubSource,
                             listing: (string, string, string, string) -> Result<seq<GithubEntry>>)
    requires ExportGithubPlan(m, src, listing).Ok?
    ensures var f := ExportGithubPlan(m, src, listing).value;
            && f.FileIn? && f.path == "crds.cue"
            && Commands(f.ctr.steps)
               == Commands(Toolchain(m).steps) + WgetCommands(SourceUrls(src, listing).value) + [ImportArgv, ExportArgv]
  {
    var urls := SourceUrls(src, listing).value;
    var start := Toolchain(m).WithWorkdir("/tmp/gen");
    assert ExportGithubPlan(m, src, listing)
        == Ok(Downloads(start, urls).WithExec(ImportArgv).WithExec(ExportArgv).FileAt("crds.cue"));
    CollectThen(Toolchain(m), Workdir("/tmp/gen"), ExecArgv);
    ConvertCommands(start, urls);
  }

  lemma ConvertCommands(c: Container, urls: seq<string>)
    ensures Commands(Downloads(c, urls).WithExec(ImportArgv).WithExec(ExportArgv).steps)
            == Commands(c.steps) + WgetCommands(urls) + [ImportArgv, ExportArgv]
  {
    var d := Downloads(c, urls);
    DownloadsCommands(c, urls);
    CollectThen(d, Exec(ImportArgv, Plain), ExecArgv);
    CollectThen(d.WithExec(ImportArgv), Exec(ExportArgv, Plain), ExecArgv);
  }

  /** The name `Export` gives a source's CRDs: `<owner>-<repo>.cue`. */
  function ExportFileName(src: GithubSource): string {
    src.owner + "-" + src.repo + ".cue"
  }

  /** What each GitHub source of a file exports, with the name it is stored under. */
  function ExportedAll(m: Schemas, srcs: seq<GithubSource>,
                       listing: (string, string, string, string) -> Result<seq<GithubEntry>>): (r: seq<(string, Result<File>)>)
    ensures |r| == |srcs|
  {
    seq(|srcs|, k requires 0 <= k < |srcs| => (ExportFileName(srcs[k]), ExportGithubPlan(m, srcs[k], listing)))
  }

  /** The GitHub loop of `Export`, over what each source exported. */
  function ExportFiles(c: Container, exported: seq<(string, Result<File>)>): Result<Container> {
    if exported == [] then Ok(c)
    else
      match ExportFiles(c, exported[..|exported| - 1])
      case Err(e) => Err(e)
      case Ok(before) =>
        var (name, crds) := exported[|exported| - 1];
        match crds
        case Err(e) => Err(e)
        case Ok(f) => Ok(before.WithFile(name, f))
  }

  /** `Export`: the validation error, else the parse error, else the first failing
      source's error, else a directory with one CUE file per source. */
  function ExportPlan(m: Schemas, validation: Option<string>, sources: Result<Sources>,
                      listing: (string, string, string, string) -> Result<seq<GithubEntry>>): Result<Directory>
  {
    if validation.Some? then Err(validation.value)
    else
      match sources
      case Err(e) => Err(e)
      case Ok(s) =>
        match ExportFiles(NewContainer(), ExportedAll(m, s.github, listing))
        case Err(e) => Err(e)
        case Ok(c) => Ok(c.DirAt("."))
  }

  method Export(m: Schemas, validation: Option<string>, sources: Result<Sources>,
                listing: (string, string, string, string) -> Result<seq<GithubEntry>>)
    returns (r: Result<Directory>)
    ensures r == ExportPlan(m, validation, sources, listing)
  {
    if validation.Some? {
      return Err(validation.value);
    }
    if sources.Err? {
      return Err(sources.error);
    }
    var ctr := ExportSources(m, sources.value.github, listing);
    if ctr.Err? {
      return Err(ctr.error);
    }
    return Ok(ctr.value.DirAt("."));
  }

  /** The GitHub loop of `Export`. */
  method ExportSources(m: Schemas, srcs: seq<GithubSource>,
                       listing: (string, string, string, string) -> Result<seq<GithubEntry>>)
    returns (r: Result<Container>)
    ensures r == ExportFiles(NewContainer(), ExportedAll(m, srcs, listing))
  {
    ghost var exported := ExportedAll(m, srcs, listing);
    var ctr := NewContainer();
    for i := 0 to |srcs|
      invariant ExportFiles(NewContainer(), exported[..i]) == Ok(ctr)
    {
      var crds := ExportGithub(m, srcs[i], listing);
      assert exported[i] == (ExportFileName(srcs[i]), crds);
      assert exported[..i + 1][..i] == exported[..i];
      if crds.Err? {
        ExportFilesFailure(NewContainer(), exported, i);
        return Err(crds.error);
      }
      ctr := ctr.WithFile(ExportFileName(srcs[i]), crds.value);
      assert ExportFiles(NewContainer(), exported[..i + 1]) == Ok(ctr);
    }
    assert exported[..|srcs|] == exported;
    return Ok(ctr);
  }

  lemma {:induction false} ExportFilesFailure(c: Container, exported: seq<(string, Result<File>)>, k: nat)
    requires k < |exported|
    requires ExportFiles(c, exported[..k]).Ok?
    requires exported[k].1.Err?
    ensures ExportFiles(c, exported) == Err(exported[k].1.error)
  {
    if |exported| == k + 1 {
      assert exported[..|exported| - 1] == exported[..k];
    } else {
      assert exported[..|exported| - 1][..k] == exported[..k];
      ExportFilesFailure(c, exported[..|exported| - 1], k);
    }
  }

  lemma {:induction false} ExportFilesOk(c: Container, exported: seq<(string, Result<File>)>)
    ensures ExportFiles(c, exported).Ok? <==> forall k | 0 <= k < |exported| :: exported[k].1.Ok?
  {
    if exported != [] {
      var init := exported[..|exported| - 1];
      ExportFilesOk(c, init);
      assert forall k | 0 <= k < |init| :: init[k] == exported[k];
    }
  }

  /** `Export` fails with the error of the first failing source. */
  lemma ExportFirstFailure(m: Schemas, s: Sources,
                           listing: (string, string, string, string) -> Result<seq<GithubEntry>>, k: nat)
    requires k < |s.github|
    requires forall j | 0 <= j < k :: ExportGithubPlan(m, s.github[j], listing).Ok?
    requires ExportGithubPlan(m, s.github[k], listing).Err?
    ensures ExportPlan(m, None, Ok(s), listing) == Err(ExportGithubPlan(m, s.github[k], listing).error)
  {
    var exported := ExportedAll(m, s.github, listing);
    var prefix := exported[..k];
    assert forall j | 0 <= j < |prefix| :: prefix[j] == exported[j];
    ExportFilesOk(NewContainer(), prefix);
    ExportFilesFailure(NewContainer(), exported, k);
  }

  /** `Export` checks the file before reading it, and succeeds exactly when the file is
      valid, parses, and every source exports. */
  lemma ExportSucceeds(m: Schemas, validation: Option<string>, sources: Result<Sources>,
                       listing: (string, string, string, string) -> Result<seq<GithubEntry>>)
    ensures validation.Some? ==> ExportPlan(m, validation, sources, listing) == Err(validation.value)
    ensures ExportPlan(m, validation, sources, listing).Ok?
            <==> validation.None? && sources.Ok?
                 && forall k | 0 <= k < |sources.value.github| :: ExportGithubPlan(m, sources.value.github[k], listing).Ok?
  {
    if sources.Ok? {
      var exported := ExportedAll(m, sources.value.github, listing);
      ExportFilesOk(NewContainer(), exported);
      assert forall k | 0 <= k < |exported| :: exported[k].1 == ExportGithubPlan(m, sources.value.github[k], listing);
    }
  }

  function ExportNames(srcs: seq<GithubSource>): seq<string> {
    seq(|srcs|, k requires 0 <= k < |srcs| => ExportFileName(srcs[k]))
  }

  function FileNames(exported: seq<(string, Result<File>)>): seq<string> {
    seq(|exported|, k requires 0 <= k < |exported| => exported[k].0)
  }

  lemma {:induction false} ExportFilesNames(c: Container, exported: seq<(string, Result<File>)>)
    requires ExportFiles(c, exported).Ok?
    ensures CopiedFiles(ExportFiles(c, exported).value.steps) == CopiedFiles(c.steps) + FileNames(exported)
  {
    if exported != [] {
      var init := exported[..|exported| - 1];
      var (name, crds) := exported[|exported| - 1];
      ExportFilesNames(c, init);
      CollectThen(ExportFiles(c, init).value, CopyFile(name, crds.value), CopiedFilePath);
      assert FileNames(exported) == FileNames(init) + [name];
    } else {
      assert CopiedFiles(c.steps) + [] == CopiedFiles(c.steps);
    }
  }

  /** `Export` returns the root of a container holding one file per source, named
      `<owner>-<repo>.cue`, in source order. */
  lemma ExportLayout(m: Schemas, s: Sources,
                     listing: (string, string, string, string) -> Result<seq<GithubEntry>>)
    requires ExportPlan(m, None, Ok(s), listing).Ok?
    ensures var d := ExportPlan(m, None, Ok(s), listing).value;
            d.DirIn? && d.path == "." && CopiedFiles(d.ctr.steps) == ExportNames(s.github)
  {
    var exported := ExportedAll(m, s.github, listing);
    ExportFilesNames(NewContainer(), exported);
    assert CopiedFiles(NewContainer().steps) == [];
    assert FileNames(exported) == ExportNames(s.github);
  }

  // ---------------------------------------------------------------------------
  // Publishing to a CUE registry (Publish)

  /** `Publish`'s registry options: the registry URL, the login user, the password
      secret, and a registry service to bind. */
  datatype Registry = Registry(registry: string, username: string, password: Option<string>, service: Option<Container>)

  /** `Publish`'s two results: the output gathered so far and the error, if any. */
  datatype Published = Published(output: string, error: Option<string>)

  const NoRegistry := "one of registry or service is required"
  const DockerConfig := "/root/.docker/config.json"

  /** The toolchain pointed at the registry: `CUE_REGISTRY` is the registry URL, or, with
      no URL but a service, the service is bound as `registry` and `CUE_REGISTRY` becomes
      `<endpoint>+insecure`. */
  function RegistryContainer(m: Schemas, reg: Registry, endpoint: Container -> string): Container {
    var c := Toolchain(m).WithEnvVariable("CUE_REGISTRY", reg.registry);
    if reg.registry == "" && reg.service.Some? then
      c.WithServiceBinding("registry", reg.service.value)
       .WithEnvVariable("CUE_REGISTRY", endpoint(reg.service.value) + "+insecure")
    else c
  }

  /** The docker credentials file a `docker login` with the password secret writes. */
  function LoginFile(username: string, registry: string, password: string): File {
    From("docker")
      .Then(SecretEnv("REGISTRY_PASSWORD", password))
      .WithExec(["sh", "-c", "docker login -u " + username + " -p $REGISTRY_PASSWORD " + registry])
      .FileAt(DockerConfig)
  }

  /** The container every module is published from. */
  function PublishBase(m: Schemas, reg: Registry, endpoint: Container -> string): Container {
    var c := RegistryContainer(m, reg, endpoint);
    if reg.password.Some? then c.WithFile(DockerConfig, LoginFile(reg.username, reg.registry, reg.password.value))
    else c
  }

  /** The version a module directory is published at: its last `-`-separated field. */
  function PublishVersion(dir: string): string {
    LastField(dir, '-')
  }

  function PublishCommand(base: Container, dir: Directory, mod: string): Container {
    base.WithDirectory(mod, SubDir(dir, mod)).WithWorkdir(mod).WithExec(["cue", "mod", "publish", PublishVersion(mod)])
  }

  /** The publish loop: outputs are gathered until the first failure, which ends it. */
  function PublishModules(base: Container, dir: Directory, mods: seq<string>, stdout: Container -> Result<string>): Published {
    if mods == [] then Published("", None)
    else
      var before := PublishModules(base, dir, mods[..|mods| - 1], stdout);
      if before.error.Some? then before
      else
        match stdout(PublishCommand(base, dir, mods[|mods| - 1]))
        case Err(e) => Published(before.output, Some(e))
        case Ok(out) => Published(before.output + out, None)
  }

  /** `Publish`: vendor, check that there is a registry, publish every vendored module. */
  function PublishPlan(m: Schemas, validation: Option<string>, sources: Result<Sources>, w: World, reg: Registry): Published {
    match VendorPlan(m, validation, sources, w)
    case Err(e) => Published("", Some(e))
    case Ok(dir) =>
      if reg.registry == "" && reg.service.None? then Published("", Some(NoRegistry))
      else PublishModules(PublishBase(m, reg, w.endpoint), dir, w.entries(dir), w.stdout)
  }

  method Publish(m: Schemas, validation: Option<string>, sources: Result<Sources>, w: World, reg: Registry)
    returns (p: Published)
    ensures p == PublishPlan(m, validation, sources, w, reg)
  {
    var dir := Vendor(m, validation, sources, w);
    if dir.Err? {
      return Published("", Some(dir.error));
    }
    var mods := w.entries(dir.value);
    var ctr := Toolchain(m).WithEnvVariable("CUE_REGISTRY", reg.registry);
    if reg.registry == "" && reg.service.None? {
      return Published("", Some(NoRegistry));
    } else if reg.registry == "" {
      var endpoint := w.endpoint(reg.service.value);
      ctr := ctr.WithServiceBinding("registry", reg.service.value).WithEnvVariable("CUE_REGISTRY", endpoint + "+insecure");
    }
    if reg.password.Some? {
      var docker := LoginFile(reg.username, reg.registry, reg.password.value);
      ctr := ctr.WithFile(DockerConfig, docker);
    }
    assert ctr == PublishBase(m, reg, w.endpoint);
    assert PublishPlan(m, validation, sources, w, reg) == PublishModules(ctr, dir.value, mods, w.stdout);
    p := PublishEach(ctr, dir.value, mods, w.stdout);
  }

  /** The module loop of `Publish`. */
  method PublishEach(ctr: Container, dir: Directory, mods: seq<string>, stdout: Container -> Result<string>)
    returns (p: Published)
    ensures p == PublishModules(ctr, dir, mods, stdout)
  {
    var result := "";
    for i := 0 to |mods|
      invariant PublishModules(ctr, dir, mods[..i], stdout) == Published(result, None)
    {
      assert mods[..i + 1][..i] == mods[..i];
      var parts := Split(mods[i], '-');
      var version := parts[|parts| - 1];
      var out := stdout(ctr.WithDirectory(mods[i], SubDir(dir, mods[i])).WithWorkdir(mods[i])
                          .WithExec(["cue", "mod", "publish", version]));
      if out.Err? {
        PublishModulesFailure(ctr, dir, mods, stdout, i);
        return Published(result, Some(out.error));
      }
      result := result + out.value;
    }
    assert mods[..|mods|] == mods;
    return Published(result, None);
  }

  lemma {:induction false} PublishModulesFailure(base: Container, dir: Directory, mods: seq<string>,
                                                 stdout: Container -> Result<string>, k: nat)
    requires k < |mods|
    requires PublishModules(base, dir, mods[..k], stdout).error.None?
    requires stdout(PublishCommand(base, dir, mods[k])).Err?
    ensures PublishModules(base, dir, mods, stdout)
            == Published(PublishModules(base, dir, mods[..k], stdout).output, Some(stdout(PublishCommand(base, dir, mods[k])).error))
  {
    if |mods| == k + 1 {
      assert mods[..|mods| - 1] == mods[..k];
    } else {
      assert mods[..|mods| - 1][..k] == mods[..k];
      PublishModulesFailure(base, dir, mods[..|mods| - 1], stdout, k);
    }
  }

  /** The outputs of publishing each module, concatenated in module order. */
  function Outputs(base: Container, dir: Directory, mods: seq<string>, stdout: Container -> Result<string>): string {
    if mods == [] then ""
    else
      Outputs(base, dir, mods[..|mods| - 1], stdout)
      + match stdout(PublishCommand(base, dir, mods[|mods| - 1]))
        case Ok(out) => out
        case Err(_) => ""
  }

  /** When every module publishes, the result is all their outputs, in order. */
  lemma {:induction false} PublishAllSucceed(base: Container, dir: Directory, mods: seq<string>,
                                             stdout: Container -> Result<string>)
    requires forall k | 0 <= k < |mods| :: stdout(PublishCommand(base, dir, mods[k])).Ok?
    ensures PublishModules(base, dir, mods, stdout) == Published(Outputs(base, dir, mods, stdout), None)
  {
    if mods != [] {
      var init := mods[..|mods| - 1];
      assert forall k | 0 <= k < |init| :: init[k] == mods[k];
      PublishAllSucceed(base, dir, init, stdout);
    }
  }

  /** When module `k` is the first that fails, the result is that failure together with
      the outputs of the modules before it. */
  lemma PublishFirstFailure(base: Container, dir: Directory, mods: seq<string>,
                            stdout: Container -> Result<string>, k: nat)
    requires k < |mods|
    requires forall j | 0 <= j < k :: stdout(PublishCommand(base, dir, mods[j])).Ok?
    requires stdout(PublishCommand(base, dir, mods[k])).Err?
    ensures PublishModules(base, dir, mods, stdout)
            == Published(Outputs(base, dir, mods[..k], stdout), Some(stdout(PublishCommand(base, dir, mods[k])).error))
  {
    var prefix := mods[..k];
    assert forall j | 0 <= j < |prefix| :: prefix[j] == mods[j];
    PublishAllSucceed(base, dir, prefix, stdout);
    PublishModulesFailure(base, dir, mods, stdout, k);
  }

  /** `Publish` fails before publishing anything when vendoring fails, and when there is
      neither a registry URL nor a service. */
  lemma PublishGuard(m: Schemas, validation: Option<string>, sources: Result<Sources>, w: World, reg: Registry)
    ensures VendorPlan(m, validation, sources, w).Err?
            ==> PublishPlan(m, validation, sources, w, reg) == Published("", Some(VendorPlan(m, validation, sources, w).error))
    ensures VendorPlan(m, validation, sources, w).Ok? && reg.registry == "" && reg.service.None?
            ==> PublishPlan(m, validation, sources, w, reg) == Published("", Some(NoRegistry))
  {
  }

  /** Each module is published from a container whose `CUE_REGISTRY` is the registry URL
      when one is given, and `<endpoint>+insecure` of the bound `registry` service
      otherwise; the service is bound exactly in that second case. */
  lemma PublishRegistry(m: Schemas, reg: Registry, endpoint: Container -> string, dir: Directory, mod: string)
    requires reg.registry != "" || reg.service.Some?
    ensures var c := PublishCommand(PublishBase(m, reg, endpoint), dir, mod);
            && (reg.registry != "" ==> EnvValue(c.steps, "CUE_REGISTRY") == Some(reg.registry) && Bindings(c.steps) == [])
            && (reg.registry == "" ==> EnvValue(c.steps, "CUE_REGISTRY") == Some(endpoint(reg.service.value) + "+insecure")
                                       && Bindings(c.steps) == [("registry", reg.service.value)])
  {
    RegistrySettings(m, reg, endpoint);
    var r := RegistryContainer(m, reg, endpoint);
    if reg.password.Some? {
      var login := CopyFile(DockerConfig, LoginFile(reg.username, reg.registry, reg.password.value));
      EnvValueThen(r, login, "CUE_REGISTRY");
      CollectThen(r, login, BoundService);
    }
    PublishCommandKeeps(PublishBase(m, reg, endpoint), dir, mod);
  }

  lemma RegistrySettings(m: Schemas, reg: Registry, endpoint: Container -> string)
    ensures var r := RegistryContainer(m, reg, endpoint);
            && (reg.registry == "" && reg.service.Some? ==>
                  EnvValue(r.steps, "CUE_REGISTRY") == Some(endpoint(reg.service.value) + "+insecure")
                  && Bindings(r.steps) == [("registry", reg.service.value)])
            && (reg.registry != "" || reg.service.None? ==>
                  EnvValue(r.steps, "CUE_REGISTRY") == Some(reg.registry) && Bindings(r.steps) == [])
  {
    var t := Toolchain(m);
    CollectNone(t.steps, BoundService);
    var set0 := t.WithEnvVariable("CUE_REGISTRY", reg.registry);
    EnvValueThen(t, Env("CUE_REGISTRY", reg.registry), "CUE_REGISTRY");
    CollectThen(t, Env("CUE_REGISTRY", reg.registry), BoundService);
    if reg.registry == "" && reg.service.Some? {
      var svc := reg.service.value;
      var bound := set0.WithServiceBinding("registry", svc);
      CollectThen(set0, Bind("registry", svc), BoundService);
      CollectThen(bound, Env("CUE_REGISTRY", endpoint(svc) + "+insecure"), BoundService);
      EnvValueThen(bound, Env("CUE_REGISTRY", endpoint(svc) + "+insecure"), "CUE_REGISTRY");
    }
  }

  /** Publishing a module sets no variable and binds no service. */
  lemma PublishCommandKeeps(b: Container, dir: Directory, mod: string)
    ensures EnvValue(PublishCommand(b, dir, mod).steps, "CUE_REGISTRY") == EnvValue(b.steps, "CUE_REGISTRY")
    ensures Bindings(PublishCommand(b, dir, mod).steps) == Bindings(b.steps)
  {
    var c1 := b.WithDirectory(mod, SubDir(dir, mod));
    var c2 := c1.WithWorkdir(mod);
    var publish := Exec(["cue", "mod", "publish", PublishVersion(mod)], Plain);
    EnvValueThen(b, CopyDir(mod, SubDir(dir, mod)), "CUE_REGISTRY");
    EnvValueThen(c1, Workdir(mod), "CUE_REGISTRY");
    EnvValueThen(c2, publish, "CUE_REGISTRY");
    CollectThen(b, CopyDir(mod, SubDir(dir, mod)), BoundService);
    CollectThen(c1, Workdir(mod), BoundService);
    CollectThen(c2, publish, BoundService);
  }

  /** The version `Publish` reads off `<mod>-<tag>` is `tag` exactly when `tag` has no `-`. */
  lemma PublishVersionRoundTrip(mod: string, tag: string)
    ensures PublishVersion(VersionedDir(mod, tag)) == tag <==> '-' !in tag
  {
    assert VersionedDir(mod, tag) == mod + ['-'] + tag;
    LastFieldAfterSeparator(mod, '-', tag);
  }
}
