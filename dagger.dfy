/** The Dagger engine's container as the modules here use it: an immutable value made of
    a base image and the ordered steps that `With...` calls append to it. Nothing is run:
    a container is the plan that the engine would carry out. */
module Dagger {
  import opened Wrappers

  /** Where a container's root filesystem comes from: `dag.Container()` alone starts
      from an empty filesystem, `.From(address)` from an image. */
  datatype Base = Empty | Image(address: string)

  /** How `WithExec` runs a command. `Privileged` stands for the options
      ExperimentalPrivilegedNesting, InsecureRootCapabilities and NoInit set together. */
  datatype ExecMode = Plain | Privileged | Stdin(input: string)

  /** One `With...` call on a container. A `Bind` holds the container that
      `AsService()` turns into the bound service. */
  datatype Step =
    | Exec(argv: seq<string>, mode: ExecMode)
    | Env(name: string, value: string)
    | SecretEnv(name: string, secret: string)
    | Bind(host: string, service: Container)
    | CacheMount(path: string, volume: string)
    | TempMount(path: string)
    | NewFile(path: string, contents: string)
    | CopyFile(path: string, file: File)
    | CopyDir(path: string, dir: Directory)
    | RemoveDir(path: string)
    | Workdir(path: string)
    | Expose(port: nat)
    | UnixSocket(path: string, socket: string)

  /** A file: one inside a container's filesystem (`ctr.File(path)`), or one handed in
      from outside (a module argument). */
  datatype File = FileIn(ctr: Container, path: string) | HostFile(id: string)

  /** A directory: one inside a container (`ctr.Directory(path)`), one handed in from
      outside, an empty one (`dag.Directory()`), or a sub-directory
      (`dir.Directory(name)`). */
  datatype Directory =
    | DirIn(ctr: Container, path: string)
    | HostDir(id: string)
    | EmptyDir
    | SubDir(parent: Directory, name: string)

  datatype Container = Container(base: Base, steps: seq<Step>)
  {
    function Then(s: Step): Container {
      Container(base, steps + [s])
    }

    function WithExec(argv: seq<string>): Container {
      Then(Exec(argv, Plain))
    }

    function WithEnvVariable(name: string, value: string): Container {
      Then(Env(name, value))
    }

    function WithServiceBinding(host: string, service: Container): Container {
      Then(Bind(host, service))
    }

    function WithFile(path: string, source: File): Container {
      Then(CopyFile(path, source))
    }

    function WithNewFile(path: string, contents: string): Container {
      Then(NewFile(path, contents))
    }

    function WithDirectory(path: string, source: Directory): Container {
      Then(CopyDir(path, source))
    }

    function WithoutDirectory(path: string): Container {
      Then(RemoveDir(path))
    }

    function WithWorkdir(path: string): Container {
      Then(Workdir(path))
    }

    function WithExposedPort(port: nat): Container {
      Then(Expose(port))
    }

    function WithMountedCache(path: string, volume: string): Container {
      Then(CacheMount(path, volume))
    }

    function WithMountedTemp(path: string): Container {
      Then(TempMount(path))
    }

    /** `ctr.File(path)`. */
    function FileAt(path: string): File {
      FileIn(this, path)
    }

    /** `ctr.Directory(path)`. */
    function DirAt(path: string): Directory {
      DirIn(this, path)
    }
  }

  /** `dag.Container()`. */
  function NewContainer(): Container {
    Container(Empty, [])
  }

  /** `dag.Container().From(address)`. */
  function From(address: string): Container {
    Container(Image(address), [])
  }

  /** The values `f` picks out of the steps, in step order. */
  function Collect<T>(steps: seq<Step>, f: Step -> Option<T>): seq<T> {
    if steps == [] then []
    else
      var rest := Collect(steps[1..], f);
      match f(steps[0])
      case Some(v) => [v] + rest
      case None => rest
  }

  lemma {:induction false} CollectAppend<T>(a: seq<Step>, b: seq<Step>, f: Step -> Option<T>)
    ensures Collect(a + b, f) == Collect(a, f) + Collect(b, f)
  {
    if a != [] {
      assert (a + b)[0] == a[0];
      assert (a + b)[1..] == a[1..] + b;
      CollectAppend(a[1..], b, f);
    } else {
      assert a + b == b;
    }
  }

  /** Appending a step adds what `f` picks out of it, if anything, at the end. */
  lemma CollectThen<T>(c: Container, s: Step, f: Step -> Option<T>)
    ensures Collect(c.Then(s).steps, f) == Collect(c.steps, f) + (if f(s).Some? then [f(s).value] else [])
  {
    CollectAppend(c.steps, [s], f);
    assert [s][1..] == [];
  }

  lemma {:induction false} CollectNone<T>(steps: seq<Step>, f: Step -> Option<T>)
    requires forall i | 0 <= i < |steps| :: f(steps[i]).None?
    ensures Collect(steps, f) == []
  {
    if steps != [] {
      CollectNone(steps[1..], f);
    }
  }

  function BoundHost(s: Step): Option<string> {
    if s.Bind? then Some(s.host) else None
  }

  /** The host names services are bound under, in binding order. */
  function BoundHosts(steps: seq<Step>): seq<string> {
    Collect(steps, BoundHost)
  }

  function BoundService(s: Step): Option<(string, Container)> {
    if s.Bind? then Some((s.host, s.service)) else None
  }

  /** The bindings, host name and service, in binding order. */
  function Bindings(steps: seq<Step>): seq<(string, Container)> {
    Collect(steps, BoundService)
  }

  /** The ports a container exposes. */
  function ExposedPorts(c: Container): set<nat> {
    set i | 0 <= i < |c.steps| && c.steps[i].Expose? :: c.steps[i].port
  }

  /** The value an environment variable ends up with: later settings override earlier ones. */
  function EnvValue(steps: seq<Step>, name: string): Option<string> {
    if steps == [] then None
    else
      var last := steps[|steps| - 1];
      if last.Env? && last.name == name then Some(last.value) else EnvValue(steps[..|steps| - 1], name)
  }

  /** Appending a step changes a variable's value only when the step sets it. */
  lemma EnvValueThen(c: Container, s: Step, name: string)
    ensures EnvValue(c.Then(s).steps, name) == if s.Env? && s.name == name then Some(s.value) else EnvValue(c.steps, name)
  {
    assert c.Then(s).steps[..|c.steps|] == c.steps;
  }

  /** The cache volumes a container mounts. */
  function CacheVolumes(c: Container): set<string> {
    set i | 0 <= i < |c.steps| && c.steps[i].CacheMount? :: c.steps[i].volume
  }

  function CopiedDirPath(s: Step): Option<string> {
    if s.CopyDir? then Some(s.path) else None
  }

  /** The paths directories are copied to, in order. */
  function CopiedDirs(steps: seq<Step>): seq<string> {
    Collect(steps, CopiedDirPath)
  }

  function CopiedFilePath(s: Step): Option<string> {
    if s.CopyFile? then Some(s.path) else None
  }

  /** The paths files are copied to, in order. */
  function CopiedFiles(steps: seq<Step>): seq<string> {
    Collect(steps, CopiedFilePath)
  }

  function ExecArgv(s: Step): Option<seq<string>> {
    if s.Exec? then Some(s.argv) else None
  }

  /** The command lines a container runs, in order. */
  function Commands(steps: seq<Step>): seq<seq<string>> {
    Collect(steps, ExecArgv)
  }
}
