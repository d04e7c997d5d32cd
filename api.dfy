/**
 * The TypeScript wrapper (index.ts): which addon is loaded, how the
 * options are handed to the binding, and the sandbox object whose methods
 * forward to the binding, with its own `destroyed` flag and the
 * "not spawned" guard of the stream accessors.
 */
module Api {
  import opened Wrappers
  import Platform
  import opened Napi

  /** SIGTERM, the signal kill() sends when given none. */
  const SIGTERM := 15

  const PACKAGE_PREFIX := "@stevelock/stevelock-"
  const ADDON := "stevelock.node"
  const NOT_SPAWNED := "not spawned"

  /** The triple index.ts builds from Node's platform and arch names: os-arch-libc, "" when unsupported. */
  function IndexTriple(plat: string, arch: string): (t: string)
    ensures t != "" <==> (plat == "darwin" || plat == "linux") && (arch == "arm64" || arch == "x64")
  {
    if plat == "darwin" && arch == "arm64" then "darwin-arm64-apple"
    else if plat == "darwin" && arch == "x64" then "darwin-x64-apple"
    else if plat == "linux" && arch == "arm64" then "linux-arm64-gnu"
    else if plat == "linux" && arch == "x64" then "linux-x64-gnu"
    else ""
  }

  /** The prebuilt package index.ts looks for. */
  function Pkg(plat: string, arch: string): string
  {
    if plat == "darwin" && arch == "arm64" then "@stevelock/stevelock-darwin-arm64-apple"
    else if plat == "darwin" && arch == "x64" then "@stevelock/stevelock-darwin-x64-apple"
    else if plat == "linux" && arch == "arm64" then "@stevelock/stevelock-linux-arm64-gnu"
    else if plat == "linux" && arch == "x64" then "@stevelock/stevelock-linux-x64-gnu"
    else ""
  }

  /** The triple index.ts names is os-arch-libc, the libc following from the os. */
  lemma IndexTripleOrder(plat: string, arch: string)
    requires IndexTriple(plat, arch) != ""
    ensures IndexTriple(plat, arch) == plat + "-" + arch + "-" + (if plat == "darwin" then "apple" else "gnu")
  {
    if plat == "darwin" && arch == "arm64" {
      assert "darwin-arm64-apple" == "darwin" + "-" + "arm64" + "-" + "apple";
    } else if plat == "darwin" {
      assert "darwin-x64-apple" == "darwin" + "-" + "x64" + "-" + "apple";
    } else if arch == "arm64" {
      assert "linux-arm64-gnu" == "linux" + "-" + "arm64" + "-" + "gnu";
    } else {
      assert "linux-x64-gnu" == "linux" + "-" + "x64" + "-" + "gnu";
    }
  }

  /** The package is the triple under the @stevelock scope, and empty exactly when the triple is. */
  lemma PkgOfTriple(plat: string, arch: string)
    ensures Pkg(plat, arch) == (if IndexTriple(plat, arch) == "" then "" else PACKAGE_PREFIX + IndexTriple(plat, arch))
  {
    var name, triple := Pkg(plat, arch), IndexTriple(plat, arch);
    if triple != "" {
      assert name == name[..|PACKAGE_PREFIX|] + name[|PACKAGE_PREFIX|..];
    }
  }

  /**
   * The wrapper names triples os-arch-libc, the release tooling arch-os-libc:
   * for every supported target the package the wrapper looks for is not the
   * package published for that target.
   */
  lemma NamingOrdersDiffer(t: Platform.Target)
    requires t in Platform.SUPPORTED
    ensures IndexTriple(Platform.OsName(t.os), Platform.ArchName(t.arch)) != Platform.Triple(t)
    ensures Pkg(Platform.OsName(t.os), Platform.ArchName(t.arch)) != Platform.PackageName(t)
  {
    var it := IndexTriple(Platform.OsName(t.os), Platform.ArchName(t.arch));
    IndexTripleOrder(Platform.OsName(t.os), Platform.ArchName(t.arch));
    PkgOfTriple(Platform.OsName(t.os), Platform.ArchName(t.arch));
    assert it[0] == Platform.OsName(t.os)[0];
    assert Platform.Triple(t)[0] == Platform.ArchName(t.arch)[0];
    var k := |PACKAGE_PREFIX|;
    assert Pkg(Platform.OsName(t.os), Platform.ArchName(t.arch))[k] == it[0];
    assert Platform.PackageName(t)[k] == Platform.Triple(t)[0];
  }

  /** A path as its list of components. */
  type Path = seq<string>

  /** `n` levels up from a directory; the root stays the root. */
  function Up(dir: Path, n: nat): (p: Path)
    ensures |p| == if n <= |dir| then |dir| - n else 0
    ensures p == dir[..|p|]
  {
    if n <= |dir| then dir[..|dir| - n] else []
  }

  /** The addon built in this checkout, when the target has a triple. */
  function LocalAddon(dir: Path, plat: string, arch: string): Option<Path>
  {
    var triple := IndexTriple(plat, arch);
    if triple == "" then None else Some(Up(dir, 1) + [".cache", "build", "native", triple, "Release", ADDON])
  }

  /** The prebuilt package installed beside this package, or in the installing project. */
  function PrebuiltRoot(dir: Path, pkg: string): Option<Path>
  {
    if pkg == "" then None else Some(Up(dir, 1) + ["node_modules", pkg, ADDON])
  }

  function PrebuiltHost(dir: Path, pkg: string): Option<Path>
  {
    if pkg == "" then None else Some(Up(dir, 2) + [pkg, ADDON])
  }

  /**
   * The addon index.ts requires, given the paths that exist: the prebuilt
   * package's addon under node_modules if it exists, else the one beside
   * the installing project if it exists, else the local build (None when
   * the target is unsupported and there is nothing to require).
   */
  function Addon(dir: Path, plat: string, arch: string, exists_: set<Path>): (r: Option<Path>)
    ensures var pkg := Pkg(plat, arch);
      && (pkg != "" && PrebuiltRoot(dir, pkg).value in exists_ ==> r == PrebuiltRoot(dir, pkg))
      && (pkg != "" && PrebuiltRoot(dir, pkg).value !in exists_ && PrebuiltHost(dir, pkg).value in exists_ ==>
            r == PrebuiltHost(dir, pkg))
      && (pkg == "" || (PrebuiltRoot(dir, pkg).value !in exists_ && PrebuiltHost(dir, pkg).value !in exists_) ==>
            r == LocalAddon(dir, plat, arch))
    ensures r.None? <==> IndexTriple(plat, arch) == ""
  {
    var pkg := Pkg(plat, arch);
    var root := PrebuiltRoot(dir, pkg);
    var host := PrebuiltHost(dir, pkg);
    var prebuilt :=
      if root.Some? && root.value in exists_ then root
      else if host.Some? && host.value in exists_ then host
      else None;
    if prebuilt.Some? && prebuilt.value in exists_ then prebuilt else LocalAddon(dir, plat, arch)
  }

  /** SandboxOpts: the writable directories, and the optional network switch and readable paths. */
  datatype SandboxOpts = SandboxOpts(writable: seq<string>, allowNet: Option<bool>, readable: Option<seq<string>>)

  /** The object create() passes to the binding: allowNet defaults to false and readable to []. */
  function BindingOptions(opts: SandboxOpts): (v: JsValue)
    ensures v.Object? && v.props.Keys == {"writable", "allowNet", "readable"}
    ensures v.props["writable"] == Array(Strs(opts.writable))
    ensures v.props["allowNet"] == Bool(opts.allowNet == Some(true))
    ensures v.props["readable"] == Array(Strs(if opts.readable.Some? then opts.readable.value else []))
  {
    Object(map[
      "writable" := Array(Strs(opts.writable)),
      "allowNet" := Bool(if opts.allowNet.Some? then opts.allowNet.value else false),
      "readable" := Array(Strs(if opts.readable.Some? then opts.readable.value else []))])
  }

  /** The array of strings a string list becomes, read back by the binding. */
  lemma StringsOfStrs(texts: seq<string>)
    ensures StringsOf(Array(Strs(texts))) == Some(texts)
  {
    assert StringsOf(Array(Strs(texts))).value == texts;
  }

  /** The object create() returns; `handle` is what the binding's create gave back. */
  class SandboxObject {
    const handle: JsValue
    var destroyed: bool

    constructor (handle: JsValue)
      ensures this.handle == handle && !destroyed
    {
      this.handle := handle;
      destroyed := false;
    }

    /** spawn(cmd, args = []). */
    method Spawn(heap: Heap, native: Native, cmd: string, args: Option<seq<string>>) returns (out: Outcome)
      requires heap.Valid() && Usable(handle, native)
      modifies heap, native
      ensures heap.Valid() && heap.live == old(heap.live)
      ensures GetHandle(handle).Failure? ==> out == Threw(GetHandle(handle).error) && unchanged(native)
      ensures GetHandle(handle).Success? ==>
        && native.live == old(native.live)
        && |native.trace| == |old(native.trace)| + 1
        && native.trace[..|old(native.trace)|] == old(native.trace)
        && var call := native.trace[|old(native.trace)|];
        && call.SpawnCalled? && call.ctx == handle.handle.sb && call.cmd == cmd
        && call.argv == (if args.Some? then args.value else [])
        && out == (if call.err != 0 then Threw(call.errText) else Returned(Undefined))
    {
      var argv := if args.Some? then args.value else [];
      StringsOfStrs(argv);
      out := Napi.Spawn(heap, native, [handle, Str(cmd), Array(Strs(argv))]);
    }

    /** pid(), stdinFd(), stdoutFd(), stderrFd(): the binding's answer, passed through. */
    method Query(native: Native, field: Field) returns (out: Outcome)
      requires Usable(handle, native)
      ensures GetHandle(handle).Failure? ==> out == Threw(GetHandle(handle).error)
      ensures GetHandle(handle).Success? ==> out == Returned(Number(native.Reading(handle.handle.sb, field)))
    {
      out := Napi.Get(native, [handle], field);
    }

    /**
     * stdout() and stderr(): a stream over the child's descriptor, which is
     * represented here by the descriptor itself; a negative descriptor, a
     * sandbox not spawned, is refused.
     */
    method Stream(native: Native, field: Field) returns (out: Outcome)
      requires field == StdoutFd || field == StderrFd
      requires Usable(handle, native)
      ensures GetHandle(handle).Failure? ==> out == Threw(GetHandle(handle).error)
      ensures GetHandle(handle).Success? ==>
        var fd := native.Reading(handle.handle.sb, field);
        out == if fd < 0 then Threw(NOT_SPAWNED) else Returned(Number(fd))
      ensures out.Returned? ==> out.value.Number? && out.value.n >= 0
    {
      var fd := Napi.Get(native, [handle], field);
      if fd.Returned? && fd.value.n < 0 {
        return Threw(NOT_SPAWNED);
      }
      out := fd;
    }

    /** wait(): the exit code, or the binding's error. */
    method Wait(native: Native) returns (out: Outcome)
      requires Usable(handle, native)
      modifies native
      ensures GetHandle(handle).Failure? ==> out == Threw(GetHandle(handle).error) && unchanged(native)
      ensures GetHandle(handle).Success? ==>
        && native.live == old(native.live)
        && |native.trace| == |old(native.trace)| + 1
        && native.trace[..|old(native.trace)|] == old(native.trace)
        && var call := native.trace[|old(native.trace)|];
        && call.Waited? && call.ctx == handle.handle.sb
        && out == (if call.code < 0 then Threw(native.Error(handle.handle.sb)) else Returned(Number(call.code)))
    {
      out := Napi.Wait(native, [handle]);
    }

    /** kill(signal = SIGTERM). */
    method Kill(native: Native, signal: Option<int>) returns (out: Outcome)
      requires Usable(handle, native)
      modifies native
      ensures GetHandle(handle).Failure? ==> out == Threw(GetHandle(handle).error) && unchanged(native)
      ensures GetHandle(handle).Success? ==>
        && native.live == old(native.live)
        && |native.trace| == |old(native.trace)| + 1
        && native.trace[..|old(native.trace)|] == old(native.trace)
        && var call := native.trace[|old(native.trace)|];
        && call.KillCalled? && call.ctx == handle.handle.sb
        && call.sig == Int32(if signal.Some? then signal.value else SIGTERM)
        && out == (if call.r != 0 then Threw(native.Error(handle.handle.sb)) else Returned(Undefined))
    {
      var sig := if signal.Some? then signal.value else SIGTERM;
      out := Napi.Kill(native, [handle, Number(sig)]);
    }

    /**
     * destroy(): the first call marks the object destroyed and then asks
     * the binding to destroy the handle; later calls do nothing.
     */
    method Destroy(native: Native) returns (out: Outcome)
      requires Usable(handle, native)
      modifies this, native, HandleOf(handle)
      ensures destroyed && Usable(handle, native)
      ensures old(destroyed) ==> out == Returned(Undefined) && unchanged(native) && unchanged(HandleOf(handle))
      ensures !old(destroyed) && !handle.External? ==> out == Threw(DESTROY_EXTERNAL_FAILED) && unchanged(native)
      ensures !old(destroyed) && handle.External? ==> out == Returned(Undefined)
      ensures !old(destroyed) && handle.External? && handle.handle != null && old(handle.handle.sb) != 0 ==>
        native.trace == old(native.trace) + [Destroyed(old(handle.handle.sb))]
      ensures handle.External? && handle.handle != null ==> handle.handle.sb == 0 || old(destroyed)
    {
      if destroyed {
        return Returned(Undefined);
      }
      destroyed := true;
      out := Napi.Destroy(native, [handle]);
    }
  }

  /**
   * create(opts): the binding's create with the options object, and a
   * sandbox object over whatever handle it returned.  The binding reads
   * option names the wrapper does not send, so it never calls sb_create,
   * returns nothing, and the object wraps `undefined`: every later call on
   * it fails to read the external.
   */
  method Create(heap: Heap, native: Native, opts: SandboxOpts, externalOk: bool) returns (sb: SandboxObject)
    requires heap.Valid()
    modifies heap, native
    ensures fresh(sb) && !sb.destroyed
    ensures sb.handle == Undefined && GetHandle(sb.handle) == Failure(GET_EXTERNAL_FAILED)
    ensures heap.Valid() && heap.live == old(heap.live) && unchanged(native)
  {
    WrapperOptionsRejected(opts.writable, opts.allowNet == Some(true), if opts.readable.Some? then opts.readable.value else []);
    assert [BindingOptions(opts)] == [Object(map["writable" := Array(Strs(opts.writable)), "allowNet" := Bool(opts.allowNet == Some(true)),
                                                 "readable" := Array(Strs(if opts.readable.Some? then opts.readable.value else []))])];
    var out, _, _ := Napi.Create(heap, native, [BindingOptions(opts)], externalOk);
    var handle := match out case Returned(v) => v case _ => Undefined;
    sb := new SandboxObject(handle);
  }

  /**
   * Two destroy() calls on one object whose handle holds a context: the
   * native context is destroyed exactly once.
   */
  method DestroyTwice(sb: SandboxObject, native: Native) returns (first: Outcome, second: Outcome)
    requires !sb.destroyed && sb.handle.External? && sb.handle.handle != null
    requires !sb.handle.handle.freed && sb.handle.handle.sb != 0 && sb.handle.handle.sb in native.live
    modifies sb, native, sb.handle.handle
    ensures first == Returned(Undefined) && second == Returned(Undefined)
    ensures native.trace == old(native.trace) + [Destroyed(old(sb.handle.handle.sb))]
  {
    first := sb.Destroy(native);
    second := sb.Destroy(native);
  }
}
