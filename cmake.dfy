/**
 * The CMake driver of the build scripts (cmake.ts): a builder whose
 * setters change one shared configuration and return the same builder,
 * and whose actions spawn cmake, ctest or a built program with an argv
 * made from that configuration.  A spawned process is represented by the
 * command it is given and the exit status it reports, which is a
 * parameter: `None` stands for the status of a process killed by a signal.
 */
module CMake {
  import opened Wrappers
  import Version

  datatype Config = Config(
    cwd: string,
    source: string,
    buildDir: string,
    generator: string,
    buildType: string,
    defines: seq<string>)

  /** One spawned process: its argv and its working directory. */
  datatype Command = Command(argv: seq<string>, cwd: string)

  const BUILD_SUBDIR := "/.cache/build"
  const DEFAULT_BUILD_TYPE := "Release"

  /** The configuration of a fresh builder started in `cwd`. */
  function Initial(cwd: string): (c: Config)
    ensures c.cwd == cwd && c.source == cwd && c.buildDir == cwd + BUILD_SUBDIR
    ensures c.generator == "" && c.buildType == DEFAULT_BUILD_TYPE && c.defines == []
  {
    Config(cwd, cwd, cwd + BUILD_SUBDIR, "", DEFAULT_BUILD_TYPE, [])
  }

  /** A cache entry definition, `-D<key>=<value>`. */
  function DefineFlag(key: string, value: string): (flag: string)
    ensures |flag| == |key| + |value| + 3
    ensures flag[..2] == "-D" && flag[2..|key| + 2] == key && flag[|key| + 2] == '=' && flag[|key| + 3..] == value
  {
    "-D" + key + "=" + value
  }

  /** The key and value of a definition: up to and after its first '='. */
  function ParseDefine(flag: string): Option<(string, string)>
  {
    if |flag| < 2 || flag[..2] != "-D" then None
    else
      var i := Version.IndexOf(flag[2..], '=');
      if i < 0 then None else Some((flag[2..][..i], flag[2..][i + 1..]))
  }

  /** A definition whose key has no '=' gives back its key and value. */
  lemma DefineRoundTrip(key: string, value: string)
    requires '=' !in key
    ensures ParseDefine(DefineFlag(key, value)) == Some((key, value))
  {
    var flag := DefineFlag(key, value);
    var rest := flag[2..];
    assert rest == key + "=" + value;
    assert rest[|key|] == '=' && rest[..|key|] == key;
    assert Version.IndexOf(rest, '=') == |key|;
  }

  /**
   * The arguments configure gives cmake: source and build directory, the
   * generator only when one is set, the build type, then the definitions
   * in the order they were made.
   */
  function ConfigureArgv(c: Config): (argv: seq<string>)
    ensures |argv| == 5 + (if c.generator != "" then 2 else 0) + |c.defines|
    ensures argv[..4] == ["-S", c.source, "-B", c.buildDir]
    ensures c.generator != "" ==> argv[4..6] == ["-G", c.generator]
    ensures argv[|argv| - |c.defines| - 1] == DefineFlag("CMAKE_BUILD_TYPE", c.buildType)
    ensures argv[|argv| - |c.defines|..] == c.defines
  {
    ["-S", c.source, "-B", c.buildDir]
      + (if c.generator != "" then ["-G", c.generator] else [])
      + [DefineFlag("CMAKE_BUILD_TYPE", c.buildType)]
      + c.defines
  }

  /**
   * The arguments of build and install: the action on the build
   * directory, the option only when its value is given and not empty,
   * then the configuration to use.
   */
  function ActionArgv(action: string, buildDir: string, option: string, value: Option<string>, buildType: string): (argv: seq<string>)
    ensures |argv| == 4 || |argv| == 6
    ensures |argv| == 6 <==> value.Some? && value.value != ""
    ensures argv[..2] == [action, buildDir]
    ensures argv[|argv| - 2..] == ["--config", buildType]
    ensures |argv| == 6 ==> argv[2..4] == [option, value.value]
  {
    [action, buildDir]
      + (if value.Some? && value.value != "" then [option, value.value] else [])
      + ["--config", buildType]
  }

  /** The arguments of test: the ctest run over the build directory, narrowed to the tests matching `name` when given. */
  function TestArgv(buildDir: string, name: Option<string>): (argv: seq<string>)
    ensures |argv| == 4 || |argv| == 6
    ensures |argv| == 6 <==> name.Some? && name.value != ""
    ensures argv[..4] == ["ctest", "--test-dir", buildDir, "--output-on-failure"]
    ensures |argv| == 6 ==> argv[4..] == ["-R", name.value]
  {
    ["ctest", "--test-dir", buildDir, "--output-on-failure"]
      + (if name.Some? && name.value != "" then ["-R", name.value] else [])
  }

  /** How a template string prints an exit status. */
  function ExitText(exit: Option<nat>): string
  {
    if exit.None? then "null" else Version.NatToString(exit.value)
  }

  /** The error a failed process raises, or none when it exited with 0. */
  function Check(exit: Option<nat>, name: string): (r: Option<string>)
    ensures r.None? <==> exit == Some(0)
    ensures r.Some? ==> r.value == name + " exited with code " + ExitText(exit)
  {
    if exit == Some(0) then None else Some(name + " exited with code " + ExitText(exit))
  }

  /** The builder returned by cmake(): its configuration and the processes it has spawned. */
  class Builder {
    var config: Config
    var spawned: seq<Command>

    constructor (cwd: string)
      ensures config == Initial(cwd) && spawned == []
    {
      config := Initial(cwd);
      spawned := [];
    }

    /** source: the project to configure, which also becomes the working directory. */
    method Source(value: string) returns (chain: Builder)
      modifies this
      ensures chain == this && spawned == old(spawned)
      ensures config == old(config).(cwd := value, source := value)
    {
      config := config.(cwd := value, source := value);
      return this;
    }

    method BuildDir(value: string) returns (chain: Builder)
      modifies this
      ensures chain == this && spawned == old(spawned)
      ensures config == old(config).(buildDir := value)
    {
      config := config.(buildDir := value);
      return this;
    }

    method Generator(value: string) returns (chain: Builder)
      modifies this
      ensures chain == this && spawned == old(spawned)
      ensures config == old(config).(generator := value)
    {
      config := config.(generator := value);
      return this;
    }

    method BuildType(value: string) returns (chain: Builder)
      modifies this
      ensures chain == this && spawned == old(spawned)
      ensures config == old(config).(buildType := value)
    {
      config := config.(buildType := value);
      return this;
    }

    /** define: one more definition, after those already made. */
    method Define(key: string, value: string) returns (chain: Builder)
      modifies this
      ensures chain == this && spawned == old(spawned)
      ensures config == old(config).(defines := old(config.defines) + [DefineFlag(key, value)])
    {
      config := config.(defines := config.defines + [DefineFlag(key, value)]);
      return this;
    }

    /** defineIf: a definition made only when the predicate, given here as its answer, holds. */
    method DefineIf(key: string, value: string, pred: bool) returns (chain: Builder)
      modifies this
      ensures chain == this && spawned == old(spawned)
      ensures pred ==> config == old(config).(defines := old(config.defines) + [DefineFlag(key, value)])
      ensures !pred ==> config == old(config)
    {
      if pred {
        config := config.(defines := config.defines + [DefineFlag(key, value)]);
      }
      return this;
    }

    /** Spawns cmake with `args` in the working directory; a failure is the error it throws. */
    method RunCMake(args: seq<string>, exit: Option<nat>) returns (r: Result<Builder, string>)
      modifies this
      ensures config == old(config)
      ensures spawned == old(spawned) + [Command(["cmake"] + args, config.cwd)]
      ensures r == if exit == Some(0) then Success(this) else Failure(Check(exit, "cmake").value)
    {
      spawned := spawned + [Command(["cmake"] + args, config.cwd)];
      var error := Check(exit, "cmake");
      if error.Some? {
        return Failure(error.value);
      }
      return Success(this);
    }

    method Configure(exit: Option<nat>) returns (r: Result<Builder, string>)
      modifies this
      ensures config == old(config)
      ensures spawned == old(spawned) + [Command(["cmake"] + ConfigureArgv(config), config.cwd)]
      ensures r == if exit == Some(0) then Success(this) else Failure(Check(exit, "cmake").value)
    {
      r := RunCMake(ConfigureArgv(config), exit);
    }

    method Build(target: Option<string>, exit: Option<nat>) returns (r: Result<Builder, string>)
      modifies this
      ensures config == old(config)
      ensures spawned == old(spawned) + [Command(["cmake"] + ActionArgv("--build", config.buildDir, "--target", target, config.buildType), config.cwd)]
      ensures r == if exit == Some(0) then Success(this) else Failure(Check(exit, "cmake").value)
    {
      r := RunCMake(ActionArgv("--build", config.buildDir, "--target", target, config.buildType), exit);
    }

    method Install(prefix: Option<string>, exit: Option<nat>) returns (r: Result<Builder, string>)
      modifies this
      ensures config == old(config)
      ensures spawned == old(spawned) + [Command(["cmake"] + ActionArgv("--install", config.buildDir, "--prefix", prefix, config.buildType), config.cwd)]
      ensures r == if exit == Some(0) then Success(this) else Failure(Check(exit, "cmake").value)
    {
      r := RunCMake(ActionArgv("--install", config.buildDir, "--prefix", prefix, config.buildType), exit);
    }

    method Test(name: Option<string>, exit: Option<nat>) returns (r: Result<Builder, string>)
      modifies this
      ensures config == old(config)
      ensures spawned == old(spawned) + [Command(TestArgv(config.buildDir, name), config.cwd)]
      ensures r == if exit == Some(0) then Success(this) else Failure(Check(exit, "ctest").value)
    {
      spawned := spawned + [Command(TestArgv(config.buildDir, name), config.cwd)];
      var error := Check(exit, "ctest");
      if error.Some? {
        return Failure(error.value);
      }
      return Success(this);
    }

    /** run: starts the built program `name` from the build directory. */
    method Run(name: string, exit: Option<nat>) returns (r: Result<Builder, string>)
      modifies this
      ensures config == old(config)
      ensures spawned == old(spawned) + [Command([config.buildDir + "/" + name], config.cwd)]
      ensures r == if exit == Some(0) then Success(this) else Failure(Check(exit, name).value)
    {
      spawned := spawned + [Command([config.buildDir + "/" + name], config.cwd)];
      var error := Check(exit, name);
      if error.Some? {
        return Failure(error.value);
      }
      return Success(this);
    }
  }

  /**
   * A fresh builder, moved to another project and given two definitions,
   * configures that project with the default build type and the
   * definitions in order, and builds its default target.
   */
  method ConfigureThenBuild(cwd: string, project: string) returns (b: Builder)
    ensures b.spawned == [
      Command(["cmake", "-S", project, "-B", cwd + BUILD_SUBDIR,
               DefineFlag("CMAKE_BUILD_TYPE", DEFAULT_BUILD_TYPE), DefineFlag("A", "1"), DefineFlag("B", "2")], project),
      Command(["cmake", "--build", cwd + BUILD_SUBDIR, "--config", DEFAULT_BUILD_TYPE], project)]
  {
    b := new Builder(cwd);
    var chain := b.Source(project);
    chain := chain.Define("A", "1");
    chain := chain.DefineIf("C", "3", false);
    chain := chain.Define("B", "2");
    var defines := [DefineFlag("A", "1"), DefineFlag("B", "2")];
    assert b.config == Config(project, project, cwd + BUILD_SUBDIR, "", DEFAULT_BUILD_TYPE, defines);
    assert ["cmake"] + ConfigureArgv(b.config)
        == ["cmake", "-S", project, "-B", cwd + BUILD_SUBDIR, DefineFlag("CMAKE_BUILD_TYPE", DEFAULT_BUILD_TYPE), defines[0], defines[1]];
    var r := chain.Configure(Some(0));
    assert ["cmake"] + ActionArgv("--build", cwd + BUILD_SUBDIR, "--target", None, DEFAULT_BUILD_TYPE)
        == ["cmake", "--build", cwd + BUILD_SUBDIR, "--config", DEFAULT_BUILD_TYPE];
    r := chain.Build(None, Some(0));
  }
}
