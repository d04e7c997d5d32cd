/**
 * Target naming for the prebuilt packages (platform.ts): the supported
 * targets, the arch-os-libc triple, the npm package and the workspace
 * directory named after it, and the detection of the running target.
 */
module Platform {
  import opened Wrappers

  datatype Os = Darwin | Linux
  datatype Arch = Arm64 | X64
  datatype Libc = Apple | Gnu

  datatype Target = Target(os: Os, arch: Arch, libc: Libc)

  function OsName(os: Os): (name: string)
    ensures |name| > 0 && (name[0] == 'd' <==> os == Darwin) && (name[0] == 'l' <==> os == Linux)
  {
    match os
    case Darwin => "darwin"
    case Linux => "linux"
  }

  function ArchName(arch: Arch): (name: string)
    ensures |name| > 0 && (name[0] == 'a' <==> arch == Arm64) && (name[0] == 'x' <==> arch == X64)
  {
    match arch
    case Arm64 => "arm64"
    case X64 => "x64"
  }

  function LibcName(libc: Libc): (name: string)
    ensures |name| > 0 && (name[0] == 'a' <==> libc == Apple) && (name[0] == 'g' <==> libc == Gnu)
  {
    match libc
    case Apple => "apple"
    case Gnu => "gnu"
  }

  /** The four targets prebuilt packages exist for. */
  const SUPPORTED: seq<Target> := [
    Target(Darwin, Arm64, Apple),
    Target(Darwin, X64, Apple),
    Target(Linux, Arm64, Gnu),
    Target(Linux, X64, Gnu)
  ]

  /** The libc a target ships with: Apple's on Darwin, GNU on Linux. */
  predicate Consistent(t: Target)
  {
    t.libc == (if t.os == Darwin then Apple else Gnu)
  }

  function Triple(t: Target): string
  {
    ArchName(t.arch) + "-" + OsName(t.os) + "-" + LibcName(t.libc)
  }

  const PACKAGE_PREFIX := "@stevelock/stevelock-"
  const DIR_PREFIX := "packages/stevelock-"

  function PackageName(t: Target): string
  {
    PACKAGE_PREFIX + Triple(t)
  }

  function PackageDir(t: Target): string
  {
    DIR_PREFIX + Triple(t)
  }

  /** The triple names each target once: its three fields can be read back from it. */
  lemma TripleInjective(t1: Target, t2: Target)
    requires Triple(t1) == Triple(t2)
    ensures t1 == t2
  {
    var a1, a2 := ArchName(t1.arch), ArchName(t2.arch);
    assert Triple(t1)[0] == a1[0] && Triple(t2)[0] == a2[0];
    assert t1.arch == t2.arch;
    var o1, o2 := OsName(t1.os), OsName(t2.os);
    var k := |a1| + 1;
    assert Triple(t1)[k] == o1[0] && Triple(t2)[k] == o2[0];
    assert t1.os == t2.os;
    var l1, l2 := LibcName(t1.libc), LibcName(t2.libc);
    var j := |a1| + |o1| + 2;
    assert Triple(t1)[j] == l1[0] && Triple(t2)[j] == l2[0];
  }

  /** Distinct targets get distinct package names. */
  lemma PackageNameInjective(t1: Target, t2: Target)
    requires PackageName(t1) == PackageName(t2)
    ensures t1 == t2
  {
    assert Triple(t1) == PackageName(t1)[|PACKAGE_PREFIX|..];
    assert Triple(t2) == PackageName(t2)[|PACKAGE_PREFIX|..];
    TripleInjective(t1, t2);
  }

  /** Distinct targets get distinct package directories. */
  lemma PackageDirInjective(t1: Target, t2: Target)
    requires PackageDir(t1) == PackageDir(t2)
    ensures t1 == t2
  {
    assert Triple(t1) == PackageDir(t1)[|DIR_PREFIX|..];
    assert Triple(t2) == PackageDir(t2)[|DIR_PREFIX|..];
    TripleInjective(t1, t2);
  }

  /** The supported targets are four distinct, consistent targets, and every consistent target is among them. */
  lemma SupportedTargets()
    ensures |SUPPORTED| == 4
    ensures forall i, j :: 0 <= i < j < |SUPPORTED| ==> SUPPORTED[i] != SUPPORTED[j]
    ensures forall t :: t in SUPPORTED <==> Consistent(t)
  {
    forall t | Consistent(t)
      ensures t in SUPPORTED
    {
      match (t.os, t.arch)
      case (Darwin, Arm64) => assert t == SUPPORTED[0];
      case (Darwin, X64) => assert t == SUPPORTED[1];
      case (Linux, Arm64) => assert t == SUPPORTED[2];
      case (Linux, X64) => assert t == SUPPORTED[3];
    }
  }

  /**
   * detect: the target of the running process, from Node's platform and
   * arch names; anything but linux or darwin, and x64 or arm64, is an error
   * naming the value.
   */
  function Detect(platform: string, arch: string): (r: Result<Target, string>)
    ensures platform != "linux" && platform != "darwin" ==> r == Failure("unsupported os: " + platform)
    ensures (platform == "linux" || platform == "darwin") && arch != "x64" && arch != "arm64" ==>
      r == Failure("unsupported arch: " + arch)
    ensures r.Success? ==> OsName(r.value.os) == platform && ArchName(r.value.arch) == arch
  {
    if platform != "linux" && platform != "darwin" then Failure("unsupported os: " + platform)
    else if arch != "x64" && arch != "arm64" then Failure("unsupported arch: " + arch)
    else
      var os := if platform == "darwin" then Darwin else Linux;
      var a := if arch == "x64" then X64 else Arm64;
      Success(Target(os, a, if os == Darwin then Apple else Gnu))
  }

  /** Whatever detect returns is a supported target, and it succeeds on exactly the supported names. */
  lemma DetectSupported(platform: string, arch: string)
    ensures Detect(platform, arch).Success? <==> (platform == "linux" || platform == "darwin") && (arch == "x64" || arch == "arm64")
    ensures Detect(platform, arch).Success? ==> Detect(platform, arch).value in SUPPORTED
  {
    SupportedTargets();
  }
}
