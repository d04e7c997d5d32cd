/**
 * The macOS back end (src/native/platform/darwin.c): sb_create loads the
 * private sandbox library once per process and writes the Seatbelt profile
 * into a fixed buffer; sb_spawn opens the three stdio pipes, forks, and
 * keeps the parent's ends.  The child's side (dup2, sandbox_init, execve)
 * is not modelled.
 */
module DarwinSandbox {
  import opened Wrappers
  import Os
  import Seatbelt
  import opened Handle

  /** The size of the buffer build_profile allocates. */
  const PROFILE_CAP: nat := 2048

  const NUL: char := '\0'

  /**
   * The process-wide cache of sb_load_dylib: -1 before the first call,
   * then 1 if the library and both entry points were found and 0 if not.
   */
  class Dylib {
    var loaded: int

    ghost predicate Valid()
      reads this
    {
      loaded == -1 || loaded == 0 || loaded == 1
    }

    constructor ()
      ensures Valid() && loaded == -1
    {
      loaded := -1;
    }

    /**
     * sb_load_dylib: the first call tries the library and caches the
     * outcome; every later call returns the cached outcome without trying
     * again.
     */
    method Load(os: Os.Kernel) returns (r: int)
      requires Valid() && os.Valid()
      modifies this, os
      ensures Valid() && os.Valid() && os.open == old(os.open)
      ensures r == 0 || r == 1
      ensures loaded == r
      ensures old(loaded) != -1 ==> r == old(loaded) && unchanged(os)
      ensures old(loaded) == -1 ==> os.trace == old(os.trace) + [Os.DylibLoaded(r == 1)]
    {
      if loaded != -1 {
        return loaded;
      }
      var ok := os.LoadSandboxLibrary();
      loaded := if ok then 1 else 0;
      r := loaded;
    }
  }

  /**
   * What build_profile reads without checking: the writable list and, when
   * readable_count is positive, the readable list, each at least as long as
   * its count.
   */
  ghost predicate ProfileInputs(opts: Options) {
    && opts.writable.Some? && 1 <= opts.writableCount <= |opts.writable.value|
    && (opts.readableCount > 0 ==> opts.readable.Some? && opts.readableCount <= |opts.readable.value|)
  }

  function WritableOf(opts: Options): seq<string>
    requires ProfileInputs(opts)
  {
    opts.writable.value[..opts.writableCount]
  }

  function ReadableOf(opts: Options): seq<string>
    requires ProfileInputs(opts)
  {
    if opts.readableCount > 0 then opts.readable.value[..opts.readableCount] else []
  }

  ghost function ProfileOf(opts: Options): string
    requires ProfileInputs(opts)
  {
    Seatbelt.ProfileText(WritableOf(opts), ReadableOf(opts), opts.allowNet)
  }

  /**
   * One `off += snprintf(p + off, cap - off, ...)` whose text fits: the
   * text lands at `off`, a NUL follows it, and `off` moves to the NUL.
   */
  method Append(buf: array<char>, off: nat, piece: string) returns (next: nat)
    requires off + |piece| < buf.Length
    modifies buf
    ensures next == off + |piece|
    ensures buf[..next] == old(buf[..off]) + piece && buf[next] == NUL
  {
    for j := 0 to |piece|
      invariant buf[..off + j] == old(buf[..off]) + piece[..j]
    {
      buf[off + j] := piece[j];
      assert buf[..off + j + 1] == buf[..off + j] + [piece[j]];
    }
    next := off + |piece|;
    buf[next] := NUL;
  }

  /** One of build_profile's loops: the clause of each kept path, appended in order. */
  method AppendPass(buf: array<char>, off: nat, paths: seq<string>, clause: string -> string, keep: string -> bool)
    returns (next: nat)
    requires off + |Seatbelt.Section(paths, clause, keep)| < buf.Length
    requires buf[off] == NUL
    modifies buf
    ensures next == off + |Seatbelt.Section(paths, clause, keep)|
    ensures buf[..next] == old(buf[..off]) + Seatbelt.Section(paths, clause, keep) && buf[next] == NUL
  {
    next := off;
    assert paths[..0] == [];
    assert Seatbelt.Section(paths[..0], clause, keep) == "";
    assert old(buf[..off]) + "" == buf[..off];
    Seatbelt.SectionPrefix(paths, 0, clause, keep);
    for i := 0 to |paths|
      invariant |Seatbelt.Section(paths[..i], clause, keep)| <= |Seatbelt.Section(paths, clause, keep)|
      invariant next == off + |Seatbelt.Section(paths[..i], clause, keep)|
      invariant buf[..next] == old(buf[..off]) + Seatbelt.Section(paths[..i], clause, keep)
      invariant buf[next] == NUL
    {
      Seatbelt.SectionStep(paths, i, clause, keep);
      Seatbelt.SectionPrefix(paths, i + 1, clause, keep);
      ghost var done := buf[..next];
      if keep(paths[i]) {
        next := Append(buf, next, clause(paths[i]));
      } else {
        assert done + "" == done;
      }
    }
    assert paths[..|paths|] == paths;
  }

  /**
   * The appends of build_profile, one snprintf per fixed piece and one per
   * clause, for any fixed texts: whatever the pieces, the buffer ends up
   * holding their concatenation when it fits.
   */
  method WriteProfile(buf: array<char>, header: string, fileReads: string, writable: seq<string>, readable: seq<string>,
                      tail: string, network: string, allowNet: bool) returns (len: nat)
    requires |header| + |fileReads| + |Seatbelt.Section(writable, Seatbelt.ReadClause, Seatbelt.UnderUsers)|
      + |Seatbelt.Section(readable, Seatbelt.ReadClause, Seatbelt.Always)|
      + |Seatbelt.Section(writable, Seatbelt.WriteClause, Seatbelt.Always)|
      + |tail| + (if allowNet then |network| else 0) < buf.Length
    modifies buf
    ensures len < buf.Length
    ensures buf[..len] == header + fileReads
      + Seatbelt.Section(writable, Seatbelt.ReadClause, Seatbelt.UnderUsers)
      + Seatbelt.Section(readable, Seatbelt.ReadClause, Seatbelt.Always)
      + Seatbelt.Section(writable, Seatbelt.WriteClause, Seatbelt.Always)
      + tail + (if allowNet then network else "")
    ensures buf[len] == NUL
  {
    ghost var reallow := Seatbelt.Section(writable, Seatbelt.ReadClause, Seatbelt.UnderUsers);
    ghost var readText := Seatbelt.Section(readable, Seatbelt.ReadClause, Seatbelt.Always);
    ghost var writeText := Seatbelt.Section(writable, Seatbelt.WriteClause, Seatbelt.Always);
    assert buf[..0] == [];
    var off := Append(buf, 0, header);
    assert [] + header == header;
    ghost var t := header;
    off := Append(buf, off, fileReads);
    t := t + fileReads;
    assert buf[..off] == t;
    off := AppendPass(buf, off, writable, Seatbelt.ReadClause, Seatbelt.UnderUsers);
    t := t + reallow;
    assert buf[..off] == t;
    off := AppendPass(buf, off, readable, Seatbelt.ReadClause, Seatbelt.Always);
    t := t + readText;
    assert buf[..off] == t;
    off := AppendPass(buf, off, writable, Seatbelt.WriteClause, Seatbelt.Always);
    t := t + writeText;
    assert buf[..off] == t;
    off := Append(buf, off, tail);
    t := t + tail;
    assert buf[..off] == t;
    if allowNet {
      off := Append(buf, off, network);
      t := t + network;
    } else {
      assert t + "" == t;
    }
    assert buf[..off] == t;
    len := off;
  }

  /**
   * build_profile.  The profile is written piece by piece into a
   * 2048-character buffer through a running offset that is never checked
   * against the capacity, so the text must be known to fit: with that
   * precondition, the buffer holds exactly the profile, NUL-terminated.
   */
  method BuildProfile(opts: Options) returns (buf: array<char>, len: nat)
    requires ProfileInputs(opts)
    requires |ProfileOf(opts)| < PROFILE_CAP
    ensures fresh(buf) && buf.Length == PROFILE_CAP
    ensures len == |ProfileOf(opts)| && buf[..len] == ProfileOf(opts) && buf[len] == NUL
  {
    buf := new char[PROFILE_CAP];
    len := WriteProfile(buf, Seatbelt.HEADER, Seatbelt.FILE_READS, WritableOf(opts), ReadableOf(opts),
                        Seatbelt.WRITE_TAIL, Seatbelt.NETWORK, opts.allowNet);
  }

  /**
   * sb_create on macOS.  No handle for a null opts or writable list or a
   * writable count below 1 (the library is not even loaded then), or when
   * the sandbox library cannot be loaded.  Otherwise a fresh handle, not
   * yet spawned, holding the profile for the options.
   */
  method Create(opts: Option<Options>, os: Os.Kernel, dylib: Dylib) returns (sb: Sandbox?)
    requires os.Valid() && dylib.Valid()
    requires opts.Some? && opts.value.writable.Some? && opts.value.writableCount >= 1 ==>
      ProfileInputs(opts.value) && |ProfileOf(opts.value)| < PROFILE_CAP
    modifies os, dylib
    ensures os.Valid() && os.open == old(os.open) && dylib.Valid()
    ensures opts.None? || opts.value.writable.None? || opts.value.writableCount < 1 ==>
      sb == null && unchanged(os) && unchanged(dylib)
    ensures opts.Some? && opts.value.writable.Some? && opts.value.writableCount >= 1 ==>
      && (sb == null <==> dylib.loaded == 0)
      && (old(dylib.loaded) != -1 ==> dylib.loaded == old(dylib.loaded) && unchanged(os))
      && (old(dylib.loaded) == -1 ==> os.trace == old(os.trace) + [Os.DylibLoaded(dylib.loaded == 1)])
    ensures sb != null ==>
      && fresh(sb) && sb.Valid() && !sb.Spawned()
      && sb.policy == Profile(ProfileOf(opts.value))
      && !sb.exited && !sb.destroyed && sb.errbuf == ""
  {
    if opts.None? || opts.value.writable.None? || opts.value.writableCount < 1 {
      return null;
    }
    var loaded := dylib.Load(os);
    if loaded == 0 {
      return null;
    }
    var buf, len := BuildProfile(opts.value);
    sb := new Sandbox(Profile(buf[..len]));
  }

  /**
   * The fork of sb_spawn and what the parent does after it: on failure all
   * six pipe ends are closed; on success the child's ends are closed and
   * the handle records the child.
   */
  method ForkChild(sb: Sandbox, os: Os.Kernel, pin: Os.Pipe, pout: Os.Pipe, perr: Os.Pipe)
    returns (stage: SpawnStage, ghost F: seq<Os.Event>)
    requires sb.Valid() && !sb.Spawned() && os.Valid()
    requires Os.FreshTrio(pin, pout, perr, {})
    modifies sb, os
    ensures sb.Valid() && os.Valid() && os.trace == old(os.trace) + F
    ensures sb.policy == old(sb.policy) && sb.destroyed == old(sb.destroyed) && sb.exitCode == old(sb.exitCode)
    ensures stage == ForkFailed || stage == Started
    ensures stage == ForkFailed ==>
      && sb.Process() == old(sb.Process()) && sb.exited == old(sb.exited)
      && sb.errbuf == Bounded("fork: " + os.errno)
      && os.open == old(os.open) - (Os.Ends(pin) + Os.Ends(pout) + Os.Ends(perr))
    ensures stage == Started ==>
      && sb.Spawned() && !sb.exited && sb.errbuf == old(sb.errbuf)
      && sb.stdinFd == pin.writeEnd && sb.stdoutFd == pout.readEnd && sb.stderrFd == perr.readEnd
      && F == [Os.Forked(sb.pid), Os.Closed(pin.readEnd), Os.Closed(pout.writeEnd), Os.Closed(perr.writeEnd)]
      && os.open == old(os.open) - {pin.readEnd, pout.writeEnd, perr.writeEnd}
  {
    var pid := os.Fork();
    if pid < 0 {
      sb.errbuf := Bounded("fork: " + os.errno);
      Handle.CloseTrio(os, pin, pout, perr);
      ghost var six := [Os.Closed(pin.readEnd), Os.Closed(pin.writeEnd), Os.Closed(pout.readEnd),
                        Os.Closed(pout.writeEnd), Os.Closed(perr.readEnd), Os.Closed(perr.writeEnd)];
      assert os.trace == old(os.trace) + [Os.Forked(pid)] + six;
      return ForkFailed, [Os.Forked(pid)] + six;
    }
    Handle.AdoptChild(sb, os, pid, pin, pout, perr);
    ghost var three := [Os.Closed(pin.readEnd), Os.Closed(pout.writeEnd), Os.Closed(perr.writeEnd)];
    assert os.trace == old(os.trace) + [Os.Forked(pid)] + three;
    F := [Os.Forked(pid)] + three;
    stage := Started;
  }

  /**
   * sb_spawn for a handle not yet spawned: the three pipes, then the fork.
   * A failed pipe returns at once, closing nothing, so the pipes opened
   * before it stay open.
   */
  method SpawnFresh(sb: Sandbox, os: Os.Kernel)
    returns (stage: SpawnStage, ghost S: seq<Os.Event>, ghost pin: Os.Pipe, ghost pout: Os.Pipe, ghost perr: Os.Pipe)
    requires sb.Valid() && !sb.Spawned() && os.Valid()
    modifies sb, os
    ensures sb.Valid() && os.Valid() && os.trace == old(os.trace) + S
    ensures sb.policy == old(sb.policy) && sb.destroyed == old(sb.destroyed) && sb.exitCode == old(sb.exitCode)
    ensures stage == PipeFailed || stage == ForkFailed || stage == Started
    ensures stage != Started ==> sb.Process() == old(sb.Process()) && sb.exited == old(sb.exited)
    ensures stage == PipeFailed ==>
      && sb.errbuf == Bounded("pipe: " + os.errno)
      && os.open == old(os.open) + Os.PipeEnds(S) && Os.PipeEnds(S) !! old(os.open)
    ensures stage == ForkFailed ==> sb.errbuf == Bounded("fork: " + os.errno) && os.open == old(os.open)
    ensures stage == Started ==>
      && sb.Spawned() && !sb.exited && sb.errbuf == old(sb.errbuf)
      && sb.stdinFd == pin.writeEnd && sb.stdoutFd == pout.readEnd && sb.stderrFd == perr.readEnd
      && S == [Os.PipeOpened(Some(pin)), Os.PipeOpened(Some(pout)), Os.PipeOpened(Some(perr)), Os.Forked(sb.pid),
               Os.Closed(pin.readEnd), Os.Closed(pout.writeEnd), Os.Closed(perr.writeEnd)]
      && os.open == old(os.open) + {sb.stdinFd, sb.stdoutFd, sb.stderrFd}
      && {sb.stdinFd, sb.stdoutFd, sb.stderrFd} !! old(os.open)
  {
    ghost var before := os.open;
    var ok, p0, p1, p2, P := Os.OpenThreePipes(os);
    pin, pout, perr := p0, p1, p2;
    if !ok {
      sb.errbuf := Bounded("pipe: " + os.errno);
      return PipeFailed, P, pin, pout, perr;
    }
    ghost var F;
    stage, F := ForkChild(sb, os, p0, p1, p2);
    assert os.trace == old(os.trace) + (P + F);
    S := P + F;
    if stage == ForkFailed {
      Os.CloseAllEnds(before, p0, p1, p2);
    } else {
      Os.KeepParentEnds(before, p0, p1, p2);
    }
  }

  /**
   * sb_spawn on macOS, the parent's side.  A null handle or command is
   * refused silently and a second spawn with "already spawned"; otherwise
   * SpawnFresh.  The command's argv and environment only reach execve in
   * the child and are not modelled.
   */
  method Spawn(sb: Sandbox?, os: Os.Kernel, cmd: Option<string>)
    returns (r: int, ghost stage: SpawnStage, ghost S: seq<Os.Event>, ghost pin: Os.Pipe, ghost pout: Os.Pipe, ghost perr: Os.Pipe)
    requires sb != null ==> sb.Valid()
    requires os.Valid()
    modifies sb, os
    ensures os.Valid() && os.trace == old(os.trace) + S
    ensures r == (if stage == Started then 0 else -1)
    ensures stage == Refused <==> sb == null || cmd.None? || old(sb.pid) != -1
    ensures stage == Refused ==> S == [] && os.open == old(os.open)
    ensures sb != null ==> sb.Valid()
    ensures stage == Refused && sb != null ==>
      && unchanged(sb`policy, sb`pid, sb`stdinFd, sb`stdoutFd, sb`stderrFd, sb`exited, sb`destroyed, sb`exitCode)
      && sb.errbuf == (if cmd.None? then old(sb.errbuf) else Bounded("already spawned"))
    ensures stage != Refused ==>
      && sb != null && stage != PolicyFailed
      && sb.policy == old(sb.policy) && sb.destroyed == old(sb.destroyed) && sb.exitCode == old(sb.exitCode)
      && (stage != Started ==> sb.Process() == old(sb.Process()) && sb.exited == old(sb.exited))
    ensures stage == PipeFailed ==>
      && sb != null && sb.errbuf == Bounded("pipe: " + os.errno)
      && os.open == old(os.open) + Os.PipeEnds(S) && Os.PipeEnds(S) !! old(os.open)
    ensures stage == ForkFailed ==> sb != null && sb.errbuf == Bounded("fork: " + os.errno) && os.open == old(os.open)
    ensures stage == Started ==>
      && sb != null && sb.Spawned() && !sb.exited && sb.errbuf == old(sb.errbuf)
      && sb.stdinFd == pin.writeEnd && sb.stdoutFd == pout.readEnd && sb.stderrFd == perr.readEnd
      && S == [Os.PipeOpened(Some(pin)), Os.PipeOpened(Some(pout)), Os.PipeOpened(Some(perr)), Os.Forked(sb.pid),
               Os.Closed(pin.readEnd), Os.Closed(pout.writeEnd), Os.Closed(perr.writeEnd)]
      && os.open == old(os.open) + {sb.stdinFd, sb.stdoutFd, sb.stderrFd}
      && {sb.stdinFd, sb.stdoutFd, sb.stderrFd} !! old(os.open)
  {
    pin, pout, perr := Os.Pipe(-1, -1), Os.Pipe(-1, -1), Os.Pipe(-1, -1);
    if sb == null || cmd.None? {
      return -1, Refused, [], pin, pout, perr;
    }
    if sb.pid != -1 {
      sb.errbuf := Bounded("already spawned");
      return -1, Refused, [], pin, pout, perr;
    }
    var launched;
    launched, S, pin, pout, perr := SpawnFresh(sb, os);
    stage := launched;
    r := if launched == Started then 0 else -1;
  }
}
