/**
 * The native sandbox handle, `struct sb`, and the operations that both
 * platform back ends (linux.c and darwin.c) implement with the same code:
 * the accessors, sb_wait, sb_kill, sb_destroy and sb_error.  Only the
 * policy differs between the two: Linux keeps copies of the directory lists
 * and compiles a Landlock ruleset at spawn time, macOS keeps a Seatbelt
 * profile string built at create time.
 *
 * A handle starts with pid and the three descriptors at -1, is spawned at
 * most once, caches the exit code of its child on the first successful
 * wait, refuses kill after that, and is torn down by destroy.  Destroy
 * releases the handle's memory, which the model records in the ghost field
 * `freed`: every operation requires a handle that has not been freed.
 */
module Handle {
  import opened Wrappers
  import Os

  /** The size of `errbuf`: snprintf keeps at most 255 characters and a terminating NUL. */
  const ERRBUF_SIZE: int := 256

  /** What snprintf(errbuf, sizeof errbuf, ...) stores: the message, cut to fit the buffer. */
  function Bounded(s: string): (r: string)
    ensures |r| < ERRBUF_SIZE
    ensures r <= s
    ensures |s| < ERRBUF_SIZE ==> r == s
    ensures |s| >= ERRBUF_SIZE ==> r == s[..ERRBUF_SIZE - 1]
  {
    if |s| < ERRBUF_SIZE then s else s[..ERRBUF_SIZE - 1]
  }

  /**
   * sb_opts_t as the caller fills it: the two directory arrays may be NULL,
   * and the counts are separate from the arrays.
   */
  datatype Options = Options(
    writable: Option<seq<string>>,
    writableCount: int,
    allowNet: bool,
    readable: Option<seq<string>>,
    readableCount: int)

  /**
   * What sb_create assumes of its caller without checking on Linux: each
   * count it uses does not run past the end of its array.
   */
  ghost predicate CountsInBounds(opts: Options) {
    && (opts.writable.Some? ==> opts.writableCount <= |opts.writable.value|)
    && (opts.readable.Some? && opts.readableCount > 0 ==> opts.readableCount <= |opts.readable.value|)
  }

  /** The platform part of `struct sb`. */
  datatype Policy =
    | Landlock(writable: seq<string>, readable: seq<string>, allowNet: bool)
    | Profile(profile: string)

  /** How far a call to sb_spawn got before it returned. */
  datatype SpawnStage = Refused | PolicyFailed | PipeFailed | ForkFailed | Started

  class Sandbox {
    var policy: Policy
    var pid: int
    var stdinFd: int
    var stdoutFd: int
    var stderrFd: int
    var exited: bool
    var destroyed: bool
    var exitCode: int
    var errbuf: string
    /** Set when sb_destroy has released the handle's memory. */
    ghost var freed: bool

    ghost predicate Valid()
      reads this
    {
      && !freed
      && (policy.Landlock? ==> |policy.writable| >= 1)
      && (pid == -1 ==> stdinFd == -1 && stdoutFd == -1 && stderrFd == -1 && !exited)
      && (pid != -1 ==>
            && pid > 0 && stdinFd >= 0 && stdoutFd >= 0 && stderrFd >= 0
            && stdinFd != stdoutFd && stdinFd != stderrFd && stdoutFd != stderrFd)
      && (exited ==> 0 <= exitCode < 256)
      && |errbuf| < ERRBUF_SIZE
    }

    /** The child and the parent's ends of its pipes, which only sb_spawn sets. */
    ghost function Process(): (int, int, int, int)
      reads this
    {
      (pid, stdinFd, stdoutFd, stderrFd)
    }

    /** A child has been spawned from this handle. */
    ghost predicate Spawned()
      reads this
    {
      pid != -1
    }

    /** calloc of the struct, then the -1 sentinels: nothing spawned, no descriptors, no error. */
    constructor (policy: Policy)
      requires policy.Landlock? ==> |policy.writable| >= 1
      ensures Valid() && !Spawned()
      ensures this.policy == policy
      ensures pid == -1 && stdinFd == -1 && stdoutFd == -1 && stderrFd == -1
      ensures !exited && !destroyed && exitCode == 0 && errbuf == ""
    {
      this.policy := policy;
      pid := -1;
      stdinFd := -1;
      stdoutFd := -1;
      stderrFd := -1;
      exited := false;
      destroyed := false;
      exitCode := 0;
      errbuf := "";
      freed := false;
    }
  }

  /** sb_pid: the child's pid, -1 for a null handle or one not yet spawned. */
  function Pid(sb: Sandbox?): (r: int)
    reads sb
    requires sb != null ==> sb.Valid()
    ensures r == -1 <==> sb == null || !sb.Spawned()
    ensures r != -1 ==> r > 0 && r == sb.pid
  {
    if sb == null then -1 else sb.pid
  }

  /** sb_stdin_fd: the write end of the child's stdin pipe, -1 for a null handle or one not yet spawned. */
  function StdinFd(sb: Sandbox?): (r: int)
    reads sb
    requires sb != null ==> sb.Valid()
    ensures r == -1 <==> sb == null || !sb.Spawned()
    ensures r != -1 ==> r >= 0 && r == sb.stdinFd
  {
    if sb == null then -1 else sb.stdinFd
  }

  /** sb_stdout_fd: the read end of the child's stdout pipe, -1 for a null handle or one not yet spawned. */
  function StdoutFd(sb: Sandbox?): (r: int)
    reads sb
    requires sb != null ==> sb.Valid()
    ensures r == -1 <==> sb == null || !sb.Spawned()
    ensures r != -1 ==> r >= 0 && r == sb.stdoutFd
  {
    if sb == null then -1 else sb.stdoutFd
  }

  /** sb_stderr_fd: the read end of the child's stderr pipe, -1 for a null handle or one not yet spawned. */
  function StderrFd(sb: Sandbox?): (r: int)
    reads sb
    requires sb != null ==> sb.Valid()
    ensures r == -1 <==> sb == null || !sb.Spawned()
    ensures r != -1 ==> r >= 0 && r == sb.stderrFd
  {
    if sb == null then -1 else sb.stderrFd
  }

  /** The three descriptors of a spawned handle are distinct, so each is a different pipe end. */
  lemma SpawnedDescriptorsDistinct(sb: Sandbox)
    requires sb.Valid() && sb.Spawned()
    ensures |{StdinFd(sb), StdoutFd(sb), StderrFd(sb)}| == 3
  {
  }

  /** sb_error: "null sandbox" for a null handle, the last message if one was stored, otherwise NULL. */
  function Error(sb: Sandbox?): (r: Option<string>)
    reads sb
    ensures sb == null ==> r == Some("null sandbox")
    ensures sb != null ==> (r.None? <==> sb.errbuf == "")
    ensures sb != null && r.Some? ==> r.value == sb.errbuf
  {
    if sb == null then Some("null sandbox")
    else if sb.errbuf == "" then None
    else Some(sb.errbuf)
  }

  /**
   * sb_wait.  A null or unspawned handle gives -1.  Once the child has been
   * reaped the cached code is returned without another waitpid.  Otherwise
   * waitpid is called once: on failure the handle records the error and can
   * be waited on again; on success the exit code is cached.
   */
  method Wait(sb: Sandbox?, os: Os.Kernel) returns (r: int, status: Option<Os.ExitStatus>)
    requires sb != null ==> sb.Valid()
    requires os.Valid()
    modifies sb, os
    ensures os.Valid() && os.open == old(os.open)
    ensures sb != null ==> sb.Valid() && sb.Process() == old(sb.Process()) && sb.policy == old(sb.policy) && sb.destroyed == old(sb.destroyed)
    ensures sb == null || old(sb.pid) < 0 ==> r == -1 && unchanged(os) && (sb != null ==> unchanged(sb))
    ensures sb != null && old(sb.pid) >= 0 && old(sb.exited) ==> r == old(sb.exitCode) && unchanged(sb) && unchanged(os)
    ensures sb != null && old(sb.pid) >= 0 && !old(sb.exited) ==>
      && os.trace == old(os.trace) + [Os.Reaped(sb.pid, status)]
      && (status.None? ==> r == -1 && !sb.exited && sb.exitCode == old(sb.exitCode) && sb.errbuf == Bounded("waitpid: " + os.errno))
      && (status.Some? ==> sb.exited && r == sb.exitCode == Os.ExitCode(status.value) && sb.errbuf == old(sb.errbuf))
    ensures sb != null && sb.exited ==> r == sb.exitCode
  {
    status := None;
    if sb == null || sb.pid < 0 {
      return -1, None;
    }
    if sb.exited {
      return sb.exitCode, None;
    }
    status := os.Waitpid(sb.pid);
    if status.None? {
      sb.errbuf := Bounded("waitpid: " + os.errno);
      return -1, status;
    }
    sb.exited := true;
    sb.exitCode := Os.ExitCode(status.value);
    r := sb.exitCode;
  }

  /**
   * sb_kill.  Refused (-1, no signal sent) for a null handle, one not yet
   * spawned, or one whose child has already been waited for.  Otherwise the
   * signal is sent once and the handle's lifecycle is left as it was.
   */
  method Kill(sb: Sandbox?, os: Os.Kernel, sig: int) returns (r: int)
    requires sb != null ==> sb.Valid()
    requires os.Valid()
    modifies sb, os
    ensures os.Valid() && os.open == old(os.open)
    ensures sb != null ==> sb.Valid() && sb.Process() == old(sb.Process()) && sb.policy == old(sb.policy) && sb.destroyed == old(sb.destroyed)
    ensures sb != null ==> sb.exited == old(sb.exited) && sb.exitCode == old(sb.exitCode)
    ensures r == 0 || r == -1
    ensures sb == null || old(sb.pid) < 0 || old(sb.exited) ==> r == -1 && unchanged(os) && (sb != null ==> unchanged(sb))
    ensures sb != null && old(sb.pid) >= 0 && !old(sb.exited) ==>
      && os.trace == old(os.trace) + [Os.Signalled(sb.pid, sig)]
      && (r == -1 ==> sb.errbuf == Bounded("kill: " + os.errno))
      && (r == 0 ==> sb.errbuf == old(sb.errbuf))
  {
    if sb == null || sb.pid < 0 || sb.exited {
      return -1;
    }
    var ok := os.Kill(sb.pid, sig);
    if !ok {
      sb.errbuf := Bounded("kill: " + os.errno);
      return -1;
    }
    r := 0;
  }

  /** close(fd) when fd >= 0. */
  ghost function CloseIfOpen(fd: int): seq<Os.Event> {
    if fd >= 0 then [Os.Closed(fd)] else []
  }

  /** The system calls sb_destroy makes for a handle in the given state. */
  ghost function Teardown(pid: int, exited: bool, reaped: Option<Os.ExitStatus>, stdinFd: int, stdoutFd: int, stderrFd: int): seq<Os.Event> {
    (if pid > 0 && !exited then [Os.Signalled(pid, Os.SIGKILL), Os.Reaped(pid, reaped)] else [])
      + CloseIfOpen(stdinFd) + CloseIfOpen(stdoutFd) + CloseIfOpen(stderrFd)
  }

  /** The descriptors among the three that are >= 0. */
  ghost function Owned(stdinFd: int, stdoutFd: int, stderrFd: int): set<int> {
    (if stdinFd >= 0 then {stdinFd} else {}) + (if stdoutFd >= 0 then {stdoutFd} else {}) + (if stderrFd >= 0 then {stderrFd} else {})
  }

  /**
   * sb_destroy.  A null or already destroyed handle is left alone.
   * Otherwise: a child that is running and has not been reaped is sent
   * SIGKILL and reaped, every descriptor >= 0 is closed, and the handle is
   * freed, so it can be passed to no sb_ function afterwards (not even to
   * sb_destroy: the `destroyed` flag lives in the memory just released).
   */
  method Destroy(sb: Sandbox?, os: Os.Kernel) returns (ghost reaped: Option<Os.ExitStatus>)
    requires sb != null ==> sb.Valid()
    requires os.Valid()
    modifies sb, os
    ensures os.Valid()
    ensures sb == null ==> unchanged(os)
    ensures sb != null && old(sb.destroyed) ==> unchanged(os) && unchanged(sb)
    ensures sb != null && !old(sb.destroyed) ==>
      && sb.destroyed && sb.freed
      && os.trace == old(os.trace) + Teardown(old(sb.pid), old(sb.exited), reaped, old(sb.stdinFd), old(sb.stdoutFd), old(sb.stderrFd))
      && os.open == old(os.open) - Owned(old(sb.stdinFd), old(sb.stdoutFd), old(sb.stderrFd))
  {
    reaped := None;
    if sb == null || sb.destroyed {
      return;
    }
    sb.destroyed := true;
    if sb.pid > 0 && !sb.exited {
      var _ := os.Kill(sb.pid, Os.SIGKILL);
      reaped := os.Waitpid(sb.pid);
    }
    if sb.stdinFd >= 0 {
      os.Close(sb.stdinFd);
    }
    if sb.stdoutFd >= 0 {
      os.Close(sb.stdoutFd);
    }
    if sb.stderrFd >= 0 {
      os.Close(sb.stderrFd);
    }
    sb.freed := true;
  }

  /** How often an event occurs in a stretch of the trace. */
  ghost function Count(events: seq<Os.Event>, e: Os.Event): nat
  {
    if events == [] then 0
    else Count(events[..|events| - 1], e) + (if events[|events| - 1] == e then 1 else 0)
  }

  lemma {:induction false} CountAppend(s: seq<Os.Event>, t: seq<Os.Event>, e: Os.Event)
    ensures Count(s + t, e) == Count(s, e) + Count(t, e)
    decreases |t|
  {
    if t != [] {
      assert (s + t)[..|s + t| - 1] == s + t[..|t| - 1];
      CountAppend(s, t[..|t| - 1], e);
    } else {
      assert s + t == s;
    }
  }

  /** An event that does not occur is counted zero times. */
  lemma {:induction false} CountAbsent(s: seq<Os.Event>, e: Os.Event)
    requires e !in s
    ensures Count(s, e) == 0
    decreases |s|
  {
    if s != [] {
      CountAbsent(s[..|s| - 1], e);
    }
  }

  /** A single event counts once for itself and never for another. */
  lemma CountOne(x: Os.Event, e: Os.Event)
    ensures Count([x], e) == (if x == e then 1 else 0)
  {
    assert [x][..0] == [];
  }

  /** Three distinct closes after a stretch without closes: each descriptor is closed once. */
  lemma CountClosedOnce(pre: seq<Os.Event>, a: int, b: int, c: int)
    requires forall i :: 0 <= i < |pre| ==> !pre[i].Closed?
    requires a != b && a != c && b != c
    ensures var t := pre + [Os.Closed(a), Os.Closed(b), Os.Closed(c)];
      Count(t, Os.Closed(a)) == 1 && Count(t, Os.Closed(b)) == 1 && Count(t, Os.Closed(c)) == 1
  {
    var closes := [Os.Closed(a), Os.Closed(b), Os.Closed(c)];
    assert closes == [Os.Closed(a)] + [Os.Closed(b)] + [Os.Closed(c)];
    forall fd | fd in {a, b, c}
      ensures Count(pre + closes, Os.Closed(fd)) == 1
    {
      var e := Os.Closed(fd);
      CountAbsent(pre, e);
      CountAppend(pre, closes, e);
      CountAppend([Os.Closed(a)] + [Os.Closed(b)], [Os.Closed(c)], e);
      CountAppend([Os.Closed(a)], [Os.Closed(b)], e);
      CountOne(Os.Closed(a), e);
      CountOne(Os.Closed(b), e);
      CountOne(Os.Closed(c), e);
    }
  }

  /** SIGKILL is sent once in the teardown of a child not yet reaped, and never otherwise. */
  lemma CountSignalOnce(pid: int, exited: bool, reaped: Option<Os.ExitStatus>, closes: seq<Os.Event>)
    requires forall i :: 0 <= i < |closes| ==> closes[i].Closed?
    ensures var kill: seq<Os.Event> := if !exited then [Os.Signalled(pid, Os.SIGKILL), Os.Reaped(pid, reaped)] else [];
      Count(kill + closes, Os.Signalled(pid, Os.SIGKILL)) == (if exited then 0 else 1)
  {
    var k := Os.Signalled(pid, Os.SIGKILL);
    var kill: seq<Os.Event> := if !exited then [k, Os.Reaped(pid, reaped)] else [];
    CountAbsent(closes, k);
    CountAppend(kill, closes, k);
    if !exited {
      assert kill == [k] + [Os.Reaped(pid, reaped)];
      CountAppend([k], [Os.Reaped(pid, reaped)], k);
      CountOne(k, k);
      CountOne(Os.Reaped(pid, reaped), k);
    }
  }

  lemma TeardownSplit(pid: int, exited: bool, reaped: Option<Os.ExitStatus>, a: int, b: int, c: int)
    requires pid > 0 && a >= 0 && b >= 0 && c >= 0
    ensures Teardown(pid, exited, reaped, a, b, c)
      == (if !exited then [Os.Signalled(pid, Os.SIGKILL), Os.Reaped(pid, reaped)] else []) + [Os.Closed(a), Os.Closed(b), Os.Closed(c)]
  {
    assert CloseIfOpen(a) + CloseIfOpen(b) + CloseIfOpen(c) == [Os.Closed(a), Os.Closed(b), Os.Closed(c)];
  }

  /**
   * What destroy does to a handle, by state: nothing but the teardown of a
   * handle never spawned; for a spawned handle each of its three descriptors
   * is closed exactly once, and SIGKILL is sent exactly when the child has
   * not been reaped.
   */
  lemma TeardownOfSpawned(pid: int, exited: bool, reaped: Option<Os.ExitStatus>, a: int, b: int, c: int)
    requires pid > 0 && a >= 0 && b >= 0 && c >= 0 && a != b && a != c && b != c
    ensures var t := Teardown(pid, exited, reaped, a, b, c);
      && Count(t, Os.Closed(a)) == 1 && Count(t, Os.Closed(b)) == 1 && Count(t, Os.Closed(c)) == 1
      && Count(t, Os.Signalled(pid, Os.SIGKILL)) == (if exited then 0 else 1)
  {
    var kill: seq<Os.Event> := if !exited then [Os.Signalled(pid, Os.SIGKILL), Os.Reaped(pid, reaped)] else [];
    var closes := [Os.Closed(a), Os.Closed(b), Os.Closed(c)];
    TeardownSplit(pid, exited, reaped, a, b, c);
    CountClosedOnce(kill, a, b, c);
    CountSignalOnce(pid, exited, reaped, closes);
  }

  lemma TeardownByState(sb: Sandbox, reaped: Option<Os.ExitStatus>)
    requires sb.Valid()
    ensures !sb.Spawned() ==> Teardown(sb.pid, sb.exited, reaped, sb.stdinFd, sb.stdoutFd, sb.stderrFd) == []
    ensures sb.Spawned() ==>
      var t := Teardown(sb.pid, sb.exited, reaped, sb.stdinFd, sb.stdoutFd, sb.stderrFd);
      && Count(t, Os.Closed(sb.stdinFd)) == 1
      && Count(t, Os.Closed(sb.stdoutFd)) == 1
      && Count(t, Os.Closed(sb.stderrFd)) == 1
      && Count(t, Os.Signalled(sb.pid, Os.SIGKILL)) == (if sb.exited then 0 else 1)
  {
    if sb.Spawned() {
      TeardownOfSpawned(sb.pid, sb.exited, reaped, sb.stdinFd, sb.stdoutFd, sb.stderrFd);
    }
  }

  /**
   * The parent's side of a successful fork: close the child's ends of the
   * three pipes and record the child and the parent's ends in the handle.
   */
  method AdoptChild(sb: Sandbox, os: Os.Kernel, pid: int, pin: Os.Pipe, pout: Os.Pipe, perr: Os.Pipe)
    requires sb.Valid() && !sb.Spawned() && os.Valid()
    requires pid > 0 && Os.FreshTrio(pin, pout, perr, {})
    modifies sb`pid, sb`stdinFd, sb`stdoutFd, sb`stderrFd, sb`exited, os
    ensures sb.Valid() && sb.Spawned() && os.Valid()
    ensures sb.pid == pid && !sb.exited
    ensures sb.stdinFd == pin.writeEnd && sb.stdoutFd == pout.readEnd && sb.stderrFd == perr.readEnd
    ensures os.trace == old(os.trace) + [Os.Closed(pin.readEnd), Os.Closed(pout.writeEnd), Os.Closed(perr.writeEnd)]
    ensures os.open == old(os.open) - {pin.readEnd, pout.writeEnd, perr.writeEnd}
  {
    os.Close(pin.readEnd);
    os.Close(pout.writeEnd);
    os.Close(perr.writeEnd);
    sb.pid := pid;
    sb.stdinFd := pin.writeEnd;
    sb.stdoutFd := pout.readEnd;
    sb.stderrFd := perr.readEnd;
    sb.exited := false;
  }

  /** A failed fork: close both ends of all three pipes, in the order they were opened. */
  method CloseTrio(os: Os.Kernel, pin: Os.Pipe, pout: Os.Pipe, perr: Os.Pipe)
    requires os.Valid()
    modifies os
    ensures os.Valid()
    ensures os.open == old(os.open) - (Os.Ends(pin) + Os.Ends(pout) + Os.Ends(perr)) && os.errno == old(os.errno)
    ensures os.trace == old(os.trace) + [Os.Closed(pin.readEnd), Os.Closed(pin.writeEnd), Os.Closed(pout.readEnd),
                                         Os.Closed(pout.writeEnd), Os.Closed(perr.readEnd), Os.Closed(perr.writeEnd)]
  {
    os.Close(pin.readEnd);
    os.Close(pin.writeEnd);
    os.Close(pout.readEnd);
    os.Close(pout.writeEnd);
    os.Close(perr.readEnd);
    os.Close(perr.writeEnd);
  }
}
