/**
 * The operating system as the parent process sees it.
 *
 * Every system call the sandbox makes (the Landlock syscalls, pipe, fork,
 * close, kill, waitpid, read, write, loading the Seatbelt library) is a
 * method of `Kernel` whose result the model does not predict: success is
 * chosen nondeterministically.  Each call is appended to `trace`, and the
 * descriptors the process holds open are kept in `open`, so the sandbox's
 * contracts can say which calls it made, in which order, and which
 * descriptors it leaves open.  Descriptor and pid numbers are drawn from
 * counters, so a new descriptor is never one that is already open.
 */
module Os {
  import opened Wrappers

  const SIGKILL: int := 9
  const SIGTERM: int := 15

  /** How waitpid reports the end of a child. */
  datatype Status = Exited(code: int) | Signaled(signal: int)

  /** The values the status word can carry: an 8-bit exit code or a signal number. */
  predicate WellFormed(s: Status) {
    match s
    case Exited(c) => 0 <= c < 256
    case Signaled(g) => 1 <= g < 128
  }

  type ExitStatus = s: Status | WellFormed(s) witness Exited(0)

  /** The two ends of a pipe, as pipe() fills `fds[0]` and `fds[1]`. */
  datatype Pipe = Pipe(readEnd: int, writeEnd: int)

  /** The outcome of opening a path with O_PATH and adding a path-beneath rule for it. */
  datatype RuleOutcome = OpenFailed | AddFailed | Added

  datatype Event =
    | AbiQueried(abi: int)
    | RulesetCreated(fs: bv64, net: bv64, fd: int)
    | PathRule(ruleset: int, path: string, access: bv64, outcome: RuleOutcome)
    | PipeOpened(pipe: Option<Pipe>)
    | Forked(pid: int)
    | Closed(fd: int)
    | Signalled(pid: int, sig: int)
    | Reaped(pid: int, status: Option<ExitStatus>)
    | DylibLoaded(ok: bool)
    | ReadFrom(fd: int, data: seq<char>)
    | WroteTo(fd: int, data: seq<char>)

  /** The descriptors of both ends of every pipe that a stretch of the trace opened. */
  ghost function PipeEnds(events: seq<Event>): set<int> {
    if events == [] then {}
    else
      var last := events[|events| - 1];
      PipeEnds(events[..|events| - 1]) +
        (if last.PipeOpened? && last.pipe.Some? then {last.pipe.value.readEnd, last.pipe.value.writeEnd} else {})
  }

  lemma {:induction false} PipeEndsAppend(a: seq<Event>, b: seq<Event>)
    ensures PipeEnds(a + b) == PipeEnds(a) + PipeEnds(b)
    decreases |b|
  {
    if b == [] {
      assert a + b == a;
    } else {
      var b' := b[..|b| - 1];
      assert (a + b)[..|a + b| - 1] == a + b';
      PipeEndsAppend(a, b');
    }
  }

  /** sb_wait's exit code: the exit status of a child that exited, 128 plus the signal number of one that was killed. */
  function ExitCode(s: ExitStatus): (code: int)
    ensures 0 <= code < 256
    ensures s.Exited? ==> code == s.code
    ensures s.Signaled? ==> code > 128
  {
    match s
    case Exited(c) => c
    case Signaled(g) => 128 + g
  }

  lemma {:induction false} PipeEndsNone(events: seq<Event>)
    requires forall i :: 0 <= i < |events| ==> !events[i].PipeOpened?
    ensures PipeEnds(events) == {}
    decreases |events|
  {
    if events != [] {
      PipeEndsNone(events[..|events| - 1]);
    }
  }

  class Kernel {
    var trace: seq<Event>
    var open: set<int>
    var nextFd: int
    var nextPid: int
    /** The text strerror(errno) gives after the last failed call. */
    var errno: string

    ghost predicate Valid()
      reads this
    {
      nextFd >= 3 && nextPid >= 2 && forall fd :: fd in open ==> 0 <= fd < nextFd
    }

    constructor ()
      ensures Valid() && trace == [] && open == {0, 1, 2}
    {
      trace := [];
      open := {0, 1, 2};
      nextFd := 3;
      nextPid := 2;
      errno := "";
    }

    /** landlock_create_ruleset(NULL, 0, LANDLOCK_CREATE_RULESET_VERSION): the ABI version, or a negative error. */
    method QueryAbi() returns (abi: int)
      requires Valid()
      modifies this
      ensures Valid() && open == old(open)
      ensures trace == old(trace) + [AbiQueried(abi)]
    {
      abi := *;
      trace := trace + [AbiQueried(abi)];
    }

    /** landlock_create_ruleset(&attr, sizeof(attr), 0): a fresh descriptor, or -1. */
    method CreateRuleset(fs: bv64, net: bv64) returns (fd: int)
      requires Valid()
      modifies this
      ensures Valid()
      ensures fd >= 0 ==> fd !in old(open) && open == old(open) + {fd}
      ensures fd < 0 ==> fd == -1 && open == old(open)
      ensures trace == old(trace) + [RulesetCreated(fs, net, fd)]
    {
      var ok: bool := *;
      if ok {
        fd := nextFd;
        nextFd := nextFd + 1;
        open := open + {fd};
      } else {
        fd := -1;
        errno := *;
      }
      trace := trace + [RulesetCreated(fs, net, fd)];
    }

    /** open(path, O_PATH), landlock_add_rule for that descriptor, close it: the O_PATH descriptor never outlives the call. */
    method AddPathRule(ruleset: int, path: string, access: bv64) returns (outcome: RuleOutcome)
      requires Valid()
      modifies this
      ensures Valid() && open == old(open)
      ensures trace == old(trace) + [PathRule(ruleset, path, access, outcome)]
    {
      outcome := *;
      if outcome != Added {
        errno := *;
      }
      trace := trace + [PathRule(ruleset, path, access, outcome)];
    }

    /** pipe(fds): two fresh descriptors, or None. */
    method OpenPipe() returns (p: Option<Pipe>)
      requires Valid()
      modifies this
      ensures Valid()
      ensures p.Some? ==> p.value.readEnd !in old(open) && p.value.writeEnd !in old(open) && p.value.readEnd != p.value.writeEnd
      ensures p.Some? ==> p.value.readEnd >= 0 && p.value.writeEnd >= 0
      ensures p.Some? ==> open == old(open) + {p.value.readEnd, p.value.writeEnd}
      ensures p.None? ==> open == old(open)
      ensures p.Some? ==> errno == old(errno)
      ensures trace == old(trace) + [PipeOpened(p)]
    {
      var ok: bool := *;
      if ok {
        p := Some(Pipe(nextFd, nextFd + 1));
        open := open + {nextFd, nextFd + 1};
        nextFd := nextFd + 2;
      } else {
        p := None;
        errno := *;
      }
      trace := trace + [PipeOpened(p)];
    }

    /** fork(), seen from the parent: the child's pid, or -1.  The child's side is not modelled. */
    method Fork() returns (pid: int)
      requires Valid()
      modifies this
      ensures Valid() && open == old(open)
      ensures pid > 0 || pid == -1
      ensures trace == old(trace) + [Forked(pid)]
    {
      var ok: bool := *;
      if ok {
        pid := nextPid;
        nextPid := nextPid + 1;
      } else {
        pid := -1;
        errno := *;
      }
      trace := trace + [Forked(pid)];
    }

    /** close(fd).  The model takes close of a descriptor as leaving errno alone. */
    method Close(fd: int)
      requires Valid()
      modifies this
      ensures Valid() && open == old(open) - {fd} && errno == old(errno)
      ensures trace == old(trace) + [Closed(fd)]
    {
      open := open - {fd};
      trace := trace + [Closed(fd)];
    }

    /** kill(pid, sig): whether the signal was delivered. */
    method Kill(pid: int, sig: int) returns (ok: bool)
      requires Valid()
      modifies this
      ensures Valid() && open == old(open)
      ensures trace == old(trace) + [Signalled(pid, sig)]
    {
      ok := *;
      if !ok {
        errno := *;
      }
      trace := trace + [Signalled(pid, sig)];
    }

    /** waitpid(pid, &status, 0): the child's status, or None when waitpid fails. */
    method Waitpid(pid: int) returns (status: Option<ExitStatus>)
      requires Valid()
      modifies this
      ensures Valid() && open == old(open)
      ensures trace == old(trace) + [Reaped(pid, status)]
    {
      status := *;
      if status.None? {
        errno := *;
      }
      trace := trace + [Reaped(pid, status)];
    }

    /** dlopen of libsystem_sandbox.dylib and dlsym of both entry points: whether all three succeeded. */
    method LoadSandboxLibrary() returns (ok: bool)
      requires Valid()
      modifies this
      ensures Valid() && open == old(open)
      ensures trace == old(trace) + [DylibLoaded(ok)]
    {
      ok := *;
      trace := trace + [DylibLoaded(ok)];
    }

    /** read(fd, buf, max): the count read (at most max; zero or negative at end of stream or on error) and the bytes. */
    method Read(fd: int, max: nat) returns (n: int, data: seq<char>)
      requires Valid()
      modifies this
      ensures Valid() && open == old(open)
      ensures n <= max
      ensures n > 0 ==> |data| == n
      ensures n <= 0 ==> data == []
      ensures trace == old(trace) + [ReadFrom(fd, data)]
    {
      n := *;
      if n > max {
        n := max;
      }
      if n > 0 {
        assert |seq(n, _ => ' ')| == n;
        data :| |data| == n;
      } else {
        data := [];
      }
      trace := trace + [ReadFrom(fd, data)];
    }

    /** write(fd, buf, len): how many bytes of `buf` were written (at most |buf|), zero or negative on failure. */
    method Write(fd: int, buf: seq<char>) returns (n: int)
      requires Valid()
      modifies this
      ensures Valid() && open == old(open)
      ensures n <= |buf|
      ensures trace == old(trace) + [WroteTo(fd, if n > 0 then buf[..n] else [])]
    {
      n := *;
      if n > |buf| {
        n := |buf|;
      }
      trace := trace + [WroteTo(fd, if n > 0 then buf[..n] else [])];
    }
  }

  function Ends(p: Pipe): set<int> {
    {p.readEnd, p.writeEnd}
  }

  /** Three pipes of six distinct, non-negative descriptors, none of which was open in `before`. */
  ghost predicate FreshTrio(pin: Pipe, pout: Pipe, perr: Pipe, before: set<int>) {
    && pin.readEnd != pin.writeEnd && pout.readEnd != pout.writeEnd && perr.readEnd != perr.writeEnd
    && Ends(pin) !! Ends(pout) && Ends(pin) !! Ends(perr) && Ends(pout) !! Ends(perr)
    && (Ends(pin) + Ends(pout) + Ends(perr)) !! before
    && pin.readEnd >= 0 && pin.writeEnd >= 0 && pout.readEnd >= 0 && pout.writeEnd >= 0
    && perr.readEnd >= 0 && perr.writeEnd >= 0
  }

  /**
   * `pipe(pin) || pipe(pout) || pipe(perr)`: three pipes, stopping at the
   * first failure.  Nothing is closed on the way out, so the pipes opened
   * before a failure stay open.
   */
  method OpenThreePipes(k: Kernel) returns (ok: bool, pin: Pipe, pout: Pipe, perr: Pipe, ghost P: seq<Event>)
    requires k.Valid()
    modifies k
    ensures k.Valid()
    ensures k.trace == old(k.trace) + P
    ensures 1 <= |P| <= 3 && forall i :: 0 <= i < |P| ==> P[i].PipeOpened?
    ensures k.open == old(k.open) + PipeEnds(P) && PipeEnds(P) !! old(k.open)
    ensures k.errno == old(k.errno) || !ok
    ensures ok ==> P == [PipeOpened(Some(pin)), PipeOpened(Some(pout)), PipeOpened(Some(perr))]
    ensures ok ==> FreshTrio(pin, pout, perr, old(k.open))
    ensures ok ==> k.open == old(k.open) + Ends(pin) + Ends(pout) + Ends(perr)
  {
    pin, pout, perr := Pipe(-1, -1), Pipe(-1, -1), Pipe(-1, -1);
    ok := false;
    var p := k.OpenPipe();
    P := [PipeOpened(p)];
    assert PipeEnds(P) == PipeEnds([]) + (if p.Some? then Ends(p.value) else {});
    if p.None? {
      return;
    }
    pin := p.value;
    p := k.OpenPipe();
    PipeEndsAppend(P, [PipeOpened(p)]);
    assert PipeEnds([PipeOpened(p)]) == PipeEnds([]) + (if p.Some? then Ends(p.value) else {});
    P := P + [PipeOpened(p)];
    if p.None? {
      return;
    }
    pout := p.value;
    p := k.OpenPipe();
    PipeEndsAppend(P, [PipeOpened(p)]);
    assert PipeEnds([PipeOpened(p)]) == PipeEnds([]) + (if p.Some? then Ends(p.value) else {});
    P := P + [PipeOpened(p)];
    if p.None? {
      return;
    }
    perr := p.value;
    ok := true;
  }

  /** Closing all six ends of three fresh pipes gives back the descriptors open before them. */
  lemma CloseAllEnds(before: set<int>, pin: Pipe, pout: Pipe, perr: Pipe)
    requires FreshTrio(pin, pout, perr, before)
    ensures before + Ends(pin) + Ends(pout) + Ends(perr) - (Ends(pin) + Ends(pout) + Ends(perr)) == before
  {
  }

  /**
   * The parent keeps one end of each fresh pipe, the write end of the first
   * and the read ends of the other two, once it has closed the others.
   */
  lemma KeepParentEnds(before: set<int>, pin: Pipe, pout: Pipe, perr: Pipe)
    requires FreshTrio(pin, pout, perr, before)
    ensures before + Ends(pin) + Ends(pout) + Ends(perr) - {pin.readEnd, pout.writeEnd, perr.writeEnd}
         == before + {pin.writeEnd, pout.readEnd, perr.readEnd}
  {
  }

}
