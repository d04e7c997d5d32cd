/**
 * The helpers the native test suite is built on (sl.h): turning a test's
 * sandbox state into options, reading a descriptor into a bounded
 * NUL-terminated buffer, feeding a child's stdin, the run of one
 * sandboxed command, the lengths of sentinel-terminated tables, and
 * test-case paths.  The tests drive the newer native context API, which
 * Napi.Native stands for.
 */
module TestKit {
  import opened Wrappers
  import Napi

  type u32 = x: int | 0 <= x < 0x1_0000_0000

  /** sl_test_state_t: directory tables with their counts, and the network flag. */
  datatype State = State(
    readDirs: seq<string>,
    numReadDirs: u32,
    writeDirs: seq<string>,
    numWriteDirs: u32,
    network: u32)

  /** One directory scope of sb_opts_t: the table and its count. */
  datatype Scope = Scope(dirs: seq<string>, numDirs: u32)

  /** sb_opts_t of the context API. */
  datatype Opts = Opts(read: Scope, write: Scope, network: u32)

  /** sl_test_state_to_opts: the same tables, counts and flag, field for field. */
  function StateToOpts(state: State): (opts: Opts)
    ensures opts.read.dirs == state.readDirs && opts.read.numDirs == state.numReadDirs
    ensures opts.write.dirs == state.writeDirs && opts.write.numDirs == state.numWriteDirs
    ensures opts.network == state.network
  {
    Opts(Scope(state.readDirs, state.numReadDirs), Scope(state.writeDirs, state.numWriteDirs), state.network)
  }

  /** Each count stays within its table. */
  predicate Fits(opts: Opts)
  {
    opts.read.numDirs <= |opts.read.dirs| && opts.write.numDirs <= |opts.write.dirs|
  }

  /** The options as the context API receives them: the counted entries of each table, and the flag as a truth value. */
  function Received(opts: Opts): (r: Napi.Opts)
    requires Fits(opts)
    ensures |r.read| == opts.read.numDirs && |r.write| == opts.write.numDirs
    ensures r.read <= opts.read.dirs && r.write <= opts.write.dirs
    ensures r.network <==> opts.network != 0
  {
    Napi.Opts(opts.read.dirs[..opts.read.numDirs], opts.write.dirs[..opts.write.numDirs], opts.network != 0)
  }

  /** The read end of one of a child's output pipes: what is still to be read from it. */
  class Source {
    var unread: seq<char>
    /** Whether the last read yielded nothing (end of file or an error). */
    ghost var stalled: bool

    constructor (data: seq<char>)
      ensures unread == data && !stalled
    {
      unread := data;
      stalled := false;
    }

    /**
     * read(2) of at most `max` characters into buf[off..]: a positive
     * count takes that many of the next characters, anything else (end of
     * file, an error) takes and writes nothing.
     */
    method Read(buf: array<char>, off: nat, max: nat) returns (n: int)
      requires off + max <= buf.Length
      modifies this, buf
      ensures n <= max
      ensures n > 0 ==>
        && n <= |old(unread)| && unread == old(unread)[n..]
        && buf[..] == old(buf[..off]) + old(unread)[..n] + old(buf[off + n..])
      ensures n <= 0 ==> unread == old(unread) && buf[..] == old(buf[..])
      ensures stalled == (n <= 0)
    {
      var k: int := *;
      if 0 < k <= max && k <= |unread| {
        forall i | off <= i < off + k {
          buf[i] := unread[i - off];
        }
        unread := unread[k..];
        n := k;
      } else {
        n := if k <= 0 then k else 0;
      }
      stalled := n <= 0;
    }
  }

  /**
   * One read of ReadFd: the chunk lands after the `used` characters already
   * read, so the buffer holds the first `used + n` characters of the
   * stream, and the part after the chunk is still the original.
   */
  lemma ChunkLanded(before: seq<char>, after: seq<char>, stream: seq<char>, pending: seq<char>, original: seq<char>, used: nat, n: nat)
    requires used + n <= |before| == |original|
    requires n <= |pending| && used <= |stream| && pending == stream[used..]
    requires before[..used] == stream[..used] && before[used..] == original[used..]
    requires after == before[..used] + pending[..n] + before[used + n..]
    ensures used + n <= |stream| && after[..used + n] == stream[..used + n]
    ensures after[used + n..] == original[used + n..]
  {
    assert stream[..used + n] == stream[..used] + pending[..n];
    assert before[used + n..] == before[used..][n..];
  }

  /** Writing the NUL after `used` characters keeps the characters before it and the original after it. */
  lemma Terminated(before: seq<char>, after: seq<char>, original: seq<char>, used: nat)
    requires used < |before| == |original| && before[used..] == original[used..]
    requires after == before[used := '\0']
    ensures after[..used] == before[..used] && after[used] == '\0'
    ensures after[used + 1..] == original[used + 1..]
  {
    assert before[used + 1..] == before[used..][1..];
  }

  /**
   * sl_test_read_fd: fills the buffer with what the descriptor yields,
   * chunk after chunk, until a read yields nothing or one place is left,
   * then terminates it with a NUL and returns what was read.  A buffer of
   * capacity 0 is left alone.
   */
  method ReadFd(src: Source, buffer: array<char>, capacity: u32) returns (s: seq<char>)
    requires capacity <= buffer.Length
    modifies src, buffer
    ensures capacity == 0 ==> s == [] && src.unread == old(src.unread) && buffer[..] == old(buffer[..])
    ensures capacity == 0 ==> src.stalled == old(src.stalled)
    ensures capacity > 0 ==> |s| == capacity - 1 || src.stalled
    ensures capacity > 0 ==>
      && |s| < capacity
      && s <= old(src.unread) && src.unread == old(src.unread)[|s|..]
      && buffer[..|s|] == s && buffer[|s|] == '\0'
      && buffer[|s| + 1..] == old(buffer[|s| + 1..])
  {
    if capacity == 0 {
      return [];
    }
    ghost var stream := src.unread;
    ghost var original := buffer[..];
    var used: u32 := 0;
    while true
      invariant used < capacity && used <= |stream|
      invariant src.unread == stream[used..]
      invariant buffer[..used] == stream[..used]
      invariant buffer[used..] == original[used..]
      invariant |original| == buffer.Length
      decreases capacity - 1 - used
    {
      var remaining := capacity - 1 - used;
      if remaining == 0 {
        assert used == capacity - 1;
        break;
      }
      ghost var before := buffer[..];
      ghost var pending := src.unread;
      var n := src.Read(buffer, used as nat, remaining as nat);
      if n <= 0 {
        break;
      }
      ChunkLanded(before, buffer[..], stream, pending, original, used as nat, n);
      used := used + n as u32;
    }
    ghost var before := buffer[..];
    buffer[used] := '\0';
    Terminated(before, buffer[..], original, used as nat);
    return buffer[..used];
  }

  /** The write end of a child's stdin pipe: what the child has been given, and whether it is closed. */
  class Sink {
    var received: seq<char>
    var closed: bool
    /** Whether the last write delivered nothing (the pipe refused it). */
    ghost var refused: bool

    constructor ()
      ensures received == [] && !closed && !refused
    {
      received := [];
      closed := false;
      refused := false;
    }

    /** write(2): a positive count delivers that many leading characters of `data`; anything else delivers none. */
    method Write(data: seq<char>) returns (n: int)
      modifies this
      ensures n <= |data|
      ensures n > 0 ==> received == old(received) + data[..n]
      ensures n <= 0 ==> received == old(received)
      ensures closed == old(closed)
      ensures refused == (n <= 0)
    {
      var k: int := *;
      if 0 < k <= |data| {
        received := received + data[..k];
        n := k;
      } else {
        n := if k <= 0 then k else 0;
      }
      refused := n <= 0;
    }

    method Close()
      modifies this
      ensures closed && received == old(received) && refused == old(refused)
    {
      closed := true;
    }
  }

  /**
   * The stdin loop of sl_test_run_exec: writes the rest of the data until
   * it is all delivered or a write delivers nothing; what was written and
   * what remains always add up to the whole.
   */
  method FeedStdin(sink: Sink, data: seq<char>) returns (written: nat)
    requires |data| < 0x1_0000_0000
    modifies sink
    ensures written <= |data|
    ensures sink.received == old(sink.received) + data[..written]
    ensures sink.closed == old(sink.closed)
    ensures written == |data| || sink.refused
    ensures |data| == 0 ==> sink.refused == old(sink.refused)
  {
    var offset := 0;
    var remaining: u32 := |data|;
    while remaining > 0
      invariant offset + remaining == |data|
      invariant sink.received == old(sink.received) + data[..offset]
      invariant sink.closed == old(sink.closed)
      invariant |data| == 0 ==> sink.refused == old(sink.refused)
    {
      var n := sink.Write(data[offset..]);
      if n <= 0 {
        break;
      }
      assert data[..offset + n] == data[..offset] + data[offset..][..n];
      offset := offset + n;
      remaining := remaining - n;
    }
    return offset;
  }

  /** sl_test_process_t without the environment: command, argument table and count, stdin data, and whether to close stdin. */
  datatype Process = Process(cmd: string, args: seq<string>, numArgs: u32, stdinData: seq<char>, closeStdin: bool)

  /** sl_test_exec_t. */
  datatype Exec = Exec(state: State, process: Process, killAfterSpawn: bool, killSignal: int)

  /** sl_test_exec_result_t, with the text read into each output buffer. */
  datatype ExecResult = ExecResult(spawn: int, kill: int, wait: int, out: seq<char>, err: seq<char>)

  type NonZero = x: int | x != 0 witness 1

  /** The generic failure code of the context API; only its being non-zero matters here. */
  const SL_ERROR: NonZero
  const SL_OK := 0

  /** The size of each output buffer of an exec result. */
  const OUTPUT_CAPACITY: u32 := 4096

  /** The result before anything has run: spawn failed, no kill, no exit status. */
  const NOT_RUN := ExecResult(SL_ERROR, 0, -1, [], [])

  /** The calls made for a command whose spawn succeeded: an optional kill, one wait, one destroy. */
  function AfterSpawn(ctx: int, spec: Exec, r: ExecResult): seq<Napi.Call>
  {
    (if spec.killAfterSpawn then [Napi.KillCalled(ctx, spec.killSignal, r.kill)] else [])
      + [Napi.Waited(ctx, r.wait), Napi.Destroyed(ctx)]
  }

  /**
   * sl_test_run_exec over the context API and the child's three pipes:
   * when create fails nothing more happens; when spawn fails the sandbox
   * is destroyed with no wait; otherwise stdin is fed and possibly closed,
   * the child is optionally killed, waited for, its output read into the
   * two buffers, and the sandbox destroyed.  No context outlives the call.
   */
  method RunExec(native: Napi.Native, spec: Exec, stdin: Sink, stdout: Source, stderr: Source)
      returns (result: ExecResult, ctx: int, ghost spawnText: string)
    requires Fits(StateToOpts(spec.state)) && spec.process.numArgs <= |spec.process.args|
    requires |spec.process.stdinData| < 0x1_0000_0000
    requires stdout != stderr
    modifies native, stdin, stdout, stderr
    ensures native.live == old(native.live)
    ensures ctx == 0 ==> result == NOT_RUN && native.trace == old(native.trace) + [Napi.Created(Received(StateToOpts(spec.state)), 0)]
    ensures ctx != 0 ==>
      && |native.trace| >= |old(native.trace)| + 2
      && native.trace[..|old(native.trace)| + 2] == old(native.trace) + [
           Napi.Created(Received(StateToOpts(spec.state)), ctx),
           Napi.SpawnCalled(ctx, spec.process.cmd, spec.process.args[..spec.process.numArgs], result.spawn, spawnText)]
    ensures ctx != 0 && result.spawn != SL_OK ==>
      && native.trace == old(native.trace) + [
           Napi.Created(Received(StateToOpts(spec.state)), ctx),
           Napi.SpawnCalled(ctx, spec.process.cmd, spec.process.args[..spec.process.numArgs], result.spawn, spawnText),
           Napi.Destroyed(ctx)]
      && result.kill == 0 && result.wait == -1 && result.out == [] && result.err == []
    ensures ctx != 0 && result.spawn == SL_OK ==>
      && native.trace[|old(native.trace)| + 2..] == AfterSpawn(ctx, spec, result)
      && (!spec.killAfterSpawn ==> result.kill == 0)
      && |result.out| < OUTPUT_CAPACITY && result.out <= old(stdout.unread)
      && |result.err| < OUTPUT_CAPACITY && result.err <= old(stderr.unread)
      && old(stdin.received) <= stdin.received <= old(stdin.received) + spec.process.stdinData
      && stdin.closed == (old(stdin.closed) || spec.process.closeStdin)
  {
    result := NOT_RUN;
    spawnText := "";
    var opts := StateToOpts(spec.state);
    ctx := native.Create(Received(opts));
    if ctx == 0 {
      return;
    }
    ghost var created := native.trace;
    var err, text := native.Spawn(ctx, spec.process.cmd, spec.process.args[..spec.process.numArgs]);
    spawnText := text;
    result := result.(spawn := err);
    if err != SL_OK {
      native.Destroy(ctx);
      return;
    }
    ghost var spawned := native.trace;
    result := RunSpawned(native, ctx, spec, result, stdin, stdout, stderr);
  }

  /** The stdin step of sl_test_run_exec: feed any data, then close stdin when asked, whether or not there was data. */
  method StdinStep(stdin: Sink, process: Process)
    requires |process.stdinData| < 0x1_0000_0000
    modifies stdin
    ensures old(stdin.received) <= stdin.received <= old(stdin.received) + process.stdinData
    ensures stdin.closed == (old(stdin.closed) || process.closeStdin)
  {
    if |process.stdinData| > 0 {
      var written := FeedStdin(stdin, process.stdinData);
      assert old(stdin.received) + process.stdinData == stdin.received + process.stdinData[written..];
      if process.closeStdin {
        stdin.Close();
      }
    }
    if |process.stdinData| == 0 && process.closeStdin {
      stdin.Close();
    }
  }

  /**
   * The part of sl_test_run_exec after a successful spawn: feed stdin and
   * close it when asked, kill when asked, wait, read both outputs, destroy.
   */
  method RunSpawned(native: Napi.Native, ctx: int, spec: Exec, spawnedResult: ExecResult, stdin: Sink, stdout: Source, stderr: Source)
      returns (result: ExecResult)
    requires ctx in native.live
    requires |spec.process.stdinData| < 0x1_0000_0000
    requires stdout != stderr
    modifies native, stdin, stdout, stderr
    ensures native.live == old(native.live) - {ctx}
    ensures result.spawn == spawnedResult.spawn
    ensures native.trace == old(native.trace) + AfterSpawn(ctx, spec, result)
    ensures !spec.killAfterSpawn ==> result.kill == spawnedResult.kill
    ensures |result.out| < OUTPUT_CAPACITY && result.out <= old(stdout.unread)
    ensures |result.err| < OUTPUT_CAPACITY && result.err <= old(stderr.unread)
    ensures old(stdin.received) <= stdin.received <= old(stdin.received) + spec.process.stdinData
    ensures stdin.closed == (old(stdin.closed) || spec.process.closeStdin)
  {
    result := spawnedResult;
    StdinStep(stdin, spec.process);
    if spec.killAfterSpawn {
      var k := native.Kill(ctx, spec.killSignal);
      result := result.(kill := k);
    }
    var w := native.Wait(ctx);
    result := result.(wait := w);
    var outBuffer := new char[OUTPUT_CAPACITY];
    var out := ReadFd(stdout, outBuffer, OUTPUT_CAPACITY);
    var errBuffer := new char[OUTPUT_CAPACITY];
    var errText := ReadFd(stderr, errBuffer, OUTPUT_CAPACITY);
    result := result.(out := out, err := errText);
    native.Destroy(ctx);
  }

  /**
   * The `*_len` helpers: how many leading entries of a table of at most
   * `max` are present, stopping at the first absent one.
   */
  method PresentLen(present: seq<bool>, max: u32) returns (len: u32)
    requires max <= |present|
    ensures len <= max
    ensures forall i :: 0 <= i < len ==> present[i]
    ensures len < max ==> !present[len]
  {
    len := 0;
    while len < max && present[len]
      invariant len <= max
      invariant forall i :: 0 <= i < len ==> present[i]
    {
      len := len + 1;
    }
  }

  /** sl_test_cstr_list_len: a table of C strings ends at its first NULL. */
  method CStrListLen(items: seq<Option<string>>, max: u32) returns (len: u32)
    requires max <= |items|
    ensures len <= max
    ensures forall i :: 0 <= i < len ==> items[i].Some?
    ensures len < max ==> items[len].None?
  {
    var present := seq(|items|, i requires 0 <= i < |items| => items[i].Some?);
    len := PresentLen(present, max);
    assert forall i :: 0 <= i < |items| ==> present[i] == items[i].Some?;
  }

  /** A file fixture, a symlink fixture or a write operation, by the path that ends its table when NULL. */
  datatype Fixture = Fixture(path: Option<string>)

  /** sl_test_file_fixture_len, sl_test_symlink_fixture_len and sl_test_write_op_len. */
  method FixtureLen(items: seq<Fixture>, max: u32) returns (len: u32)
    requires max <= |items|
    ensures len <= max
    ensures forall i :: 0 <= i < len ==> items[i].path.Some?
    ensures len < max ==> items[len].path.None?
  {
    var present := seq(|items|, i requires 0 <= i < |items| => items[i].path.Some?);
    len := PresentLen(present, max);
    assert forall i :: 0 <= i < |items| ==> present[i] == items[i].path.Some?;
  }

  /** sl_test_path_is_absolute: a path is absolute when it is not NULL and starts with '/'. */
  predicate PathIsAbsolute(path: Option<string>)
  {
    path.Some? && |path.value| > 0 && path.value[0] == '/'
  }

  /** Joining a relative path onto a directory, with exactly one '/' between them. */
  function JoinPath(root: string, path: string): (r: string)
    ensures |r| >= |root| + |path| && r[..|root|] == root && r[|r| - |path|..] == path
    ensures |r| == |root| + |path| <==> |root| > 0 && root[|root| - 1] == '/'
  {
    if |root| > 0 && root[|root| - 1] == '/' then root + path else root + "/" + path
  }

  /** sl_test_case_path: an absolute path is kept, a relative one is taken from `root`. */
  function CasePath(root: string, path: string): (r: string)
    ensures PathIsAbsolute(Some(path)) ==> r == path
    ensures !PathIsAbsolute(Some(path)) ==> |r| >= |root| + |path| && r[..|root|] == root && r[|r| - |path|..] == path
  {
    if PathIsAbsolute(Some(path)) then path else JoinPath(root, path)
  }

  /** A case path is absolute whenever the root is. */
  lemma CasePathAbsolute(root: string, path: string)
    requires PathIsAbsolute(Some(root))
    ensures PathIsAbsolute(Some(CasePath(root, path)))
  {
    if !PathIsAbsolute(Some(path)) {
      assert CasePath(root, path)[0] == CasePath(root, path)[..|root|][0];
    }
  }
}
