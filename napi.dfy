/**
 * The Node-API binding of the native handle (napi.c).
 *
 * JavaScript values are a datatype and the few N-API calls the binding
 * relies on (property lookup, typeof, array and string extraction) are
 * small functions over it.  The newer native context API that the binding
 * calls (sb_create over read/write scopes, sb_spawn with an argv array,
 * sb_wait, sb_kill, sb_error, sb_destroy) is not defined by any file of the
 * repository, so it is the abstract class `Native`: it keeps the set of
 * live contexts and a trace of the calls made on it, and its results are
 * nondeterministic.  Heap ownership of the argument copies is ghost state
 * in `Heap`.
 */
module Napi {
  import opened Wrappers

  // napi_status values used by the binding
  const OK := 0
  const INVALID_ARG := 1
  const OBJECT_EXPECTED := 2
  const STRING_EXPECTED := 3
  const NUMBER_EXPECTED := 6
  const GENERIC_FAILURE := 9

  /** SL_NAPI_BAD_ARG: copy_scope's answer for a value that is not an array. */
  const BAD_ARG := 2

  /** Capacity of the argument array of a callback descriptor. */
  const MAX_ARGS := 8

  const SANDBOX_DESTROYED := "sandbox destroyed"
  /** The NAPI_CALL message of n_get_handle's external read. */
  const GET_EXTERNAL_FAILED := "napi_get_value_external(env, v, (void**)&h) failed"
  /** The NAPI_CALL message of n_destroy's own external read, which names argv[0]. */
  const DESTROY_EXTERNAL_FAILED := "napi_get_value_external(env, argv[0], (void**)&h) failed"
  const GET_INT32_FAILED := "napi_get_value_int32(env, argv[1], &sig) failed"
  const CMD_NOT_STRING := "spawn command must be a string"
  const ARGS_NOT_STRINGS := "spawn args must be strings"

  /** The wrapper an external points at: n_sb_handle_t, a nullable context pointer (0 is NULL). */
  class NHandle {
    var sb: int
    /** Whether the wrapper's own memory was released by the finalizer. */
    ghost var freed: bool

    constructor (sb: int)
      ensures this.sb == sb && !freed
    {
      this.sb := sb;
      freed := false;
    }
  }

  datatype ValueType = TUndefined | TNull | TBoolean | TNumber | TString | TObject | TExternal

  /** JavaScript values as the binding sees them; numbers are integers here. */
  datatype JsValue =
    | Undefined
    | Null
    | Bool(b: bool)
    | Number(n: int)
    | Str(s: string)
    | Array(items: seq<JsValue>)
    | Object(props: map<string, JsValue>)
    | External(handle: NHandle?)

  /** What a binding function gives back to JavaScript: a value, a thrown error, or NULL without an error. */
  datatype Outcome = Returned(value: JsValue) | Threw(message: string) | NoValue

  /** napi_typeof: arrays are objects. */
  function TypeOf(v: JsValue): ValueType
  {
    match v
    case Undefined => TUndefined
    case Null => TNull
    case Bool(_) => TBoolean
    case Number(_) => TNumber
    case Str(_) => TString
    case Array(_) => TObject
    case Object(_) => TObject
    case External(_) => TExternal
  }

  /**
   * napi_get_named_property: null and undefined cannot be converted to an
   * object; any other value answers with its property, undefined when absent.
   */
  function Property(v: JsValue, name: string): (r: (int, JsValue))
    ensures r.0 == OK <==> !(v.Null? || v.Undefined?)
    ensures r.0 == OK && !(v.Object? && name in v.props) ==> r.1 == Undefined
  {
    match v
    case Null => (OBJECT_EXPECTED, Undefined)
    case Undefined => (OBJECT_EXPECTED, Undefined)
    case Object(m) => (OK, if name in m then m[name] else Undefined)
    case _ => (OK, Undefined)
  }

  /** The argument at position i; N-API fills missing arguments with undefined. */
  function Arg(args: seq<JsValue>, i: nat): JsValue
  {
    if i < |args| then args[i] else Undefined
  }

  /** The texts of an array whose every element is a string, and None for anything else. */
  function StringsOf(v: JsValue): (r: Option<seq<string>>)
    ensures r.Some? <==> v.Array? && forall i :: 0 <= i < |v.items| ==> v.items[i].Str?
    ensures r.Some? ==> |r.value| == |v.items| && forall i :: 0 <= i < |v.items| ==> r.value[i] == v.items[i].s
  {
    if v.Array? && forall i :: 0 <= i < |v.items| ==> v.items[i].Str? then
      Some(seq(|v.items|, i requires 0 <= i < |v.items| => v.items[i].s))
    else None
  }

  /** ToInt32 of napi_get_value_int32: wrap-around into the signed 32-bit range. */
  function Int32(n: int): (r: int)
    ensures -0x8000_0000 <= r < 0x8000_0000
    ensures (r - n) % 0x1_0000_0000 == 0
    ensures -0x8000_0000 <= n < 0x8000_0000 ==> r == n
  {
    (n + 0x8000_0000) % 0x1_0000_0000 - 0x8000_0000
  }

  /** The allocator, with ownership as ghost state: the set of live allocations. */
  class Heap {
    var next: int
    ghost var live: set<int>

    ghost predicate Valid()
      reads this
    {
      next > 0 && forall p :: p in live ==> 0 < p < next
    }

    constructor ()
      ensures Valid() && live == {}
    {
      next := 1;
      live := {};
    }

    method Alloc() returns (p: int)
      requires Valid()
      modifies this
      ensures Valid()
      ensures p != 0 && p !in old(live) && live == old(live) + {p}
    {
      p := next;
      next := next + 1;
      live := live + {p};
    }

    /** sl_free: freeing NULL does nothing, anything else must be live. */
    method Free(p: int)
      requires Valid()
      requires p == 0 || p in live
      modifies this
      ensures Valid() && live == old(live) - {p}
    {
      live := live - {p};
    }
  }

  /** The non-null pointers of a pointer array. */
  ghost function Nonzero(ptrs: seq<int>): set<int>
  {
    set p | p in ptrs && p != 0
  }

  /** No non-null pointer appears twice. */
  ghost predicate Distinct(ptrs: seq<int>)
  {
    forall i, j :: 0 <= i < j < |ptrs| && ptrs[i] != 0 ==> ptrs[i] != ptrs[j]
  }

  lemma NonzeroStep(ptrs: seq<int>, i: nat)
    requires i < |ptrs|
    ensures Nonzero(ptrs[..i + 1]) == Nonzero(ptrs[..i]) + (if ptrs[i] != 0 then {ptrs[i]} else {})
  {
    assert ptrs[..i + 1] == ptrs[..i] + [ptrs[i]];
  }

  lemma NonzeroFill(ptrs: seq<int>, i: nat, p: int)
    requires i < |ptrs| && ptrs[i] == 0 && p != 0
    ensures Nonzero(ptrs[i := p]) == Nonzero(ptrs) + {p}
  {
    var q := ptrs[i := p];
    forall x | x in Nonzero(ptrs) ensures x in Nonzero(q)
    {
      var k :| 0 <= k < |ptrs| && ptrs[k] == x;
      assert q[k] == x;
    }
    assert q[i] == p;
  }

  /** Frees every entry of a pointer array, as the cleanup loops of free_scope and n_spawn do. */
  method FreeEach(heap: Heap, ptrs: seq<int>)
    requires heap.Valid() && Distinct(ptrs) && Nonzero(ptrs) <= heap.live
    modifies heap
    ensures heap.Valid() && heap.live == old(heap.live) - Nonzero(ptrs)
  {
    for i := 0 to |ptrs|
      invariant heap.Valid()
      invariant heap.live == old(heap.live) - Nonzero(ptrs[..i])
    {
      NonzeroStep(ptrs, i);
      assert ptrs[i] != 0 ==> ptrs[i] !in Nonzero(ptrs[..i]);
      heap.Free(ptrs[i]);
    }
    assert ptrs[..|ptrs|] == ptrs;
  }

  /**
   * sl_scope_t: the array of path copies handed to sb_create.  `entries`
   * are the slots of the `dirs` array (0 where nothing was copied yet; the
   * allocator is taken to hand out zeroed memory) and `paths` the texts of
   * the copies made so far.
   */
  class Scope {
    var dirs: int
    var entries: seq<int>
    var paths: seq<string>
    var numDirs: nat

    constructor ()
      ensures Zero()
    {
      dirs := 0;
      entries := [];
      paths := [];
      numDirs := 0;
    }

    ghost predicate Zero()
      reads this
    {
      dirs == 0 && entries == [] && paths == [] && numDirs == 0
    }

    /** Everything the scope owns on the heap. */
    ghost function Owned(): set<int>
      reads this
    {
      (if dirs != 0 then {dirs} else {}) + Nonzero(entries)
    }

    /** The scope owns its allocations exclusively and they are all live. */
    ghost predicate Held(heap: Heap)
      reads this, heap
    {
      && (dirs == 0 ==> entries == [] && paths == [])
      && (dirs != 0 ==> |entries| == numDirs && dirs !in entries)
      && Distinct(entries)
      && Owned() <= heap.live
    }
  }

  /**
   * sl_napi_free_scope: frees every copy and the array and zeroes the
   * scope; a scope without an array only has its count reset.
   */
  method FreeScope(heap: Heap, scope: Scope)
    requires heap.Valid() && scope.Held(heap)
    modifies heap, scope
    ensures heap.Valid() && heap.live == old(heap.live) - old(scope.Owned())
    ensures scope.Zero() && scope.Held(heap)
  {
    if scope.dirs == 0 {
      scope.numDirs := 0;
      return;
    }
    FreeEach(heap, scope.entries);
    heap.Free(scope.dirs);
    scope.dirs, scope.entries, scope.paths, scope.numDirs := 0, [], [], 0;
  }

  /** sl_napi_copy_str: a heap copy of a string value, or string_expected. */
  method CopyStr(heap: Heap, v: JsValue) returns (status: int, p: int, text: string)
    requires heap.Valid()
    modifies heap
    ensures heap.Valid()
    ensures status == OK <==> v.Str?
    ensures status != OK ==> status == STRING_EXPECTED && heap.live == old(heap.live) && p == 0
    ensures status == OK ==> text == v.s && p != 0 && p !in old(heap.live) && heap.live == old(heap.live) + {p}
  {
    if !v.Str? {
      return STRING_EXPECTED, 0, "";
    }
    p := heap.Alloc();
    status, text := OK, v.s;
  }

  /**
   * sl_napi_copy_scope: copies an array of strings into an empty scope.
   * Whatever it allocated, on success or not, is owned by the scope.
   */
  method CopyScope(heap: Heap, v: JsValue, scope: Scope) returns (status: int)
    requires heap.Valid() && scope.Zero()
    modifies heap, scope
    ensures heap.Valid() && scope.Held(heap)
    ensures heap.live == old(heap.live) + scope.Owned() && scope.Owned() !! old(heap.live)
    ensures status == OK <==> StringsOf(v).Some?
    ensures status == OK ==> scope.paths == StringsOf(v).value && scope.numDirs == |scope.paths|
    ensures !v.Array? ==> status == BAD_ARG && scope.Zero()
    ensures v.Array? && status != OK ==> status == STRING_EXPECTED
  {
    if !v.Array? {
      return BAD_ARG;
    }
    var items := v.items;
    scope.numDirs := |items|;
    if |items| == 0 {
      return OK;
    }
    var d := heap.Alloc();
    scope.dirs := d;
    scope.entries := seq(|items|, _ => 0);
    var it := 0;
    while it < |items|
      invariant 0 <= it <= |items| && heap.Valid()
      invariant scope.dirs == d && scope.numDirs == |items| && |scope.entries| == |items|
      invariant forall k :: it <= k < |items| ==> scope.entries[k] == 0
      invariant |scope.paths| == it && forall k :: 0 <= k < it ==> items[k].Str? && scope.paths[k] == items[k].s
      invariant scope.Held(heap)
      invariant heap.live == old(heap.live) + scope.Owned() && scope.Owned() !! old(heap.live)
    {
      var st, p, text := CopyStr(heap, items[it]);
      if st != OK {
        return st;
      }
      assert p !in scope.entries;
      NonzeroFill(scope.entries, it, p);
      scope.entries := scope.entries[it := p];
      scope.paths := scope.paths + [text];
      it := it + 1;
    }
    assert scope.paths == StringsOf(v).value;
    return OK;
  }

  /** sl_napi_cb_t: the argument count N-API reported, the arguments, and the status. */
  datatype CbInfo = CbInfo(numArgs: nat, args: seq<JsValue>, error: int)

  /**
   * sl_napi_validate_cb: a wrong argument count is a generic failure; the
   * types are then compared in order, and the first mismatch stops the
   * comparison with the status still ok.  `stopped` is where it stopped.
   */
  method ValidateCb(args: seq<JsValue>, types: seq<ValueType>) returns (cb: CbInfo, ghost stopped: Option<nat>)
    requires |types| <= MAX_ARGS
    ensures cb.numArgs == |args|
    ensures cb.error == (if |args| == |types| then OK else GENERIC_FAILURE)
    ensures |args| == |types| ==> cb.args == args
    ensures stopped.Some? <==> |args| == |types| && exists i :: 0 <= i < |args| && TypeOf(args[i]) != types[i]
    ensures stopped.Some? ==>
      && stopped.value < |args| && TypeOf(args[stopped.value]) != types[stopped.value]
      && forall i :: 0 <= i < stopped.value ==> TypeOf(args[i]) == types[i]
  {
    cb := CbInfo(|args|, seq(|types|, i requires 0 <= i < |types| => Arg(args, i)), OK);
    stopped := None;
    if |args| != |types| {
      cb := cb.(error := GENERIC_FAILURE);
      return;
    }
    assert cb.args == args;
    var it := 0;
    while it < cb.numArgs
      invariant 0 <= it <= |args|
      invariant forall i :: 0 <= i < it ==> TypeOf(args[i]) == types[i]
    {
      if TypeOf(cb.args[it]) != types[it] {
        stopped := Some(it);
        return;
      }
      it := it + 1;
    }
  }

  /** sb_opts_t as napi.c fills it. */
  datatype Opts = Opts(read: seq<string>, write: seq<string>, network: bool)

  /** One call into the native context API. */
  datatype Call =
    | Created(opts: Opts, ctx: int)
    | Destroyed(ctx: int)
    | SpawnCalled(ctx: int, cmd: string, argv: seq<string>, err: int, errText: string)
    | Waited(ctx: int, code: int)
    | KillCalled(ctx: int, sig: int, r: int)

  datatype Field = Pid | StdinFd | StdoutFd | StderrFd

  /** A C int, what the accessors return and napi_create_int32 takes. */
  type CInt = x: int | -0x8000_0000 <= x < 0x8000_0000

  /**
   * The native context API: live contexts, a trace of calls, each
   * context's error text, and what its pid and descriptor accessors answer.
   */
  class Native {
    var live: set<int>
    var trace: seq<Call>
    var errors: map<int, string>
    var readings: map<(int, Field), CInt>

    constructor ()
      ensures live == {} && trace == [] && readings == map[]
    {
      live := {};
      trace := [];
      errors := map[];
      readings := map[];
    }

    /** What an accessor answers for a context: -1 until a spawn has recorded the child. */
    function Reading(ctx: int, field: Field): (v: CInt)
      reads this
      ensures (ctx, field) !in readings ==> v == -1
    {
      if (ctx, field) in readings then readings[(ctx, field)] else -1
    }

    /** sb_error. */
    function Error(ctx: int): string
      reads this
    {
      if ctx in errors then errors[ctx] else ""
    }

    /**
     * sb_create: 0 on failure, otherwise a context that was not live, whose
     * accessors all answer -1; no other context's answers change.
     */
    method Create(opts: Opts) returns (ctx: int)
      modifies this
      ensures ctx != 0 ==> ctx !in old(live)
      ensures live == old(live) + (if ctx != 0 then {ctx} else {})
      ensures trace == old(trace) + [Created(opts, ctx)]
      ensures ctx != 0 ==> forall f :: Reading(ctx, f) == -1
      ensures forall c, f :: c != ctx ==> Reading(c, f) == old(Reading(c, f))
    {
      ctx := *;
      if ctx in live {
        ctx := 0;
      }
      if ctx != 0 {
        live := live + {ctx};
        readings := map k | k in readings && k.0 != ctx :: readings[k];
      }
      trace := trace + [Created(opts, ctx)];
    }

    /** sb_destroy: only a live context may be destroyed. */
    method Destroy(ctx: int)
      requires ctx in live
      modifies this
      ensures live == old(live) - {ctx} && trace == old(trace) + [Destroyed(ctx)]
      ensures readings == old(readings)
    {
      live := live - {ctx};
      trace := trace + [Destroyed(ctx)];
    }

    /** sb_spawn, with sl_err_to_string of its result; it may change only its own context's answers. */
    method Spawn(ctx: int, cmd: string, argv: seq<string>) returns (err: int, errText: string)
      requires ctx in live
      modifies this
      ensures live == old(live) && trace == old(trace) + [SpawnCalled(ctx, cmd, argv, err, errText)]
      ensures forall c, f :: c != ctx ==> Reading(c, f) == old(Reading(c, f))
    {
      err, errText := *, *;
      errors := *;
      var answers: map<Field, CInt> := *;
      readings := map k | k in readings.Keys + set f | f in answers :: (ctx, f)
        :: if k.0 == ctx && k.1 in answers then answers[k.1] else readings[k];
      trace := trace + [SpawnCalled(ctx, cmd, argv, err, errText)];
    }

    method Wait(ctx: int) returns (code: int)
      requires ctx in live
      modifies this
      ensures live == old(live) && trace == old(trace) + [Waited(ctx, code)]
      ensures readings == old(readings)
    {
      code := *;
      errors := *;
      trace := trace + [Waited(ctx, code)];
    }

    method Kill(ctx: int, sig: int) returns (r: int)
      requires ctx in live
      modifies this
      ensures live == old(live) && trace == old(trace) + [KillCalled(ctx, sig, r)]
      ensures readings == old(readings)
    {
      r := *;
      errors := *;
      trace := trace + [KillCalled(ctx, sig, r)];
    }

    /** sb_pid and the three fd accessors: a read of the context that changes nothing. */
    method Get(ctx: int, field: Field) returns (v: CInt)
      requires ctx in live
      ensures v == Reading(ctx, field)
    {
      v := Reading(ctx, field);
    }
  }

  /** The wrapper an argument refers to, as a frame. */
  function HandleOf(v: JsValue): set<object>
  {
    if v.External? && v.handle != null then {v.handle} else {}
  }

  /** The binding's invariant for a wrapper: not yet finalized, and its context, when set, is live. */
  ghost predicate Usable(v: JsValue, native: Native)
    reads HandleOf(v), native
  {
    v.External? && v.handle != null ==> !v.handle.freed && (v.handle.sb != 0 ==> v.handle.sb in native.live)
  }

  /**
   * n_get_handle: the wrapper behind an external, or the error thrown: a
   * value that is not an external fails the N-API call, and a wrapper
   * without a context is a destroyed sandbox.
   */
  function GetHandle(v: JsValue): (r: Result<NHandle, string>)
    reads HandleOf(v)
    ensures r.Success? <==> v.External? && v.handle != null && v.handle.sb != 0
    ensures r.Success? ==> r.value == v.handle
    ensures !v.External? ==> r == Failure(GET_EXTERNAL_FAILED)
    ensures v.External? && r.Failure? ==> r == Failure(SANDBOX_DESTROYED)
  {
    if !v.External? then Failure(GET_EXTERNAL_FAILED)
    else if v.handle == null || v.handle.sb == 0 then Failure(SANDBOX_DESTROYED)
    else Success(v.handle)
  }

  /**
   * n_finalize: destroys the context only while the wrapper still holds
   * one, clears it, and always frees the wrapper.
   */
  method Finalize(native: Native, h: NHandle?)
    requires h != null ==> !h.freed && (h.sb != 0 ==> h.sb in native.live)
    modifies native, h
    ensures h == null ==> unchanged(native)
    ensures h != null ==> h.freed && h.sb == 0
    ensures h != null && old(h.sb) != 0 ==>
      native.trace == old(native.trace) + [Destroyed(old(h.sb))] && native.live == old(native.live) - {old(h.sb)}
    ensures h != null && old(h.sb) == 0 ==> unchanged(native)
  {
    if h == null {
      return;
    }
    if h.sb != 0 {
      native.Destroy(h.sb);
      h.sb := 0;
    }
    h.freed := true;
  }

  /**
   * n_destroy: destroys the context of a wrapper that still holds one and
   * clears it, so that every later call on it is refused.
   */
  method Destroy(native: Native, args: seq<JsValue>) returns (out: Outcome)
    requires Usable(Arg(args, 0), native)
    modifies native, HandleOf(Arg(args, 0))
    ensures var v := Arg(args, 0);
      && (!v.External? ==> out == Threw(DESTROY_EXTERNAL_FAILED) && unchanged(native))
      && (v.External? ==> out == Returned(Undefined) && GetHandle(v) == Failure(SANDBOX_DESTROYED))
      && (v.External? && v.handle != null && old(v.handle.sb) != 0 ==>
            native.trace == old(native.trace) + [Destroyed(old(v.handle.sb))]
            && native.live == old(native.live) - {old(v.handle.sb)})
      && (v.External? && (v.handle == null || old(v.handle.sb) == 0) ==> unchanged(native))
      && Usable(v, native)
  {
    var v := Arg(args, 0);
    if !v.External? {
      return Threw(DESTROY_EXTERNAL_FAILED);
    }
    var h := v.handle;
    if h != null && h.sb != 0 {
      native.Destroy(h.sb);
      h.sb := 0;
    }
    return Returned(Undefined);
  }

  /** n_pid, n_stdin_fd, n_stdout_fd, n_stderr_fd: the accessor's value, or the handle error. */
  method Get(native: Native, args: seq<JsValue>, field: Field) returns (out: Outcome)
    requires Usable(Arg(args, 0), native)
    ensures GetHandle(Arg(args, 0)).Failure? ==> out == Threw(GetHandle(Arg(args, 0)).error)
    ensures GetHandle(Arg(args, 0)).Success? ==>
      out == Returned(Number(native.Reading(GetHandle(Arg(args, 0)).value.sb, field)))
  {
    var h := GetHandle(Arg(args, 0));
    if h.Failure? {
      return Threw(h.error);
    }
    var n := native.Get(h.value.sb, field);
    return Returned(Number(n));
  }

  /** n_wait: the exit code, or sb_error thrown when the code is negative. */
  method Wait(native: Native, args: seq<JsValue>) returns (out: Outcome)
    requires Usable(Arg(args, 0), native)
    modifies native
    ensures GetHandle(Arg(args, 0)).Failure? ==> out == Threw(GetHandle(Arg(args, 0)).error) && unchanged(native)
    ensures GetHandle(Arg(args, 0)).Success? ==>
      var ctx := Arg(args, 0).handle.sb;
      && native.live == old(native.live)
      && |native.trace| == |old(native.trace)| + 1
      && native.trace[..|old(native.trace)|] == old(native.trace)
      && var call := native.trace[|old(native.trace)|];
      && call.Waited? && call.ctx == ctx
      && out == (if call.code < 0 then Threw(native.Error(ctx)) else Returned(Number(call.code)))
  {
    var h := GetHandle(Arg(args, 0));
    if h.Failure? {
      return Threw(h.error);
    }
    var code := native.Wait(h.value.sb);
    if code < 0 {
      return Threw(native.Error(h.value.sb));
    }
    return Returned(Number(code));
  }

  /** n_kill: the signal must be a number; a non-zero answer from sb_kill throws sb_error. */
  method Kill(native: Native, args: seq<JsValue>) returns (out: Outcome)
    requires Usable(Arg(args, 0), native)
    modifies native
    ensures GetHandle(Arg(args, 0)).Failure? ==> out == Threw(GetHandle(Arg(args, 0)).error) && unchanged(native)
    ensures GetHandle(Arg(args, 0)).Success? && !Arg(args, 1).Number? ==> out == Threw(GET_INT32_FAILED) && unchanged(native)
    ensures GetHandle(Arg(args, 0)).Success? && Arg(args, 1).Number? ==>
      var ctx := Arg(args, 0).handle.sb;
      && native.live == old(native.live)
      && |native.trace| == |old(native.trace)| + 1
      && native.trace[..|old(native.trace)|] == old(native.trace)
      && var call := native.trace[|old(native.trace)|];
      && call.KillCalled? && call.ctx == ctx && call.sig == Int32(Arg(args, 1).n)
      && out == (if call.r != 0 then Threw(native.Error(ctx)) else Returned(Undefined))
  {
    var h := GetHandle(Arg(args, 0));
    if h.Failure? {
      return Threw(h.error);
    }
    var s := Arg(args, 1);
    if !s.Number? {
      return Threw(GET_INT32_FAILED);
    }
    var r := native.Kill(h.value.sb, Int32(s.n));
    if r != 0 {
      return Threw(native.Error(h.value.sb));
    }
    return Returned(Undefined);
  }

  /**
   * What n_spawn hands to sb_spawn, or the message it throws before
   * calling it.  A second argument that is not an array at all is taken
   * as an empty argument list.
   */
  function SpawnRequest(cmd: JsValue, argv: JsValue): (r: Result<(string, seq<string>), string>)
    ensures !cmd.Str? ==> r == Failure(CMD_NOT_STRING)
    ensures cmd.Str? ==> (r.Success? <==> !argv.Array? || StringsOf(argv).Some?)
    ensures r.Failure? && cmd.Str? ==> r.error == ARGS_NOT_STRINGS
    ensures r.Success? ==>
      r.value.0 == cmd.s && r.value.1 == (if argv.Array? then StringsOf(argv).value else [])
  {
    if !cmd.Str? then Failure(CMD_NOT_STRING)
    else if !argv.Array? then Success((cmd.s, []))
    else match StringsOf(argv)
      case None => Failure(ARGS_NOT_STRINGS)
      case Some(texts) => Success((cmd.s, texts))
  }

  /** Copies the elements of the argument array until one is not a string. */
  method CopyArgv(heap: Heap, items: seq<JsValue>) returns (filled: seq<int>, texts: seq<string>)
    requires heap.Valid()
    modifies heap
    ensures heap.Valid()
    ensures heap.live == old(heap.live) + Nonzero(filled) && Nonzero(filled) !! old(heap.live)
    ensures Distinct(filled) && |filled| == |texts| <= |items|
    ensures forall k :: 0 <= k < |texts| ==> items[k].Str? && texts[k] == items[k].s
    ensures |filled| < |items| ==> !items[|filled|].Str?
  {
    filled, texts := [], [];
    while |filled| < |items|
      invariant heap.Valid()
      invariant heap.live == old(heap.live) + Nonzero(filled) && Nonzero(filled) !! old(heap.live)
      invariant Distinct(filled) && |filled| == |texts| <= |items|
      invariant forall k :: 0 <= k < |texts| ==> items[k].Str? && texts[k] == items[k].s
      invariant 0 !in filled
      decreases |items| - |filled|
    {
      var st, p, text := CopyStr(heap, items[|filled|]);
      if st != OK {
        return;
      }
      assert p !in filled;
      assert Nonzero(filled + [p]) == Nonzero(filled) + {p};
      filled, texts := filled + [p], texts + [text];
    }
  }

  /**
   * n_spawn: copies the command and the arguments, calls sb_spawn, then
   * frees the copies on every path, and throws exactly when a message was
   * set.
   */
  method Spawn(heap: Heap, native: Native, args: seq<JsValue>) returns (out: Outcome)
    requires heap.Valid() && Usable(Arg(args, 0), native)
    modifies heap, native
    ensures heap.Valid() && heap.live == old(heap.live)
    ensures GetHandle(Arg(args, 0)).Failure? ==> out == Threw(GetHandle(Arg(args, 0)).error) && unchanged(native)
    ensures GetHandle(Arg(args, 0)).Success? ==>
      match SpawnRequest(Arg(args, 1), Arg(args, 2))
      case Failure(msg) => out == Threw(msg) && unchanged(native)
      case Success(req) =>
        var ctx := Arg(args, 0).handle.sb;
        && native.live == old(native.live)
        && |native.trace| == |old(native.trace)| + 1
        && native.trace[..|old(native.trace)|] == old(native.trace)
        && var call := native.trace[|old(native.trace)|];
        && call.SpawnCalled? && call.ctx == ctx && call.cmd == req.0 && call.argv == req.1
        && out == (if call.err != 0 then Threw(call.errText) else Returned(Undefined))
  {
    var h := GetHandle(Arg(args, 0));
    if h.Failure? {
      return Threw(h.error);
    }
    var sb := h.value.sb;
    var st, cmd, cmdText := CopyStr(heap, Arg(args, 1));
    if st != OK {
      return Threw(CMD_NOT_STRING);
    }
    var a := Arg(args, 2);
    var items := if a.Array? then a.items else [];
    var argv := 0;
    if |items| > 0 {
      argv := heap.Alloc();
    }
    var filled, texts := CopyArgv(heap, items);
    var msg: Option<string> := None;
    if |filled| < |items| {
      msg := Some(ARGS_NOT_STRINGS);
    } else {
      assert a.Array? ==> texts == StringsOf(a).value;
      var err, errText := native.Spawn(sb, cmdText, texts);
      if err != 0 {
        msg := Some(errText);
      }
    }
    FreeEach(heap, filled);
    heap.Free(argv);
    heap.Free(cmd);
    if msg.Some? {
      return Threw(msg.value);
    }
    return Returned(Undefined);
  }

  /** The scope an option names: missing (lookup failed) is empty, otherwise it must be an array of strings. */
  function ScopeOption(v: JsValue, name: string): Option<seq<string>>
  {
    var (status, value) := Property(v, name);
    if status != OK then Some([]) else StringsOf(value)
  }

  /** The network option: skipped when the lookup fails, otherwise it must be a boolean. */
  function NetworkOption(v: JsValue): Option<bool>
  {
    var (status, value) := Property(v, "network");
    if status != OK then Some(false)
    else if value.Bool? then Some(value.b)
    else None
  }

  /**
   * The options sl_napi_create passes to sb_create, or None when it gives
   * up before calling it.  An object must carry `read` and `write` arrays
   * of strings and a boolean `network`; null and undefined skip every
   * lookup; any other value fails on `read`.
   */
  function CreateRequest(args: seq<JsValue>): (r: Option<Opts>)
    ensures |args| != 1 ==> r.None?
    ensures |args| == 1 && args[0].Object? ==>
      var m := args[0].props;
      (r.Some? <==> "read" in m && StringsOf(m["read"]).Some? && "write" in m && StringsOf(m["write"]).Some?
                    && "network" in m && m["network"].Bool?)
      && (r.Some? ==> r.value == Opts(StringsOf(m["read"]).value, StringsOf(m["write"]).value, m["network"].b))
    ensures |args| == 1 && (args[0].Null? || args[0].Undefined?) ==> r == Some(Opts([], [], false))
    ensures |args| == 1 && !(args[0].Object? || args[0].Null? || args[0].Undefined?) ==> r.None?
  {
    if |args| != 1 then None
    else
      var v := args[0];
      match ScopeOption(v, "read")
      case None => None
      case Some(read) =>
        match ScopeOption(v, "write")
        case None => None
        case Some(write) =>
          match NetworkOption(v)
          case None => None
          case Some(network) => Some(Opts(read, write, network))
  }

  /**
   * The options object the TypeScript wrapper passes (`writable`,
   * `allowNet`, `readable`) never reaches sb_create: the binding looks up
   * `read`, `write` and `network` instead.
   */
  lemma WrapperOptionsRejected(writable: seq<string>, allowNet: bool, readable: seq<string>)
    ensures CreateRequest([Object(map["writable" := Array(Strs(writable)), "allowNet" := Bool(allowNet),
                                      "readable" := Array(Strs(readable))])]).None?
  {
    var m := map["writable" := Array(Strs(writable)), "allowNet" := Bool(allowNet), "readable" := Array(Strs(readable))];
    assert "read" !in m;
  }

  function Strs(texts: seq<string>): (r: seq<JsValue>)
    ensures |r| == |texts| && forall i :: 0 <= i < |texts| ==> r[i] == Str(texts[i])
  {
    seq(|texts|, i requires 0 <= i < |texts| => Str(texts[i]))
  }

  /** Copies the read and write scopes and reads the network flag, stopping at the first failure. */
  method CopyOptions(heap: Heap, v: JsValue, read: Scope, write: Scope) returns (opts: Option<Opts>)
    requires heap.Valid() && read.Zero() && write.Zero() && read != write
    modifies heap, read, write
    ensures heap.Valid() && read.Held(heap) && write.Held(heap)
    ensures heap.live == old(heap.live) + read.Owned() + write.Owned()
    ensures read.Owned() !! old(heap.live) && write.Owned() !! old(heap.live) && read.Owned() !! write.Owned()
    ensures opts == CreateRequest([v])
    ensures opts.Some? ==> read.paths == opts.value.read && write.paths == opts.value.write
  {
    var (rs, rv) := Property(v, "read");
    if rs == OK {
      var s := CopyScope(heap, rv, read);
      if s != OK {
        return None;
      }
    }
    ghost var mid := heap.live;
    var (ws, wv) := Property(v, "write");
    if ws == OK {
      var s := CopyScope(heap, wv, write);
      if s != OK {
        return None;
      }
    }
    var (ns, nv) := Property(v, "network");
    var network := false;
    if ns == OK {
      if !nv.Bool? {
        return None;
      }
      network := nv.b;
    }
    return Some(Opts(read.paths, write.paths, network));
  }

  /** The common exit of sl_napi_create: both scopes are freed, write first. */
  method Release(heap: Heap, read: Scope, write: Scope)
    requires heap.Valid() && read.Held(heap) && write.Held(heap) && read != write
    requires read.Owned() !! write.Owned()
    modifies heap, read, write
    ensures heap.Valid() && heap.live == old(heap.live) - old(read.Owned()) - old(write.Owned())
  {
    FreeScope(heap, write);
    FreeScope(heap, read);
  }

  /**
   * The part of sl_napi_create after the options were read: sb_create, the
   * wrapper, and the external; a failed external finalizes the wrapper.
   */
  method Instantiate(native: Native, opts: Opts, externalOk: bool) returns (out: Outcome, ctx: int)
    modifies native
    ensures native.trace == old(native.trace) + [Created(opts, ctx)] + (if ctx != 0 && !externalOk then [Destroyed(ctx)] else [])
    ensures out.Returned? <==> ctx != 0 && externalOk
    ensures !out.Returned? ==> out == NoValue && native.live == old(native.live)
    ensures out.Returned? ==>
      && out.value.External? && out.value.handle != null && fresh(out.value.handle)
      && out.value.handle.sb == ctx && !out.value.handle.freed
      && ctx !in old(native.live) && native.live == old(native.live) + {ctx}
      && forall f :: native.Reading(ctx, f) == -1
  {
    out := NoValue;
    ctx := native.Create(opts);
    if ctx != 0 {
      var handle := new NHandle(ctx);
      if !externalOk {
        Finalize(native, handle);
        return;
      }
      out := Returned(External(handle));
    }
  }

  /**
   * sl_napi_create.  Both scope copies are freed on every path through
   * the common exit; when the external cannot be created the wrapper is
   * finalized and the function returns early, so the scope copies leak
   * (`leaked`).
   */
  method Create(heap: Heap, native: Native, args: seq<JsValue>, externalOk: bool)
    returns (out: Outcome, ctx: int, ghost leaked: set<int>)
    requires heap.Valid()
    modifies heap, native
    ensures heap.Valid() && heap.live == old(heap.live) + leaked && leaked !! old(heap.live)
    ensures CreateRequest(args).None? ==> out == NoValue && unchanged(native) && leaked == {}
    ensures CreateRequest(args).Some? ==>
      native.trace == old(native.trace) + [Created(CreateRequest(args).value, ctx)]
        + (if ctx != 0 && !externalOk then [Destroyed(ctx)] else [])
    ensures out.Returned? <==> CreateRequest(args).Some? && ctx != 0 && externalOk
    ensures !out.Returned? ==> out == NoValue && native.live == old(native.live)
    ensures out.Returned? ==>
      && out.value.External? && out.value.handle != null && fresh(out.value.handle)
      && out.value.handle.sb == ctx && !out.value.handle.freed
      && ctx !in old(native.live) && native.live == old(native.live) + {ctx}
      && forall f :: native.Reading(ctx, f) == -1
    ensures leaked != {} ==> CreateRequest(args).Some? && ctx != 0 && !externalOk
    ensures CreateRequest(args).Some? && ctx != 0 && !externalOk && CreateRequest(args).value.read != [] ==> leaked != {}
  {
    ctx, leaked := 0, {};
    var cb, _ := ValidateCb(args, [TObject]);
    if cb.error != OK {
      return NoValue, ctx, leaked;
    }
    var read := new Scope();
    var write := new Scope();
    out := NoValue;
    var opts := CopyOptions(heap, cb.args[0], read, write);
    assert [cb.args[0]] == args;
    if opts.Some? {
      out, ctx := Instantiate(native, opts.value, externalOk);
      if ctx != 0 && !externalOk {
        leaked := read.Owned() + write.Owned();
        assert read.paths != [] ==> read.dirs in leaked;
        return;
      }
    }
    Release(heap, read, write);
  }

  /**
   * pid() and the descriptor accessors on a freshly created sandbox,
   * before any spawn: each answers -1.
   */
  method GetBeforeSpawn(heap: Heap, native: Native, args: seq<JsValue>, field: Field) returns (created: Outcome, got: Outcome)
    requires heap.Valid()
    modifies heap, native
    ensures created.Returned? ==> got == Returned(Number(-1))
  {
    var ctx;
    ghost var leaked;
    created, ctx, leaked := Create(heap, native, args, true);
    got := created;
    if created.Returned? {
      got := Get(native, [created.value], field);
    }
  }

  /**
   * A wrapper destroyed explicitly, destroyed again, used, and then
   * finalized by the garbage collector: its context is destroyed exactly
   * once and the later call is refused.
   */
  method DestroyTwiceThenFinalize(native: Native, h: NHandle) returns (waited: Outcome)
    requires !h.freed && h.sb != 0 && h.sb in native.live
    modifies native, h
    ensures waited == Threw(SANDBOX_DESTROYED)
    ensures native.trace == old(native.trace) + [Destroyed(old(h.sb))]
    ensures native.live == old(native.live) - {old(h.sb)} && h.freed
  {
    var first := Destroy(native, [External(h)]);
    var second := Destroy(native, [External(h)]);
    waited := Wait(native, [External(h)]);
    Finalize(native, h);
  }
}
