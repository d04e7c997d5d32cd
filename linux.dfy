/**
 * The Linux back end (src/native/platform/linux.c): sb_create keeps copies
 * of the directory lists, and sb_spawn compiles them into a Landlock
 * ruleset in the parent, opens the three stdio pipes, forks, and keeps the
 * parent's ends.  The child's side (dup2, no_new_privs,
 * landlock_restrict_self, execve) is not modelled.
 */
module LinuxSandbox {
  import opened Wrappers
  import Os
  import Landlock
  import opened Handle

  /** The readable list sb_create stores: the first readableCount paths, or none. */
  function StoredReadable(opts: Options): (paths: seq<string>)
    requires CountsInBounds(opts)
    ensures opts.readableCount > 0 && opts.readable.Some? ==> paths == opts.readable.value[..opts.readableCount]
    ensures opts.readableCount <= 0 || opts.readable.None? ==> paths == []
  {
    if opts.readableCount > 0 && opts.readable.Some? then opts.readable.value[..opts.readableCount] else []
  }

  /** The loops of sb_create: the first `count` entries of `src`, copied one by one. */
  method CopyList(src: seq<string>, count: int) returns (dst: seq<string>)
    requires 0 <= count <= |src|
    ensures dst == src[..count]
  {
    dst := [];
    for i := 0 to count
      invariant dst == src[..i]
    {
      dst := dst + [src[i]];
    }
  }

  /**
   * sb_create.  No handle for a null opts or writable list, a writable
   * count below 1, or a kernel whose Landlock ABI query fails.  Otherwise
   * a fresh handle, not yet spawned, holding copies of the inputs.
   */
  method Create(opts: Option<Options>, os: Os.Kernel) returns (sb: Sandbox?)
    requires opts.Some? ==> CountsInBounds(opts.value)
    requires os.Valid()
    modifies os
    ensures os.Valid() && os.open == old(os.open)
    ensures opts.None? || opts.value.writable.None? || opts.value.writableCount < 1 ==> sb == null && unchanged(os)
    ensures opts.Some? && opts.value.writable.Some? && opts.value.writableCount >= 1 ==>
      && |os.trace| == |old(os.trace)| + 1 && os.trace[..|old(os.trace)|] == old(os.trace)
      && os.trace[|old(os.trace)|].AbiQueried?
      && (sb == null <==> os.trace[|old(os.trace)|].abi < 0)
    ensures sb != null ==>
      && fresh(sb) && sb.Valid() && !sb.Spawned()
      && sb.policy == Landlock(opts.value.writable.value[..opts.value.writableCount], StoredReadable(opts.value), opts.value.allowNet)
      && !sb.exited && !sb.destroyed && sb.errbuf == ""
  {
    if opts.None? || opts.value.writable.None? || opts.value.writableCount < 1 {
      return null;
    }
    var o := opts.value;
    var abi := os.QueryAbi();
    if abi < 0 {
      return null;
    }
    var writable := CopyList(o.writable.value, o.writableCount);
    var readable: seq<string> := [];
    if o.readableCount > 0 && o.readable.Some? {
      readable := CopyList(o.readable.value, o.readableCount);
    }
    sb := new Sandbox(Landlock(writable, readable, o.allowNet));
  }

  /** The message add_path_rule stores for a rule the kernel refused. */
  function RuleError(path: string, outcome: Os.RuleOutcome, err: string): (msg: string)
    ensures |msg| < ERRBUF_SIZE
    ensures outcome.OpenFailed? ==> msg == Bounded("open(" + path + ", O_PATH): " + err)
    ensures outcome.AddFailed? ==> msg == Bounded("landlock_add_rule(" + path + "): " + err)
  {
    match outcome
    case OpenFailed => Bounded("open(" + path + ", O_PATH): " + err)
    case AddFailed => Bounded("landlock_add_rule(" + path + "): " + err)
    case Added => ""
  }

  /** A stretch of the trace asks, in order, for exactly the given rules on the given ruleset. */
  ghost predicate Asked(events: seq<Os.Event>, ruleset: int, rules: seq<Landlock.Rule>) {
    && |events| == |rules|
    && forall i :: 0 <= i < |events| ==>
         events[i].PathRule? && events[i].ruleset == ruleset
         && events[i].path == rules[i].path && events[i].access == rules[i].access
  }

  /** Every rule asked for in a stretch of the trace was added. */
  ghost predicate AllAdded(events: seq<Os.Event>) {
    forall i :: 0 <= i < |events| ==> events[i].PathRule? && events[i].outcome == Os.Added
  }

  lemma AskedAppend(a: seq<Os.Event>, b: seq<Os.Event>, ruleset: int, ra: seq<Landlock.Rule>, rb: seq<Landlock.Rule>)
    requires Asked(a, ruleset, ra) && Asked(b, ruleset, rb)
    ensures Asked(a + b, ruleset, ra + rb)
  {
    forall i | 0 <= i < |a + b|
      ensures (a + b)[i].PathRule? && (a + b)[i].ruleset == ruleset
        && (a + b)[i].path == (ra + rb)[i].path && (a + b)[i].access == (ra + rb)[i].access
    {
      if i >= |a| {
        assert (a + b)[i] == b[i - |a|] && (ra + rb)[i] == rb[i - |a|];
      }
    }
  }

  /** The mask of the ruleset, as get_fs_mask computes it from the first ABI query of the trace. */
  ghost function MaskOf(S: seq<Os.Event>): bv64
    requires |S| >= 1 && S[0].AbiQueried?
  {
    Landlock.FsMask(S[0].abi)
  }

  /**
   * The first three calls of a build that got as far as a ruleset: the ABI
   * query of get_fs_mask (which found Landlock), the second ABI query for
   * the network rights, and the creation of a ruleset handling exactly the
   * rights FsMask and NetMask give.
   */
  ghost predicate Created(S: seq<Os.Event>, p: Policy)
    requires p.Landlock?
  {
    && |S| >= 3 && S[0].AbiQueried? && S[1].AbiQueried? && S[2].RulesetCreated?
    && MaskOf(S) != 0
    && S[2].fs == MaskOf(S)
    && S[2].net == Landlock.NetMask(p.allowNet, S[1].abi)
    && S[2].fd >= 0
  }

  /** The rules the build of this trace was to add. */
  ghost function Plan(S: seq<Os.Event>, p: Policy): seq<Landlock.Rule>
    requires p.Landlock? && |S| >= 1 && S[0].AbiQueried?
  {
    Landlock.PlannedRules(p.writable, p.readable, MaskOf(S))
  }

  /** A complete build: the ruleset was created and every planned rule was added to it, in order. */
  ghost predicate Built(S: seq<Os.Event>, p: Policy)
    requires p.Landlock?
  {
    && Created(S, p)
    && |S| >= 3 + |Plan(S, p)|
    && Asked(S[3..3 + |Plan(S, p)|], S[2].fd, Plan(S, p))
    && AllAdded(S[3..3 + |Plan(S, p)|])
  }

  /**
   * A build abandoned at a refused rule: the rules of the plan were asked
   * for in order up to and including the first one refused, and then the
   * ruleset was closed.
   */
  ghost predicate Abandoned(S: seq<Os.Event>, p: Policy)
    requires p.Landlock?
  {
    && Created(S, p)
    && |S| >= 5
    && var k := |S| - 4;
    && k <= |Plan(S, p)|
    && Asked(S[3..3 + k], S[2].fd, Plan(S, p)[..k])
    && AllAdded(S[3..3 + k - 1])
    && S[3 + k - 1].outcome != Os.Added
    && S[|S| - 1] == Os.Closed(S[2].fd)
  }

  /** A stretch of rule events that ends at the first refused rule. */
  ghost predicate StopsAtRefusal(events: seq<Os.Event>) {
    && |events| >= 1
    && AllAdded(events[..|events| - 1])
    && events[|events| - 1].PathRule? && events[|events| - 1].outcome != Os.Added
  }

  /**
   * The rule events `T` of a run over the rules `X`: they ask for a prefix
   * of `X` in order; if the run succeeded, all of `X` was asked for and
   * added, and otherwise the events end at the first refused rule.
   */
  ghost predicate Progress(T: seq<Os.Event>, ruleset: int, X: seq<Landlock.Rule>, ok: bool) {
    && |T| <= |X| && Asked(T, ruleset, X[..|T|])
    && (ok ==> |T| == |X| && AllAdded(T))
    && (!ok ==> StopsAtRefusal(T))
  }

  /** A successful run followed by another run is a run over both lists of rules. */
  lemma ProgressAppend(T1: seq<Os.Event>, T2: seq<Os.Event>, ruleset: int, X1: seq<Landlock.Rule>, X2: seq<Landlock.Rule>, ok: bool)
    requires Progress(T1, ruleset, X1, true) && Progress(T2, ruleset, X2, ok)
    ensures Progress(T1 + T2, ruleset, X1 + X2, ok)
  {
    assert (X1 + X2)[..|T1 + T2|] == X1 + X2[..|T2|];
    assert X1[..|T1|] == X1;
    AskedAppend(T1, T2, ruleset, X1, X2[..|T2|]);
    if !ok {
      assert (T1 + T2)[..|T1 + T2| - 1] == T1 + T2[..|T2| - 1];
    }
  }

  /** A failed run is a failed run over any longer list of rules. */
  lemma ProgressExtend(T: seq<Os.Event>, ruleset: int, X1: seq<Landlock.Rule>, X2: seq<Landlock.Rule>)
    requires Progress(T, ruleset, X1, false)
    ensures Progress(T, ruleset, X1 + X2, false)
  {
    assert (X1 + X2)[..|T|] == X1[..|T|];
  }

  lemma Associate(t: seq<Os.Event>, a: seq<Os.Event>, b: seq<Os.Event>)
    ensures t + a + b == t + (a + b)
  {
  }

  /** add_path_rule: one rule; on refusal the message names the path and the step that failed. */
  method AddPathRule(sb: Sandbox, os: Os.Kernel, ruleset: int, path: string, access: bv64) returns (ok: bool, ghost T: seq<Os.Event>)
    requires sb.Valid() && os.Valid()
    modifies sb`errbuf, os
    ensures sb.Valid() && os.Valid() && os.open == old(os.open)
    ensures os.trace == old(os.trace) + T
    ensures Progress(T, ruleset, [Landlock.Rule(path, access)], ok)
    ensures ok ==> sb.errbuf == old(sb.errbuf)
    ensures !ok ==> sb.errbuf == RuleError(path, T[0].outcome, os.errno)
  {
    var outcome := os.AddPathRule(ruleset, path, access);
    T := [Os.PathRule(ruleset, path, access, outcome)];
    ok := outcome == Os.Added;
    if !ok {
      sb.errbuf := RuleError(path, outcome, os.errno);
      assert T[..0] == [];
    }
    assert [Landlock.Rule(path, access)][..1] == [Landlock.Rule(path, access)];
  }

  /**
   * One loop of build_ruleset: a rule per path, all with the same rights,
   * stopping at the first the kernel refuses.
   */
  method AddRules(sb: Sandbox, os: Os.Kernel, ruleset: int, paths: seq<string>, access: bv64) returns (ok: bool, ghost T: seq<Os.Event>)
    requires sb.Valid() && os.Valid()
    modifies sb`errbuf, os
    ensures sb.Valid() && os.Valid() && os.open == old(os.open)
    ensures os.trace == old(os.trace) + T
    ensures Progress(T, ruleset, Landlock.Grant(paths, access), ok)
    ensures ok ==> sb.errbuf == old(sb.errbuf)
    ensures !ok ==> |T| >= 1 && sb.errbuf == RuleError(T[|T| - 1].path, T[|T| - 1].outcome, os.errno)
  {
    ghost var grant := Landlock.Grant(paths, access);
    ok := true;
    T := [];
    for i := 0 to |paths|
      invariant sb.Valid() && os.Valid() && os.open == old(os.open)
      invariant os.trace == old(os.trace) + T
      invariant Progress(T, ruleset, grant[..i], true)
      invariant sb.errbuf == old(sb.errbuf)
    {
      ghost var E;
      ok, E := AddPathRule(sb, os, ruleset, paths[i], access);
      assert grant[..i + 1] == grant[..i] + [Landlock.Rule(paths[i], access)];
      ProgressAppend(T, E, ruleset, grant[..i], [Landlock.Rule(paths[i], access)], ok);
      Associate(old(os.trace), T, E);
      T := T + E;
      if !ok {
        ProgressExtend(T, ruleset, grant[..i + 1], grant[i + 1..]);
        assert grant[..i + 1] + grant[i + 1..] == grant;
        return;
      }
    }
    assert grant[..|paths|] == grant;
  }

  /**
   * Two consecutive stages of build_ruleset: one rule for `first`, then one
   * rule per path of `paths`, stopping at the first refused rule.
   */
  method AddStages(sb: Sandbox, os: Os.Kernel, ruleset: int, first: Landlock.Rule, paths: seq<string>, access: bv64)
    returns (ok: bool, ghost T: seq<Os.Event>)
    requires sb.Valid() && os.Valid()
    modifies sb`errbuf, os
    ensures sb.Valid() && os.Valid() && os.open == old(os.open)
    ensures os.trace == old(os.trace) + T
    ensures Progress(T, ruleset, [first] + Landlock.Grant(paths, access), ok)
    ensures ok ==> sb.errbuf == old(sb.errbuf)
    ensures !ok ==> |T| >= 1 && sb.errbuf == RuleError(T[|T| - 1].path, T[|T| - 1].outcome, os.errno)
  {
    ok, T := AddPathRule(sb, os, ruleset, first.path, first.access);
    if !ok {
      ProgressExtend(T, ruleset, [first], Landlock.Grant(paths, access));
      return;
    }
    ghost var E;
    ok, E := AddRules(sb, os, ruleset, paths, access);
    ProgressAppend(T, E, ruleset, [first], Landlock.Grant(paths, access), ok);
    Associate(old(os.trace), T, E);
    T := T + E;
  }

  /**
   * The four stages of build_ruleset: "/" with the read rights, each
   * writable directory and then "/dev" with every handled right, each
   * readable path with the read rights.  Stops at the first refused rule;
   * the rules asked for are always a prefix of the plan.
   */
  method AddPlannedRules(sb: Sandbox, os: Os.Kernel, ruleset: int, mask: bv64) returns (ok: bool, ghost T: seq<Os.Event>)
    requires sb.Valid() && sb.policy.Landlock? && os.Valid()
    modifies sb`errbuf, os
    ensures sb.Valid() && os.Valid() && os.open == old(os.open)
    ensures os.trace == old(os.trace) + T
    ensures Progress(T, ruleset, Landlock.PlannedRules(sb.policy.writable, sb.policy.readable, mask), ok)
    ensures ok ==> sb.errbuf == old(sb.errbuf)
    ensures !ok ==> |T| >= 1 && sb.errbuf == RuleError(T[|T| - 1].path, T[|T| - 1].outcome, os.errno)
  {
    var readAccess := Landlock.ROUGHLY_READ & mask;
    ghost var X1 := [Landlock.Rule("/", readAccess)] + Landlock.Grant(sb.policy.writable, mask);
    ghost var X2 := [Landlock.Rule("/dev", mask)] + Landlock.Grant(sb.policy.readable, readAccess);
    assert Landlock.PlannedRules(sb.policy.writable, sb.policy.readable, mask) == X1 + X2;
    ok, T := AddStages(sb, os, ruleset, Landlock.Rule("/", readAccess), sb.policy.writable, mask);
    if !ok {
      ProgressExtend(T, ruleset, X1, X2);
      return;
    }
    ghost var E;
    ok, E := AddStages(sb, os, ruleset, Landlock.Rule("/dev", mask), sb.policy.readable, readAccess);
    ProgressAppend(T, E, ruleset, X1, X2, ok);
    Associate(old(os.trace), T, E);
    T := T + E;
  }

  /** No event of a stretch of the trace opened a pipe. */
  ghost predicate NoPipes(S: seq<Os.Event>) {
    forall i :: 0 <= i < |S| ==> !S[i].PipeOpened?
  }

  /**
   * What one run of build_ruleset can have done, given the descriptor it
   * returned: found no Landlock (one ABI query), failed to create the
   * ruleset (two queries and the failed creation), built the ruleset with
   * every planned rule, or abandoned it at a refused rule.
   */
  ghost predicate BuildOutcome(S: seq<Os.Event>, p: Policy, fd: int)
    requires p.Landlock?
  {
    && |S| >= 1 && S[0].AbiQueried?
    && NoPipes(S)
    && (fd < 0 ==> fd == -1)
    && (MaskOf(S) == 0 ==> fd == -1 && |S| == 1)
    && (MaskOf(S) != 0 && !Created(S, p) ==>
          && fd == -1 && |S| == 3 && S[1].AbiQueried?
          && S[2] == Os.RulesetCreated(MaskOf(S), Landlock.NetMask(p.allowNet, S[1].abi), -1))
    && (fd >= 0 ==> Built(S, p) && |S| == 3 + |Plan(S, p)| && fd == S[2].fd)
    && (Created(S, p) && fd < 0 ==> Abandoned(S, p))
  }

  /** The message build_ruleset leaves in errbuf for each outcome; a success leaves the old one. */
  ghost function BuildMessage(S: seq<Os.Event>, p: Policy, fd: int, before: string, err: string): string
    requires p.Landlock? && BuildOutcome(S, p, fd)
  {
    if fd >= 0 then before
    else if MaskOf(S) == 0 then Bounded("landlock not supported by this kernel")
    else if !Created(S, p) then Bounded("landlock_create_ruleset: " + err)
    else RuleError(S[|S| - 2].path, S[|S| - 2].outcome, err)
  }

  lemma NoLandlock(abi: int, p: Policy, before: string, err: string)
    requires p.Landlock? && Landlock.FsMask(abi) == 0
    ensures BuildOutcome([Os.AbiQueried(abi)], p, -1)
    ensures BuildMessage([Os.AbiQueried(abi)], p, -1, before, err) == Bounded("landlock not supported by this kernel")
  {
  }

  lemma NoRuleset(abi: int, netAbi: int, fd: int, p: Policy, before: string, err: string)
    requires p.Landlock? && Landlock.FsMask(abi) != 0 && fd == -1
    ensures var S := [Os.AbiQueried(abi), Os.AbiQueried(netAbi), Os.RulesetCreated(Landlock.FsMask(abi), Landlock.NetMask(p.allowNet, netAbi), fd)];
      && BuildOutcome(S, p, -1)
      && BuildMessage(S, p, -1, before, err) == Bounded("landlock_create_ruleset: " + err)
  {
  }

  lemma RuleEventsNoPipes(T: seq<Os.Event>, ruleset: int, X: seq<Landlock.Rule>, ok: bool)
    requires Progress(T, ruleset, X, ok)
    ensures NoPipes(T)
  {
    forall i | 0 <= i < |T|
      ensures !T[i].PipeOpened?
    {
      assert T[i].PathRule?;
    }
  }

  /** The build's header followed by rule events that asked for, and added, the whole plan. */
  lemma Complete(H: seq<Os.Event>, T: seq<Os.Event>, p: Policy, before: string, err: string)
    requires p.Landlock? && |H| == 3 && Created(H, p) && NoPipes(H)
    requires Progress(T, H[2].fd, Plan(H, p), true)
    ensures BuildOutcome(H + T, p, H[2].fd)
    ensures BuildMessage(H + T, p, H[2].fd, before, err) == before
  {
    var S := H + T;
    assert S[0] == H[0] && S[1] == H[1] && S[2] == H[2];
    assert S[3..3 + |Plan(S, p)|] == T;
    assert Plan(H, p)[..|T|] == Plan(H, p);
    RuleEventsNoPipes(T, H[2].fd, Plan(H, p), true);
  }

  /** Whatever follows the build's header, the header still decides the mask, the ruleset and the plan. */
  lemma HeadKept(H: seq<Os.Event>, R: seq<Os.Event>, p: Policy)
    requires p.Landlock? && |H| == 3 && Created(H, p)
    ensures (H + R)[..3] == H && Created(H + R, p) && MaskOf(H + R) == MaskOf(H) && Plan(H + R, p) == Plan(H, p)
  {
    assert (H + R)[0] == H[0] && (H + R)[1] == H[1] && (H + R)[2] == H[2];
  }

  lemma NoPipesAppend(A: seq<Os.Event>, B: seq<Os.Event>)
    requires NoPipes(A) && NoPipes(B)
    ensures NoPipes(A + B)
  {
    forall i | 0 <= i < |A + B|
      ensures !(A + B)[i].PipeOpened?
    {
      if i >= |A| {
        assert (A + B)[i] == B[i - |A|];
      }
    }
  }

  /** The shape of an abandoned build: header, rule events up to the refusal, close. */
  lemma AbandonedShape(H: seq<Os.Event>, T: seq<Os.Event>, p: Policy)
    requires p.Landlock? && |H| == 3 && Created(H, p)
    requires Progress(T, H[2].fd, Plan(H, p), false)
    ensures Abandoned(H + T + [Os.Closed(H[2].fd)], p)
  {
    var S := H + T + [Os.Closed(H[2].fd)];
    HeadKept(H, T + [Os.Closed(H[2].fd)], p);
    Associate(H, T, [Os.Closed(H[2].fd)]);
    var k := |S| - 4;
    assert S[3..3 + k] == T;
    assert S[3..3 + k - 1] == T[..|T| - 1];
  }

  /** An abandoned build without pipes is the fourth outcome of build_ruleset, with the refusal's message. */
  lemma AbandonedOutcome(S: seq<Os.Event>, p: Policy, before: string, err: string)
    requires p.Landlock? && Abandoned(S, p) && NoPipes(S)
    ensures BuildOutcome(S, p, -1)
    ensures BuildMessage(S, p, -1, before, err) == RuleError(S[|S| - 2].path, S[|S| - 2].outcome, err)
  {
  }

  /** The build's header, rule events ending in the first refusal, and the close of the ruleset. */
  lemma Abandon(H: seq<Os.Event>, T: seq<Os.Event>, p: Policy, before: string, err: string)
    requires p.Landlock? && |H| == 3 && Created(H, p) && NoPipes(H)
    requires Progress(T, H[2].fd, Plan(H, p), false)
    ensures var S := H + T + [Os.Closed(H[2].fd)];
      && BuildOutcome(S, p, -1)
      && BuildMessage(S, p, -1, before, err) == RuleError(T[|T| - 1].path, T[|T| - 1].outcome, err)
  {
    var c := Os.Closed(H[2].fd);
    RuleEventsNoPipes(T, H[2].fd, Plan(H, p), false);
    NoPipesAppend(T, [c]);
    NoPipesAppend(H, T + [c]);
    Associate(H, T, [c]);
    AbandonedShape(H, T, p);
    var S := H + T + [c];
    assert S[|S| - 2] == T[|T| - 1];
    AbandonedOutcome(S, p, before, err);
  }

  /** Abandon, with the rule events and the close taken as one stretch. */
  lemma AbandonClosed(H: seq<Os.Event>, T: seq<Os.Event>, R: seq<Os.Event>, p: Policy, before: string, err: string)
    requires p.Landlock? && |H| == 3 && Created(H, p) && NoPipes(H)
    requires Progress(T, H[2].fd, Plan(H, p), false) && R == T + [Os.Closed(H[2].fd)]
    ensures BuildOutcome(H + R, p, -1)
    ensures BuildMessage(H + R, p, -1, before, err) == RuleError(T[|T| - 1].path, T[|T| - 1].outcome, err)
  {
    Abandon(H, T, p, before, err);
    Associate(H, T, [Os.Closed(H[2].fd)]);
  }

  /**
   * build_ruleset.  Returns the ruleset descriptor, open, after every
   * planned rule was added; -1 when the kernel has no Landlock, when the
   * ruleset cannot be created, or when a rule is refused, in which case the
   * rules were asked for in plan order up to the refused one and the
   * ruleset was closed again.
   */
  method BuildRuleset(sb: Sandbox, os: Os.Kernel) returns (fd: int, ghost S: seq<Os.Event>)
    requires sb.Valid() && sb.policy.Landlock? && os.Valid()
    modifies sb`errbuf, os
    ensures sb.Valid() && os.Valid()
    ensures os.trace == old(os.trace) + S
    ensures BuildOutcome(S, sb.policy, fd)
    ensures sb.errbuf == BuildMessage(S, sb.policy, fd, old(sb.errbuf), os.errno)
    ensures fd >= 0 ==> fd !in old(os.open) && os.open == old(os.open) + {fd}
    ensures fd < 0 ==> os.open == old(os.open)
  {
    var abi := os.QueryAbi();
    var fsMask := Landlock.FsMask(abi);
    if fsMask == 0 {
      NoLandlock(abi, sb.policy, sb.errbuf, os.errno);
      sb.errbuf := Bounded("landlock not supported by this kernel");
      return -1, [Os.AbiQueried(abi)];
    }
    var netAbi := os.QueryAbi();
    var netMask := Landlock.NetMask(sb.policy.allowNet, netAbi);
    var rulesetFd := os.CreateRuleset(fsMask, netMask);
    ghost var H := [Os.AbiQueried(abi), Os.AbiQueried(netAbi), Os.RulesetCreated(fsMask, netMask, rulesetFd)];
    assert os.trace == old(os.trace) + H;
    if rulesetFd < 0 {
      NoRuleset(abi, netAbi, rulesetFd, sb.policy, sb.errbuf, os.errno);
      sb.errbuf := Bounded("landlock_create_ruleset: " + os.errno);
      return -1, H;
    }
    assert Created(H, sb.policy) && NoPipes(H);
    ghost var R;
    fd, R := Populate(sb, os, rulesetFd, fsMask, H);
    Associate(old(os.trace), H, R);
    S := H + R;
  }

  /**
   * The part of build_ruleset after the ruleset was created: add the
   * planned rules, and close the ruleset again at the first refusal.
   */
  method Populate(sb: Sandbox, os: Os.Kernel, rulesetFd: int, fsMask: bv64, ghost H: seq<Os.Event>)
    returns (fd: int, ghost R: seq<Os.Event>)
    requires sb.Valid() && sb.policy.Landlock? && os.Valid()
    requires |H| == 3 && Created(H, sb.policy) && NoPipes(H) && H[2].fd == rulesetFd && H[2].fs == fsMask
    modifies sb`errbuf, os
    ensures sb.Valid() && os.Valid()
    ensures os.trace == old(os.trace) + R
    ensures BuildOutcome(H + R, sb.policy, fd)
    ensures sb.errbuf == BuildMessage(H + R, sb.policy, fd, old(sb.errbuf), os.errno)
    ensures fd >= 0 ==> fd == rulesetFd && os.open == old(os.open)
    ensures fd < 0 ==> os.open == old(os.open) - {rulesetFd}
  {
    ghost var before := sb.errbuf;
    var ok, T := AddPlannedRules(sb, os, rulesetFd, fsMask);
    if !ok {
      os.Close(rulesetFd);
      R := T + [Os.Closed(rulesetFd)];
      AbandonClosed(H, T, R, sb.policy, before, os.errno);
      return -1, R;
    }
    Complete(H, T, sb.policy, before, os.errno);
    R := T;
    fd := rulesetFd;
  }

  /** Later events do not change what a complete build at the head of the trace did. */
  lemma BuiltExtend(B: seq<Os.Event>, R: seq<Os.Event>, p: Policy)
    requires p.Landlock? && Built(B, p)
    ensures Built(B + R, p) && (B + R)[2] == B[2]
  {
    var S := B + R;
    assert S[0] == B[0] && S[1] == B[1] && S[2] == B[2];
    var n := 3 + |Plan(B, p)|;
    assert S[3..n] == B[3..n];
  }

  /**
   * After a failed pipe() the descriptors still open are those of the
   * pipes opened before it: the pipe calls are the only ones that open any.
   */
  lemma PipeLeak(P: seq<Os.Event>, fd: int)
    ensures Os.PipeEnds(P + [Os.Closed(fd)]) == Os.PipeEnds(P)
  {
    Os.PipeEndsAppend(P, [Os.Closed(fd)]);
    Os.PipeEndsNone([Os.Closed(fd)]);
  }

  /**
   * The fork of sb_spawn and what the parent does after it: on failure all
   * six pipe ends and the ruleset are closed; on success the child's ends
   * and the ruleset are closed and the handle records the child.
   */
  method ForkChild(sb: Sandbox, os: Os.Kernel, rulesetFd: int, pin: Os.Pipe, pout: Os.Pipe, perr: Os.Pipe)
    returns (stage: SpawnStage, ghost F: seq<Os.Event>)
    requires sb.Valid() && !sb.Spawned() && os.Valid()
    requires Os.FreshTrio(pin, pout, perr, {})
    modifies sb, os
    ensures sb.Valid() && os.Valid() && os.trace == old(os.trace) + F
    ensures sb.policy == old(sb.policy) && sb.destroyed == old(sb.destroyed) && sb.exitCode == old(sb.exitCode)
    ensures stage == ForkFailed || stage == Started
    ensures stage == ForkFailed ==>
      && sb.Process() == old(sb.Process()) && sb.exited == old(sb.exited)
      && sb.errbuf == Bounded("fork: " + os.errno)
      && os.open == old(os.open) - (Os.Ends(pin) + Os.Ends(pout) + Os.Ends(perr)) - {rulesetFd}
    ensures stage == Started ==>
      && sb.Spawned() && !sb.exited && sb.errbuf == old(sb.errbuf)
      && sb.stdinFd == pin.writeEnd && sb.stdoutFd == pout.readEnd && sb.stderrFd == perr.readEnd
      && F == [Os.Forked(sb.pid), Os.Closed(pin.readEnd), Os.Closed(pout.writeEnd), Os.Closed(perr.writeEnd), Os.Closed(rulesetFd)]
      && os.open == old(os.open) - {pin.readEnd, pout.writeEnd, perr.writeEnd} - {rulesetFd}
  {
    var pid := os.Fork();
    if pid < 0 {
      sb.errbuf := Bounded("fork: " + os.errno);
      Handle.CloseTrio(os, pin, pout, perr);
      ghost var six := [Os.Closed(pin.readEnd), Os.Closed(pin.writeEnd), Os.Closed(pout.readEnd),
                        Os.Closed(pout.writeEnd), Os.Closed(perr.readEnd), Os.Closed(perr.writeEnd)];
      Associate(old(os.trace), [Os.Forked(pid)], six);
      os.Close(rulesetFd);
      Associate(old(os.trace), [Os.Forked(pid)] + six, [Os.Closed(rulesetFd)]);
      return ForkFailed, [Os.Forked(pid)] + six + [Os.Closed(rulesetFd)];
    }
    Handle.AdoptChild(sb, os, pid, pin, pout, perr);
    ghost var three := [Os.Closed(pin.readEnd), Os.Closed(pout.writeEnd), Os.Closed(perr.writeEnd)];
    Associate(old(os.trace), [Os.Forked(pid)], three);
    os.Close(rulesetFd);
    Associate(old(os.trace), [Os.Forked(pid)] + three, [Os.Closed(rulesetFd)]);
    F := [Os.Forked(pid)] + three + [Os.Closed(rulesetFd)];
    stage := Started;
  }

  /**
   * The part of sb_spawn after the ruleset was built: the three pipes, then
   * the fork.  A failed pipe closes only the ruleset.
   */
  method Launch(sb: Sandbox, os: Os.Kernel, rulesetFd: int)
    returns (stage: SpawnStage, ghost L: seq<Os.Event>, ghost pin: Os.Pipe, ghost pout: Os.Pipe, ghost perr: Os.Pipe)
    requires sb.Valid() && !sb.Spawned() && os.Valid()
    requires rulesetFd >= 0 && rulesetFd in os.open
    modifies sb, os
    ensures sb.Valid() && os.Valid() && os.trace == old(os.trace) + L
    ensures sb.policy == old(sb.policy) && sb.destroyed == old(sb.destroyed) && sb.exitCode == old(sb.exitCode)
    ensures stage == PipeFailed || stage == ForkFailed || stage == Started
    ensures stage != Started ==> sb.Process() == old(sb.Process()) && sb.exited == old(sb.exited)
    ensures stage == PipeFailed ==>
      && sb.errbuf == Bounded("pipe: " + os.errno)
      && os.open == old(os.open) - {rulesetFd} + Os.PipeEnds(L) && Os.PipeEnds(L) !! old(os.open)
    ensures stage == ForkFailed ==> sb.errbuf == Bounded("fork: " + os.errno) && os.open == old(os.open) - {rulesetFd}
    ensures stage == Started ==>
      && sb.Spawned() && !sb.exited && sb.errbuf == old(sb.errbuf)
      && sb.stdinFd == pin.writeEnd && sb.stdoutFd == pout.readEnd && sb.stderrFd == perr.readEnd
      && L == [Os.PipeOpened(Some(pin)), Os.PipeOpened(Some(pout)), Os.PipeOpened(Some(perr)), Os.Forked(sb.pid),
               Os.Closed(pin.readEnd), Os.Closed(pout.writeEnd), Os.Closed(perr.writeEnd), Os.Closed(rulesetFd)]
      && os.open == old(os.open) - {rulesetFd} + {sb.stdinFd, sb.stdoutFd, sb.stderrFd}
      && {sb.stdinFd, sb.stdoutFd, sb.stderrFd} !! old(os.open)
  {
    ghost var before := os.open;
    var ok, p0, p1, p2, P := Os.OpenThreePipes(os);
    pin, pout, perr := p0, p1, p2;
    if !ok {
      sb.errbuf := Bounded("pipe: " + os.errno);
      os.Close(rulesetFd);
      Associate(old(os.trace), P, [Os.Closed(rulesetFd)]);
      PipeLeak(P, rulesetFd);
      return PipeFailed, P + [Os.Closed(rulesetFd)], pin, pout, perr;
    }
    ghost var F;
    stage, F := ForkChild(sb, os, rulesetFd, p0, p1, p2);
    Associate(old(os.trace), P, F);
    L := P + F;
    if stage == ForkFailed {
      Os.CloseAllEnds(before, p0, p1, p2);
    } else {
      Os.KeepParentEnds(before, p0, p1, p2);
    }
  }

  /**
   * sb_spawn for a handle not yet spawned: build the ruleset, then launch.
   */
  method SpawnFresh(sb: Sandbox, os: Os.Kernel)
    returns (stage: SpawnStage, ghost S: seq<Os.Event>, ghost pin: Os.Pipe, ghost pout: Os.Pipe, ghost perr: Os.Pipe)
    requires sb.Valid() && sb.policy.Landlock? && !sb.Spawned() && os.Valid()
    modifies sb, os
    ensures sb.Valid() && os.Valid() && os.trace == old(os.trace) + S
    ensures sb.policy == old(sb.policy) && sb.destroyed == old(sb.destroyed) && sb.exitCode == old(sb.exitCode)
    ensures stage != Refused
    ensures stage != Started ==> sb.Process() == old(sb.Process()) && sb.exited == old(sb.exited)
    ensures stage == PolicyFailed ==>
      && BuildOutcome(S, sb.policy, -1) && os.open == old(os.open)
      && sb.errbuf == BuildMessage(S, sb.policy, -1, old(sb.errbuf), os.errno)
    ensures stage != PolicyFailed ==> Built(S, sb.policy)
    ensures stage == PipeFailed ==> sb.errbuf == Bounded("pipe: " + os.errno) && os.open == old(os.open) + Os.PipeEnds(S)
    ensures stage == ForkFailed ==> sb.errbuf == Bounded("fork: " + os.errno) && os.open == old(os.open)
    ensures stage == Started ==>
      && sb.Spawned() && !sb.exited && sb.errbuf == old(sb.errbuf)
      && sb.stdinFd == pin.writeEnd && sb.stdoutFd == pout.readEnd && sb.stderrFd == perr.readEnd
      && |S| >= 8
      && S[|S| - 8..] == [Os.PipeOpened(Some(pin)), Os.PipeOpened(Some(pout)), Os.PipeOpened(Some(perr)), Os.Forked(sb.pid),
                          Os.Closed(pin.readEnd), Os.Closed(pout.writeEnd), Os.Closed(perr.writeEnd), Os.Closed(S[2].fd)]
      && os.open == old(os.open) + {sb.stdinFd, sb.stdoutFd, sb.stderrFd}
      && {sb.stdinFd, sb.stdoutFd, sb.stderrFd} !! old(os.open)
  {
    pin, pout, perr := Os.Pipe(-1, -1), Os.Pipe(-1, -1), Os.Pipe(-1, -1);
    var rulesetFd, B := BuildRuleset(sb, os);
    if rulesetFd < 0 {
      return PolicyFailed, B, pin, pout, perr;
    }
    ghost var L;
    stage, L, pin, pout, perr := Launch(sb, os, rulesetFd);
    Associate(old(os.trace), B, L);
    S := B + L;
    BuiltExtend(B, L, sb.policy);
    if stage == PipeFailed {
      Os.PipeEndsAppend(B, L);
      Os.PipeEndsNone(B);
    } else if stage == Started {
      assert S[|S| - 8..] == L;
    }
  }

  /**
   * sb_spawn on Linux, the parent's side.  A null handle or command is
   * refused silently and a second spawn with "already spawned".  Otherwise
   * the ruleset is built in the parent, then three pipes are opened and the
   * child forked.  On success the parent closes the child's ends of the
   * pipes and the ruleset and keeps the write end of stdin and the read
   * ends of stdout and stderr.  A failed fork closes all six pipe ends and
   * the ruleset; a failed pipe closes only the ruleset, so the pipes opened
   * before the failure stay open.  The command's argv and environment only
   * reach execve in the child and are not modelled.
   */
  method Spawn(sb: Sandbox?, os: Os.Kernel, cmd: Option<string>)
    returns (r: int, ghost stage: SpawnStage, ghost S: seq<Os.Event>, ghost pin: Os.Pipe, ghost pout: Os.Pipe, ghost perr: Os.Pipe)
    requires sb != null ==> sb.Valid() && sb.policy.Landlock?
    requires os.Valid()
    modifies sb, os
    ensures os.Valid() && os.trace == old(os.trace) + S
    ensures r == (if stage == Started then 0 else -1)
    ensures stage == Refused <==> sb == null || cmd.None? || old(sb.pid) != -1
    ensures stage == Refused ==> S == [] && os.open == old(os.open)
    ensures sb != null ==> sb.Valid()
    ensures stage == Refused && sb != null ==>
      && unchanged(sb`policy, sb`pid, sb`stdinFd, sb`stdoutFd, sb`stderrFd, sb`exited, sb`destroyed, sb`exitCode)
      && sb.errbuf == (if cmd.None? then old(sb.errbuf) else Bounded("already spawned"))
    ensures stage != Refused ==>
      && sb != null
      && sb.policy == old(sb.policy) && sb.destroyed == old(sb.destroyed) && sb.exitCode == old(sb.exitCode)
      && (stage != Started ==> sb.Process() == old(sb.Process()) && sb.exited == old(sb.exited))
      && (stage != PolicyFailed ==> Built(S, sb.policy))
    ensures stage == PolicyFailed ==>
      && sb != null && BuildOutcome(S, sb.policy, -1) && os.open == old(os.open)
      && sb.errbuf == BuildMessage(S, sb.policy, -1, old(sb.errbuf), os.errno)
    ensures stage == PipeFailed ==>
      && sb != null && sb.errbuf == Bounded("pipe: " + os.errno) && os.open == old(os.open) + Os.PipeEnds(S)
    ensures stage == ForkFailed ==> sb != null && sb.errbuf == Bounded("fork: " + os.errno) && os.open == old(os.open)
    ensures stage == Started ==>
      && sb != null && sb.Spawned() && !sb.exited && sb.errbuf == old(sb.errbuf)
      && sb.stdinFd == pin.writeEnd && sb.stdoutFd == pout.readEnd && sb.stderrFd == perr.readEnd
      && |S| >= 8
      && S[|S| - 8..] == [Os.PipeOpened(Some(pin)), Os.PipeOpened(Some(pout)), Os.PipeOpened(Some(perr)), Os.Forked(sb.pid),
                          Os.Closed(pin.readEnd), Os.Closed(pout.writeEnd), Os.Closed(perr.writeEnd), Os.Closed(S[2].fd)]
      && os.open == old(os.open) + {sb.stdinFd, sb.stdoutFd, sb.stderrFd}
      && {sb.stdinFd, sb.stdoutFd, sb.stderrFd} !! old(os.open)
  {
    pin, pout, perr := Os.Pipe(-1, -1), Os.Pipe(-1, -1), Os.Pipe(-1, -1);
    if sb == null || cmd.None? {
      return -1, Refused, [], pin, pout, perr;
    }
    if sb.pid != -1 {
      sb.errbuf := Bounded("already spawned");
      return -1, Refused, [], pin, pout, perr;
    }
    var launched;
    launched, S, pin, pout, perr := SpawnFresh(sb, os);
    stage := launched;
    r := if launched == Started then 0 else -1;
  }
}
