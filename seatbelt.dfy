/**
 * The deterministic half of the macOS policy: the Seatbelt (SBPL) profile
 * text that build_profile writes for a set of options.  The profile denies
 * everything by default, allows process control and reads everywhere but
 * under /Users, re-allows reads under the writable directories that lie
 * under /Users and under every readable path, allows writes under the
 * writable directories, /dev and /private/var/folders, and the network
 * when asked to.
 */
module Seatbelt {

  /** The fixed opening of every profile: version, default deny, process control, sysctl, mach, ipc, signals. */
  const HEADER: string :=
    "(version 1)(deny default (with no-log))(allow process*)(allow sysctl-read)(allow mach*)(allow ipc*)(allow signal)"

  /** Reads are allowed everywhere except under /Users. */
  const FILE_READS: string := "(allow file-read*)(deny file-read* (subpath \"/Users\"))"

  /** The write clauses every profile ends its writable list with. */
  const WRITE_TAIL: string := "(allow file-write* (subpath \"/dev\"))(allow file-write* (subpath \"/private/var/folders\"))"

  const NETWORK: string := "(allow network*)"

  const READ_OPEN: string := "(allow file-read* (subpath \""
  const WRITE_OPEN: string := "(allow file-write* (subpath \""
  const CLOSE: string := "\"))"

  function ReadClause(path: string): string {
    READ_OPEN + path + CLOSE
  }

  function WriteClause(path: string): string {
    WRITE_OPEN + path + CLOSE
  }

  /** strncmp(path, "/Users", 6) == 0: the first six characters are "/Users" (a shorter C string stops at its NUL). */
  predicate UnderUsers(path: string) {
    |path| >= 6 && path[..6] == "/Users"
  }

  predicate Always(path: string) {
    true
  }

  /** One pass of build_profile over a list of paths: the clause of each path that `keep` accepts, in order. */
  function Clauses(paths: seq<string>, clause: string -> string, keep: string -> bool): seq<string> {
    if |paths| == 0 then []
    else
      var last := paths[|paths| - 1];
      Clauses(paths[..|paths| - 1], clause, keep) + (if keep(last) then [clause(last)] else [])
  }

  function Concat(parts: seq<string>): string {
    if |parts| == 0 then "" else Concat(parts[..|parts| - 1]) + parts[|parts| - 1]
  }

  /** The text one pass appends. */
  function Section(paths: seq<string>, clause: string -> string, keep: string -> bool): string {
    Concat(Clauses(paths, clause, keep))
  }

  /**
   * build_profile: the header, the global read allow with the /Users deny,
   * the re-allows for writable directories under /Users, the readable
   * paths, the writable directories, the fixed write clauses, and the
   * network clause when the network is allowed.
   */
  function ProfileText(writable: seq<string>, readable: seq<string>, allowNet: bool): string {
    HEADER + FILE_READS
      + Section(writable, ReadClause, UnderUsers)
      + Section(readable, ReadClause, Always)
      + Section(writable, WriteClause, Always)
      + WRITE_TAIL
      + (if allowNet then NETWORK else "")
  }

  /** The `n` characters of `s` from position `k`. */
  function Window(s: string, k: nat, n: nat): string
    requires k + n <= |s|
  {
    s[k..k + n]
  }

  /** `t` occurs somewhere in `s`. */
  ghost predicate Occurs(t: string, s: string) {
    exists k: nat :: k + |t| <= |s| && Window(s, k, |t|) == t
  }

  lemma {:induction false} ClausesAppend(a: seq<string>, b: seq<string>, clause: string -> string, keep: string -> bool)
    ensures Clauses(a + b, clause, keep) == Clauses(a, clause, keep) + Clauses(b, clause, keep)
    decreases |b|
  {
    if |b| == 0 {
      assert a + b == a;
    } else {
      var b' := b[..|b| - 1];
      assert (a + b)[..|a + b| - 1] == a + b';
      assert (a + b)[|a + b| - 1] == b[|b| - 1];
      ClausesAppend(a, b', clause, keep);
    }
  }

  lemma {:induction false} ConcatAppend(a: seq<string>, b: seq<string>)
    ensures Concat(a + b) == Concat(a) + Concat(b)
    decreases |b|
  {
    if |b| == 0 {
      assert a + b == a;
    } else {
      var b' := b[..|b| - 1];
      assert (a + b)[..|a + b| - 1] == a + b';
      ConcatAppend(a, b');
    }
  }

  lemma SectionAppend(a: seq<string>, b: seq<string>, clause: string -> string, keep: string -> bool)
    ensures Section(a + b, clause, keep) == Section(a, clause, keep) + Section(b, clause, keep)
  {
    ClausesAppend(a, b, clause, keep);
    ConcatAppend(Clauses(a, clause, keep), Clauses(b, clause, keep));
  }

  /** What a pass has appended after its first `i` paths is a prefix of what the whole pass appends. */
  lemma SectionPrefix(paths: seq<string>, i: nat, clause: string -> string, keep: string -> bool)
    requires i <= |paths|
    ensures Section(paths[..i], clause, keep) <= Section(paths, clause, keep)
  {
    assert paths == paths[..i] + paths[i..];
    SectionAppend(paths[..i], paths[i..], clause, keep);
  }

  /** One more path extends the pass by that path's clause, if it is kept. */
  lemma SectionStep(paths: seq<string>, i: nat, clause: string -> string, keep: string -> bool)
    requires i < |paths|
    ensures Section(paths[..i + 1], clause, keep)
         == Section(paths[..i], clause, keep) + (if keep(paths[i]) then clause(paths[i]) else "")
  {
    assert paths[..i + 1][..i] == paths[..i];
    var c := Clauses(paths[..i], clause, keep);
    if keep(paths[i]) {
      assert (c + [clause(paths[i])])[..|c|] == c;
    } else {
      assert c + [] == c;
    }
  }

  lemma OccursIn(t: string, a: string, b: string, c: string)
    ensures Occurs(t, a + t + b) && Occurs(b, a + t + b + c)
  {
    var s := a + t + b;
    assert Window(s, |a|, |t|) == t;
    var s' := a + t + b + c;
    assert Window(s', |a| + |t|, |b|) == b;
  }

  /** A kept path's clause occurs in the text of the pass. */
  lemma SectionOccurs(paths: seq<string>, i: nat, clause: string -> string, keep: string -> bool)
    requires i < |paths| && keep(paths[i])
    ensures Occurs(clause(paths[i]), Section(paths, clause, keep))
  {
    var before, after := paths[..i], paths[i + 1..];
    assert paths == before + [paths[i]] + after;
    SectionAppend(before + [paths[i]], after, clause, keep);
    SectionAppend(before, [paths[i]], clause, keep);
    assert Clauses([paths[i]], clause, keep) == [clause(paths[i])] by {
      assert [paths[i]][..0] == [];
    }
    assert Concat([clause(paths[i])]) == clause(paths[i]) by {
      assert [clause(paths[i])][..0] == [];
    }
    OccursIn(clause(paths[i]), Section(before, clause, keep), Section(after, clause, keep), "");
  }

  /** Different paths give different read clauses. */
  lemma ReadClauseInjective(p: string, q: string)
    requires ReadClause(p) == ReadClause(q)
    ensures p == q
  {
    var n := |READ_OPEN|;
    assert |p| == |q|;
    assert p == ReadClause(p)[n..n + |p|];
    assert q == ReadClause(q)[n..n + |q|];
  }

  /**
   * The re-allow pass: a path's read clause is among its clauses exactly
   * when the path is one of the writable directories and starts with
   * "/Users".
   */
  lemma {:induction false} ReallowIff(writable: seq<string>, q: string)
    ensures ReadClause(q) in Clauses(writable, ReadClause, UnderUsers) <==> q in writable && UnderUsers(q)
    decreases |writable|
  {
    if |writable| > 0 {
      var init, last := writable[..|writable| - 1], writable[|writable| - 1];
      assert writable == init + [last];
      ReallowIff(init, q);
      if ReadClause(q) in Clauses(writable, ReadClause, UnderUsers) && ReadClause(q) !in Clauses(init, ReadClause, UnderUsers) {
        ReadClauseInjective(q, last);
      }
    }
  }

  /** Every profile starts with the fixed header and the global read allow that denies /Users. */
  lemma ProfileStartsWithHeader(writable: seq<string>, readable: seq<string>, allowNet: bool)
    ensures HEADER + FILE_READS <= ProfileText(writable, readable, allowNet)
  {
    ProfileLayout(writable, readable, allowNet);
    var reallow := Section(writable, ReadClause, UnderUsers);
    var rest := Section(readable, ReadClause, Always) + Section(writable, WriteClause, Always)
      + (WRITE_TAIL + (if allowNet then NETWORK else ""));
    HeadOfConcat(HEADER + FILE_READS, reallow, rest);
  }

  lemma HeadOfConcat(head: string, x: string, y: string)
    ensures head <= head + x + y
  {
    assert (head + x + y)[..|head|] == head;
  }

  /** The profile ends with the network clause exactly when the network is allowed, and with the fixed write clauses otherwise. */
  lemma ProfileNetworkIff(writable: seq<string>, readable: seq<string>, allowNet: bool)
    ensures var text := ProfileText(writable, readable, allowNet);
      && (|text| >= |NETWORK| && text[|text| - |NETWORK|..] == NETWORK <==> allowNet)
      && (!allowNet ==> text[|text| - |WRITE_TAIL|..] == WRITE_TAIL)
  {
    var text := ProfileText(writable, readable, allowNet);
    var body := HEADER + FILE_READS
      + Section(writable, ReadClause, UnderUsers)
      + Section(readable, ReadClause, Always)
      + Section(writable, WriteClause, Always)
      + WRITE_TAIL;
    if allowNet {
      assert text == body + NETWORK;
      assert text[|text| - |NETWORK|..] == NETWORK;
    } else {
      assert text == body;
      assert text[|text| - |WRITE_TAIL|..] == WRITE_TAIL;
      assert text[|text| - 2] == WRITE_TAIL[|WRITE_TAIL| - 2] == ')';
      assert NETWORK[|NETWORK| - 2] == '*';
    }
  }

  lemma Regroup(head: string, x: string, y: string, z: string, tail: string)
    ensures head + x + y + z + tail == head + x + (y + z + tail)
    ensures head + x + y + z + tail == (head + x) + y + (z + tail)
    ensures head + x + y + z + tail == (head + x + y) + z + tail
  {
  }

  /** The profile as its three passes and what surrounds them. */
  lemma ProfileLayout(writable: seq<string>, readable: seq<string>, allowNet: bool)
    ensures var head := HEADER + FILE_READS;
      var reallow := Section(writable, ReadClause, UnderUsers);
      var readText := Section(readable, ReadClause, Always);
      var writeText := Section(writable, WriteClause, Always);
      var tail := WRITE_TAIL + (if allowNet then NETWORK else "");
      var text := ProfileText(writable, readable, allowNet);
      && text == head + reallow + (readText + writeText + tail)
      && text == (head + reallow) + readText + (writeText + tail)
      && text == (head + reallow + readText) + writeText + tail
  {
    var tail := WRITE_TAIL + (if allowNet then NETWORK else "");
    var reallow := Section(writable, ReadClause, UnderUsers);
    var readText := Section(readable, ReadClause, Always);
    var writeText := Section(writable, WriteClause, Always);
    assert ProfileText(writable, readable, allowNet) == HEADER + FILE_READS + reallow + readText + writeText + tail;
    Regroup(HEADER + FILE_READS, reallow, readText, writeText, tail);
  }

  /** Every writable directory gets a write clause. */
  lemma ProfileWritesWritable(writable: seq<string>, readable: seq<string>, allowNet: bool, i: nat)
    requires i < |writable|
    ensures Occurs(WriteClause(writable[i]), ProfileText(writable, readable, allowNet))
  {
    ProfileLayout(writable, readable, allowNet);
    SectionOccurs(writable, i, WriteClause, Always);
    OccursWithin(WriteClause(writable[i]), Section(writable, WriteClause, Always),
      HEADER + FILE_READS + Section(writable, ReadClause, UnderUsers) + Section(readable, ReadClause, Always),
      WRITE_TAIL + (if allowNet then NETWORK else ""));
  }

  /** Every readable path gets a read clause. */
  lemma ProfileReadsReadable(writable: seq<string>, readable: seq<string>, allowNet: bool, i: nat)
    requires i < |readable|
    ensures Occurs(ReadClause(readable[i]), ProfileText(writable, readable, allowNet))
  {
    ProfileLayout(writable, readable, allowNet);
    SectionOccurs(readable, i, ReadClause, Always);
    OccursWithin(ReadClause(readable[i]), Section(readable, ReadClause, Always),
      HEADER + FILE_READS + Section(writable, ReadClause, UnderUsers),
      Section(writable, WriteClause, Always) + (WRITE_TAIL + (if allowNet then NETWORK else "")));
  }

  /** A writable directory under /Users gets its reads back. */
  lemma ProfileReallowsUsers(writable: seq<string>, readable: seq<string>, allowNet: bool, i: nat)
    requires i < |writable| && UnderUsers(writable[i])
    ensures Occurs(ReadClause(writable[i]), ProfileText(writable, readable, allowNet))
  {
    ProfileLayout(writable, readable, allowNet);
    SectionOccurs(writable, i, ReadClause, UnderUsers);
    OccursWithin(ReadClause(writable[i]), Section(writable, ReadClause, UnderUsers),
      HEADER + FILE_READS,
      Section(readable, ReadClause, Always) + Section(writable, WriteClause, Always) + (WRITE_TAIL + (if allowNet then NETWORK else "")));
  }

  lemma OccursWithin(t: string, s: string, a: string, b: string)
    requires Occurs(t, s)
    ensures Occurs(t, a + s + b)
  {
    var k: nat :| k + |t| <= |s| && Window(s, k, |t|) == t;
    var whole := a + s + b;
    assert Window(whole, |a| + k, |t|) == Window(s, k, |t|);
  }

  /**
   * The options alone do not keep the profile inside build_profile's
   * 2048-byte buffer: one writable directory with a 2048-character path
   * already makes the text longer.
   */
  lemma ProfileCanExceedBuffer(cap: nat)
    ensures var path := seq(cap, _ => 'a');
      |ProfileText([path], [], false)| > cap
  {
    var path := seq(cap, _ => 'a');
    assert [path][..0] == [];
    assert Clauses([path], WriteClause, Always) == [WriteClause(path)];
    assert Concat([WriteClause(path)]) == WriteClause(path);
  }
}
