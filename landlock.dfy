/**
 * The deterministic half of the Linux policy: which filesystem rights the
 * running kernel can handle, which network rights are placed under
 * handling, and the ordered list of path-beneath rules that build_ruleset
 * asks the kernel to add.
 *
 * The access bits are those of the Linux UAPI header <linux/landlock.h>.
 */
module Landlock {

  const EXECUTE: bv64 := 1 << 0
  const WRITE_FILE: bv64 := 1 << 1
  const READ_FILE: bv64 := 1 << 2
  const READ_DIR: bv64 := 1 << 3
  const REMOVE_DIR: bv64 := 1 << 4
  const REMOVE_FILE: bv64 := 1 << 5
  const MAKE_CHAR: bv64 := 1 << 6
  const MAKE_DIR: bv64 := 1 << 7
  const MAKE_REG: bv64 := 1 << 8
  const MAKE_SOCK: bv64 := 1 << 9
  const MAKE_FIFO: bv64 := 1 << 10
  const MAKE_BLOCK: bv64 := 1 << 11
  const MAKE_SYM: bv64 := 1 << 12
  const REFER: bv64 := 1 << 13
  const TRUNCATE: bv64 := 1 << 14

  const NET_BIND_TCP: bv64 := 1 << 0
  const NET_CONNECT_TCP: bv64 := 1 << 1

  const ROUGHLY_READ: bv64 := EXECUTE | READ_FILE | READ_DIR
  const ROUGHLY_WRITE: bv64 :=
    WRITE_FILE | REMOVE_DIR | REMOVE_FILE | MAKE_CHAR | MAKE_DIR | MAKE_REG |
    MAKE_SOCK | MAKE_FIFO | MAKE_BLOCK | MAKE_SYM | REFER | TRUNCATE
  const ALL: bv64 := ROUGHLY_READ | ROUGHLY_WRITE

  /**
   * get_fs_mask, given the ABI version the kernel reported: the rights
   * build_ruleset places under handling.  Zero means "no Landlock".
   */
  function FsMask(abi: int): (mask: bv64)
    ensures mask == 0 <==> abi < 0
    ensures mask & !ALL == 0
    ensures abi >= 0 ==> mask & ROUGHLY_READ == ROUGHLY_READ
    ensures abi >= 0 ==> (mask & REFER != 0 <==> abi >= 2)
    ensures abi >= 0 ==> (mask & TRUNCATE != 0 <==> abi >= 3)
    ensures abi >= 0 ==> mask | REFER | TRUNCATE == ALL
  {
    if abi < 0 then 0
    else
      var withRefer := if abi < 2 then ALL & !REFER else ALL;
      if abi < 3 then withRefer & !TRUNCATE else withRefer
  }

  /** The handled_access_net of the ruleset: TCP bind and connect are denied when the network is. */
  function NetMask(allowNet: bool, abi: int): (net: bv64)
    ensures net != 0 <==> !allowNet && abi >= 4
    ensures net != 0 ==> net == NET_BIND_TCP | NET_CONNECT_TCP
  {
    if !allowNet && abi >= 4 then NET_BIND_TCP | NET_CONNECT_TCP else 0
  }

  /** One path-beneath rule: the rights granted under `path`. */
  datatype Rule = Rule(path: string, access: bv64)

  function Grant(paths: seq<string>, access: bv64): (rules: seq<Rule>)
    ensures |rules| == |paths|
    ensures forall i :: 0 <= i < |paths| ==> rules[i] == Rule(paths[i], access)
  {
    seq(|paths|, i requires 0 <= i < |paths| => Rule(paths[i], access))
  }

  /**
   * The rules build_ruleset adds, in the order it adds them: "/" read-only,
   * every writable directory with every handled right, "/dev" likewise,
   * then every readable path read-only.
   */
  function PlannedRules(writable: seq<string>, readable: seq<string>, mask: bv64): (rules: seq<Rule>)
  {
    [Rule("/", ROUGHLY_READ & mask)] + Grant(writable, mask) + [Rule("/dev", mask)] + Grant(readable, ROUGHLY_READ & mask)
  }

  /** Where each input lands in the plan, and that no read-only rule carries a write right. */
  lemma PlannedRulesLayout(writable: seq<string>, readable: seq<string>, mask: bv64)
    ensures var rules := PlannedRules(writable, readable, mask);
      && |rules| == |writable| + |readable| + 2
      && rules[0] == Rule("/", ROUGHLY_READ & mask)
      && (forall i :: 0 <= i < |writable| ==> rules[1 + i] == Rule(writable[i], mask))
      && rules[|writable| + 1] == Rule("/dev", mask)
      && (forall j :: 0 <= j < |readable| ==> rules[|writable| + 2 + j] == Rule(readable[j], ROUGHLY_READ & mask))
      && rules[0].access & ROUGHLY_WRITE == 0
      && (forall j :: |writable| + 2 <= j < |rules| ==> rules[j].access & ROUGHLY_WRITE == 0)
  {
    var rules := PlannedRules(writable, readable, mask);
    var w := |writable|;
    assert ROUGHLY_READ & ROUGHLY_WRITE == 0;
    assert (ROUGHLY_READ & mask) & ROUGHLY_WRITE == 0;
    forall i | 0 <= i < w
      ensures rules[1 + i] == Rule(writable[i], mask)
    {
      assert rules[1 + i] == Grant(writable, mask)[i];
    }
    forall j | 0 <= j < |readable|
      ensures rules[w + 2 + j] == Rule(readable[j], ROUGHLY_READ & mask)
    {
      assert rules[w + 2 + j] == Grant(readable, ROUGHLY_READ & mask)[j];
    }
    assert rules[w + 1] == Rule("/dev", mask);
  }
}
