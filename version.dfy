/**
 * The release version tool (version.ts): the MAJOR.MINOR.PATCH core of a
 * Semantic Versioning 2.0.0 version string (the pre-release part after
 * '-' and the build metadata after '+' are cut off, items 9 and 10 of that
 * standard), the three bumps of items 6 to 8, and the rewrite of the
 * package manifests.  Reading and writing files is left to the caller:
 * manifests arrive parsed and leave as values.
 */
module Version {
  import opened Wrappers
  import Platform

  /** A parsed JSON value; an object keeps its entries in order. */
  datatype Json =
    | JNull
    | JBool(b: bool)
    | JNum(n: int)
    | JStr(s: string)
    | JArr(items: seq<Json>)
    | JObj(entries: seq<(string, Json)>)

  /** isObject: an object that is neither null nor an array. */
  predicate IsObject(v: Json)
  {
    v.JObj?
  }

  /** The value of the first entry named `key`. */
  function Lookup(entries: seq<(string, Json)>, key: string): (r: Option<Json>)
    ensures r.None? <==> forall i :: 0 <= i < |entries| ==> entries[i].0 != key
  {
    if |entries| == 0 then None
    else if entries[0].0 == key then Some(entries[0].1)
    else Lookup(entries[1..], key)
  }

  /** Gives the entry named `key` the value `v`, in place when it exists and at the end otherwise. */
  function Assign(entries: seq<(string, Json)>, key: string, v: Json): (r: seq<(string, Json)>)
    ensures Lookup(r, key) == Some(v)
    ensures forall k :: k != key ==> Lookup(r, k) == Lookup(entries, k)
    ensures Lookup(entries, key).Some? ==> |r| == |entries| && forall i :: 0 <= i < |r| ==> r[i].0 == entries[i].0
  {
    if |entries| == 0 then [(key, v)]
    else if entries[0].0 == key then [(key, v)] + entries[1..]
    else [entries[0]] + Assign(entries[1..], key, v)
  }

  // ---- string helpers with JavaScript's meaning ----

  /** String.prototype.indexOf for one character: the first index, or -1. */
  function IndexOf(s: string, c: char): (r: int)
    ensures -1 <= r < |s|
    ensures r == -1 <==> c !in s
    ensures r >= 0 ==> s[r] == c && c !in s[..r]
  {
    if |s| == 0 then -1
    else if s[0] == c then 0
    else
      var k := IndexOf(s[1..], c);
      if k < 0 then -1
      else
        assert s[..k + 1] == [s[0]] + s[1..][..k];
        k + 1
  }

  /**
   * The whitespace String.prototype.trim and Number() discard: the
   * ECMAScript WhiteSpace and LineTerminator code points, that is tab, the
   * line breaks, space, no-break space, the Unicode space separators, the
   * line and paragraph separators and the byte order mark.
   */
  predicate IsSpace(c: char)
  {
    var n := c as int;
    || (0x09 <= n <= 0x0D) || n == 0x20 || n == 0xA0 || n == 0x1680
    || (0x2000 <= n <= 0x200A) || n == 0x2028 || n == 0x2029 || n == 0x202F || n == 0x205F
    || n == 0x3000 || n == 0xFEFF
  }

  function TrimStart(s: string): (r: string)
    ensures |r| <= |s| && r == s[|s| - |r|..]
    ensures forall i :: 0 <= i < |s| - |r| ==> IsSpace(s[i])
    ensures |r| > 0 ==> !IsSpace(r[0])
  {
    if |s| > 0 && IsSpace(s[0]) then TrimStart(s[1..]) else s
  }

  function TrimEnd(s: string): (r: string)
    ensures |r| <= |s| && r == s[..|r|]
    ensures forall i :: |r| <= i < |s| ==> IsSpace(s[i])
    ensures |r| > 0 ==> !IsSpace(r[|r| - 1])
  {
    if |s| > 0 && IsSpace(s[|s| - 1]) then TrimEnd(s[..|s| - 1]) else s
  }

  /** String.prototype.trim: the middle of `s` between its leading and trailing whitespace. */
  function Trim(s: string): (r: string)
    ensures |r| <= |s|
    ensures var lead := |s| - |TrimStart(s)|;
      && lead + |r| <= |s| && r == s[lead..lead + |r|]
      && (forall i :: 0 <= i < lead ==> IsSpace(s[i]))
      && (forall i :: lead + |r| <= i < |s| ==> IsSpace(s[i]))
    ensures |r| > 0 ==> !IsSpace(r[0]) && !IsSpace(r[|r| - 1])
  {
    var t := TrimStart(s);
    TrailingShift(s, |s| - |t|, |TrimEnd(t)|);
    TrimEnd(t)
  }

  /** Whitespace at the end of a suffix of `s` is whitespace at the end of `s`. */
  lemma TrailingShift(s: string, lead: nat, keep: nat)
    requires lead + keep <= |s|
    requires forall j :: keep <= j < |s| - lead ==> IsSpace(s[lead..][j])
    ensures forall i :: lead + keep <= i < |s| ==> IsSpace(s[i])
  {
    forall i | lead + keep <= i < |s|
      ensures IsSpace(s[i])
    {
      assert s[i] == s[lead..][i - lead];
    }
  }

  /**
   * The trim is the only cut of `s` into whitespace, a middle that neither
   * starts nor ends with whitespace, and whitespace.
   */
  lemma TrimIsMiddle(s: string, lo: int, hi: int)
    requires 0 <= lo <= hi <= |s|
    requires forall i :: 0 <= i < lo ==> IsSpace(s[i])
    requires forall i :: hi <= i < |s| ==> IsSpace(s[i])
    requires lo < hi ==> !IsSpace(s[lo]) && !IsSpace(s[hi - 1])
    ensures Trim(s) == s[lo..hi]
  {
    var r := Trim(s);
    var lead := |s| - |TrimStart(s)|;
    if |r| == 0 {
      CutEmpty(s, lo, hi, lead);
    } else {
      CutEnds(s, lo, hi, lead, lead + |r|);
    }
  }

  /** A cut with whitespace on both sides and nothing between leaves only whitespace: no middle fits. */
  lemma CutEmpty(s: string, lo: int, hi: int, lead: int)
    requires 0 <= lo <= hi <= |s| && 0 <= lead <= |s|
    requires forall i :: 0 <= i < lead ==> IsSpace(s[i])
    requires forall i :: lead <= i < |s| ==> IsSpace(s[i])
    requires lo < hi ==> !IsSpace(s[lo])
    ensures lo == hi
  {
  }

  /** Two cuts whose middles are non-empty and trimmed, with whitespace outside, are the same cut. */
  lemma CutEnds(s: string, lo: int, hi: int, lo': int, hi': int)
    requires 0 <= lo <= hi <= |s| && 0 <= lo' < hi' <= |s|
    requires forall i :: 0 <= i < lo ==> IsSpace(s[i])
    requires forall i :: hi <= i < |s| ==> IsSpace(s[i])
    requires lo < hi ==> !IsSpace(s[lo]) && !IsSpace(s[hi - 1])
    requires forall i :: 0 <= i < lo' ==> IsSpace(s[i])
    requires forall i :: hi' <= i < |s| ==> IsSpace(s[i])
    requires !IsSpace(s[lo']) && !IsSpace(s[hi' - 1])
    ensures lo == lo' && hi == hi'
  {
  }

  /** A string without whitespace at either end is its own trim. */
  lemma TrimUnchanged(s: string)
    requires |s| > 0 ==> !IsSpace(s[0]) && !IsSpace(s[|s| - 1])
    ensures Trim(s) == s
  {
  }

  /** The parts joined with the separator between them, as Array.prototype.join does. */
  function Join(parts: seq<string>, sep: char): string
    requires |parts| >= 1
  {
    if |parts| == 1 then parts[0] else parts[0] + [sep] + Join(parts[1..], sep)
  }

  /** String.prototype.split on one character: the separator-free parts that, joined with it, give back `s`. */
  function Split(s: string, sep: char): (parts: seq<string>)
    ensures |parts| >= 1
    ensures forall i :: 0 <= i < |parts| ==> sep !in parts[i]
    ensures Join(parts, sep) == s
    decreases |s|
  {
    var i := IndexOf(s, sep);
    if i < 0 then [s]
    else
      var rest := Split(s[i + 1..], sep);
      assert ([s[..i]] + rest)[1..] == rest;
      assert s == s[..i] + [sep] + s[i + 1..];
      [s[..i]] + rest
  }

  /** Splitting at a first part free of the separator. */
  lemma SplitFirst(a: string, sep: char, rest: string)
    requires sep !in a
    ensures Split(a + [sep] + rest, sep) == [a] + Split(rest, sep)
  {
    var s := a + [sep] + rest;
    assert s[..|a|] == a;
    assert s[|a|] == sep;
    assert IndexOf(s, sep) == |a|;
    assert s[|a| + 1..] == rest;
  }

  predicate IsDigit(c: char)
  {
    '0' <= c <= '9'
  }

  predicate AllDigits(s: string)
  {
    forall i :: 0 <= i < |s| ==> IsDigit(s[i])
  }

  /** The value of a string of decimal digits. */
  function DigitsValue(s: string): nat
    requires AllDigits(s)
  {
    if |s| == 0 then 0 else 10 * DigitsValue(s[..|s| - 1]) + (s[|s| - 1] as int - '0' as int)
  }

  /** Template-string formatting of a non-negative integer: its decimal digits, without leading zeros. */
  function NatToString(n: nat): (s: string)
    ensures |s| > 0 && AllDigits(s)
    ensures |s| > 1 ==> s[0] != '0'
  {
    var d := ['0' + (n % 10) as char];
    if n < 10 then d else NatToString(n / 10) + d
  }

  lemma {:induction false} DigitsRoundTrip(n: nat)
    ensures DigitsValue(NatToString(n)) == n
  {
    var s := NatToString(n);
    if n >= 10 {
      DigitsRoundTrip(n / 10);
      assert s[..|s| - 1] == NatToString(n / 10);
    }
  }

  /**
   * Number() of one part of the version core, where it is an integer:
   * surrounding whitespace is ignored and the empty string is 0.  Parts in
   * the other notations Number() accepts are not numbers here.
   */
  function NumberOf(s: string): (r: Option<nat>)
    ensures Trim(s) == "" ==> r == Some(0)
    ensures AllDigits(Trim(s)) ==> r == Some(DigitsValue(Trim(s)))
    ensures r.Some? ==> AllDigits(Trim(s))
  {
    var t := Trim(s);
    if AllDigits(t) then Some(DigitsValue(t)) else None
  }

  /** MAJOR.MINOR.PATCH. */
  datatype Version = Version(major: nat, minor: nat, patch: nat)

  /**
   * parseCore: the version with its pre-release and build parts cut off,
   * at the first '-' or '+', whichever comes first.
   */
  function ParseCore(value: string): (core: string)
    ensures |core| <= |value| && core == value[..|core|]
    ensures '-' !in core && '+' !in core
    ensures |core| < |value| ==> value[|core|] == '-' || value[|core|] == '+'
  {
    var dash := IndexOf(value, '-');
    var plus := IndexOf(value, '+');
    var cut := if dash < 0 then plus else if plus < 0 then dash else if dash < plus then dash else plus;
    if cut < 0 then value else value[..cut]
  }

  /**
   * parseVersion: the trimmed core must split at '.' into exactly three
   * parts, each a non-negative integer.
   */
  function ParseVersion(value: string): (r: Option<Version>)
    ensures r.Some? <==>
      var parts := Split(ParseCore(Trim(value)), '.');
      |parts| == 3 && NumberOf(parts[0]).Some? && NumberOf(parts[1]).Some? && NumberOf(parts[2]).Some?
    ensures r.Some? ==>
      var parts := Split(ParseCore(Trim(value)), '.');
      r.value == Version(NumberOf(parts[0]).value, NumberOf(parts[1]).value, NumberOf(parts[2]).value)
  {
    var parts := Split(ParseCore(Trim(value)), '.');
    if |parts| != 3 then None
    else match (NumberOf(parts[0]), NumberOf(parts[1]), NumberOf(parts[2]))
      case (Some(major), Some(minor), Some(patch)) => Some(Version(major, minor, patch))
      case _ => None
  }

  /** A string of digits and dots is its own trimmed core. */
  lemma CoreOfDotted(s: string)
    requires forall i :: 0 <= i < |s| ==> IsDigit(s[i]) || s[i] == '.'
    ensures ParseCore(Trim(s)) == s
  {
    TrimUnchanged(s);
    assert IndexOf(s, '-') < 0 && IndexOf(s, '+') < 0;
  }

  /** A string of digits is a number, and the empty string is 0. */
  lemma NumberOfDigits(s: string)
    requires AllDigits(s)
    ensures NumberOf(s) == Some(DigitsValue(s))
  {
    TrimUnchanged(s);
  }

  /** Three dot-free strings joined by dots split back into themselves. */
  lemma SplitDotted(a: string, b: string, c: string)
    requires '.' !in a && '.' !in b && '.' !in c
    ensures Split(a + "." + b + "." + c, '.') == [a, b, c]
  {
    var tail := b + ['.'] + c;
    assert a + "." + b + "." + c == a + ['.'] + tail;
    SplitFirst(a, '.', tail);
    SplitFirst(b, '.', c);
  }

  /** Three digit strings joined by dots hold only digits and dots. */
  lemma DottedChars(a: string, b: string, c: string)
    requires AllDigits(a) && AllDigits(b) && AllDigits(c)
    ensures var s := a + "." + b + "." + c;
      forall i :: 0 <= i < |s| ==> IsDigit(s[i]) || s[i] == '.'
  {
    var s := a + "." + b + "." + c;
    forall i | 0 <= i < |s|
      ensures IsDigit(s[i]) || s[i] == '.'
    {
      if i < |a| {
        assert s[i] == a[i];
      } else if |a| < i < |a| + 1 + |b| {
        assert s[i] == b[i - |a| - 1];
      } else if i > |a| + 1 + |b| {
        assert s[i] == c[i - |a| - |b| - 2];
      }
    }
  }

  lemma NoDotInDigits(s: string)
    requires AllDigits(s)
    ensures '.' !in s
  {
  }

  /** A version whose core splits into three digit strings has their values. */
  lemma ParseOfParts(s: string, a: string, b: string, c: string)
    requires Split(ParseCore(Trim(s)), '.') == [a, b, c]
    requires AllDigits(a) && AllDigits(b) && AllDigits(c)
    ensures ParseVersion(s) == Some(Version(DigitsValue(a), DigitsValue(b), DigitsValue(c)))
  {
    NumberOfDigits(a);
    NumberOfDigits(b);
    NumberOfDigits(c);
  }

  /** Three digit strings joined by dots parse to their values; any of them may be empty. */
  lemma ParseDotted(a: string, b: string, c: string)
    requires AllDigits(a) && AllDigits(b) && AllDigits(c)
    ensures ParseVersion(a + "." + b + "." + c) == Some(Version(DigitsValue(a), DigitsValue(b), DigitsValue(c)))
  {
    var s := a + "." + b + "." + c;
    DottedChars(a, b, c);
    CoreOfDotted(s);
    NoDotInDigits(a);
    NoDotInDigits(b);
    NoDotInDigits(c);
    SplitDotted(a, b, c);
    ParseOfParts(s, a, b, c);
  }

  /** "1..2": an empty part counts as 0. */
  lemma EmptyPartIsZero()
    ensures ParseVersion("1..2") == Some(Version(1, 0, 2))
  {
    assert "1..2" == "1" + "." + "" + "." + "2";
    assert DigitsValue("1") == 1 && DigitsValue("2") == 2;
    ParseDotted("1", "", "2");
  }

  function Format(v: Version): string
  {
    NatToString(v.major) + "." + NatToString(v.minor) + "." + NatToString(v.patch)
  }

  /** A formatted version parses back to itself. */
  lemma FormatRoundTrip(v: Version)
    ensures ParseVersion(Format(v)) == Some(v)
  {
    DigitsRoundTrip(v.major);
    DigitsRoundTrip(v.minor);
    DigitsRoundTrip(v.patch);
    ParseDotted(NatToString(v.major), NatToString(v.minor), NatToString(v.patch));
  }

  datatype Bump = Major | Minor | Patch

  /** Items 6 to 8 of Semantic Versioning: the bumped part grows by one and the parts after it reset to 0. */
  function Bumped(kind: Bump, v: Version): (r: Version)
    ensures kind == Major ==> r.major == v.major + 1 && r.minor == 0 && r.patch == 0
    ensures kind == Minor ==> r.major == v.major && r.minor == v.minor + 1 && r.patch == 0
    ensures kind == Patch ==> r.major == v.major && r.minor == v.minor && r.patch == v.patch + 1
  {
    match kind
    case Major => Version(v.major + 1, 0, 0)
    case Minor => Version(v.major, v.minor + 1, 0)
    case Patch => Version(v.major, v.minor, v.patch + 1)
  }

  function BumpOf(input: string): Option<Bump>
  {
    if input == "major" then Some(Major)
    else if input == "minor" then Some(Minor)
    else if input == "patch" then Some(Patch)
    else None
  }

  /**
   * resolveVersion, given the root manifest's parsed contents and its path:
   * an explicit version is taken verbatim; a bump reads the current
   * version from the root manifest.
   */
  function ResolveVersion(input: string, root: Json, rootPath: string): (r: Result<string, string>)
    ensures ParseVersion(input).Some? ==> r == Success(input)
    ensures ParseVersion(input).None? && BumpOf(input).None? ==> r == Failure("invalid version bump: " + input)
    ensures r.Success? && ParseVersion(input).None? ==>
      && BumpOf(input).Some? && root.JObj? && Lookup(root.entries, "version").Some?
      && var current := Lookup(root.entries, "version").value;
      && current.JStr? && ParseVersion(current.s).Some?
      && ParseVersion(r.value) == Some(Bumped(BumpOf(input).value, ParseVersion(current.s).value))
    ensures ParseVersion(input).None? && BumpOf(input).Some? ==>
      && (!root.JObj? ==> r == Failure("invalid root manifest: " + rootPath))
      && (root.JObj? && !(Lookup(root.entries, "version").Some? && Lookup(root.entries, "version").value.JStr?) ==>
            r == Failure("missing version in " + rootPath))
      && (root.JObj? && Lookup(root.entries, "version").Some? && Lookup(root.entries, "version").value.JStr? ==>
            var current := Lookup(root.entries, "version").value.s;
            && (ParseVersion(current).None? ==> r == Failure("cannot parse current version: " + current))
            && (ParseVersion(current).Some? ==> r == Success(Format(Bumped(BumpOf(input).value, ParseVersion(current).value)))))
  {
    if ParseVersion(input).Some? then Success(input)
    else if BumpOf(input).None? then Failure("invalid version bump: " + input)
    else if !IsObject(root) then Failure("invalid root manifest: " + rootPath)
    else match Lookup(root.entries, "version")
      case Some(JStr(current)) =>
        (match ParseVersion(current)
         case None => Failure("cannot parse current version: " + current)
         case Some(parsed) =>
           var next := Bumped(BumpOf(input).value, parsed);
           FormatRoundTrip(next);
           Success(Format(next)))
      case _ => Failure("missing version in " + rootPath)
  }

  const SCOPE_PREFIX := "@stevelock/stevelock-"

  predicate StartsWith(s: string, prefix: string)
  {
    |prefix| <= |s| && s[..|prefix|] == prefix
  }

  /** The optional dependencies after the bump: the package's own platform packages move to `version`. */
  function RewriteOptional(deps: seq<(string, Json)>, version: string): (r: seq<(string, Json)>)
    ensures |r| == |deps|
    ensures forall i :: 0 <= i < |deps| ==> r[i].0 == deps[i].0
    ensures forall i :: 0 <= i < |deps| ==> r[i].1 == if StartsWith(deps[i].0, SCOPE_PREFIX) then JStr(version) else deps[i].1
  {
    seq(|deps|, i requires 0 <= i < |deps| =>
      if StartsWith(deps[i].0, SCOPE_PREFIX) then (deps[i].0, JStr(version)) else deps[i])
  }

  /** A manifest being rewritten: the `next` object of bumpManifest. */
  class Manifest {
    var entries: seq<(string, Json)>

    constructor (entries: seq<(string, Json)>)
      ensures this.entries == entries
    {
      this.entries := entries;
    }

    /**
     * bumpRootOptional: when optionalDependencies is an object, its
     * platform packages are moved to `version`; otherwise nothing changes.
     */
    method BumpRootOptional(version: string)
      modifies this
      ensures var opt := Lookup(old(entries), "optionalDependencies");
        && (opt.None? || !IsObject(opt.value) ==> entries == old(entries))
        && (opt.Some? && IsObject(opt.value) ==>
              entries == Assign(old(entries), "optionalDependencies", JObj(RewriteOptional(opt.value.entries, version))))
    {
      var optional := Lookup(entries, "optionalDependencies");
      if optional.None? || !IsObject(optional.value) {
        return;
      }
      var next := RewriteOptional(optional.value.entries, version);
      entries := Assign(entries, "optionalDependencies", JObj(next));
    }
  }

  /** The root manifest's new contents keep every key, and only the version and platform packages change. */
  lemma RootRewriteKeepsKeys(entries: seq<(string, Json)>, version: string)
    requires Lookup(entries, "optionalDependencies").Some? && IsObject(Lookup(entries, "optionalDependencies").value)
    ensures var deps := Lookup(entries, "optionalDependencies").value.entries;
      var r := Assign(entries, "optionalDependencies", JObj(RewriteOptional(deps, version)));
      && |r| == |entries| && (forall i :: 0 <= i < |r| ==> r[i].0 == entries[i].0)
      && (forall k :: k != "optionalDependencies" ==> Lookup(r, k) == Lookup(entries, k))
  {
  }

  /**
   * bumpManifest: a manifest that is an object with a string version gets
   * the new version (and, for the root manifest, the rewrite of its
   * optional dependencies); anything else is skipped.
   */
  method BumpManifest(manifest: Json, isRoot: bool, version: string) returns (written: Option<seq<(string, Json)>>)
    ensures written.Some? <==> manifest.JObj? && Lookup(manifest.entries, "version").Some?
                               && Lookup(manifest.entries, "version").value.JStr?
    ensures written.Some? ==> Lookup(written.value, "version") == Some(JStr(version))
    ensures written.Some? && !isRoot ==> written.value == Assign(manifest.entries, "version", JStr(version))
    ensures written.Some? && isRoot ==>
      var bumped := Assign(manifest.entries, "version", JStr(version));
      var opt := Lookup(manifest.entries, "optionalDependencies");
      written.value == if opt.Some? && IsObject(opt.value)
        then Assign(bumped, "optionalDependencies", JObj(RewriteOptional(opt.value.entries, version)))
        else bumped
    ensures written.Some? ==>
      && |written.value| == |manifest.entries|
      && forall i :: 0 <= i < |written.value| ==> written.value[i].0 == manifest.entries[i].0
  {
    if !IsObject(manifest) {
      return None;
    }
    var current := Lookup(manifest.entries, "version");
    if current.None? || !current.value.JStr? {
      return None;
    }
    var next := new Manifest(manifest.entries);
    next.entries := Assign(next.entries, "version", JStr(version));
    ghost var bumped := next.entries;
    assert Lookup(bumped, "optionalDependencies") == Lookup(manifest.entries, "optionalDependencies");
    if isRoot {
      next.BumpRootOptional(version);
      var opt := Lookup(bumped, "optionalDependencies");
      if opt.Some? && IsObject(opt.value) {
        RootRewriteKeepsKeys(bumped, version);
      }
    }
    return Some(next.entries);
  }

  /** The manifests main rewrites, relative to the repository root, the root manifest first. */
  const MANIFESTS: seq<string> := [
    "package.json",
    "packages/stevelock-arm64-darwin-apple/package.json",
    "packages/stevelock-x64-darwin-apple/package.json",
    "packages/stevelock-arm64-linux-gnu/package.json",
    "packages/stevelock-x64-linux-gnu/package.json",
    "example/local/package.json",
    "example/remote/package.json"
  ]

  /** The dependencies the root rewrite moves are exactly the platform packages' names. */
  lemma RewrittenAreTargetPackages(t: Platform.Target)
    ensures SCOPE_PREFIX == Platform.PACKAGE_PREFIX
    ensures StartsWith(Platform.PackageName(t), SCOPE_PREFIX)
  {
  }

  const USAGE := "usage: bun run tools/version.ts <version|patch|minor|major>"
  const NOTHING_TOUCHED := "no package.json files with a version field"

  /** Whether bumpManifest rewrites a manifest. */
  predicate Bumpable(manifest: Json)
  {
    manifest.JObj? && Lookup(manifest.entries, "version").Some? && Lookup(manifest.entries, "version").value.JStr?
  }

  /** The names of the manifests that get rewritten, in order. */
  function Touched(files: seq<(string, Json)>): (r: seq<string>)
    ensures |r| <= |files|
    ensures r == [] <==> forall i :: 0 <= i < |files| ==> !Bumpable(files[i].1)
  {
    if |files| == 0 then []
    else Touched(files[..|files| - 1]) + (if Bumpable(files[|files| - 1].1) then [files[|files| - 1].0] else [])
  }

  /** The loop of main: bump each manifest, the first as the root, and collect the names of those rewritten. */
  method BumpAll(files: seq<(string, Json)>, version: string) returns (touched: seq<string>)
    ensures touched == Touched(files)
  {
    touched := [];
    for i := 0 to |files|
      invariant touched == Touched(files[..i])
    {
      var written := BumpManifest(files[i].1, i == 0, version);
      assert files[..i + 1][..i] == files[..i];
      if written.Some? {
        touched := touched + [files[i].0];
      }
    }
    assert files[..|files|] == files;
  }

  /**
   * main: the trimmed argument decides the version, then every manifest
   * of MANIFESTS (given here with its parsed contents) is bumped, and the
   * names of those rewritten are collected; none rewritten is an error.
   */
  method Run(arg: Option<string>, files: seq<(string, Json)>, rootPath: string) returns (r: Result<seq<string>, string>)
    requires |files| == |MANIFESTS| && forall i :: 0 <= i < |files| ==> files[i].0 == MANIFESTS[i]
    ensures var a := Trim(if arg.Some? then arg.value else "");
      && (a == "" ==> r == Failure(USAGE))
      && (a != "" && ResolveVersion(a, files[0].1, rootPath).Failure? ==> r == Failure(ResolveVersion(a, files[0].1, rootPath).error))
      && (a != "" && ResolveVersion(a, files[0].1, rootPath).Success? ==>
            r == if Touched(files) == [] then Failure(NOTHING_TOUCHED) else Success(Touched(files)))
  {
    var a := Trim(if arg.Some? then arg.value else "");
    if a == "" {
      return Failure(USAGE);
    }
    var resolved := ResolveVersion(a, files[0].1, rootPath);
    if resolved.Failure? {
      return Failure(resolved.error);
    }
    var touched := BumpAll(files, resolved.value);
    if |touched| == 0 {
      return Failure(NOTHING_TOUCHED);
    }
    return Success(touched);
  }
}
