/**
 * The release script `scripts/version.js`: bumping the `major.minor.patch`
 * version of the package object, and the command-line handling around it
 * (default type, help, validation, error exit).
 */
module Versioning {
  import opened Wrappers
  import opened JsObject

  // ---------------------------------------------------------------- numbers as the script sees them

  /**
   * What `Number(part)` and `versionParts[i]` yield: a non-negative integer, NaN for a part that is
   * not a plain decimal, or `undefined` for a part past the end of the split.
   */
  datatype JsNumber = Finite(n: nat) | NaN | Undefined

  predicate IsDigit(c: char) {
    '0' <= c <= '9'
  }

  predicate AllDigits(s: string) {
    forall i :: 0 <= i < |s| ==> IsDigit(s[i])
  }

  /** The value of a string of decimal digits, most significant first. */
  function DigitsValue(s: string): nat
    requires AllDigits(s)
  {
    if s == [] then 0 else DigitsValue(s[..|s| - 1]) * 10 + (s[|s| - 1] as int - '0' as int)
  }

  /** `Number(s)` for the parts of a split version; the empty string is 0. */
  function Number(s: string): (r: JsNumber)
    ensures r != Undefined
    ensures r.Finite? <==> AllDigits(s)
    ensures s == "" ==> r == Finite(0)
  {
    if AllDigits(s) then Finite(DigitsValue(s)) else NaN
  }

  /** The decimal rendering of a natural number, as template literals print it. */
  function NatToString(n: nat): (s: string)
    ensures |s| > 0 && AllDigits(s)
  {
    var digit := (n % 10 + '0' as int) as char;
    if n < 10 then [digit] else NatToString(n / 10) + [digit]
  }

  /** Printing a number and reading it back gives the number. */
  lemma {:induction false} NumberOfNatToString(n: nat)
    ensures Number(NatToString(n)) == Finite(n)
  {
    var s := NatToString(n);
    var digit := (n % 10 + '0' as int) as char;
    assert digit as int - '0' as int == n % 10;
    if n >= 10 {
      NumberOfNatToString(n / 10);
      assert s == NatToString(n / 10) + [digit];
      assert s[..|s| - 1] == NatToString(n / 10);
      assert DigitsValue(s) == (n / 10) * 10 + n % 10;
    } else {
      assert s == [digit] && s[..0] == [];
      assert DigitsValue(s) == n % 10;
    }
  }

  /** `${x}`. */
  function Show(x: JsNumber): (s: string)
    ensures |s| > 0
  {
    match x
    case Finite(n) => NatToString(n)
    case NaN => "NaN"
    case Undefined => "undefined"
  }

  /** `x + 1`. */
  function Inc(x: JsNumber): JsNumber {
    match x
    case Finite(n) => Finite(n + 1)
    case _ => NaN
  }

  // ---------------------------------------------------------------- splitting

  /** `s.split('.')`: the maximal dot-free pieces, always at least one. */
  function Split(s: string): (parts: seq<string>)
    ensures |parts| >= 1
  {
    if s == [] then [""]
    else if s[0] == '.' then [""] + Split(s[1..])
    else
      var rest := Split(s[1..]);
      [[s[0]] + rest[0]] + rest[1..]
  }

  predicate DotFree(s: string) {
    forall i :: 0 <= i < |s| ==> s[i] != '.'
  }

  lemma {:induction false} SplitDotFree(s: string)
    requires DotFree(s)
    ensures Split(s) == [s]
  {
    if s != [] {
      SplitDotFree(s[1..]);
      assert [s[0]] + s[1..] == s;
    }
  }

  lemma {:induction false} SplitJoin(a: string, rest: string)
    requires DotFree(a)
    ensures Split(a + "." + rest) == [a] + Split(rest)
  {
    var s := a + "." + rest;
    if a == [] {
      assert s[1..] == rest;
    } else {
      SplitJoin(a[1..], rest);
      assert s[1..] == a[1..] + "." + rest;
      assert [a[0]] + a[1..] == a;
    }
  }

  // ---------------------------------------------------------------- versions

  datatype Version = Version(major: nat, minor: nat, patch: nat)

  /** The `major.minor.patch` text of a version. */
  function Format(v: Version): string {
    NatToString(v.major) + "." + NatToString(v.minor) + "." + NatToString(v.patch)
  }

  /** `versionParts[i]` of `currentVersion.split('.').map(Number)`. */
  function Part(version: string, i: nat): (r: JsNumber)
    ensures r == Undefined <==> i >= |Split(version)|
    ensures i == 0 ==> r != Undefined
  {
    var parts := Split(version);
    if i < |parts| then Number(parts[i]) else Undefined
  }

  /** The `switch (type)` of `updateVersion`: the new version text; any type but major and minor bumps the patch. */
  function NewVersion(version: string, kind: string): (r: string)
    ensures kind == "major" ==> |r| > 4 && r[|r| - 4..] == ".0.0"
    ensures kind == "minor" ==> |r| > 2 && r[|r| - 2..] == ".0"
  {
    if kind == "major" then Show(Inc(Part(version, 0))) + ".0.0"
    else if kind == "minor" then Show(Part(version, 0)) + "." + Show(Inc(Part(version, 1))) + ".0"
    else Show(Part(version, 0)) + "." + Show(Part(version, 1)) + "." + Show(Inc(Part(version, 2)))
  }

  /** The bump rule on triples: major resets minor and patch, minor resets patch, anything else bumps patch. */
  function Bump(v: Version, kind: string): (w: Version)
    ensures kind == "major" ==> w == Version(v.major + 1, 0, 0)
    ensures kind == "minor" ==> w == Version(v.major, v.minor + 1, 0)
    ensures kind != "major" && kind != "minor" ==> w == Version(v.major, v.minor, v.patch + 1)
  {
    match kind
    case "major" => Version(v.major + 1, 0, 0)
    case "minor" => Version(v.major, v.minor + 1, 0)
    case _ => Version(v.major, v.minor, v.patch + 1)
  }

  predicate Less(v: Version, w: Version) {
    v.major < w.major || (v.major == w.major && (v.minor < w.minor || (v.minor == w.minor && v.patch < w.patch)))
  }

  /** Every bump moves the version strictly forward. */
  lemma BumpIncreases(v: Version, kind: string)
    ensures Less(v, Bump(v, kind))
  {
  }

  /** The parts of a formatted version read back as its three numbers. */
  lemma PartsOfFormat(v: Version)
    ensures Part(Format(v), 0) == Finite(v.major)
    ensures Part(Format(v), 1) == Finite(v.minor)
    ensures Part(Format(v), 2) == Finite(v.patch)
  {
    var a, b, c := NatToString(v.major), NatToString(v.minor), NatToString(v.patch);
    SplitJoin(a, b + "." + c);
    SplitJoin(b, c);
    SplitDotFree(c);
    assert Format(v) == a + "." + (b + "." + c);
    assert Split(Format(v)) == [a, b, c];
    NumberOfNatToString(v.major);
    NumberOfNatToString(v.minor);
    NumberOfNatToString(v.patch);
  }

  /** On a well-formed `M.m.p`, the script writes the text of the bumped triple. */
  lemma NewVersionOfFormat(v: Version, kind: string)
    ensures NewVersion(Format(v), kind) == Format(Bump(v, kind))
  {
    PartsOfFormat(v);
    var a, b, c := NatToString(v.major), NatToString(v.minor), NatToString(v.patch);
    var zero := NatToString(0);
    assert zero == "0";
    if kind == "major" {
      var a' := NatToString(v.major + 1);
      assert NewVersion(Format(v), kind) == a' + ".0.0";
      assert Format(Bump(v, kind)) == a' + "." + zero + "." + zero;
    } else if kind == "minor" {
      var b' := NatToString(v.minor + 1);
      assert NewVersion(Format(v), kind) == a + "." + b' + ".0";
      assert Format(Bump(v, kind)) == a + "." + b' + "." + zero;
    } else {
      var c' := NatToString(v.patch + 1);
      assert NewVersion(Format(v), kind) == a + "." + b + "." + c';
    }
  }

  /** A version with fewer than three parts: a patch bump prints `undefined` and `NaN` for the missing ones. */
  lemma PatchOfShortVersion()
    ensures NewVersion("1", "patch") == "1.undefined.NaN"
    ensures NewVersion("1", "major") == "2.0.0"
  {
    var one := NatToString(1);
    assert one == "1";
    SplitDotFree(one);
    NumberOfNatToString(1);
    assert Part(one, 0) == Finite(1) && Part(one, 1) == Undefined && Part(one, 2) == Undefined;
    assert NatToString(2) == "2";
  }

  // ---------------------------------------------------------------- the package object

  /** A property value of the parsed package.json: only whether it is a string matters. */
  datatype Json = JString(s: string) | JOther

  datatype ScriptError = TypeError | ReadError

  /**
   * `updateVersion` on the parsed package: `currentVersion.split` throws a TypeError when
   * `version` is missing or not a string; otherwise only `version` changes, to the new text.
   */
  function UpdatedPackage(pkg: map<string, Json>, kind: string): (r: Result<(map<string, Json>, string), ScriptError>)
    ensures r.Err? <==> "version" !in pkg || !pkg["version"].JString?
    ensures r.Err? ==> r.error == TypeError
    ensures r.Ok? ==>
      && r.value.0.Keys == pkg.Keys
      && r.value.0["version"] == JString(r.value.1)
      && r.value.1 == NewVersion(pkg["version"].s, kind)
      && forall k :: k in pkg && k != "version" ==> r.value.0[k] == pkg[k]
  {
    if "version" !in pkg || !pkg["version"].JString? then Err(TypeError)
    else
      var newVersion := NewVersion(pkg["version"].s, kind);
      Ok((pkg["version" := JString(newVersion)], newVersion))
  }

  /** The object `JSON.parse` returns for package.json, whose `version` property `updateVersion` assigns. */
  class Package {
    var fields: map<string, Json>

    constructor(fields: map<string, Json>)
      ensures this.fields == fields
    {
      this.fields := fields;
    }

    /**
     * `updateVersion` after the read: throws a TypeError before any change when `version` is
     * missing or not a string; otherwise assigns the bumped text to `version` and returns it.
     */
    method UpdateVersion(kind: string) returns (r: Result<string, ScriptError>)
      modifies this
      ensures UpdatedPackage(old(fields), kind).Err? ==> r == Err(TypeError) && fields == old(fields)
      ensures UpdatedPackage(old(fields), kind).Ok? ==>
        r == Ok(UpdatedPackage(old(fields), kind).value.1) && fields == UpdatedPackage(old(fields), kind).value.0
    {
      if "version" !in fields || !fields["version"].JString? {
        return Err(TypeError);
      }
      var currentVersion := fields["version"].s;
      var newVersion := NewVersion(currentVersion, kind);
      fields := fields["version" := JString(newVersion)];
      return Ok(newVersion);
    }
  }

  // ---------------------------------------------------------------- the command line

  /** How a run ends: usage printed, type rejected, package rewritten, or an error caught. */
  datatype RunResult =
    | Usage
    | Rejected(kind: string)
    | Written(pkg: map<string, Json>, newVersion: string)
    | Failed(error: ScriptError)

  function ExitCode(r: RunResult): int {
    match r
    case Usage => 0
    case Rejected(_) => 1
    case Written(_, _) => 0
    case Failed(_) => 1
  }

  /** `process.argv[2] || 'patch'`: a missing or empty argument means patch. */
  function TypeArgument(arg: Option<string>): (r: string)
    ensures r != ""
    ensures arg.Some? && arg.value != "" ==> r == arg.value
  {
    match arg
    case None => "patch"
    case Some(a) => if a == "" then "patch" else a
  }

  predicate IsHelp(kind: string) {
    kind == "help" || kind == "-h" || kind == "--help"
  }

  /** The own keys of `VERSION_TYPES`. */
  predicate IsVersionType(kind: string) {
    kind == "patch" || kind == "minor" || kind == "major"
  }

  /** The validation as written, `VERSION_TYPES[type]` truthy: the lookup also finds inherited properties. */
  predicate AcceptedAsWritten(kind: string) {
    IsVersionType(kind) || IsInheritedProperty(kind)
  }

  /**
   * The main block as written. `pkg` is the parsed package.json, `None` when reading or parsing
   * it throws; both happen inside the `try`, so both exit 1.
   */
  function RunScriptAsWritten(arg: Option<string>, pkg: Option<map<string, Json>>): (r: RunResult)
    ensures r == Usage <==> IsHelp(TypeArgument(arg))
    ensures r.Rejected? <==> !IsHelp(TypeArgument(arg)) && !AcceptedAsWritten(TypeArgument(arg))
    ensures r.Written? ==> AcceptedAsWritten(TypeArgument(arg)) && pkg.Some?
  {
    var kind := TypeArgument(arg);
    if IsHelp(kind) then Usage
    else if !AcceptedAsWritten(kind) then Rejected(kind)
    else Finish(kind, pkg)
  }

  /** The main block with validation against the three version types only. */
  function RunScript(arg: Option<string>, pkg: Option<map<string, Json>>): (r: RunResult)
    ensures r == Usage <==> IsHelp(TypeArgument(arg))
    ensures r.Rejected? <==> !IsHelp(TypeArgument(arg)) && !IsVersionType(TypeArgument(arg))
    ensures r.Written? ==> IsVersionType(TypeArgument(arg)) && pkg.Some?
  {
    var kind := TypeArgument(arg);
    if IsHelp(kind) then Usage
    else if !IsVersionType(kind) then Rejected(kind)
    else Finish(kind, pkg)
  }

  /** The `try` block: update, or exit 1 on any error thrown while reading or updating. */
  function Finish(kind: string, pkg: Option<map<string, Json>>): RunResult {
    match pkg
    case None => Failed(ReadError)
    case Some(p) =>
      match UpdatedPackage(p, kind)
      case Err(e) => Failed(e)
      case Ok((q, v)) => Written(q, v)
  }

  /**
   * As written, "toString" (like every inherited property name) passes validation and bumps the
   * patch of any well-formed version, where the usage text promises that any type but patch,
   * minor and major is rejected.
   */
  lemma InheritedNameAccepted(pkg: map<string, Json>, v: Version)
    requires "version" in pkg && pkg["version"] == JString(Format(v))
    ensures var bumped := Format(Version(v.major, v.minor, v.patch + 1));
      RunScriptAsWritten(Some("toString"), Some(pkg)) == Written(pkg["version" := JString(bumped)], bumped)
    ensures RunScript(Some("toString"), Some(pkg)) == Rejected("toString")
  {
    NewVersionOfFormat(v, "toString");
  }

  /**
   * The command line: no argument means patch; help, -h and --help exit 0 without writing; any
   * other type but patch, minor and major exits 1 without writing; a valid type on a package
   * with a well-formed version writes the bumped version and exits 0.
   */
  lemma RunScriptOutcomes(arg: Option<string>, pkg: Option<map<string, Json>>)
    ensures RunScript(None, pkg) == RunScript(Some("patch"), pkg) == RunScript(Some(""), pkg)
    ensures IsHelp(TypeArgument(arg)) ==> RunScript(arg, pkg) == Usage && ExitCode(Usage) == 0
    ensures !IsHelp(TypeArgument(arg)) && !IsVersionType(TypeArgument(arg)) ==>
      RunScript(arg, pkg) == Rejected(TypeArgument(arg)) && ExitCode(RunScript(arg, pkg)) == 1
    ensures IsVersionType(TypeArgument(arg)) && pkg.None? ==> ExitCode(RunScript(arg, pkg)) == 1
  {
  }

  /** A valid type on a package whose version is `M.m.p` writes exactly the bumped version. */
  lemma RunScriptBumps(kind: string, pkg: map<string, Json>, v: Version)
    requires IsVersionType(kind) && "version" in pkg && pkg["version"] == JString(Format(v))
    ensures RunScript(Some(kind), Some(pkg)) == Written(pkg["version" := JString(Format(Bump(v, kind)))], Format(Bump(v, kind)))
    ensures ExitCode(RunScript(Some(kind), Some(pkg))) == 0
  {
    NewVersionOfFormat(v, kind);
  }
}
