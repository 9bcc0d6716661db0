/** Normalisation of the release command line's arguments into one options
    record (`parseOptions` in scripts/binary/index.js). The argument parser
    itself is taken as given: its output is a map from each option name the
    user wrote to its value. */
module CliOptions {
  import opened Values

  /** The values of `meta.platforms`. */
  const LINUX := "linux"
  const DARWIN := "darwin"
  const WINDOWS := "win32"

  /** Spellings that all name the windows platform. */
  const WindowsNames: set<string> := {"win32", "win", "windows"}

  /** Alias tables: every spelling fills the same canonical field, the
      first one present wins. */
  const ZipKeys: seq<string> := ["zip", "zipFile", "zip-file", "filename"]
  const SkipCleanKeys: seq<string> := ["skip-clean", "skipClean"]

  /** The canonical options record. Options the release script does not
      read are not kept. */
  datatype Opts = Opts(
    platform: Option<ArgValue>,
    version: Option<ArgValue>,
    zip: Option<ArgValue>,
    commit: Option<ArgValue>,
    skipClean: bool,
    runTests: Option<ArgValue>)

  function Get(args: map<string, ArgValue>, key: string): Option<ArgValue> {
    if key in args then Some(args[key]) else None
  }

  /** The value of the first spelling in `keys` that the arguments carry. */
  function Lookup(args: map<string, ArgValue>, keys: seq<string>): (r: Option<ArgValue>)
    ensures r.None? <==> forall i :: 0 <= i < |keys| ==> keys[i] !in args
    ensures r.Some? ==>
      exists i :: 0 <= i < |keys| && keys[i] in args && args[keys[i]] == r.value &&
        forall j :: 0 <= j < i ==> keys[j] !in args
  {
    if keys == [] then None
    else if keys[0] in args then Some(args[keys[0]])
    else
      var r := Lookup(args, keys[1..]);
      assert forall i :: 1 <= i < |keys| ==> keys[i] == keys[1..][i - 1];
      r
  }

  /** A boolean option: unset means false, and a value written as
      `--flag=text` is true unless the text is "false". */
  function AsFlag(v: Option<ArgValue>): bool {
    match v
    case None => false
    case Some(Bool(b)) => b
    case Some(Str(s)) => s != "false"
  }

  /** A platform spelled as one of the user-friendly aliases. */
  predicate IsAlias(p: Option<ArgValue>) {
    p.Some? && p.value.Str? && p.value.s in {"mac", "win", "windows"}
  }

  /** The platform, stated case by case: a given platform is only ever
      renamed from an alias, and an unset one is inferred from a linux or
      windows host and left alone on any other host. */
  function NormalisePlatform(given: Option<ArgValue>, host: string): (r: Option<ArgValue>)
    ensures !IsAlias(r)
    ensures Truthy(given) ==> Truthy(r)
    ensures !Truthy(given) && (host == LINUX || host == WINDOWS) ==> Truthy(r)
    ensures !Truthy(given) && host != LINUX && host != WINDOWS ==> r == given
  {
    if Truthy(given) then
      if given.value.Str? && given.value.s in WindowsNames then Some(Str(WINDOWS))
      else if given.value == Str("mac") then Some(Str(DARWIN))
      else given
    else if host == LINUX then Some(Str(LINUX))
    else if host == WINDOWS then Some(Str(WINDOWS))
    else given
  }

  /** The options record `parseOptions` yields for `args` on host `host`. */
  function Canonical(args: map<string, ArgValue>, host: string): (r: Opts)
    ensures !IsAlias(r.platform)
    ensures r.version == Get(args, "version") && r.commit == Get(args, "commit")
    ensures r.zip.None? <==> forall i :: 0 <= i < |ZipKeys| ==> ZipKeys[i] !in args
    ensures r.zip.Some? ==> exists i :: 0 <= i < |ZipKeys| && ZipKeys[i] in args && args[ZipKeys[i]] == r.zip.value
    ensures "skip-clean" !in args && "skipClean" !in args ==> !r.skipClean
    ensures Truthy(Get(args, "skip-tests")) ==> r.runTests == Some(Bool(false))
  {
    Opts(
      platform := NormalisePlatform(Get(args, "platform"), host),
      version := Get(args, "version"),
      zip := Lookup(args, ZipKeys),
      commit := Get(args, "commit"),
      skipClean := AsFlag(Lookup(args, SkipCleanKeys)),
      runTests := if Truthy(Get(args, "skip-tests")) then Some(Bool(false)) else Get(args, "runTests"))
  }

  /** `parseOptions`: alias resolution and the default of the boolean flag,
      then the platform fixed up one step at a time. */
  method ParseOptions(args: map<string, ArgValue>, host: string) returns (opts: Opts)
    ensures opts == Canonical(args, host)
  {
    opts := Opts(
      platform := Get(args, "platform"),
      version := Get(args, "version"),
      zip := Lookup(args, ZipKeys),
      commit := Get(args, "commit"),
      skipClean := AsFlag(Lookup(args, SkipCleanKeys)),
      runTests := Get(args, "runTests"));
    if Truthy(Get(args, "skip-tests")) {
      opts := opts.(runTests := Some(Bool(false)));
    }
    if !Truthy(opts.platform) && host == LINUX {
      opts := opts.(platform := Some(Str(LINUX)));
    }
    if opts.platform.Some? && opts.platform.value.Str? && opts.platform.value.s in WindowsNames {
      opts := opts.(platform := Some(Str(WINDOWS)));
    }
    if !Truthy(opts.platform) && host == WINDOWS {
      opts := opts.(platform := Some(Str(WINDOWS)));
    }
    if opts.platform == Some(Str("mac")) {
      opts := opts.(platform := Some(Str(DARWIN)));
    }
  }

  /** The windows spellings and `mac` are renamed, an explicit platform is
      never replaced by the host's, and an unset one comes from a linux or
      windows host only. */
  lemma PlatformNormalisation(args: map<string, ArgValue>, host: string)
    ensures var given := Get(args, "platform"); var p := Canonical(args, host).platform;
      && (given.Some? && given.value.Str? && given.value.s in WindowsNames ==> p == Some(Str(WINDOWS)))
      && (given == Some(Str("mac")) ==> p == Some(Str(DARWIN)))
      && (Truthy(given) && given.value !in {Str("mac"), Str("win"), Str("windows")} ==> p == given)
      && (!Truthy(given) && host == LINUX ==> p == Some(Str(LINUX)))
      && (!Truthy(given) && host == WINDOWS ==> p == Some(Str(WINDOWS)))
      && (!Truthy(given) && host != LINUX && host != WINDOWS ==> p == given)
  {
  }

  /** Normalising the platform a second time changes nothing. */
  lemma NormalisePlatformIdempotent(given: Option<ArgValue>, host: string)
    ensures NormalisePlatform(NormalisePlatform(given, host), host) == NormalisePlatform(given, host)
  {
  }

  /** Every spelling of the zip option yields the same canonical value,
      and the spelling listed first wins when several are given. */
  lemma {:induction false} ZipAliasesAgree(args: map<string, ArgValue>, k: nat, v: ArgValue, host: string)
    requires k < |ZipKeys|
    requires forall j :: 0 <= j < |ZipKeys| && j != k ==> ZipKeys[j] !in args
    ensures Canonical(args[ZipKeys[k] := v], host).zip == Some(v)
  {
    var a := args[ZipKeys[k] := v];
    var r := Lookup(a, ZipKeys);
    assert ZipKeys[k] in a;
    assert r.Some?;
    var i :| 0 <= i < |ZipKeys| && ZipKeys[i] in a && a[ZipKeys[i]] == r.value &&
      forall j :: 0 <= j < i ==> ZipKeys[j] !in a;
    assert i == k;
  }

  /** Either spelling of `skip-clean` sets the flag, the dashed one
      first. */
  lemma SkipFlags(args: map<string, ArgValue>, host: string)
    ensures "skip-clean" in args ==> Canonical(args, host).skipClean == AsFlag(Some(args["skip-clean"]))
    ensures "skip-clean" !in args && "skipClean" in args ==>
      Canonical(args, host).skipClean == AsFlag(Some(args["skipClean"]))
  {
    if "skip-clean" !in args && "skipClean" in args {
      assert SkipCleanKeys[1..] == ["skipClean"];
      assert Lookup(args, SkipCleanKeys) == Lookup(args, ["skipClean"]) == Some(args["skipClean"]);
    }
  }
}
