/** The check that a released version can be downloaded (`checkDownloads`
    in scripts/binary/index.js): one HEAD request per system of a fixed
    matrix, made one after another, each result recorded in matrix order,
    then a breakdown of the missing systems with two remediation commands
    and exit status 1 when anything is missing. The HEAD requests are a
    collaborator: the outcome of the k-th request is an input. */
module Downloads {

  /** One system a binary is published for. */
  datatype Target = Target(platform: string, arch: string)

  /** The matrix, in the order it is probed. */
  const Systems: seq<Target> :=
    [Target("linux", "x64"), Target("darwin", "x64"), Target("win32", "x64")]

  /** How a HEAD request ends: a response that resolves, or a rejection of
      any kind (a 404, a server error, a network failure). */
  datatype HeadOutcome = Resolved | Rejected

  /** What is recorded for one system. */
  datatype SystemResult = SystemResult(found: bool, platform: string, arch: string, url: string)

  const DownloadBase := "https://download.cypress.io/desktop/"

  /** The download address of `version` for one system. */
  function DownloadUrl(version: string, t: Target): (u: string)
    ensures |u| == |DownloadBase| + |version| + |"?platform="| + |t.platform| + |"&arch="| + |t.arch|
    ensures u[..|DownloadBase|] == DownloadBase
    ensures u[|DownloadBase|..|DownloadBase| + |version|] == version
    ensures u[|u| - |t.arch|..] == t.arch
  {
    DownloadBase + version + "?platform=" + t.platform + "&arch=" + t.arch
  }

  /** `urlExists`: a rejected request counts as "not found" and is never
      passed on as an error. */
  function UrlExists(o: HeadOutcome): (exists_: bool)
    ensures o == Rejected ==> !exists_
    ensures o == Resolved ==> exists_
  {
    o == Resolved
  }

  /** `checkSystem`: the record of one probe. */
  function CheckSystem(version: string, t: Target, o: HeadOutcome): (r: SystemResult)
    ensures r.platform == t.platform && r.arch == t.arch
    ensures r.url == DownloadUrl(version, t)
    ensures r.found <==> o == Resolved
  {
    SystemResult(UrlExists(o), t.platform, t.arch, DownloadUrl(version, t))
  }

  /** The progress line written while one system is probed. */
  function ProgressLine(r: SystemResult): string {
    "Checking for " + r.platform + "-" + r.arch + " at " + r.url + " ... " +
    (if r.found then "\U{2705}" else "\U{274C}")
  }

  /** The URLs probed for `version`, in matrix order. */
  function ProbedUrls(version: string): seq<string> {
    seq(|Systems|, i requires 0 <= i < |Systems| => DownloadUrl(version, Systems[i]))
  }

  /** The results for `version` when the k-th probe ends as `outcomes[k]`. */
  function ExpectedResults(version: string, outcomes: seq<HeadOutcome>): seq<SystemResult>
    requires |outcomes| == |Systems|
  {
    seq(|Systems|, i requires 0 <= i < |Systems| => CheckSystem(version, Systems[i], outcomes[i]))
  }

  /** The results whose system was not found, in order. */
  function Missing(rs: seq<SystemResult>): (m: seq<SystemResult>)
    ensures |m| <= |rs|
    ensures forall r :: r in m ==> r in rs && !r.found
    ensures forall i :: 0 <= i < |rs| && !rs[i].found ==> rs[i] in m
  {
    if rs == [] then []
    else Missing(rs[..|rs| - 1]) + (if rs[|rs| - 1].found then [] else [rs[|rs| - 1]])
  }

  /** `allEnsured`: no result is left once the found ones are filtered
      out. */
  predicate AllEnsured(rs: seq<SystemResult>)
    ensures AllEnsured(rs) <==> forall i :: 0 <= i < |rs| ==> rs[i].found
  {
    var m := Missing(rs);
    assert m != [] ==> m[0] in m;
    |m| == 0
  }

  function MissingBlock(r: SystemResult): seq<string> {
    ["Platform: " + r.platform, "Arch: " + r.arch, "URL: " + r.url]
  }

  /** The Platform/Arch/URL lines printed for the results not found. */
  function Blocks(rs: seq<SystemResult>): seq<string> {
    if rs == [] then []
    else
      var last := rs[|rs| - 1];
      Blocks(rs[..|rs| - 1]) + (if last.found then [] else MissingBlock(last))
  }

  function Progress(rs: seq<SystemResult>): seq<string> {
    seq(|rs|, i requires 0 <= i < |rs| => ProgressLine(rs[i]))
  }

  function Heading(version: string): string {
    "Could not ensure v" + version + " of the Cypress binary is available for the following systems:"
  }

  function PurgeCommand(version: string): string {
    "yarn binary-purge --version " + version
  }

  function EnsureCommand(version: string): string {
    "yarn binary-ensure --version " + version
  }

  function Remediation(version: string): string {
    "Purge the cloudflare cache with " + PurgeCommand(version) + " and check again with " + EnsureCommand(version)
  }

  /** What is written after the probes: nothing when every system is
      found, otherwise a heading, one block per missing system and the
      remediation hint. */
  function Breakdown(version: string, rs: seq<SystemResult>): seq<string> {
    if AllEnsured(rs) then Blocks(rs)
    else [Heading(version)] + Blocks(rs) + [Remediation(version)]
  }

  /** Everything written for `version`: the progress lines, then the
      breakdown. */
  function Report(version: string, rs: seq<SystemResult>): seq<string> {
    Progress(rs) + Breakdown(version, rs)
  }

  /** The exit status: 1 when a system is missing, 0 when the check
      returns normally. */
  function ExitCode(rs: seq<SystemResult>): int {
    if AllEnsured(rs) then 0 else 1
  }

  /** `Promise.mapSeries(systems, checkSystem)`: the three systems are
      probed one after another whatever the outcomes, and the results and
      progress lines kept in matrix order. */
  method ProbeSeries(version: string, outcomes: seq<HeadOutcome>)
    returns (probed: seq<string>, results: seq<SystemResult>, progress: seq<string>)
    requires |outcomes| == |Systems|
    ensures probed == ProbedUrls(version)
    ensures results == ExpectedResults(version, outcomes)
    ensures progress == Progress(results)
  {
    probed, results, progress := [], [], [];
    for i := 0 to |Systems|
      invariant |probed| == |results| == |progress| == i
      invariant forall k :: 0 <= k < i ==> probed[k] == DownloadUrl(version, Systems[k])
      invariant forall k :: 0 <= k < i ==> results[k] == CheckSystem(version, Systems[k], outcomes[k])
      invariant forall k :: 0 <= k < i ==> progress[k] == ProgressLine(results[k])
    {
      var r := CheckSystem(version, Systems[i], outcomes[i]);
      probed := probed + [r.url];
      results := results + [r];
      progress := progress + [ProgressLine(r)];
    }
  }

  /** The steps after the probes: the heading when something is missing,
      a block for each missing system in matrix order, then the hint and
      exit status 1. */
  method WriteBreakdown(version: string, results: seq<SystemResult>) returns (lines: seq<string>, exitCode: int)
    ensures lines == Breakdown(version, results)
    ensures exitCode == ExitCode(results)
  {
    var ensured := |Missing(results)| == 0;
    lines := if ensured then [] else [Heading(version)];
    var head := lines;
    for i := 0 to |results|
      invariant lines == head + Blocks(results[..i])
    {
      assert results[..i + 1][..i] == results[..i];
      if !results[i].found {
        lines := lines + MissingBlock(results[i]);
      }
    }
    assert results[..|results|] == results;
    if !ensured {
      lines := lines + [Remediation(version)];
      exitCode := 1;
    } else {
      exitCode := 0;
    }
  }

  /** `checkDownloads({ version })`. */
  method CheckDownloads(version: string, outcomes: seq<HeadOutcome>)
    returns (probed: seq<string>, results: seq<SystemResult>, lines: seq<string>, exitCode: int)
    requires |outcomes| == |Systems|
    ensures probed == ProbedUrls(version)
    ensures results == ExpectedResults(version, outcomes)
    ensures lines == Report(version, results)
    ensures exitCode == ExitCode(results)
  {
    var progress;
    probed, results, progress := ProbeSeries(version, outcomes);
    var breakdown;
    breakdown, exitCode := WriteBreakdown(version, results);
    lines := progress + breakdown;
  }

  /** The check exits with status 1 exactly when some probe was
      rejected. */
  lemma ExitCodeIffSomeRejected(version: string, outcomes: seq<HeadOutcome>)
    requires |outcomes| == |Systems|
    ensures var code := ExitCode(ExpectedResults(version, outcomes));
      && (code == 1 <==> exists i :: 0 <= i < |outcomes| && outcomes[i] == Rejected)
      && (code == 0 <==> forall i :: 0 <= i < |outcomes| ==> outcomes[i] == Resolved)
  {
    var rs := ExpectedResults(version, outcomes);
    assert forall i :: 0 <= i < |outcomes| ==> (rs[i].found <==> outcomes[i] == Resolved);
  }

  /** No Platform/Arch/URL block is written when everything is found. */
  lemma {:induction false} NoBlocksWhenAllFound(rs: seq<SystemResult>)
    requires forall i :: 0 <= i < |rs| ==> rs[i].found
    ensures Blocks(rs) == []
  {
    if rs != [] {
      NoBlocksWhenAllFound(rs[..|rs| - 1]);
    }
  }

  /** The remediation hint is written exactly when a system is missing;
      otherwise only the progress lines are. */
  lemma RemediationIffMissing(version: string, rs: seq<SystemResult>)
    ensures Remediation(version) in Report(version, rs) <==> !AllEnsured(rs)
    ensures AllEnsured(rs) ==> Report(version, rs) == Progress(rs)
  {
    if AllEnsured(rs) {
      NoBlocksWhenAllFound(rs);
      assert Report(version, rs) == Progress(rs);
      forall i | 0 <= i < |rs|
        ensures Progress(rs)[i] != Remediation(version)
      {
        assert Progress(rs)[i][0] == 'C';
        assert Remediation(version)[0] == 'P';
      }
    }
  }

  /** The URL determines the version it was built for. */
  lemma DownloadUrlDeterminesVersion(v1: string, v2: string, t: Target)
    requires DownloadUrl(v1, t) == DownloadUrl(v2, t)
    ensures v1 == v2
  {
  }

  /** The three systems of the matrix are probed at three different
      URLs. */
  lemma MatrixUrlsDistinct(version: string)
    ensures forall i, j :: 0 <= i < j < |Systems| ==> DownloadUrl(version, Systems[i]) != DownloadUrl(version, Systems[j])
  {
    var stem := DownloadBase + version + "?platform=";
    forall i, j | 0 <= i < j < |Systems|
      ensures DownloadUrl(version, Systems[i]) != DownloadUrl(version, Systems[j])
    {
      var a, b := Systems[i], Systems[j];
      assert DownloadUrl(version, a) == stem + (a.platform + "&arch=" + a.arch);
      assert DownloadUrl(version, b) == stem + (b.platform + "&arch=" + b.arch);
      assert DownloadUrl(version, a)[|stem|] == a.platform[0];
      assert DownloadUrl(version, b)[|stem|] == b.platform[0];
    }
  }

  /** For version 5.0.0 with only darwin/x64 missing, the darwin block and
      both remediation commands are written and the exit status is 1. */
  lemma DarwinMissingScenario()
    ensures var rs := ExpectedResults("5.0.0", [Resolved, Rejected, Resolved]);
      && ExitCode(rs) == 1
      && Report("5.0.0", rs) == Progress(rs) + [Heading("5.0.0")] + MissingBlock(rs[1]) + [Remediation("5.0.0")]
      && MissingBlock(rs[1]) == ["Platform: darwin", "Arch: x64", "URL: " + DownloadUrl("5.0.0", Target("darwin", "x64"))]
  {
    var rs := ExpectedResults("5.0.0", [Resolved, Rejected, Resolved]);
    assert rs[0].found && !rs[1].found && rs[2].found;
    assert Systems[1] == Target("darwin", "x64");
    assert rs[1] == SystemResult(false, "darwin", "x64", DownloadUrl("5.0.0", Target("darwin", "x64")));
    assert "Platform: " + "darwin" == "Platform: darwin";
    assert "Arch: " + "x64" == "Arch: x64";
    assert rs[..2][..1] == rs[..1] && rs[..3][..2] == rs[..2] && rs[..3] == rs;
    assert rs[..1][..0] == [];
    assert Missing(rs[..1]) == [] && Blocks(rs[..1]) == [];
    assert Blocks(rs[..2]) == MissingBlock(rs[1]);
    assert Blocks(rs) == MissingBlock(rs[1]);
    assert Missing(rs) == [rs[1]];
  }

  /** The strings written in that scenario, spelled out. */
  lemma DarwinMissingScenarioText()
    ensures DownloadUrl("5.0.0", Target("darwin", "x64")) == "https://download.cypress.io/desktop/5.0.0?platform=darwin&arch=x64"
    ensures PurgeCommand("5.0.0") == "yarn binary-purge --version 5.0.0"
    ensures EnsureCommand("5.0.0") == "yarn binary-ensure --version 5.0.0"
  {
  }
}
