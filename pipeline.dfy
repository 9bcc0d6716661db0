/** The release stages of scripts/binary/index.js: build, zip and upload,
    the `deploy` chain that runs them in order and stops at the first
    failure, `release` (manifest, optional commit, download check),
    `ensure`, and the guard of `purge-version`. One options record is
    shared by the stages and updated in place; every call into a
    collaborator (prompts, the build, the archiver, storage, the
    manifest, git, the HEAD probes) is appended to a trace, and what the
    collaborators answer is fixed in advance by a `World`. */
module Pipeline {
  import opened Values
  import opened CliOptions
  import opened Questions
  import opened Downloads

  /** A call into a collaborator. */
  datatype Call =
    | Prompt(question: Question)
    | RunBuild(platform: Option<ArgValue>, version: Option<ArgValue>, options: Opts)
    | Ditto(platform: Option<ArgValue>, dest: string)
    | ToS3(zipFile: string, version: Option<ArgValue>, platform: Option<ArgValue>)
    | S3Manifest(version: Option<ArgValue>)
    | Commit(message: string, allowEmpty: bool)
    | Head(url: string)
    | PurgeAll(appVersion: string, zipName: string)

  datatype Failure =
    | PromptFailed | BuildFailed | ZipFailed | MissingZip | UploadFailed
    | ManifestFailed | CommitFailed | MissingVersion

  /** How a stage ends. */
  datatype Outcome = Done | Failed(failure: Failure)

  /** How a command that may end the process ends: a failure passed on to
      the caller, or an exit status. */
  datatype Exit = Aborted(failure: Failure) | Exited(code: int)

  datatype Checked<T> = Ok(value: T) | Err(failure: Failure)

  /** What the collaborators do in one run: the working directory that
      `path.resolve` uses, the archive name `upload.zipName`, the answers
      of the prompts, whether each external step succeeds, and how each of
      the HEAD probes ends. */
  datatype World = World(
    cwd: string,
    zipName: string,
    ask: Prompter,
    buildOk: bool,
    dittoOk: bool,
    s3Ok: bool,
    manifestOk: bool,
    commitOk: bool,
    heads: seq<HeadOutcome>)

  predicate WellFormed(w: World) {
    IsAbsolute(w.cwd) && |w.heads| == |Systems|
  }

  function Prompts(qs: seq<Question>): seq<Call> {
    seq(|qs|, i requires 0 <= i < |qs| => Prompt(qs[i]))
  }

  /** No download was probed in `trace`. */
  predicate NoProbes(trace: seq<Call>) {
    forall i :: 0 <= i < |trace| ==> !trace[i].Head?
  }

  /** Prompts, the manifest and the commit probe no download. */
  lemma NoProbesBeforeCheck(qs: seq<Question>, rest: seq<Call>)
    requires forall i :: 0 <= i < |rest| ==> rest[i].S3Manifest? || rest[i].Commit?
    ensures NoProbes(Prompts(qs) + rest)
  {
  }

  function HeadCalls(urls: seq<string>): seq<Call> {
    seq(|urls|, i requires 0 <= i < |urls| => Head(urls[i]))
  }

  /** The archive path the zip stage stores: `path.resolve(zippedFilename())`. */
  function ZipPath(w: World): (p: string)
    requires IsAbsolute(w.cwd)
    ensures UnemptyString(Some(Str(p))) && IsAbsolute(p)
  {
    Resolve(w.cwd, w.zipName)
  }

  /** `commitVersion`'s commit message: it can be read back to exactly the
      released version, so two releases of different versions never share
      a message. */
  function CommitMessage(version: Option<ArgValue>): (msg: string)
    ensures CommittedVersion(msg) == Some(Show(version))
  {
    "release " + Show(version) + " [skip ci]"
  }

  /** The version named by a release commit message, if it is one. */
  function CommittedVersion(msg: string): Option<string> {
    if |msg| >= 18 && msg[..8] == "release " && msg[|msg| - 10..] == " [skip ci]"
    then Some(msg[8..|msg| - 10])
    else None
  }

  /** `purge-version`: the purge of every platform is requested only with
      a non-empty version string, given as `--version` or `-v`. */
  function PurgeVersion(args: map<string, ArgValue>, zipName: string): (r: Checked<Call>)
    ensures r.Err? <==> !UnemptyString(Lookup(args, ["version", "v"]))
    ensures r.Err? ==> r.failure == MissingVersion
    ensures r.Ok? ==> r.value.PurgeAll? && r.value.appVersion != "" && r.value.zipName == zipName
    ensures r.Ok? ==> Lookup(args, ["version", "v"]) == Some(Str(r.value.appVersion))
  {
    var v := Lookup(args, ["version", "v"]);
    if UnemptyString(v) then Ok(PurgeAll(v.value.s, zipName)) else Err(MissingVersion)
  }

  /** The `deploy` object: the options record its stages share and
      update, the collaborators' behaviour, and what has been called and
      written so far. */
  class Orchestrator {
    const world: World
    var options: Opts
    var calls: seq<Call>
    var output: seq<string>

    /** A command starts by parsing the command line. */
    constructor (args: map<string, ArgValue>, host: string, w: World)
      ensures world == w && options == Canonical(args, host)
      ensures calls == [] && output == []
    {
      var parsed := ParseOptions(args, host);
      world := w;
      options := parsed;
      calls := [];
      output := [];
    }

    /** `askMissingOptions(properties)(options)`, updating the shared
        record in place. */
    method AskMissing(properties: seq<string>) returns (failed: bool)
      modifies this`options, this`calls
      ensures var a := AskMissingOptions(old(options), properties, world.ask);
        options == a.opts && calls == old(calls) + Prompts(a.asked) && failed == a.failed
    {
      var a := AskMissingOptions(options, properties, world.ask);
      options := a.opts;
      calls := calls + Prompts(a.asked);
      failed := a.failed;
    }

    /** `build`: asks for a missing version or platform, then runs the
        build collaborator once with the platform, the version and the
        whole record. */
    method Build() returns (out: Outcome)
      modifies this`options, this`calls
      ensures var a := AskMissingOptions(old(options), ["version", "platform"], world.ask);
        && options == a.opts
        && calls == old(calls) + Prompts(a.asked) +
             (if a.failed then [] else [RunBuild(a.opts.platform, a.opts.version, a.opts)])
        && out == (if a.failed then Failed(PromptFailed)
                   else if world.buildOk then Done else Failed(BuildFailed))
    {
      var failed := AskMissing(["version", "platform"]);
      if failed {
        return Failed(PromptFailed);
      }
      calls := calls + [RunBuild(options.platform, options.version, options)];
      out := if world.buildOk then Done else Failed(BuildFailed);
    }

    /** `zip`: asks for a missing platform, stores the absolute archive
        path in the record, then runs the archiver into that path. */
    method Zip() returns (out: Outcome)
      requires WellFormed(world)
      modifies this`options, this`calls
      ensures var a := AskMissingOptions(old(options), ["platform"], world.ask);
        if a.failed then
          out == Failed(PromptFailed) && options == a.opts && calls == old(calls) + Prompts(a.asked)
        else
          && options == a.opts.(zip := Some(Str(ZipPath(world))))
          && calls == old(calls) + Prompts(a.asked) + [Ditto(a.opts.platform, ZipPath(world))]
          && out == (if world.dittoOk then Done else Failed(ZipFailed))
    {
      var failed := AskMissing(["platform"]);
      if failed {
        return Failed(PromptFailed);
      }
      options := options.(zip := Some(Str(ZipPath(world))));
      calls := calls + [Ditto(options.platform, ZipPath(world))];
      out := if world.dittoOk then Done else Failed(ZipFailed);
    }

    /** `upload`: asks for a missing version, platform or zip; refuses a
        zip that is not a non-empty string before storage is called;
        otherwise makes the zip path absolute in the record and hands
        exactly the file, the version and the platform to storage. */
    method Upload() returns (out: Outcome)
      requires WellFormed(world)
      modifies this`options, this`calls
      ensures var a := AskMissingOptions(old(options), ["version", "platform", "zip"], world.ask);
        if a.failed then
          out == Failed(PromptFailed) && options == a.opts && calls == old(calls) + Prompts(a.asked)
        else if !UnemptyString(a.opts.zip) then
          out == Failed(MissingZip) && options == a.opts && calls == old(calls) + Prompts(a.asked)
        else
          var file := Resolve(world.cwd, a.opts.zip.value.s);
          && options == a.opts.(zip := Some(Str(file)))
          && calls == old(calls) + Prompts(a.asked) + [ToS3(file, a.opts.version, a.opts.platform)]
          && out == (if world.s3Ok then Done else Failed(UploadFailed))
      ensures out == Failed(MissingZip) ==> forall i :: |old(calls)| <= i < |calls| ==> calls[i].Prompt?
    {
      var failed := AskMissing(["version", "platform", "zip"]);
      if failed {
        return Failed(PromptFailed);
      }
      if !UnemptyString(options.zip) {
        return Failed(MissingZip);
      }
      var file := Resolve(world.cwd, options.zip.value.s);
      options := options.(zip := Some(Str(file)));
      calls := calls + [ToS3(file, options.version, options.platform)];
      out := if world.s3Ok then Done else Failed(UploadFailed);
    }

    /** `deploy`: asks for a missing version or platform, then build, zip
        and upload in that order, stopping at the first stage that fails.
        The upload stores the archive path the zip stage set, so its
        guard never fires here. */
    method Deploy() returns (out: Outcome)
      requires WellFormed(world)
      modifies this`options, this`calls
      ensures var a := AskMissingOptions(old(options), ["version", "platform"], world.ask);
        var z := ZipPath(world);
        var asked := old(calls) + Prompts(a.asked);
        var built := asked + [RunBuild(a.opts.platform, a.opts.version, a.opts)];
        var zipped := built + [Ditto(a.opts.platform, z)];
        if a.failed then
          out == Failed(PromptFailed) && options == a.opts && calls == asked
        else if !world.buildOk then
          out == Failed(BuildFailed) && options == a.opts && calls == built
        else if !world.dittoOk then
          out == Failed(ZipFailed) && options == a.opts.(zip := Some(Str(z))) && calls == zipped
        else
          && options == a.opts.(zip := Some(Str(z)))
          && calls == zipped + [ToS3(z, a.opts.version, a.opts.platform)]
          && out == (if world.s3Ok then Done else Failed(UploadFailed))
      ensures out != Failed(MissingZip)
    {
      var failed := AskMissing(["version", "platform"]);
      if failed {
        return Failed(PromptFailed);
      }
      ghost var resolved := options;
      ghost var asked := calls;
      AllSetNothingAsked(options, ["version", "platform"], world.ask);
      out := Build();
      if out.Failed? {
        return;
      }
      assert calls == asked + [RunBuild(resolved.platform, resolved.version, resolved)];
      AllSetNothingAsked(options, ["platform"], world.ask);
      out := Zip();
      if out.Failed? {
        return;
      }
      var z := ZipPath(world);
      assert options == resolved.(zip := Some(Str(z)));
      AllSetNothingAsked(options, ["version", "platform", "zip"], world.ask);
      ResolveIdempotent(world.cwd, world.zipName);
      out := Upload();
    }

    /** The inner `release` step: the manifest, then the commit when
        `commit` is truthy; a failure of either prints "Release Failed" and
        is passed on, success prints "Release Complete". */
    method Publish() returns (out: Outcome)
      modifies this`calls, this`output
      ensures var v := options.version;
        var committed := [S3Manifest(v)] + (if Truthy(options.commit) then [Commit(CommitMessage(v), true)] else []);
        if !world.manifestOk then
          out == Failed(ManifestFailed) && calls == old(calls) + [S3Manifest(v)] && output == old(output) + ["Release Failed"]
        else if Truthy(options.commit) && !world.commitOk then
          out == Failed(CommitFailed) && calls == old(calls) + committed && output == old(output) + ["Release Failed"]
        else
          out == Done && calls == old(calls) + committed && output == old(output) + ["Release Complete"]
    {
      var version := options.version;
      calls := calls + [S3Manifest(version)];
      if !world.manifestOk {
        output := output + ["Release Failed"];
        return Failed(ManifestFailed);
      }
      if Truthy(options.commit) {
        calls := calls + [Commit(CommitMessage(version), true)];
        if !world.commitOk {
          output := output + ["Release Failed"];
          return Failed(CommitFailed);
        }
      }
      output := output + ["Release Complete"];
      out := Done;
    }

    /** `release`: asks for a missing version, publishes, and only when
        publishing succeeded checks the downloads. */
    method Release() returns (exit: Exit)
      requires WellFormed(world)
      modifies this`options, this`calls, this`output
      ensures var a := AskMissingOptions(old(options), ["version"], world.ask);
        var v := a.opts.version;
        var manifest := old(calls) + Prompts(a.asked) + [S3Manifest(v)];
        var committed := manifest + (if Truthy(a.opts.commit) then [Commit(CommitMessage(v), true)] else []);
        && options == a.opts
        && if a.failed then
             exit == Aborted(PromptFailed) && calls == old(calls) + Prompts(a.asked) && output == old(output)
           else if !world.manifestOk then
             exit == Aborted(ManifestFailed) && calls == manifest && output == old(output) + ["Release Failed"]
           else if Truthy(a.opts.commit) && !world.commitOk then
             exit == Aborted(CommitFailed) && calls == committed && output == old(output) + ["Release Failed"]
           else
             var rs := ExpectedResults(Show(v), world.heads);
             && calls == committed + HeadCalls(ProbedUrls(Show(v)))
             && output == old(output) + ["Release Complete"] + Report(Show(v), rs)
             && exit == Exited(ExitCode(rs))
      ensures exit.Aborted? ==> |old(calls)| <= |calls| && NoProbes(calls[|old(calls)|..])
    {
      ghost var a := AskMissingOptions(options, ["version"], world.ask);
      var failed := AskMissing(["version"]);
      ghost var asked := calls;
      assert asked == old(calls) + Prompts(a.asked);
      if failed {
        assert calls[|old(calls)|..] == Prompts(a.asked) + [];
        NoProbesBeforeCheck(a.asked, []);
        return Aborted(PromptFailed);
      }
      var published := Publish();
      if published.Failed? {
        ghost var rest := calls[|asked|..];
        assert calls[|old(calls)|..] == Prompts(a.asked) + rest;
        NoProbesBeforeCheck(a.asked, rest);
        return Aborted(published.failure);
      }
      ghost var v := options.version;
      ghost var committed := old(calls) + Prompts(a.asked) + [S3Manifest(v)] +
        (if Truthy(options.commit) then [Commit(CommitMessage(v), true)] else []);
      assert calls == committed;
      ghost var heads := HeadCalls(ProbedUrls(Show(v)));
      exit := CheckAndReport(Show(options.version));
      assert calls == committed + heads;
    }

    /** `ensure`: asks for a missing version with its own question, then
        checks the downloads. */
    method Ensure() returns (exit: Exit)
      requires WellFormed(world)
      modifies this`options, this`calls, this`output
      ensures var a := AskRemaining(old(options), [(VersionField, GetEnsureVersion)], world.ask);
        var v := Show(a.opts.version);
        var rs := ExpectedResults(v, world.heads);
        && options == a.opts
        && if a.failed then
             exit == Aborted(PromptFailed) && calls == old(calls) + Prompts(a.asked) && output == old(output)
           else
             && calls == old(calls) + Prompts(a.asked) + HeadCalls(ProbedUrls(v))
             && output == old(output) + Report(v, rs)
             && exit == Exited(ExitCode(rs))
    {
      var a := AskRemaining(options, [(VersionField, GetEnsureVersion)], world.ask);
      options := a.opts;
      calls := calls + Prompts(a.asked);
      if a.failed {
        return Aborted(PromptFailed);
      }
      exit := CheckAndReport(Show(options.version));
    }

    /** Runs the download check for `version`, recording its probes and
        what it writes. */
    method CheckAndReport(version: string) returns (exit: Exit)
      requires WellFormed(world)
      modifies this`calls, this`output
      ensures var rs := ExpectedResults(version, world.heads);
        && calls == old(calls) + HeadCalls(ProbedUrls(version))
        && output == old(output) + Report(version, rs)
        && exit == Exited(ExitCode(rs))
    {
      var probed, results, lines, code := CheckDownloads(version, world.heads);
      calls := calls + HeadCalls(probed);
      output := output + lines;
      exit := Exited(code);
    }
  }
}
