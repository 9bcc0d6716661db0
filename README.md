# Release command line for the desktop binary, in Dafny

This project models the release script of the Cypress desktop binary
(`scripts/binary/index.js`) and proves properties of the model. The script:

- normalises the command line into one options record (`parseOptions`);
- asks interactively for required options that are still missing
  (`askMissingOptions`);
- runs the stages `build`, `zip` and `upload`, each on its own or chained by
  `deploy`;
- publishes a `release`: the manifest, an optional git commit, then a check
  that the version can be downloaded for every system (`checkDownloads`);
- runs that check alone (`ensure`);
- guards `purge-version`.

The model has five modules:

- `Values` (values.dfy): what the argument parser delivers for one option (a
  string or a boolean), JavaScript truthiness, `check.unemptyString`,
  template-literal rendering, and `path.resolve` as "yields an absolute
  path".
- `CliOptions` (options.dfy): the options record. `Canonical` states the
  normalisation declaratively, case by case. `ParseOptions` is the method
  that changes the platform one step at a time, as the source does, and is
  proved equal to `Canonical`.
- `Questions` (questions.dfy): the question table of four entries, `_.pick`
  over the requested option names, and the round of questions. A question
  is put only while its option is unset, in request order. Each question
  sees the answers given before it, and the round stops at the first
  prompt that fails.
- `Downloads` (downloads.dfy): the matrix linux/x64, darwin/x64 and
  win32/x64, the download URL template, and the probes made one after
  another. The results keep matrix order. After the probes come the missing
  systems' Platform/Arch/URL blocks, the two remediation commands and the
  exit status.
- `Pipeline` (pipeline.dfy): the `deploy` object as the class
  `Orchestrator`. The options record that the stages share and update in
  place is one field of the class. Every call into a collaborator is
  appended to a trace: prompts, the build, the archiver, storage, the
  manifest, git and the HEAD probes. What each collaborator answers is
  fixed in advance by a `World` value. The stage methods state the whole new
  record and trace. For `deploy` this shows that no later stage runs after
  one fails, and that the upload stores the archive path the zip stage
  wrote. For `release` it shows that a failed manifest or commit prints
  "Release Failed" and probes no download.

Collaborators whose code is not shown are inputs:

- the build and the archiver (`zip.ditto`);
- storage (`upload.toS3`, `upload.s3Manifest`);
- git (`gift`), the HEAD requests (`rp.head`) and the prompts (`ask.*`);
- the working directory and the archive name `upload.zipName`.

Two facts about the code shape the model:

- `deploy` runs only build, zip and upload
  (scripts/binary/index.js:329-343). The manifest, the commit and the
  download check belong to `release`.
- The working directory is restored once, when the script is loaded
  (scripts/binary/index.js:58). No stage restores it.

## Model

| member | source | states |
|---|---|---|
| `Values.Resolve` | scripts/binary/index.js:288 | the resolved path is absolute; an absolute path is kept; a relative file name stays the tail of the result |
| `Values.ResolveIdempotent` | scripts/binary/index.js:254 | resolving the path the zip stage stored again, as upload does, changes nothing |
| `CliOptions.NormalisePlatform` | scripts/binary/index.js:87-105 | the normalised platform is never one of the aliases `mac`, `win`, `windows`; a given platform stays set; an unset one becomes set on a linux or windows host and stays as it was on any other |
| `CliOptions.Canonical` | scripts/binary/index.js:71-105 | the canonical record: a normalised platform, `version` and `commit` as given, `zip` unset exactly when no spelling is given and otherwise the value of a given spelling, `skip-clean` false unless given, `runTests` false when `skip-tests` is truthy |
| `CliOptions.Lookup` | scripts/binary/index.js:77-80 | alias resolution: no value exactly when no spelling is present, otherwise the value of the first spelling present |
| `CliOptions.ParseOptions` | scripts/binary/index.js:71-111 | the step-by-step normalisation (skip-tests, linux inference, windows aliases, windows inference, mac alias, in that order) yields exactly the declarative record `Canonical` |
| `CliOptions.PlatformNormalisation` | scripts/binary/index.js:87-105 | `win`/`windows`/`win32` give win32 and `mac` gives darwin; any other explicit platform is kept; an unset one becomes linux on a linux host, win32 on a windows host, and stays unset elsewhere |
| `CliOptions.NormalisePlatformIdempotent` | scripts/binary/index.js:87-105 | normalising an already normalised platform changes nothing |
| `CliOptions.ZipAliasesAgree` | scripts/binary/index.js:79 | whichever of `zip`, `zipFile`, `zip-file`, `filename` carries the value, the canonical `zip` is that value |
| `CliOptions.SkipFlags` | scripts/binary/index.js:72-81 | either spelling, `skip-clean` or `skipClean`, sets the flag to its value, the dashed one taking precedence |
| `Questions.FieldNamed` | scripts/binary/index.js:45-51 | the table knows exactly the names platform, version, zip and commit, each mapped back to its own entry |
| `Questions.Pick` | scripts/binary/index.js:52 | the picked entries are exactly the table entries whose name is requested, each once |
| `Questions.PickKeepsRequestOrder` | scripts/binary/index.js:52 | picked entries come in the order of their first request |
| `Questions.AskRemaining` | scripts/binary/index.js:41-54 | after a successful round every listed option is set; options already set keep their value; options not listed are untouched; at most one question per entry |
| `Questions.AskMissingOptions` | scripts/binary/index.js:44-55 | on success every requested option the table knows is set; options already set keep their values; options not requested are untouched |
| `Questions.AnswersStored` | scripts/binary/index.js:41-54 | on a successful round every unset option holds exactly the answer its prompt gave, that prompt having seen the record left by the earlier entries, none of which failed |
| `Questions.NeverFails` | scripts/binary/index.js:41-54 | a round whose prompts all answer does not fail |
| `Questions.AnsweringPrompter` | scripts/binary/index.js:41-54 | with prompts that always answer, the round succeeds and each unset option holds its question's answer |
| `Questions.AllSetNothingAsked` | scripts/binary/index.js:41-43 | a round whose requested options are all set asks nothing and changes nothing |
| `Questions.NothingMissingNothingAsked` | scripts/binary/index.js:41-43 | when every listed option is set, no question is put and the record is unchanged |
| `Questions.AskedAreTheMissing` | scripts/binary/index.js:41-54 | a successful round asks exactly the questions of the unset options, in order; a failed round asks a non-empty leading part of them |
| `Questions.OneMissingOneQuestion` | scripts/binary/index.js:41-54 | with one unset option, exactly one question is put and its answer is stored in that option, or the round fails on it |
| `Questions.AskMissingOptionsSelects` | scripts/binary/index.js:44-55 | only requested table entries whose option is unset are asked; on success every requested entry is set; set options keep their values |
| `Downloads.DownloadUrl` | scripts/binary/index.js:169 | the URL starts with `https://download.cypress.io/desktop/`, carries the version right after it and ends with the arch; its length is that of the template's parts |
| `Downloads.UrlExists` | scripts/binary/index.js:162-166 | a resolved HEAD request means found; a rejected one, whatever the cause, means not found and is not raised |
| `Downloads.CheckSystem` | scripts/binary/index.js:168-182 | the record of one probe keeps the system's platform and arch and its template URL, and is found exactly when the request resolved |
| `Downloads.ProbeSeries` | scripts/binary/index.js:156-188 | the three systems are probed in matrix order whatever the outcomes, each at its template URL, with a "not found" result for any rejected request |
| `Downloads.WriteBreakdown` | scripts/binary/index.js:189-217 | the heading, a block for each missing system in matrix order, and the remediation hint are written, with exit status 1, exactly as the breakdown for the results prescribes |
| `Downloads.CheckDownloads` | scripts/binary/index.js:155-218 | the probed URLs, results, written lines and exit status are those of the matrix, the report and the exit code for the probe outcomes |
| `Downloads.Missing` | scripts/binary/index.js:185 | the filtered results are results not found, and every result not found is among them |
| `Downloads.AllEnsured` | scripts/binary/index.js:184-186 | the filter-and-count test holds exactly when every result is found |
| `Downloads.ExitCodeIffSomeRejected` | scripts/binary/index.js:162-217 | the exit status is 1 exactly when some probe was rejected, and 0 exactly when all resolved |
| `Downloads.NoBlocksWhenAllFound` | scripts/binary/index.js:196-207 | no Platform/Arch/URL block is written when every system is found |
| `Downloads.RemediationIffMissing` | scripts/binary/index.js:208-216 | the purge/ensure hint is written exactly when a system is missing; with nothing missing only the progress lines are written |
| `Downloads.DownloadUrlDeterminesVersion` | scripts/binary/index.js:169 | two URLs for the same system are equal only for the same version |
| `Downloads.MatrixUrlsDistinct` | scripts/binary/index.js:156-169 | the three systems are probed at three different URLs |
| `Downloads.DarwinMissingScenario` | scripts/binary/index.js:189-217 | for 5.0.0 with darwin/x64 missing: exit status 1, and after the progress lines the heading, the darwin block and the hint |
| `Downloads.DarwinMissingScenarioText` | scripts/binary/index.js:169-212 | the darwin URL and the two remediation commands for 5.0.0, spelled out |
| `Pipeline.ZipPath` | scripts/binary/index.js:254 | the archive path the zip stage stores is a non-empty absolute path |
| `Pipeline.CommitMessage` | scripts/binary/index.js:60-61 | the commit message `release {version} [skip ci]` can be read back to exactly the version |
| `Pipeline.PurgeVersion` | scripts/binary/index.js:311-323 | the purge of all platforms is requested exactly when `--version`/`-v` is a non-empty string, with that version; otherwise it fails with the missing-version error |
| `Pipeline.Orchestrator.constructor` | scripts/binary/index.js:330 | a command starts from the parsed command line with an empty trace |
| `Pipeline.Orchestrator.AskMissing` | scripts/binary/index.js:44-55 | the shared record receives the round's answers and the prompts are traced in order |
| `Pipeline.Orchestrator.Build` | scripts/binary/index.js:227-241 | after asking for version and platform, the build runs once with the platform, the version and the record; a failed prompt means no build |
| `Pipeline.Orchestrator.Zip` | scripts/binary/index.js:243-258 | after asking for the platform, the record's `zip` becomes the absolute archive path, and the archiver writes into exactly that path |
| `Pipeline.Orchestrator.Upload` | scripts/binary/index.js:276-302 | a `zip` that is not a non-empty string fails with no call except prompts; otherwise `zip` becomes absolute and storage gets exactly (file, version, platform) |
| `Pipeline.Orchestrator.Deploy` | scripts/binary/index.js:329-343 | build, then zip, then upload; the trace ends at the first failing stage; the upload stores the path zip wrote and its guard never fires |
| `Pipeline.Orchestrator.Publish` | scripts/binary/index.js:134-145 | the manifest first; the commit `release {version} [skip ci]` with allow-empty only when `commit` is truthy; "Release Failed" on either failure, otherwise "Release Complete" |
| `Pipeline.Orchestrator.Release` | scripts/binary/index.js:130-153 | manifest, optional commit, success, then the download check; a prompt, manifest or commit failure aborts with no download probed |
| `Pipeline.Orchestrator.Ensure` | scripts/binary/index.js:220-225 | after asking for a missing version with the ensure question, the download check runs with its exit status |
| `Pipeline.Orchestrator.CheckAndReport` | scripts/binary/index.js:147 | the download check's probes are traced and its report written, with its exit status |

## Left out

- The commands `bump`, `upload-npm-package`, `upload-unique-binary` and
  `move-binaries` are not modelled. `bump` is an interactive choice between
  two external tasks, and the other three only hand the command line to
  collaborators whose code is not shown.
- The dispatch of a command name to its handler (`_.bindAll`) and the
  Bluebird promise plumbing are not modelled. How an `Aborted` failure turns
  into a process exit status is decided by that dispatcher, which is not
  part of this model.
- The argument parser's tokenisation is taken as given. Numeric strings
  that the parser turns into numbers, and repeated options that it collects
  into arrays, are not modelled: values are strings or booleans.
- Options the script never reads are dropped from the record.
- `Values.Resolve` does not remove `.` and `..` segments or repeated
  slashes, as `path.resolve` does. It models POSIX paths only (absolute
  means a leading `/`), so on a windows host it does not yield the
  drive-letter path that `path.resolve` gives there.
- `CliOptions.Lookup` takes the first present spelling in alias-table order
  when several spellings of one option are given. The real argument parser
  collects several given spellings of `zip` into an array, which `upload`
  then rejects as not a non-empty string (scripts/binary/index.js:285); for
  the boolean `skip-clean` the last spelling on the command line wins.
- The internals of `questions-remain` are not shown. The model assumes that
  an option counts as present when it is set to any value, and that the
  record is updated in place with each answer. So a round that fails keeps
  the earlier answers, and `zip` and `upload` see the record `deploy`
  passed them.
- `meta.zipDir` is not part of this model. The archiver call records the
  platform whose build directory it zips, not the directory.
- Console output is kept only where the script's result depends on it: the
  release banners and everything `checkDownloads` writes. Colours are not
  modelled. Neither are the `#build`/`#zip`/`#upload` banners, the
  "directory to zip" and "Need to upload file" lines, or the debug logging.
- The working-directory restore at load time is not modelled; the
  working directory is a fixed input.
- `process.exit(1)` is modelled as the returned exit status 1.
- `Downloads.CheckDownloads` takes one outcome per system of the matrix
  (`requires |outcomes| == 3`). The HEAD requests are an input, not a
  network call.
