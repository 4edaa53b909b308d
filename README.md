# Adjust strategy providers of repour, modelled in Dafny

repour aligns the versions of a source checkout by running an external "adjust"
tool. This model covers the two adjust strategy providers. These are the code
around that tool run:

- **Gradle provider** (`repour/adjust/gradle_provider.py`).
  - It checks that the analyzer init script exists and copies it into the work
    dir.
  - It picks `./gradlew` or the system `gradle` and checks the Gradle version.
  - It runs `generateAlignmentMetadata` with the default, temporary and extra
    parameters.
  - It copies the run's `adjustType` and `resultData` into the caller's
    `adjust_result`.
  - Its result extractor reads `manipulation.json` and maps
    `group`/`name`/`version` onto
    `VersioningState.executionRootModified.{groupId, artifactId, version}`.
  - The extractor reports the removed repositories, or an empty list when
    their file is missing.
- **Project-Manipulator provider**
  (`repour/adjust/project_manipulator_provider.py`).
  - It validates the user's `CUSTOM_PROJECT_MANIPULATOR_PARAMETERS`: every
    token must start with `-`, or an `AdjustCommandError` with exit code 10
    is raised.
  - It runs `java -jar <jar> ... --result=<temp file>`.
  - It copies `resultData` into `adjust_result`.
  - Its extractor reads the results file, deletes it, falls back to `{}` when
    the file is absent, and always empties `RemovedRepositories`.
  - `get_version_from_result` returns `data["version"]`, or None when that
    lookup fails.

Modules:

- `AdjustBase` (`base.dfy`): parsed JSON values (`Json`), the exceptions the
  providers raise (`AdjustError`), `Option`/`Result`, and Python's truthiness
  of an optional string (`Given`).
  - `if timestamp:` is false for `""` as well as for `None`. The model
    follows this.
- `BuildParameters` (`build_parameters.dfy`): the temporary build parameters
  that both providers build the same way, and a decoder that reads them back.
- `Host` (`host.dfy`): the file system, as a class over a map from path to
  node, with copy, read, remove and temp-file creation.
  - It also holds the caller's `adjust_result` dictionary, as a class that the
    providers update in place.
  - `Join` is `os.path.join` for two components.
- `GradleProvider` (`gradle_provider.dfy`) and `ProjectManipulatorProvider`
  (`project_manipulator_provider.dfy`): one module per provider.
  - A provider's closure settings become a configuration datatype, passed as
    the first argument.
  - The step-by-step parts are methods. Each is proved against a
    specification function, and lemmas state the properties of those
    functions.

Effects the source delegates to code that is not part of this model become
function-typed parameters:

- the process run and the `gradle --version` check;
- `util.get_extra_parameters` (its `Err` stands for any exception it raises);
- `util.get_removed_repos` (None stands for its `FileNotFoundError`);
- `shlex.split` (None stands for its `ValueError`);
- JSON parsing (None stands for a malformed document).

The temporary file name is a parameter. A ghost out-parameter `launched`
records every command handed to a process. This lets a contract say that a
failure happens before anything runs.

The manipulator provider creates its results file empty before the tool runs,
because `NamedTemporaryFile(delete=False)` creates the file. So the `{}`
fallback of its extractor applies only when the file is gone by read time.
When the tool leaves the file empty, the parse of `""` fails (in the model,
`MalformedJson`).

The Gradle result nests the coordinates under
`VersioningState.executionRootModified` and names the list
`RemovedRepositories`. The missing init script and the missing
`manipulation.json` both raise a plain `Exception`.

The process provider is passed `adjust_result`, and the tool and the result
extraction work on the file system. So a run is modelled with its effects. `run`
is given a `RunRequest`: the execution name, the command, the directory, the
request's extra adjust parameters, the results file, and the file system and
`adjust_result` at launch. It yields the result together with the file system
and `adjust_result` as the run left them (`RunOutcome`). The
Adjust contracts state the state at launch and tie the final state to that
outcome.

## Model

| member | source | states |
|---|---|---|
| `BuildParameters.TempParameters` | repour/adjust/gradle_provider.py:30-38 | one entry per given setting; an entry is a member exactly when its setting is given (both directions); the timestamp entry comes first and the group entry last; empty when neither is given; every entry is a `-D` option |
| `BuildParameters.BuildTempParameters` | repour/adjust/project_manipulator_provider.py:60-66 | the appends, applied one after the other, produce exactly `TempParameters` (the same code as gradle_provider.py:30-38) |
| `BuildParameters.DecodeTempParametersRoundTrip` | repour/adjust/gradle_provider.py:32-38 | decoding the temporary parameters gives back the truthy timestamp and group, and nothing for a setting that was not given |
| `BuildParameters.SuffixParameterDecodes` | repour/adjust/gradle_provider.py:33-34 | the version-suffix property is recognised as one, and its timestamp is recovered |
| `BuildParameters.GroupParameterDecodes` | repour/adjust/gradle_provider.py:37-38 | the repository-group property is never taken for a version suffix, and its group is recovered |
| `Host.FileSystem.Copy` | repour/adjust/gradle_provider.py:47-48 | the copy succeeds exactly when the source is a regular file other than the destination; the destination then holds the source's node and nothing else changes; a source that is not a regular file fails to open, even when it is the destination; a regular file copied onto itself raises SameFileError; a failed copy changes nothing |
| `Host.FileSystem.Read` | repour/adjust/gradle_provider.py:115-116 | reading succeeds exactly on a regular file and yields its content |
| `Host.FileSystem.Remove` | repour/adjust/project_manipulator_provider.py:26-27 | the removed file is gone and every other path is unchanged |
| `Host.FileSystem.CreateEmpty` | repour/adjust/project_manipulator_provider.py:70 | a new temporary file, at a name not in use, exists and is empty afterwards; nothing else changes |
| `Host.AdjustResult.Put` | repour/adjust/gradle_provider.py:72-73 | one key of `adjust_result` is set and the other keys are unchanged |
| `GradleProvider.CommandGradle` | repour/adjust/gradle_provider.py:133-142 | `./gradlew` if and only if the work dir holds `./gradlew` as a regular file, `gradle` otherwise |
| `GradleProvider.InitScriptCopyKeepsCommand` | repour/adjust/gradle_provider.py:47-54 | copying the init script into the work dir never changes which Gradle is chosen |
| `GradleProvider.GradleCommand` | repour/adjust/gradle_provider.py:63-64 | the command has length 9 plus the default, temporary and extra counts, and starts with the chosen executable |
| `GradleProvider.SplitGradleCommandRoundTrip` | repour/adjust/gradle_provider.py:63-64 | the command is the executable, the 8 fixed options, then the default, temporary and extra parameters; each part comes back in place and in order |
| `GradleProvider.NormalisedRoundTrip` | repour/adjust/gradle_provider.py:95-104 | the normalised result returns the groupId, artifactId and version at `VersioningState.executionRootModified`, and the removed-repositories list, as they were put in |
| `GradleProvider.SetCoordinateStep` | repour/adjust/gradle_provider.py:117-119 | assigning one execution-root key of the template changes that key only |
| `GradleProvider.SetPathLast` | repour/adjust/gradle_provider.py:117 | assigning one key of a dictionary sets that key and keeps every other key |
| `GradleProvider.RootUpdates` | repour/adjust/gradle_provider.py:95-119 | assigning groupId, artifactId and version in turn over the template's empty execution root gives the root holding exactly those three values |
| `GradleProvider.CopyCoordinates` | repour/adjust/gradle_provider.py:115-119 | succeeds exactly when group, name and version are all present; the filled template then holds them as groupId, artifactId and version under the execution root; a document that is not a dictionary raises the TypeError of `result["group"]`; otherwise the first missing key is reported |
| `GradleProvider.SetRemovedStep` | repour/adjust/gradle_provider.py:121-123 | assigning `RemovedRepositories` replaces the list and leaves the coordinates alone |
| `GradleProvider.GetResultData` | repour/adjust/gradle_provider.py:77-128 | a missing manipulation.json fails with no result; otherwise success holds exactly when group, name and version are all present; on success the result is the normalised shape of those three and of the removed repositories, or of an empty list when their file is missing; a document that is not a dictionary raises the TypeError of `result["group"]`; otherwise the first missing key is reported |
| `GradleProvider.Adjust` | repour/adjust/gradle_provider.py:23-75 | a missing init script, a failing extra-parameters helper, a copy of a non-file or of the regular file onto itself fail with nothing launched and no state changed; a failing version check fails after launching only `gradle --version`, with the init script copied; otherwise the version check and then the alignment command are launched in the (sub)work dir on the file system holding the copied init script; the run is handed the `GRADLE` execution name, the request's extra adjust parameters and `manipulation.json` as results file; the final file system is the run's; a run error propagates; a run result that is not a dictionary raises the TypeError of `result["adjustType"]`; a missing adjustType or resultData raises KeyMissing, with adjustType already written in the second case; on success adjustType and resultData are set over the run's `adjust_result` |
| `ProjectManipulatorProvider.FirstUndashed` | repour/adjust/project_manipulator_provider.py:49-53 | all tokens before the returned index start with a dash, and the token at it (if any) does not |
| `ProjectManipulatorProvider.FirstUndashedAt` | repour/adjust/project_manipulator_provider.py:49-53 | the first bad token is determined by the tokens before it |
| `ProjectManipulatorProvider.ExtraParameters` | repour/adjust/project_manipulator_provider.py:38-55 | no key gives `[]`; a split failure is an error; otherwise success holds exactly when every token starts with a dash, and the tokens are returned unchanged and in order; otherwise the error is for the first bad token: IndexError for an empty token, AdjustCommandError with exit code 10 for any other |
| `ProjectManipulatorProvider.GetExtraParameters` | repour/adjust/project_manipulator_provider.py:42-55 | the validation loop returns or raises exactly what `ExtraParameters` specifies |
| `ProjectManipulatorProvider.SplitPmCommandRoundTrip` | repour/adjust/project_manipulator_provider.py:72-73 | the command is `java -jar <jar>`, then the default, temporary and extra parameters, then `--result=<file>`; each part comes back in place and in order |
| `ProjectManipulatorProvider.PmCommand` | repour/adjust/project_manipulator_provider.py:72-73 | the command starts with `java -jar <jar>` and has 4 plus the default, temporary and extra counts elements |
| `ProjectManipulatorProvider.ResultFileRoundTrip` | repour/adjust/project_manipulator_provider.py:70-81 | the last argument is always the result flag; it names exactly the file that is passed as `results_file` |
| `ProjectManipulatorProvider.OptionsAfterDefaults` | repour/adjust/project_manipulator_provider.py:60-73 | after the defaults, every argument of a command built from validated extra parameters starts with a dash |
| `ProjectManipulatorProvider.ResultData` | repour/adjust/project_manipulator_provider.py:14-35 | no results file is an error; otherwise success holds exactly when the text read (the file's content, or `{}` when it is not a regular file) parses to a dictionary; unparsable text raises the JSON error and a non-dictionary the item-assignment error; a successful result is a dictionary whose `RemovedRepositories` is `[]`; an absent results file yields `{RemovedRepositories: []}` |
| `ProjectManipulatorProvider.GetResultData` | repour/adjust/project_manipulator_provider.py:14-35 | returns what `ResultData` specifies, reading the old file system; the results file, when it was a regular file, is deleted and nothing else changes |
| `ProjectManipulatorProvider.ResultDataKeepsToolFields` | repour/adjust/project_manipulator_provider.py:31-33 | every key other than `RemovedRepositories` holds what the tool wrote |
| `ProjectManipulatorProvider.SecondReadYieldsDefault` | repour/adjust/project_manipulator_provider.py:16-27 | once the file has been read and deleted, a second read yields the `{}` default with empty removed repositories |
| `ProjectManipulatorProvider.VersionFromResult` | repour/adjust/project_manipulator_provider.py:93-113 | returns the version exactly when the data is a dictionary holding a non-null `version`; None otherwise, where a `null` version and a failed lookup both give Python's None |
| `ProjectManipulatorProvider.VersionSurvivesResultData` | repour/adjust/project_manipulator_provider.py:107-113 | the version read from the normalised result is the version the tool wrote |
| `ProjectManipulatorProvider.Adjust` | repour/adjust/project_manipulator_provider.py:57-88 | an invalid extra parameter fails with nothing launched and nothing changed; otherwise the single command launched is the jar, default, temporary and extra parameters, then `--result=<file>`, on the file system holding the new empty results file, with the configured execution name, the request's extra adjust parameters and the temporary file as results file; the final file system is the run's; a run error propagates; a run result that is not a dictionary raises the TypeError of `res['resultData']`; a missing resultData raises KeyMissing; on success `resultData` is set over the run's `adjust_result` |

## Left out

- Process execution: `asutil.expect_ok_closure` and
  `process_provider.get_process_provider` are not part of this model.
  - Their outcomes are parameters (`versionCheck`, `run`).
  - The process provider's own call of the result extractor is not modelled.
    The extractors are modelled as separate operations.
- `util.get_extra_parameters` and `util.get_removed_repos` are not part of this model; they are parameters.
  - For the removed-repositories helper, only the "file not found" outcome is
    distinguished.
  - Any other exception it raises is not modelled.
- Library calls are not modelled; their outcomes are parameters:
  - `shlex.split`, and JSON parsing with its error messages;
  - the naming of `tempfile.NamedTemporaryFile`;
  - the metadata copying of `shutil.copy2`.
- Logging is not modelled.
- Two of the process provider's arguments are not passed to `run`: the
  `send_log=True` flag and the `get_result_data` extractor. `run` does get the
  execution name, the command, the directory, `extra_adjust_parameters`, the
  results file, the file system and `adjust_result`.
- Exception message texts are not modelled. This covers the
  `AdjustCommandError` description and stderr, which embed a Python list repr.
  The model keeps the offending token, the token list and the exit code.
- The file system is keyed by the joined path string. Paths are not
  normalised: `w/./gradlew` and `w/gradlew` are different keys.
  - Parent directories are not modelled. Neither is copying onto an existing
    directory, nor permission errors.
- JSON numbers are integers only, and dictionary key order is not kept.
- The async/await structure is not modelled: nothing in the providers depends
  on interleaving.
- `repour/server/server.py` is not modelled. It covers HTTP routing, event-loop
  start-up and shutdown, task cancellation and metrics export, which is all
  I/O and concurrency.
- GradleProvider.Adjust: what the run does to the file system (the tool
  writing manipulation.json) and to `adjust_result` is not modelled. It is
  the `run` parameter's outcome. The `gradle --version` check is taken to
  have no effect on either.
- ProjectManipulatorProvider.Adjust: what the run does to the file system and
  to `adjust_result` is not modelled. This includes the tool writing the
  results file and the process provider's call of get_result_data, which
  deletes it. It is the `run` parameter's outcome.
- The name `tempfile.NamedTemporaryFile` chooses is a parameter, required to
  be unused.
