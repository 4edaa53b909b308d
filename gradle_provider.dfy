/** The Gradle adjust strategy: copy the analyzer init script into the work
    dir, run `generateAlignmentMetadata` with the wrapper or the system
    Gradle, and normalise the tool's manipulation.json into the common result
    shape. */
module GradleProvider {
  import opened AdjustBase
  import opened BuildParameters
  import opened Host

  const ExecutionName := "GRADLE"
  const InitScriptFileName := "analyzer-init.gradle"
  const ManipulationFileName := "manipulation.json"
  const Wrapper := "./gradlew"
  const SystemGradle := "gradle"

  /** The options that follow the Gradle executable, in this order. */
  const GradleOptions: seq<string> :=
    ["--info", "--console", "plain", "--no-daemon", "--stacktrace",
     "--init-script", InitScriptFileName, "generateAlignmentMetadata"]

  const VersioningState := "VersioningState"
  const ExecutionRootModified := "executionRootModified"
  const RemovedRepositories := "RemovedRepositories"

  /** The settings the provider closes over. */
  datatype GradleConfig = GradleConfig(
    initFilePath: string,
    defaultParameters: seq<string>,
    specificIndyGroup: Option<string>,
    timestamp: Option<string>)

  /* ---------- command line ---------- */

  /** The Gradle executable for a work dir: the wrapper when the work dir
      holds one as a regular file, the system Gradle otherwise. */
  function CommandGradle(nodes: map<string, Node>, workDir: string): (command: string)
    ensures command == Wrapper <==> IsFile(nodes, Join(workDir, Wrapper))
    ensures command != Wrapper ==> command == SystemGradle
  {
    if IsFile(nodes, Join(workDir, Wrapper)) then Wrapper else SystemGradle
  }

  /** Copying the init script into a work dir never changes which Gradle
      runs there. */
  lemma InitScriptCopyKeepsCommand(nodes: map<string, Node>, workDir: string, script: Node)
    ensures CommandGradle(nodes[Join(workDir, InitScriptFileName) := script], workDir) == CommandGradle(nodes, workDir)
  {
  }

  /** The alignment command: executable, fixed options, then the default,
      temporary and extra parameters. */
  function GradleCommand(command: string, defaults: seq<string>, temp: seq<string>, extra: seq<string>): (cmd: seq<string>)
    ensures |cmd| == 9 + |defaults| + |temp| + |extra|
    ensures cmd[0] == command
  {
    [command] + GradleOptions + defaults + temp + extra
  }

  datatype CommandParts = CommandParts(command: string, defaults: seq<string>, temp: seq<string>, extra: seq<string>)

  /** Takes an alignment command apart, given how many default and temporary
      parameters it holds; None when the fixed options are not where they
      belong. */
  function SplitGradleCommand(cmd: seq<string>, defaultCount: nat, tempCount: nat): Option<CommandParts>
  {
    var head := 1 + |GradleOptions|;
    if |cmd| < head + defaultCount + tempCount || cmd[1..head] != GradleOptions then None
    else Some(CommandParts(
      cmd[0],
      cmd[head..head + defaultCount],
      cmd[head + defaultCount..head + defaultCount + tempCount],
      cmd[head + defaultCount + tempCount..]))
  }

  /** Nothing is lost or reordered on the command line: every part the
      provider put in comes back out in place. */
  lemma {:induction false} SplitGradleCommandRoundTrip(command: string, defaults: seq<string>, temp: seq<string>, extra: seq<string>)
    ensures SplitGradleCommand(GradleCommand(command, defaults, temp, extra), |defaults|, |temp|)
         == Some(CommandParts(command, defaults, temp, extra))
  {
    var cmd := GradleCommand(command, defaults, temp, extra);
    var d, t := 9 + |defaults|, 9 + |defaults| + |temp|;
    assert cmd == [command] + GradleOptions + defaults + temp + extra;
    assert cmd[1..9] == GradleOptions;
    assert cmd[9..d] == defaults;
    assert cmd[d..t] == temp;
    assert cmd[t..] == extra;
  }

  /* ---------- result data ---------- */

  function ManipulationPath(workDir: string): string
  {
    Join(workDir, ManipulationFileName)
  }

  /** The common result shape every strategy reports. */
  function Normalised(groupId: Json, artifactId: Json, version: Json, removed: seq<Json>): Json
  {
    Shape(Root(groupId, artifactId, version), removed)
  }

  function CoordinatePath(key: string): seq<string>
  {
    [VersioningState, ExecutionRootModified, key]
  }

  /** The normalised result hands back each of its inputs at its own path. */
  lemma NormalisedRoundTrip(groupId: Json, artifactId: Json, version: Json, removed: seq<Json>)
    ensures Lookup(Normalised(groupId, artifactId, version, removed), CoordinatePath("groupId")) == Some(groupId)
    ensures Lookup(Normalised(groupId, artifactId, version, removed), CoordinatePath("artifactId")) == Some(artifactId)
    ensures Lookup(Normalised(groupId, artifactId, version, removed), CoordinatePath("version")) == Some(version)
    ensures Lookup(Normalised(groupId, artifactId, version, removed), [RemovedRepositories]) == Some(JArray(removed))
  {
  }

  /** `doc[k0][k1]... = value` on a dictionary whose intermediate keys exist. */
  function SetPath(doc: Json, path: seq<string>, value: Json): Json
    decreases |path|
  {
    if path == [] then value
    else if !doc.JObject? then doc
    else
      var child := if path[0] in doc.fields then doc.fields[path[0]] else JNull;
      JObject(doc.fields[path[0] := SetPath(child, path[1..], value)])
  }

  predicate HasCoordinates(doc: Json)
  {
    Field(doc, "group").Some? && Field(doc, "name").Some? && Field(doc, "version").Some?
  }

  /** The first of the tool's coordinate keys that a dictionary lacks. */
  function FirstMissingCoordinate(doc: Json): string
  {
    if Field(doc, "group").None? then "group"
    else if Field(doc, "name").None? then "name"
    else "version"
  }

  /** manipulation.json under the work dir, read and parsed. */
  function ManipulationDocument(nodes: map<string, Node>, workDir: string, parse: string -> Option<Json>): Result<Json>
  {
    var path := ManipulationPath(workDir);
    if !Exists(nodes, path) then Err(ResultFileMissing(path))
    else if !IsFile(nodes, path) then Err(ReadFailed(path))
    else match parse(nodes[path].content)
      case None => Err(MalformedJson)
      case Some(doc) => Ok(doc)
  }

  /** A missing removed-repositories file means an empty list. */
  function RemovedOrEmpty(removed: Option<seq<Json>>): seq<Json>
  {
    if removed.Some? then removed.value else []
  }

  /** The result shape around a given execution root. */
  function Shape(root: map<string, Json>, removed: seq<Json>): Json
  {
    JObject(map[
      VersioningState := JObject(map[ExecutionRootModified := JObject(root)]),
      RemovedRepositories := JArray(removed)])
  }

  /** `doc[key] = value` on a dictionary. */
  lemma SetPathLast(doc: Json, key: string, value: Json)
    requires doc.JObject?
    ensures SetPath(doc, [key], value) == JObject(doc.fields[key := value])
  {
    assert [key][1..] == [];
  }

  /** `template["VersioningState"]["executionRootModified"][key] = value` */
  lemma SetCoordinateStep(root: map<string, Json>, removed: seq<Json>, key: string, value: Json)
    ensures SetPath(Shape(root, removed), CoordinatePath(key), value) == Shape(root[key := value], removed)
  {
    var doc := Shape(root, removed);
    var state := JObject(map[ExecutionRootModified := JObject(root)]);
    var state' := JObject(map[ExecutionRootModified := JObject(root[key := value])]);
    SetPathLast(JObject(root), key, value);
    assert [ExecutionRootModified, key][1..] == [key];
    assert SetPath(state, [ExecutionRootModified, key], value) == state';
    assert CoordinatePath(key)[1..] == [ExecutionRootModified, key];
    assert SetPath(doc, CoordinatePath(key), value) == JObject(doc.fields[VersioningState := state']);
  }

  /** `template["RemovedRepositories"] = removed` */
  lemma SetRemovedStep(root: map<string, Json>, removed: seq<Json>, repos: seq<Json>)
    ensures SetPath(Shape(root, removed), [RemovedRepositories], JArray(repos)) == Shape(root, repos)
  {
  }

  function Root(groupId: Json, artifactId: Json, version: Json): map<string, Json>
  {
    map["groupId" := groupId, "artifactId" := artifactId, "version" := version]
  }

  /** Filling the empty execution root key by key gives the filled root. */
  lemma RootUpdates(groupId: Json, artifactId: Json, version: Json)
    ensures Root(JNull, JNull, JNull)["groupId" := groupId]["artifactId" := artifactId]["version" := version]
         == Root(groupId, artifactId, version)
  {
  }

  /** Copies the tool's group, name and version into the template's
      execution root, one key at a time; the first missing key stops it. */
  method CopyCoordinates(result: Json) returns (r: Result<Json>)
    ensures r.Ok? <==> HasCoordinates(result)
    ensures r.Ok? ==> r.value == Normalised(result.fields["group"], result.fields["name"], result.fields["version"], [])
    ensures !result.JObject? ==> r == Err(NotAnObject)
    ensures result.JObject? && r.Err? ==> r.error == KeyMissing(FirstMissingCoordinate(result))
  {
    if !result.JObject? {
      return Err(NotAnObject);
    }
    var root := Root(JNull, JNull, JNull);
    var template := Shape(root, []);
    var group := Field(result, "group");
    if group.None? {
      return Err(KeyMissing("group"));
    }
    SetCoordinateStep(root, [], "groupId", group.value);
    template, root := SetPath(template, CoordinatePath("groupId"), group.value), root["groupId" := group.value];
    var name := Field(result, "name");
    if name.None? {
      return Err(KeyMissing("name"));
    }
    SetCoordinateStep(root, [], "artifactId", name.value);
    template, root := SetPath(template, CoordinatePath("artifactId"), name.value), root["artifactId" := name.value];
    var version := Field(result, "version");
    if version.None? {
      return Err(KeyMissing("version"));
    }
    SetCoordinateStep(root, [], "version", version.value);
    template, root := SetPath(template, CoordinatePath("version"), version.value), root["version" := version.value];
    RootUpdates(group.value, name.value, version.value);
    r := Ok(template);
  }

  /** Reads manipulation.json and fills the result template: the tool's
      group, name and version become the execution root's groupId,
      artifactId and version, and the removed repositories are whatever the
      helper reports, or none when its file is missing. */
  method GetResultData(p: GradleConfig, fs: FileSystem, workDir: string,
                       parse: string -> Option<Json>,
                       removedRepos: (string, seq<string>) -> Option<seq<Json>>)
    returns (r: Result<Json>)
    ensures !Exists(fs.nodes, ManipulationPath(workDir)) ==> r == Err(ResultFileMissing(ManipulationPath(workDir)))
    ensures ManipulationDocument(fs.nodes, workDir, parse).Err? ==> r == Err(ManipulationDocument(fs.nodes, workDir, parse).error)
    ensures ManipulationDocument(fs.nodes, workDir, parse).Ok? ==>
      var doc := ManipulationDocument(fs.nodes, workDir, parse).value;
      && (r.Ok? <==> HasCoordinates(doc))
      && (r.Ok? ==> r.value == Normalised(doc.fields["group"], doc.fields["name"], doc.fields["version"],
                                          RemovedOrEmpty(removedRepos(workDir, p.defaultParameters))))
      && (!doc.JObject? ==> r == Err(NotAnObject))
      && (doc.JObject? && r.Err? ==> r.error == KeyMissing(FirstMissingCoordinate(doc)))
  {
    var path := ManipulationPath(workDir);
    if !Exists(fs.nodes, path) {
      return Err(ResultFileMissing(path));
    }
    var text := fs.Read(path);
    if text.Err? {
      return Err(text.error);
    }
    var parsed := parse(text.value);
    if parsed.None? {
      return Err(MalformedJson);
    }
    var result := parsed.value;
    r := CopyCoordinates(result);
    if r.Err? {
      return;
    }
    var removed := removedRepos(workDir, p.defaultParameters);
    if removed.Some? {
      SetRemovedStep(Root(result.fields["group"], result.fields["name"], result.fields["version"]), [], removed.value);
      r := Ok(SetPath(r.value, [RemovedRepositories], JArray(removed.value)));
    }
  }

  /* ---------- adjust ---------- */

  /** One Gradle alignment: check the init script, build the temporary
      parameters, copy the init script into the (sub)work dir, check the
      Gradle version, run the alignment through the process provider and copy
      its type and data into `adjust_result`. `run` is given a `RunRequest`,
      which holds the file system and `adjust_result` at launch, and yields
      the run's result and both of them as the run left them. `launched`
      records the commands handed to processes. */
  method Adjust(p: GradleConfig, fs: FileSystem, workDir: string, extraAdjustParameters: map<string, string>,
                adjustResult: AdjustResult,
                extraParametersOf: map<string, string> -> Result<(seq<string>, string)>,
                versionCheck: (seq<string>, string) -> bool,
                run: RunRequest -> RunOutcome)
    returns (r: Result<Json>, ghost launched: seq<seq<string>>)
    modifies fs, adjustResult
    ensures !Exists(old(fs.nodes), p.initFilePath) ==>
      && r == Err(InitFileMissing(p.initFilePath))
      && launched == []
      && fs.nodes == old(fs.nodes)
      && adjustResult.fields == old(adjustResult.fields)
    ensures Exists(old(fs.nodes), p.initFilePath) && extraParametersOf(extraAdjustParameters).Err? ==>
      && r == Err(extraParametersOf(extraAdjustParameters).error)
      && launched == []
      && fs.nodes == old(fs.nodes)
      && adjustResult.fields == old(adjustResult.fields)
    ensures Exists(old(fs.nodes), p.initFilePath) && extraParametersOf(extraAdjustParameters).Ok? ==>
      var extra := extraParametersOf(extraAdjustParameters).value.0;
      var dir := Join(workDir, extraParametersOf(extraAdjustParameters).value.1);
      var script := Join(dir, InitScriptFileName);
      var command := CommandGradle(old(fs.nodes), dir);
      var cmd := GradleCommand(command, p.defaultParameters, TempParameters(p.timestamp, p.specificIndyGroup), extra);
      var atLaunch := old(fs.nodes)[script := old(fs.nodes)[p.initFilePath]];
      var out := run(RunRequest(ExecutionName, cmd, dir, extraAdjustParameters, ManipulationFileName, atLaunch, old(adjustResult.fields)));
      && (p.initFilePath == script && IsFile(old(fs.nodes), p.initFilePath) ==>
            r == Err(SameFile(script)) && launched == [] &&
            fs.nodes == old(fs.nodes) && adjustResult.fields == old(adjustResult.fields))
      && (!IsFile(old(fs.nodes), p.initFilePath) ==>
            r == Err(CopyFailed(p.initFilePath)) && launched == [] &&
            fs.nodes == old(fs.nodes) && adjustResult.fields == old(adjustResult.fields))
      && (p.initFilePath != script && IsFile(old(fs.nodes), p.initFilePath) && !versionCheck([command, "--version"], dir) ==>
            r == Err(VersionCheckFailed) && launched == [[command, "--version"]] &&
            fs.nodes == atLaunch && adjustResult.fields == old(adjustResult.fields))
      && (p.initFilePath != script && IsFile(old(fs.nodes), p.initFilePath) && versionCheck([command, "--version"], dir) ==>
            && launched == [[command, "--version"], cmd]
            && fs.nodes == out.nodes
            && (out.result.Err? ==> r == out.result && adjustResult.fields == out.fields)
            && (out.result.Ok? && !out.result.value.JObject? ==>
                  r == Err(NotAnObject) && adjustResult.fields == out.fields)
            && (out.result.Ok? && out.result.value.JObject? && Field(out.result.value, "adjustType").None? ==>
                  r == Err(KeyMissing("adjustType")) && adjustResult.fields == out.fields)
            && (out.result.Ok? && Field(out.result.value, "adjustType").Some? && Field(out.result.value, "resultData").None? ==>
                  r == Err(KeyMissing("resultData")) &&
                  adjustResult.fields == out.fields["adjustType" := out.result.value.fields["adjustType"]])
            && (out.result.Ok? && Field(out.result.value, "adjustType").Some? && Field(out.result.value, "resultData").Some? ==>
                  r == out.result &&
                  adjustResult.fields == out.fields["adjustType" := out.result.value.fields["adjustType"]]
                                                   ["resultData" := out.result.value.fields["resultData"]]))
  {
    launched := [];
    if !Exists(fs.nodes, p.initFilePath) {
      return Err(InitFileMissing(p.initFilePath)), launched;
    }
    var temp := BuildTempParameters(p.timestamp, p.specificIndyGroup);
    var extraAndSubfolder := extraParametersOf(extraAdjustParameters);
    if extraAndSubfolder.Err? {
      return Err(extraAndSubfolder.error), launched;
    }
    var extra := extraAndSubfolder.value.0;
    var dir := Join(workDir, extraAndSubfolder.value.1);
    var copied := fs.Copy(p.initFilePath, Join(dir, InitScriptFileName));
    if copied.Err? {
      return Err(copied.error), launched;
    }
    InitScriptCopyKeepsCommand(old(fs.nodes), dir, old(fs.nodes)[p.initFilePath]);
    var command := CommandGradle(fs.nodes, dir);
    launched := launched + [[command, "--version"]];
    if !versionCheck([command, "--version"], dir) {
      return Err(VersionCheckFailed), launched;
    }
    var cmd := GradleCommand(command, p.defaultParameters, temp, extra);
    launched := launched + [cmd];
    var out := run(RunRequest(ExecutionName, cmd, dir, extraAdjustParameters, ManipulationFileName, fs.nodes, adjustResult.fields));
    // what the tool and the provider's result extraction did to both
    fs.nodes, adjustResult.fields := out.nodes, out.fields;
    if out.result.Err? {
      return out.result, launched;
    }
    if !out.result.value.JObject? {
      return Err(NotAnObject), launched;
    }
    var adjustType := Field(out.result.value, "adjustType");
    if adjustType.None? {
      return Err(KeyMissing("adjustType")), launched;
    }
    adjustResult.Put("adjustType", adjustType.value);
    var resultData := Field(out.result.value, "resultData");
    if resultData.None? {
      return Err(KeyMissing("resultData")), launched;
    }
    adjustResult.Put("resultData", resultData.value);
    r := out.result;
  }
}
