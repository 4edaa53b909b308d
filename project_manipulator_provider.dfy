/** The Project-Manipulator adjust strategy: validate the user's extra
    parameters, run the manipulator jar with a `--result=` file, and read that
    file back (deleting it) as the result document. */
module ProjectManipulatorProvider {
  import opened AdjustBase
  import opened BuildParameters
  import opened Host

  const ParametersKey := "CUSTOM_PROJECT_MANIPULATOR_PARAMETERS"
  /** Exit code of the AdjustCommandError raised for a parameter without a dash. */
  const DashExitCode := 10
  const ResultFlag := "--result="
  const EmptyDocument := "{}"
  const RemovedRepositories := "RemovedRepositories"

  /** The settings the provider closes over. */
  datatype PmConfig = PmConfig(
    executionName: string,
    jarPath: string,
    defaultParameters: seq<string>,
    specificIndyGroup: Option<string>,
    timestamp: Option<string>)

  /* ---------- extra parameters ---------- */

  predicate StartsWithDash(p: string)
  {
    |p| > 0 && p[0] == '-'
  }

  /** What the dash test raises for a token: `p[0]` fails on an empty token before
      the comparison, any other token is refused with exit code 10. */
  function TokenError(token: string, tokens: seq<string>): AdjustError
  {
    if token == "" then IndexError else AdjustCommandError(token, tokens, DashExitCode)
  }

  /** The index of the first token without a leading dash, or |tokens|. */
  function FirstUndashed(tokens: seq<string>): (i: nat)
    ensures i <= |tokens|
    ensures forall j | 0 <= j < i :: StartsWithDash(tokens[j])
    ensures i < |tokens| ==> !StartsWithDash(tokens[i])
  {
    if tokens == [] || !StartsWithDash(tokens[0]) then 0
    else 1 + FirstUndashed(tokens[1..])
  }

  /** The first undashed token is determined by the tokens before it. */
  lemma FirstUndashedAt(tokens: seq<string>, i: nat)
    requires i <= |tokens|
    requires forall j | 0 <= j < i :: StartsWithDash(tokens[j])
    requires i < |tokens| ==> !StartsWithDash(tokens[i])
    ensures FirstUndashed(tokens) == i
  {
  }

  /** What get_extra_parameters returns or raises: no parameters when the
      request carries none; otherwise the split tokens, unchanged and in
      order, exactly when every one starts with a dash; else the error for
      the first one that does not. */
  function ExtraParameters(extraAdjustParameters: map<string, string>, split: string -> Option<seq<string>>): (r: Result<seq<string>>)
    ensures ParametersKey !in extraAdjustParameters ==> r == Ok([])
    ensures ParametersKey in extraAdjustParameters && split(extraAdjustParameters[ParametersKey]).None? ==>
      r == Err(SplitFailed)
    ensures ParametersKey in extraAdjustParameters && split(extraAdjustParameters[ParametersKey]).Some? ==>
      var tokens := split(extraAdjustParameters[ParametersKey]).value;
      && (r.Ok? <==> forall i | 0 <= i < |tokens| :: StartsWithDash(tokens[i]))
      && (r.Ok? ==> r.value == tokens)
      && (r.Err? ==> exists i | 0 <= i < |tokens| ::
            && !StartsWithDash(tokens[i])
            && (forall j | 0 <= j < i :: StartsWithDash(tokens[j]))
            && r.error == TokenError(tokens[i], tokens))
    ensures r.Ok? ==> forall i | 0 <= i < |r.value| :: StartsWithDash(r.value[i])
    ensures r.Err? && r.error.AdjustCommandError? ==>
      r.error.exitCode == DashExitCode && !StartsWithDash(r.error.token)
  {
    if ParametersKey !in extraAdjustParameters then Ok([])
    else match split(extraAdjustParameters[ParametersKey])
      case None => Err(SplitFailed)
      case Some(tokens) =>
        var i := FirstUndashed(tokens);
        if i == |tokens| then Ok(tokens) else Err(TokenError(tokens[i], tokens))
  }

  /** The validation loop: raises on the first token without a dash. */
  method GetExtraParameters(extraAdjustParameters: map<string, string>, split: string -> Option<seq<string>>)
    returns (r: Result<seq<string>>)
    ensures r == ExtraParameters(extraAdjustParameters, split)
  {
    if ParametersKey !in extraAdjustParameters {
      return Ok([]);
    }
    var tokens := split(extraAdjustParameters[ParametersKey]);
    if tokens.None? {
      return Err(SplitFailed);
    }
    var params := tokens.value;
    for i := 0 to |params|
      invariant forall j | 0 <= j < i :: StartsWithDash(params[j])
    {
      var p := params[i];
      if p == "" {
        FirstUndashedAt(params, i);
        return Err(IndexError);
      }
      if p[0] != '-' {
        FirstUndashedAt(params, i);
        return Err(AdjustCommandError(p, params, DashExitCode));
      }
    }
    FirstUndashedAt(params, |params|);
    r := Ok(params);
  }

  /* ---------- command line ---------- */

  /** The manipulator command: the jar, then the default, temporary and extra
      parameters, then the result flag naming the results file. */
  function PmCommand(jarPath: string, defaults: seq<string>, temp: seq<string>, extra: seq<string>, resultFile: string): (cmd: seq<string>)
    ensures |cmd| == 4 + |defaults| + |temp| + |extra|
    ensures cmd[..3] == ["java", "-jar", jarPath]
  {
    ["java", "-jar", jarPath] + defaults + temp + extra + [ResultFlag + resultFile]
  }

  /** The results file a manipulator command names in its last argument. */
  function ResultFileOf(cmd: seq<string>): Option<string>
  {
    if |cmd| > 0 && HasPrefix(cmd[|cmd| - 1], ResultFlag) then Some(cmd[|cmd| - 1][|ResultFlag|..]) else None
  }

  datatype PmCommandParts = PmCommandParts(jarPath: string, defaults: seq<string>, temp: seq<string>, extra: seq<string>, resultFile: string)

  /** Takes a manipulator command apart, given how many default and temporary
      parameters it holds; None when `java -jar` or the result flag is not
      where it belongs. */
  function SplitPmCommand(cmd: seq<string>, defaultCount: nat, tempCount: nat): Option<PmCommandParts>
  {
    if |cmd| < 4 + defaultCount + tempCount || cmd[..2] != ["java", "-jar"] || ResultFileOf(cmd).None? then None
    else Some(PmCommandParts(
      cmd[2],
      cmd[3..3 + defaultCount],
      cmd[3 + defaultCount..3 + defaultCount + tempCount],
      cmd[3 + defaultCount + tempCount..|cmd| - 1],
      ResultFileOf(cmd).value))
  }

  /** Nothing is lost or reordered on the command line: the jar, then the
      default, temporary and extra parameters, then the results file, each
      come back out in place. */
  lemma {:induction false} SplitPmCommandRoundTrip(jarPath: string, defaults: seq<string>, temp: seq<string>, extra: seq<string>, resultFile: string)
    ensures SplitPmCommand(PmCommand(jarPath, defaults, temp, extra, resultFile), |defaults|, |temp|)
         == Some(PmCommandParts(jarPath, defaults, temp, extra, resultFile))
  {
    var cmd := PmCommand(jarPath, defaults, temp, extra, resultFile);
    var d, t, n := 3 + |defaults|, 3 + |defaults| + |temp|, |cmd| - 1;
    assert cmd == ["java", "-jar", jarPath] + defaults + temp + extra + [ResultFlag + resultFile];
    assert cmd[..2] == ["java", "-jar"];
    assert cmd[3..d] == defaults;
    assert cmd[d..t] == temp;
    assert cmd[t..n] == extra;
    ResultFileRoundTrip(jarPath, defaults, temp, extra, resultFile);
  }

  /** The tool is told to write exactly the file the provider reads back. */
  lemma ResultFileRoundTrip(jarPath: string, defaults: seq<string>, temp: seq<string>, extra: seq<string>, resultFile: string)
    ensures ResultFileOf(PmCommand(jarPath, defaults, temp, extra, resultFile)) == Some(resultFile)
  {
  }

  /** Past the defaults, every argument of a command built from validated
      extra parameters is an option. */
  lemma OptionsAfterDefaults(p: PmConfig, extraAdjustParameters: map<string, string>,
                                                split: string -> Option<seq<string>>, resultFile: string)
    requires ExtraParameters(extraAdjustParameters, split).Ok?
    ensures var cmd := PmCommand(p.jarPath, p.defaultParameters, TempParameters(p.timestamp, p.specificIndyGroup),
                                 ExtraParameters(extraAdjustParameters, split).value, resultFile);
      forall i | 3 + |p.defaultParameters| <= i < |cmd| :: StartsWithDash(cmd[i])
  {
  }

  /* ---------- result data ---------- */

  /** The text get_result_data parses: the results file's content when it is
      a regular file, "{}" otherwise. */
  function RawResult(nodes: map<string, Node>, path: string): string
  {
    if IsFile(nodes, path) then nodes[path].content else EmptyDocument
  }

  /** The result document get_result_data returns or the error it raises. */
  function ResultData(nodes: map<string, Node>, resultsFile: Option<string>, parse: string -> Option<Json>): (r: Result<Json>)
    ensures !Given(resultsFile) ==> r == Err(ResultsFileUnknown)
    ensures Given(resultsFile) ==>
      var parsed := parse(RawResult(nodes, resultsFile.value));
      && (r.Ok? <==> parsed.Some? && parsed.value.JObject?)
      && (parsed.None? ==> r == Err(MalformedJson))
      && (parsed.Some? && !parsed.value.JObject? ==> r == Err(NotAnObject))
    ensures r.Ok? ==> r.value.JObject? && Field(r.value, RemovedRepositories) == Some(JArray([]))
    ensures Given(resultsFile) && !IsFile(nodes, resultsFile.value) && parse(EmptyDocument) == Some(JObject(map[])) ==>
      r == Ok(JObject(map[RemovedRepositories := JArray([])]))
  {
    if !Given(resultsFile) then Err(ResultsFileUnknown)
    else match parse(RawResult(nodes, resultsFile.value))
      case None => Err(MalformedJson)
      case Some(doc) =>
        if doc.JObject? then Ok(JObject(doc.fields[RemovedRepositories := JArray([])])) else Err(NotAnObject)
  }

  /** The file system after get_result_data: the results file is gone when it
      was a regular file. */
  function NodesAfterRead(nodes: map<string, Node>, resultsFile: Option<string>): map<string, Node>
  {
    if Given(resultsFile) && IsFile(nodes, resultsFile.value) then nodes - {resultsFile.value} else nodes
  }

  /** Reads the results file (when there is one) and deletes it, parses the
      text, and empties the removed repositories. */
  method GetResultData(fs: FileSystem, resultsFile: Option<string>, parse: string -> Option<Json>)
    returns (r: Result<Json>)
    modifies fs
    ensures r == ResultData(old(fs.nodes), resultsFile, parse)
    ensures fs.nodes == NodesAfterRead(old(fs.nodes), resultsFile)
    ensures Given(resultsFile) ==> !IsFile(fs.nodes, resultsFile.value)
  {
    var raw := EmptyDocument;
    if !Given(resultsFile) {
      return Err(ResultsFileUnknown);
    }
    var path := resultsFile.value;
    if IsFile(fs.nodes, path) {
      var text := fs.Read(path);
      raw := text.value;
      fs.Remove(path);
    }
    var parsed := parse(raw);
    if parsed.None? {
      return Err(MalformedJson);
    }
    var resultData := parsed.value;
    if !resultData.JObject? {
      return Err(NotAnObject);
    }
    resultData := JObject(resultData.fields[RemovedRepositories := JArray([])]);
    r := Ok(resultData);
  }

  /** Apart from the removed repositories, the result holds exactly what the
      tool wrote. */
  lemma ResultDataKeepsToolFields(nodes: map<string, Node>, resultsFile: Option<string>, parse: string -> Option<Json>, key: string)
    requires key != RemovedRepositories
    requires ResultData(nodes, resultsFile, parse).Ok?
    ensures Given(resultsFile)
    ensures parse(RawResult(nodes, resultsFile.value)).Some?
    ensures Field(ResultData(nodes, resultsFile, parse).value, key) == Field(parse(RawResult(nodes, resultsFile.value)).value, key)
  {
  }

  /** The results file is consumed: reading again finds none and yields the
      default document. */
  lemma SecondReadYieldsDefault(nodes: map<string, Node>, resultsFile: Option<string>, parse: string -> Option<Json>)
    requires Given(resultsFile)
    requires parse(EmptyDocument) == Some(JObject(map[]))
    ensures ResultData(NodesAfterRead(nodes, resultsFile), resultsFile, parse)
         == Ok(JObject(map[RemovedRepositories := JArray([])]))
  {
    assert !IsFile(NodesAfterRead(nodes, resultsFile), resultsFile.value);
  }

  /* ---------- version ---------- */

  /** `data['version']`, or None where the lookup raises; a `null` version
      is Python's None as well. */
  function VersionFromResult(data: Json): (version: Option<Json>)
    ensures version.Some? <==> data.JObject? && "version" in data.fields && data.fields["version"] != JNull
    ensures version.Some? ==> version.value == data.fields["version"]
  {
    match Field(data, "version")
    case Some(v) => if v == JNull then None else Some(v)
    case None => None
  }

  /** Emptying the removed repositories never hides the tool's version. */
  lemma VersionSurvivesResultData(nodes: map<string, Node>, resultsFile: Option<string>, parse: string -> Option<Json>)
    requires ResultData(nodes, resultsFile, parse).Ok?
    ensures Given(resultsFile) && parse(RawResult(nodes, resultsFile.value)).Some?
    ensures VersionFromResult(ResultData(nodes, resultsFile, parse).value)
         == VersionFromResult(parse(RawResult(nodes, resultsFile.value)).value)
  {
  }

  /* ---------- adjust ---------- */

  /** One manipulator run: build the temporary parameters, validate the extra
      parameters, create the results file, run the jar through the process
      provider and copy the result data into `adjust_result`. `run` is given
      a `RunRequest`, which holds the file system and `adjust_result` at
      launch, and yields the run's result and both of them as the run left
      them (the provider's own call of get_result_data deletes the results
      file). `launched` records the commands handed to processes. */
  method Adjust(p: PmConfig, fs: FileSystem, workDir: string, extraAdjustParameters: map<string, string>,
                adjustResult: AdjustResult, split: string -> Option<seq<string>>, tempFileName: string,
                run: RunRequest -> RunOutcome)
    returns (r: Result<Json>, ghost launched: seq<seq<string>>)
    requires !Exists(fs.nodes, tempFileName)
    modifies fs, adjustResult
    ensures ExtraParameters(extraAdjustParameters, split).Err? ==>
      && r == Err(ExtraParameters(extraAdjustParameters, split).error)
      && launched == []
      && fs.nodes == old(fs.nodes)
      && adjustResult.fields == old(adjustResult.fields)
    ensures ExtraParameters(extraAdjustParameters, split).Ok? ==>
      var cmd := PmCommand(p.jarPath, p.defaultParameters, TempParameters(p.timestamp, p.specificIndyGroup),
                           ExtraParameters(extraAdjustParameters, split).value, tempFileName);
      var out := run(RunRequest(p.executionName, cmd, workDir, extraAdjustParameters, tempFileName,
                                old(fs.nodes)[tempFileName := File("")], old(adjustResult.fields)));
      && launched == [cmd]
      && fs.nodes == out.nodes
      && (out.result.Err? ==> r == out.result && adjustResult.fields == out.fields)
      && (out.result.Ok? && !out.result.value.JObject? ==>
            r == Err(NotAnObject) && adjustResult.fields == out.fields)
      && (out.result.Ok? && out.result.value.JObject? && Field(out.result.value, "resultData").None? ==>
            r == Err(KeyMissing("resultData")) && adjustResult.fields == out.fields)
      && (out.result.Ok? && Field(out.result.value, "resultData").Some? ==>
            r == out.result && adjustResult.fields == out.fields["resultData" := out.result.value.fields["resultData"]])
  {
    launched := [];
    var temp := BuildTempParameters(p.timestamp, p.specificIndyGroup);
    var extra := GetExtraParameters(extraAdjustParameters, split);
    if extra.Err? {
      return Err(extra.error), launched;
    }
    fs.CreateEmpty(tempFileName);
    var cmd := PmCommand(p.jarPath, p.defaultParameters, temp, extra.value, tempFileName);
    launched := launched + [cmd];
    var out := run(RunRequest(p.executionName, cmd, workDir, extraAdjustParameters, tempFileName, fs.nodes, adjustResult.fields));
    // what the tool and the provider's result extraction did to both
    fs.nodes, adjustResult.fields := out.nodes, out.fields;
    if out.result.Err? {
      return out.result, launched;
    }
    if !out.result.value.JObject? {
      return Err(NotAnObject), launched;
    }
    var resultData := Field(out.result.value, "resultData");
    if resultData.None? {
      return Err(KeyMissing("resultData")), launched;
    }
    adjustResult.Put("resultData", resultData.value);
    r := out.result;
  }
}
