/** Values shared by the two adjust strategy providers: parsed JSON documents,
    the exceptions a provider raises, and Python's truthiness of an optional
    string. */
module AdjustBase {

  datatype Option<+T> = None | Some(value: T)

  /** The outcome of one provider step: a value, or the exception it raises. */
  datatype Result<+T> = Ok(value: T) | Err(error: AdjustError)

  /** The exceptions the providers raise (or let propagate), one per cause. */
  datatype AdjustError =
    | InitFileMissing(path: string)        // Gradle init script absent (plain Exception)
    | CopyFailed(path: string)             // shutil.copy2 given a source that is not a file
    | SameFile(path: string)               // shutil.copy2 onto its own source (SameFileError)
    | VersionCheckFailed                   // `gradle --version` did not exit cleanly
    | ResultFileMissing(path: string)      // manipulation.json absent (plain Exception)
    | ResultsFileUnknown                   // no results file handed to the extractor
    | ReadFailed(path: string)             // open() on a path that is not a regular file
    | MalformedJson                        // json.load / json.loads rejected the text
    | KeyMissing(key: string)              // doc[key] on a dict without that key: KeyError
    | NotAnObject                          // doc[key], read or assigned, on a value that is not a dict: TypeError
    | SplitFailed                          // shlex.split rejected the parameter string
    | IndexError                           // p[0] on an empty token
    | AdjustCommandError(token: string, tokens: seq<string>, exitCode: int)
    | ToolFailed(detail: string)           // reported by the process provider

  /** A parsed JSON value; Python dicts become `JObject`. */
  datatype Json =
    | JNull
    | JBool(b: bool)
    | JNumber(n: int)
    | JString(s: string)
    | JArray(items: seq<Json>)
    | JObject(fields: map<string, Json>)

  /** `doc[key]` where it succeeds; None where Python raises KeyError or TypeError. */
  function Field(doc: Json, key: string): Option<Json>
  {
    if doc.JObject? && key in doc.fields then Some(doc.fields[key]) else None
  }

  /** `doc[k0][k1]...` along a path of keys. */
  function Lookup(doc: Json, path: seq<string>): Option<Json>
    decreases |path|
  {
    if path == [] then Some(doc)
    else match Field(doc, path[0])
      case None => None
      case Some(child) => Lookup(child, path[1..])
  }

  /** Python truthiness of an optional string: neither None nor "". */
  predicate Given(s: Option<string>)
  {
    s.Some? && s.value != ""
  }

  /** The option as the truthiness test sees it: "" counts as absent. */
  function Truthy(s: Option<string>): Option<string>
  {
    if Given(s) then s else None
  }
}
