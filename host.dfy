/** The state the providers touch around the tool run: the file system, as a
    map from path to node, and the caller's `adjust_result` dictionary, which
    the providers update in place. */
module Host {
  import opened AdjustBase

  datatype Node = File(content: string) | Directory

  /** `os.path.exists` */
  predicate Exists(nodes: map<string, Node>, path: string)
  {
    path in nodes
  }

  /** `os.path.isfile` */
  predicate IsFile(nodes: map<string, Node>, path: string)
  {
    path in nodes && nodes[path].File?
  }

  /** `os.path.join(dir, name)` for two components: an absolute name wins,
      otherwise one separator is put between them unless `dir` is empty or
      already ends in one. */
  function Join(dir: string, name: string): string
  {
    if |name| > 0 && name[0] == '/' then name
    else if dir == [] || dir[|dir| - 1] == '/' then dir + name
    else dir + "/" + name
  }

  /** What a provider hands to the process provider: the execution name,
      the command, the directory it runs in, the request's extra adjust
      parameters, the results file the provider's extractor is told about,
      and the file system and `adjust_result` at launch. */
  datatype RunRequest = RunRequest(
    executionName: string,
    cmd: seq<string>,
    workDir: string,
    extraAdjustParameters: map<string, string>,
    resultsFile: string,
    nodes: map<string, Node>,
    fields: map<string, Json>)

  /** What a run through the process provider leaves behind: its result, and
      the file system and `adjust_result` as the tool and the provider's own
      result extraction left them. */
  datatype RunOutcome = RunOutcome(result: Result<Json>, nodes: map<string, Node>, fields: map<string, Json>)

  class FileSystem {
    var nodes: map<string, Node>

    constructor (nodes: map<string, Node>)
      ensures this.nodes == nodes
    {
      this.nodes := nodes;
    }

    /** `shutil.copy2(src, dst)`: the destination gets the source's content.
        A source that is not a regular file fails to open, even when it is the
        destination (the same-file test counts a path it cannot stat as
        different); a regular file copied onto itself raises SameFileError. */
    method Copy(src: string, dst: string) returns (r: Result<()>)
      modifies this
      ensures r.Ok? <==> src != dst && IsFile(old(nodes), src)
      ensures r.Ok? ==> nodes == old(nodes)[dst := old(nodes)[src]]
      ensures src == dst && IsFile(old(nodes), src) ==> r == Err(SameFile(src))
      ensures !IsFile(old(nodes), src) ==> r == Err(CopyFailed(src))
      ensures r.Err? ==> nodes == old(nodes)
    {
      if !IsFile(nodes, src) {
        r := Err(CopyFailed(src));
      } else if src == dst {
        r := Err(SameFile(src));
      } else {
        nodes := nodes[dst := nodes[src]];
        r := Ok(());
      }
    }

    /** `open(path).read()` */
    method Read(path: string) returns (r: Result<string>)
      ensures r.Ok? <==> IsFile(nodes, path)
      ensures r.Ok? ==> r.value == nodes[path].content
      ensures r.Err? ==> r.error == ReadFailed(path)
    {
      if IsFile(nodes, path) {
        r := Ok(nodes[path].content);
      } else {
        r := Err(ReadFailed(path));
      }
    }

    /** `os.remove(path)` on a regular file. */
    method Remove(path: string)
      requires IsFile(nodes, path)
      modifies this
      ensures nodes == old(nodes) - {path}
    {
      nodes := nodes - {path};
    }

    /** `tempfile.NamedTemporaryFile(delete=False)`: a new, empty file at
        `path`, a name nothing else uses. */
    method CreateEmpty(path: string)
      requires !Exists(nodes, path)
      modifies this
      ensures nodes == old(nodes)[path := File("")]
    {
      nodes := nodes[path := File("")];
    }
  }

  /** The caller's `adjust_result` dictionary. */
  class AdjustResult {
    var fields: map<string, Json>

    constructor (fields: map<string, Json>)
      ensures this.fields == fields
    {
      this.fields := fields;
    }

    /** `adjust_result[key] = value` */
    method Put(key: string, value: Json)
      modifies this
      ensures fields == old(fields)[key := value]
    {
      fields := fields[key := value];
    }
  }
}
