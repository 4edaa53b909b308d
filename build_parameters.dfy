/** The temporary build parameters both providers put on the tool's command
    line: a version-suffix property when a timestamp is configured and a
    repository-group property when an indy group is configured. */
module BuildParameters {
  import opened AdjustBase

  const VersionSuffixFlag := "-DversionIncrementalSuffix="
  const RedhatSuffix := "-redhat"
  const RepositoryGroupFlag := "-DrestRepositoryGroup="

  function SuffixParameter(timestamp: string): string
  {
    VersionSuffixFlag + timestamp + RedhatSuffix
  }

  function GroupParameter(group: string): string
  {
    RepositoryGroupFlag + group
  }

  /** A system-property option, `-D...`, as the build tools read them. */
  predicate IsPropertyOption(p: string)
  {
    |p| >= 2 && p[0] == '-' && p[1] == 'D'
  }

  /** The temporary parameters for a configured timestamp and group: one
      entry per setting that is given, the timestamp's first. */
  function TempParameters(timestamp: Option<string>, group: Option<string>): (params: seq<string>)
    ensures |params| == (if Given(timestamp) then 1 else 0) + (if Given(group) then 1 else 0)
    ensures forall p :: p in params <==>
      (Given(timestamp) && p == SuffixParameter(timestamp.value)) ||
      (Given(group) && p == GroupParameter(group.value))
    ensures Given(timestamp) ==> params[0] == SuffixParameter(timestamp.value)
    ensures Given(group) ==> params[|params| - 1] == GroupParameter(group.value)
    ensures forall i | 0 <= i < |params| :: IsPropertyOption(params[i])
  {
    (if Given(timestamp) then [SuffixParameter(timestamp.value)] else []) +
    (if Given(group) then [GroupParameter(group.value)] else [])
  }

  /** Builds the temporary parameters by appending, one setting at a time. */
  method BuildTempParameters(timestamp: Option<string>, group: Option<string>) returns (params: seq<string>)
    ensures params == TempParameters(timestamp, group)
  {
    params := [];
    if Given(timestamp) {
      params := params + [SuffixParameter(timestamp.value)];
    }
    if Given(group) {
      params := params + [GroupParameter(group.value)];
    }
  }

  predicate HasPrefix(s: string, prefix: string)
  {
    |prefix| <= |s| && s[..|prefix|] == prefix
  }

  predicate IsSuffixParameter(p: string)
  {
    |p| >= |VersionSuffixFlag| + |RedhatSuffix| &&
    HasPrefix(p, VersionSuffixFlag) &&
    p[|p| - |RedhatSuffix|..] == RedhatSuffix
  }

  function TimestampOf(p: string): string
    requires IsSuffixParameter(p)
  {
    p[|VersionSuffixFlag|..|p| - |RedhatSuffix|]
  }

  /** An inverse of `TempParameters`: reads the timestamp and the group back
      from the positions where they are put. */
  function DecodeTempParameters(params: seq<string>): (Option<string>, Option<string>)
  {
    var timestamp := if |params| > 0 && IsSuffixParameter(params[0]) then Some(TimestampOf(params[0])) else None;
    var rest := if timestamp.Some? then params[1..] else params;
    var group :=
      if |rest| > 0 && HasPrefix(rest[0], RepositoryGroupFlag)
      then Some(rest[0][|RepositoryGroupFlag|..])
      else None;
    (timestamp, group)
  }

  lemma SuffixParameterDecodes(timestamp: string)
    ensures IsSuffixParameter(SuffixParameter(timestamp))
    ensures TimestampOf(SuffixParameter(timestamp)) == timestamp
  {
  }

  lemma GroupParameterDecodes(group: string)
    ensures !IsSuffixParameter(GroupParameter(group))
    ensures HasPrefix(GroupParameter(group), RepositoryGroupFlag)
    ensures GroupParameter(group)[|RepositoryGroupFlag|..] == group
  {
    var p := GroupParameter(group);
    assert p[..|RepositoryGroupFlag|] == RepositoryGroupFlag;
    assert p[2] == 'r' != VersionSuffixFlag[2];
  }

  /** The command line carries exactly the settings that were given: decoding
      the temporary parameters recovers each given setting and no other. */
  lemma {:induction false} DecodeTempParametersRoundTrip(timestamp: Option<string>, group: Option<string>)
    ensures DecodeTempParameters(TempParameters(timestamp, group)) == (Truthy(timestamp), Truthy(group))
  {
    var params := TempParameters(timestamp, group);
    if Given(timestamp) {
      SuffixParameterDecodes(timestamp.value);
      assert params[1..] == if Given(group) then [GroupParameter(group.value)] else [];
    }
    if Given(group) {
      GroupParameterDecodes(group.value);
    }
  }
}
