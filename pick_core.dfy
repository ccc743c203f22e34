/**
 * The commit bookkeeping of Mesa's stable-branch picker (bin/pick/core.py):
 * the Commit record and its JSON form in .pick_status.json, the parsing of
 * `git log --pretty=oneline` output, and the two passes gather_commits runs
 * over the new commits once their nominations are known (resolve_fixes and
 * the "not needed" post-pass).
 *
 * Commits are objects whose fields the passes update in place, so they are a
 * class; the passes are specified by functions on CommitData snapshots.
 */
module PickCore {
  import opened Wrappers

  // ---------------------------------------------------------------------
  // Enums and the commit record
  // ---------------------------------------------------------------------

  datatype NominationType = Cc | Fixes | Revert

  datatype Resolution = Unresolved | Merged | Denominated | Backported | NotNeeded

  /** The enum's `.value`. */
  function NominationValue(t: NominationType): int
  {
    match t
    case Cc => 0
    case Fixes => 1
    case Revert => 2
  }

  /** NominationType(v): the member whose value is v, if any. */
  function NominationOfValue(v: int): (r: Option<NominationType>)
    ensures r.Some? <==> 0 <= v <= 2
    ensures r.Some? ==> NominationValue(r.value) == v
  {
    if v == 0 then Some(Cc)
    else if v == 1 then Some(Fixes)
    else if v == 2 then Some(Revert)
    else None
  }

  /** The enum's `.value`. */
  function ResolutionValue(res: Resolution): int
  {
    match res
    case Unresolved => 0
    case Merged => 1
    case Denominated => 2
    case Backported => 3
    case NotNeeded => 4
  }

  /** Resolution(v): the member whose value is v, if any. */
  function ResolutionOfValue(v: int): (r: Option<Resolution>)
    ensures r.Some? <==> 0 <= v <= 4
    ensures r.Some? ==> ResolutionValue(r.value) == v
  {
    if v == 0 then Some(Unresolved)
    else if v == 1 then Some(Merged)
    else if v == 2 then Some(Denominated)
    else if v == 3 then Some(Backported)
    else if v == 4 then Some(NotNeeded)
    else None
  }

  /** The value of a Commit's fields at one moment. */
  datatype CommitData = CommitData(
    sha: string,
    description: string,
    nominated: bool,
    nominationType: Option<NominationType>,
    resolution: Resolution,
    masterSha: Option<string>,
    becauseSha: Option<string>)

  class Commit {
    var sha: string
    var description: string
    var nominated: bool
    var nominationType: Option<NominationType>
    var resolution: Resolution
    var masterSha: Option<string>
    var becauseSha: Option<string>

    /** Commit(sha, desc): the attrs defaults for every other field. */
    constructor (sha: string, description: string)
      ensures Data() == CommitData(sha, description, false, None, Unresolved, None, None)
    {
      this.sha := sha;
      this.description := description;
      nominated := false;
      nominationType := None;
      resolution := Unresolved;
      masterSha := None;
      becauseSha := None;
    }

    function Data(): CommitData
      reads this
    {
      CommitData(sha, description, nominated, nominationType, resolution, masterSha, becauseSha)
    }

    /** A commit that is reverted, or reverts, is no longer nominated and is marked denominated (lines 313-316). */
    method MarkDenominated()
      modifies this
      ensures Data() == Denominate(old(Data()))
    {
      nominated := false;
      resolution := Denominated;
    }
  }

  /** A commit taken off the nomination list. */
  function Denominate(c: CommitData): CommitData
  {
    c.(nominated := false, resolution := Denominated)
  }

  /** The fields of every commit in the list, in order. */
  function Snapshot(commits: seq<Commit>): (s: seq<CommitData>)
    reads commits
    ensures |s| == |commits|
    ensures forall k :: 0 <= k < |commits| ==> s[k] == commits[k].Data()
  {
    if |commits| == 0 then []
    else Snapshot(commits[..|commits| - 1]) + [commits[|commits| - 1].Data()]
  }

  /** No Commit object occurs twice in the list. */
  predicate Distinct(commits: seq<Commit>)
  {
    forall i, j :: 0 <= i < |commits| && 0 <= j < |commits| && i != j ==> commits[i] != commits[j]
  }

  // ---------------------------------------------------------------------
  // JSON form (Commit.to_json / Commit.from_json)
  // ---------------------------------------------------------------------

  /** The JSON values a commit entry of .pick_status.json holds. */
  datatype Json = JNull | JBool(b: bool) | JInt(i: int) | JString(s: string)

  type JsonObject = map<string, Json>

  datatype JsonError =
    | MissingKey(key: string)
    | WrongType(key: string)
    | UnknownEnumValue(key: string, value: int)

  const CommitKeys: set<string> :=
    {"sha", "description", "nominated", "nomination_type", "resolution", "master_sha", "because_sha"}

  function OptionalString(v: Option<string>): Json
  {
    match v
    case None => JNull
    case Some(s) => JString(s)
  }

  /** Commit.to_json: every field under its own name, enums by their value. */
  function ToJson(c: CommitData): (d: JsonObject)
    ensures d.Keys == CommitKeys
    ensures d["sha"] == JString(c.sha) && d["description"] == JString(c.description)
    ensures d["resolution"] == JInt(ResolutionValue(c.resolution))
    ensures d["nominated"] == JBool(c.nominated)
    ensures d["nomination_type"] ==
      (if c.nominationType.Some? then JInt(NominationValue(c.nominationType.value)) else JNull)
    ensures d["master_sha"] == OptionalString(c.masterSha) && d["because_sha"] == OptionalString(c.becauseSha)
  {
    map[
      "sha" := JString(c.sha),
      "description" := JString(c.description),
      "nominated" := JBool(c.nominated),
      "nomination_type" := (if c.nominationType.Some? then JInt(NominationValue(c.nominationType.value)) else JNull),
      "resolution" := JInt(ResolutionValue(c.resolution)),
      "master_sha" := OptionalString(c.masterSha),
      "because_sha" := OptionalString(c.becauseSha)
    ]
  }

  function GetString(d: JsonObject, key: string): Result<string, JsonError>
  {
    if key !in d then Err(MissingKey(key))
    else if d[key].JString? then Ok(d[key].s)
    else Err(WrongType(key))
  }

  function GetBool(d: JsonObject, key: string): Result<bool, JsonError>
  {
    if key !in d then Err(MissingKey(key))
    else if d[key].JBool? then Ok(d[key].b)
    else Err(WrongType(key))
  }

  /** A key whose value is a string or null. */
  function GetOptionalString(d: JsonObject, key: string): Result<Option<string>, JsonError>
  {
    if key !in d then Err(MissingKey(key))
    else if d[key].JNull? then Ok(None)
    else if d[key].JString? then Ok(Some(d[key].s))
    else Err(WrongType(key))
  }

  function GetNominationType(d: JsonObject): Result<Option<NominationType>, JsonError>
  {
    var key := "nomination_type";
    if key !in d then Err(MissingKey(key))
    else if d[key].JNull? then Ok(None)
    else if !d[key].JInt? then Err(WrongType(key))
    else if NominationOfValue(d[key].i).None? then Err(UnknownEnumValue(key, d[key].i))
    else Ok(NominationOfValue(d[key].i))
  }

  /** A null resolution leaves the default, UNRESOLVED. */
  function GetResolution(d: JsonObject): Result<Resolution, JsonError>
  {
    var key := "resolution";
    if key !in d then Err(MissingKey(key))
    else if d[key].JNull? then Ok(Unresolved)
    else if !d[key].JInt? then Err(WrongType(key))
    else if ResolutionOfValue(d[key].i).None? then Err(UnknownEnumValue(key, d[key].i))
    else Ok(ResolutionOfValue(d[key].i).value)
  }

  /**
   * Commit.from_json: the keys are read in the source's order (sha,
   * description, nominated, master_sha, because_sha, nomination_type,
   * resolution) and the first one missing or unusable is the error.
   */
  function FromJson(d: JsonObject): (r: Result<CommitData, JsonError>)
    ensures r.Ok? ==> d.Keys >= CommitKeys
    ensures r.Ok? ==> d["sha"] == JString(r.value.sha) && d["nominated"] == JBool(r.value.nominated)
  {
    var sha := GetString(d, "sha");
    if sha.Err? then Err(sha.error) else
    var description := GetString(d, "description");
    if description.Err? then Err(description.error) else
    var nominated := GetBool(d, "nominated");
    if nominated.Err? then Err(nominated.error) else
    var masterSha := GetOptionalString(d, "master_sha");
    if masterSha.Err? then Err(masterSha.error) else
    var becauseSha := GetOptionalString(d, "because_sha");
    if becauseSha.Err? then Err(becauseSha.error) else
    var nominationType := GetNominationType(d);
    if nominationType.Err? then Err(nominationType.error) else
    var resolution := GetResolution(d);
    if resolution.Err? then Err(resolution.error) else
    Ok(CommitData(sha.value, description.value, nominated.value, nominationType.value,
                  resolution.value, masterSha.value, becauseSha.value))
  }

  /** Every commit survives a trip through its JSON form unchanged. */
  lemma FromJsonToJson(c: CommitData)
    ensures FromJson(ToJson(c)) == Ok(c)
  {
    var d := ToJson(c);
    assert GetOptionalString(d, "master_sha") == Ok(c.masterSha);
    assert GetOptionalString(d, "because_sha") == Ok(c.becauseSha);
    assert GetNominationType(d) == Ok(c.nominationType) by {
      if c.nominationType.Some? {
        assert NominationOfValue(NominationValue(c.nominationType.value)) == c.nominationType;
      }
    }
    assert GetResolution(d) == Ok(c.resolution) by {
      assert ResolutionOfValue(ResolutionValue(c.resolution)) == Some(c.resolution);
    }
  }

  /**
   * The other direction: an entry with exactly the commit keys and an
   * explicit resolution is what to_json writes for the commit read from it.
   */
  lemma ToJsonFromJson(d: JsonObject)
    requires d.Keys == CommitKeys && d["resolution"].JInt?
    requires FromJson(d).Ok?
    ensures ToJson(FromJson(d).value) == d
  {
    var c := FromJson(d).value;
    var e := ToJson(c);
    assert GetResolution(d) == Ok(c.resolution);
    assert GetNominationType(d) == Ok(c.nominationType);
    assert GetOptionalString(d, "master_sha") == Ok(c.masterSha);
    assert GetOptionalString(d, "because_sha") == Ok(c.becauseSha);
    assert e["nomination_type"] == d["nomination_type"];
    assert e["master_sha"] == d["master_sha"];
    assert e["because_sha"] == d["because_sha"];
    assert e["resolution"] == d["resolution"];
    assert forall k :: k in CommitKeys ==> e[k] == d[k];
  }

  /** An entry without a resolution value reads as UNRESOLVED. */
  lemma NullResolutionIsUnresolved(d: JsonObject)
    requires FromJson(d).Ok? && d["resolution"] == JNull
    ensures FromJson(d).value.resolution == Unresolved
  {
  }

  /** An out-of-range nomination type is refused, as the enum lookup refuses it. */
  lemma UnknownNominationTypeRejected(c: CommitData, v: int)
    requires v < 0 || v > 2
    ensures FromJson(ToJson(c)["nomination_type" := JInt(v)]) == Err(UnknownEnumValue("nomination_type", v))
  {
    var d := ToJson(c)["nomination_type" := JInt(v)];
    assert GetOptionalString(d, "master_sha").Ok?;
    assert GetOptionalString(d, "because_sha").Ok?;
  }

  // ---------------------------------------------------------------------
  // split_commit_list
  // ---------------------------------------------------------------------

  /** The index of the first occurrence of ch in s. */
  function IndexOf(s: string, ch: char): (i: nat)
    requires ch in s
    ensures i < |s| && s[i] == ch && ch !in s[..i]
  {
    if s[0] == ch then 0
    else
      var i := 1 + IndexOf(s[1..], ch);
      assert s[..i] == [s[0]] + s[1..][..i - 1];
      i
  }

  /** The first occurrence is the one with no earlier occurrence. */
  lemma IndexOfUnique(s: string, ch: char, j: nat)
    requires j < |s| && s[j] == ch && ch !in s[..j]
    ensures IndexOf(s, ch) == j
  {
  }

  /** str.split(sep): the pieces between occurrences of sep, at least one. */
  function Split(s: string, sep: char): (parts: seq<string>)
    ensures |parts| >= 1
    ensures forall k :: 0 <= k < |parts| ==> sep !in parts[k]
    decreases |s|
  {
    if sep !in s then [s]
    else
      var i := IndexOf(s, sep);
      [s[..i]] + Split(s[i + 1..], sep)
  }

  /** sep.join(parts). */
  function Join(parts: seq<string>, sep: char): string
    requires |parts| >= 1
  {
    if |parts| == 1 then parts[0]
    else parts[0] + [sep] + Join(parts[1..], sep)
  }

  /** Joining the pieces of a split gives the string back. */
  lemma {:induction false} JoinSplit(s: string, sep: char)
    ensures Join(Split(s, sep), sep) == s
    decreases |s|
  {
    if sep in s {
      var i := IndexOf(s, sep);
      JoinSplit(s[i + 1..], sep);
      assert Split(s, sep)[1..] == Split(s[i + 1..], sep);
      assert s == s[..i] + [sep] + s[i + 1..];
    }
  }

  /** Split at a known first separator. */
  lemma SplitAt(s: string, sep: char, i: nat)
    requires i < |s| && s[i] == sep && sep !in s[..i]
    ensures Split(s, sep) == [s[..i]] + Split(s[i + 1..], sep)
  {
    IndexOfUnique(s, sep, i);
  }

  /** A separator-free first piece is the first piece of the split. */
  lemma SplitAfterPiece(first: string, rest: string, sep: char)
    requires sep !in first
    ensures Split(first + [sep] + rest, sep) == [first] + Split(rest, sep)
  {
    var s := first + [sep] + rest;
    assert s[..|first|] == first && s[|first| + 1..] == rest;
    SplitAt(s, sep, |first|);
  }

  /** Splitting a join of separator-free pieces gives the pieces back. */
  lemma {:induction false} SplitJoin(parts: seq<string>, sep: char)
    requires |parts| >= 1
    requires forall k :: 0 <= k < |parts| ==> sep !in parts[k]
    ensures Split(Join(parts, sep), sep) == parts
  {
    if |parts| > 1 {
      SplitJoin(parts[1..], sep);
      SplitAfterPiece(parts[0], Join(parts[1..], sep), sep);
      assert parts == [parts[0]] + parts[1..];
    }
  }

  /** line.split(' ', 1) when it yields two parts: (sha, description). */
  function SplitOnce(line: string): (r: Option<(string, string)>)
    ensures r.Some? <==> ' ' in line
    ensures r.Some? ==> ' ' !in r.value.0 && r.value.0 + " " + r.value.1 == line
  {
    if ' ' !in line then None
    else
      var i := IndexOf(line, ' ');
      assert line == line[..i] + " " + line[i + 1..];
      Some((line[..i], line[i + 1..]))
  }

  /** Every line as a pair; None when some line has no space (the assert fails). */
  function PairLines(lines: seq<string>): (r: Option<seq<(string, string)>>)
  {
    if |lines| == 0 then Some([])
    else
      var first := SplitOnce(lines[0]);
      var rest := PairLines(lines[1..]);
      if first.None? || rest.None? then None
      else Some([first.value] + rest.value)
  }

  /**
   * split_commit_list: nothing for the empty string, otherwise one
   * (sha, description) pair per line.  A line without a space trips the
   * source's assertion, which the model returns as None.
   */
  function SplitCommitList(commits: string): Option<seq<(string, string)>>
  {
    if commits == "" then Some([])
    else PairLines(Split(commits, '\n'))
  }

  predicate EveryLineSplits(lines: seq<string>)
  {
    forall k :: 0 <= k < |lines| ==> ' ' in lines[k]
  }

  /** pairs[k] is lines[k] cut at its first space. */
  predicate PairsOfLines(pairs: seq<(string, string)>, lines: seq<string>)
  {
    |pairs| == |lines| &&
    forall k :: 0 <= k < |lines| ==> ' ' !in pairs[k].0 && pairs[k].0 + " " + pairs[k].1 == lines[k]
  }

  /** What PairLines returns, line by line. */
  lemma {:induction false} PairLinesSpec(lines: seq<string>)
    ensures PairLines(lines).Some? <==> EveryLineSplits(lines)
    ensures PairLines(lines).Some? ==> PairsOfLines(PairLines(lines).value, lines)
  {
    if |lines| > 0 {
      PairLinesSpec(lines[1..]);
      if PairLines(lines).Some? {
        var r := PairLines(lines).value;
        forall k | 0 <= k < |lines|
          ensures ' ' !in r[k].0 && r[k].0 + " " + r[k].1 == lines[k]
        {
          if k > 0 {
            assert r[k] == PairLines(lines[1..]).value[k - 1];
            assert lines[k] == lines[1..][k - 1];
          }
        }
      } else if SplitOnce(lines[0]).Some? {
        var k :| 0 <= k < |lines[1..]| && ' ' !in lines[1..][k];
        assert ' ' !in lines[k + 1];
      }
    }
  }

  /**
   * A non-empty list parses exactly when every line has a space, into one
   * pair per line: the sha is the text before the first space and the
   * description the rest of the line.
   */
  lemma SplitCommitListLines(commits: string)
    requires commits != ""
    ensures SplitCommitList(commits).Some? <==> EveryLineSplits(Split(commits, '\n'))
    ensures SplitCommitList(commits).Some? ==> PairsOfLines(SplitCommitList(commits).value, Split(commits, '\n'))
  {
    PairLinesSpec(Split(commits, '\n'));
  }

  /** The line git prints for a (sha, description) pair. */
  function OnelineOf(p: (string, string)): string
  {
    p.0 + " " + p.1
  }

  /** A pair git could print: no space in the sha, no newline anywhere. */
  predicate PrintablePair(p: (string, string))
  {
    ' ' !in p.0 && '\n' !in p.0 && '\n' !in p.1
  }

  function OnelineLog(pairs: seq<(string, string)>): string
    requires |pairs| >= 1
  {
    Join(seq(|pairs|, k requires 0 <= k < |pairs| => OnelineOf(pairs[k])), '\n')
  }

  lemma SplitOnceOneline(p: (string, string))
    requires ' ' !in p.0
    ensures SplitOnce(OnelineOf(p)) == Some(p)
  {
    var line := OnelineOf(p);
    assert line[|p.0|] == ' ';
    assert line[..|p.0|] == p.0;
    IndexOfUnique(line, ' ', |p.0|);
    assert line[|p.0| + 1..] == p.1;
  }

  lemma {:induction false} PairLinesOneline(pairs: seq<(string, string)>)
    requires forall k :: 0 <= k < |pairs| ==> ' ' !in pairs[k].0
    ensures PairLines(seq(|pairs|, k requires 0 <= k < |pairs| => OnelineOf(pairs[k]))) == Some(pairs)
  {
    var lines := seq(|pairs|, k requires 0 <= k < |pairs| => OnelineOf(pairs[k]));
    if |pairs| > 0 {
      SplitOnceOneline(pairs[0]);
      PairLinesOneline(pairs[1..]);
      assert lines[1..] == seq(|pairs[1..]|, k requires 0 <= k < |pairs[1..]| => OnelineOf(pairs[1..][k]));
      assert pairs == [pairs[0]] + pairs[1..];
    }
  }

  /** Parsing the oneline log of printable pairs gives the pairs back. */
  lemma SplitCommitListRoundTrip(pairs: seq<(string, string)>)
    requires |pairs| >= 1
    requires forall k :: 0 <= k < |pairs| ==> PrintablePair(pairs[k])
    ensures SplitCommitList(OnelineLog(pairs)) == Some(pairs)
  {
    var lines := seq(|pairs|, k requires 0 <= k < |pairs| => OnelineOf(pairs[k]));
    forall k | 0 <= k < |lines|
      ensures '\n' !in lines[k]
    {
      assert lines[k] == pairs[k].0 + " " + pairs[k].1;
    }
    SplitJoin(lines, '\n');
    assert OnelineLog(pairs) != "" by {
      assert |OnelineLog(pairs)| > 0 by { JoinNonEmpty(lines, '\n'); }
    }
    PairLinesOneline(pairs);
  }

  lemma {:induction false} JoinNonEmpty(parts: seq<string>, sep: char)
    requires |parts| >= 1 && |parts[0]| > 0
    ensures |Join(parts, sep)| > 0
  {
  }

  // ---------------------------------------------------------------------
  // resolve_fixes
  // ---------------------------------------------------------------------

  /** The shas of the previously nominated commits. */
  function NominatedShas(previous: seq<CommitData>): set<string>
  {
    set k | 0 <= k < |previous| && previous[k].nominated :: previous[k].sha
  }

  /** The first loop's body for one commit, given the shas seen so far. */
  function FixStep(c: CommitData, shas: set<string>): CommitData
  {
    if !c.nominated && c.nominationType == Some(Fixes) then
      c.(nominated := c.becauseSha.Some? && c.becauseSha.value in shas)
    else c
  }

  /**
   * The shas after the first loop has walked cs[k..] from the end: the loop
   * runs over reversed(commits), so oldest first.
   */
  function ShasAfter(cs: seq<CommitData>, shas0: set<string>, k: nat): set<string>
    requires k <= |cs|
    decreases |cs| - k
  {
    if k == |cs| then shas0
    else
      var s := ShasAfter(cs, shas0, k + 1);
      if FixStep(cs[k], s).nominated then s + {cs[k].sha} else s
  }

  /** Commit k after the first loop. */
  function Fixed(cs: seq<CommitData>, shas0: set<string>, k: nat): CommitData
    requires k < |cs|
  {
    FixStep(cs[k], ShasAfter(cs, shas0, k + 1))
  }

  /** The whole list after the first loop. */
  function FixPass(cs: seq<CommitData>, shas0: set<string>): (r: seq<CommitData>)
    ensures |r| == |cs|
  {
    seq(|cs|, k requires 0 <= k < |cs| => Fixed(cs, shas0, k))
  }

  /** oldc of the reversed search: the last commit in the list with this sha. */
  function LastWithSha(cs: seq<CommitData>, sha: string): (r: Option<nat>)
    ensures r.Some? ==>
      r.value < |cs| && cs[r.value].sha == sha && (forall m :: r.value < m < |cs| ==> cs[m].sha != sha)
    ensures r.None? ==> forall m :: 0 <= m < |cs| ==> cs[m].sha != sha
  {
    if |cs| == 0 then None
    else if cs[|cs| - 1].sha == sha then Some(|cs| - 1)
    else LastWithSha(cs[..|cs| - 1], sha)
  }

  /** The index the reversed search stops at is the last one with the sha. */
  lemma LastWithShaAt(cs: seq<CommitData>, sha: string, i: nat)
    requires i < |cs| && cs[i].sha == sha
    requires forall m :: i < m < |cs| ==> cs[m].sha != sha
    ensures LastWithSha(cs, sha) == Some(i)
  {
  }

  /** Commit j reverts a commit whose sha is still in the set. */
  predicate RevertsLive(c: CommitData, shas: set<string>)
  {
    c.nominationType == Some(Revert) && c.becauseSha.Some? && c.becauseSha.value in shas
  }

  /** The second loop's body for commit j. */
  function RevertStep(cs: seq<CommitData>, shas: set<string>, j: nat): (r: (seq<CommitData>, set<string>))
    requires j < |cs|
    ensures |r.0| == |cs|
  {
    if !RevertsLive(cs[j], shas) then (cs, shas)
    else
      var sha := cs[j].becauseSha.value;
      match LastWithSha(cs, sha)
      case None => (cs, shas)
      case Some(k) =>
        var cs' := cs[k := Denominate(cs[k])];
        (cs'[j := Denominate(cs'[j])], shas - {sha})
  }

  lemma RevertStepTakes(cs: seq<CommitData>, shas: set<string>, j: nat, k: nat)
    requires j < |cs| && RevertsLive(cs[j], shas)
    requires LastWithSha(cs, cs[j].becauseSha.value) == Some(k)
    ensures RevertStep(cs, shas, j) ==
      var mid := cs[k := Denominate(cs[k])];
      (mid[j := Denominate(mid[j])], shas - {cs[j].becauseSha.value})
  {
  }

  lemma RevertStepKeeps(cs: seq<CommitData>, shas: set<string>, j: nat)
    requires j < |cs|
    requires !RevertsLive(cs[j], shas) || LastWithSha(cs, cs[j].becauseSha.value).None?
    ensures RevertStep(cs, shas, j) == (cs, shas)
  {
  }

  /** The second loop from commit j on. */
  function RevertPass(cs: seq<CommitData>, shas: set<string>, j: nat): (seq<CommitData>, set<string>)
    requires j <= |cs|
    decreases |cs| - j
  {
    if j == |cs| then (cs, shas)
    else
      var (cs', shas') := RevertStep(cs, shas, j);
      RevertPass(cs', shas', j + 1)
  }

  /** resolve_fixes on the commits' fields. */
  function ResolvedFixes(cs: seq<CommitData>, previous: seq<CommitData>): seq<CommitData>
  {
    var shas0 := NominatedShas(previous);
    RevertPass(FixPass(cs, shas0), ShasAfter(cs, shas0, 0), 0).0
  }

  /** The first loop of resolve_fixes: walk the list oldest first, nominating fixes of seen shas. */
  method NominateFixes(commits: seq<Commit>, shas0: set<string>) returns (shas: set<string>)
    requires Distinct(commits)
    modifies commits
    ensures Snapshot(commits) == FixPass(old(Snapshot(commits)), shas0)
    ensures shas == ShasAfter(old(Snapshot(commits)), shas0, 0)
  {
    ghost var cs0 := Snapshot(commits);
    shas := shas0;
    var i := |commits|;
    while i > 0
      invariant 0 <= i <= |commits|
      invariant shas == ShasAfter(cs0, shas0, i)
      invariant forall k :: 0 <= k < i ==> commits[k].Data() == cs0[k]
      invariant forall k :: i <= k < |commits| ==> commits[k].Data() == Fixed(cs0, shas0, k)
    {
      i := i - 1;
      var commit := commits[i];
      ghost var fixed := FixStep(cs0[i], shas);
      assert shas == ShasAfter(cs0, shas0, i + 1);
      if !commit.nominated && commit.nominationType == Some(Fixes) {
        commit.nominated := commit.becauseSha.Some? && commit.becauseSha.value in shas;
      }
      assert commit.Data() == fixed;
      if commit.nominated {
        shas := shas + {commit.sha};
      }
      assert commit.sha == cs0[i].sha;
      assert commit.nominated == fixed.nominated;
      assert ShasAfter(cs0, shas0, i) == (if fixed.nominated then ShasAfter(cs0, shas0, i + 1) + {cs0[i].sha} else ShasAfter(cs0, shas0, i + 1));
    }
  }

  /** The search of lines 309-310: the last commit in the list that has the given sha. */
  method FindLastWithSha(commits: seq<Commit>, sha: string) returns (k: Option<nat>)
    ensures k == LastWithSha(Snapshot(commits), sha)
  {
    ghost var cs := Snapshot(commits);
    var i := |commits|;
    while i > 0
      invariant 0 <= i <= |commits|
      invariant forall m :: i <= m < |commits| ==> commits[m].sha != sha
    {
      i := i - 1;
      if commits[i].sha == sha {
        LastWithShaAt(cs, sha, i);
        k := Some(i);
        return;
      }
    }
    assert forall m :: 0 <= m < |cs| ==> cs[m].sha != sha;
    k := None;
  }

  /** The reverted commit, then the revert, are taken off the nomination list. */
  method DenominatePair(commits: seq<Commit>, k: nat, j: nat)
    requires Distinct(commits) && k < |commits| && j < |commits|
    modifies commits
    ensures Snapshot(commits) ==
      var mid := old(Snapshot(commits))[k := Denominate(old(Snapshot(commits))[k])];
      mid[j := Denominate(mid[j])]
  {
    ghost var before := Snapshot(commits);
    ghost var mid := before[k := Denominate(before[k])];
    ghost var after := mid[j := Denominate(mid[j])];
    var oldc, commit := commits[k], commits[j];
    oldc.MarkDenominated();
    forall m | 0 <= m < |commits|
      ensures commits[m].Data() == mid[m]
    {
      if m != k {
        assert commits[m] != oldc;
      }
    }
    commit.MarkDenominated();
    forall m | 0 <= m < |commits|
      ensures commits[m].Data() == after[m]
    {
      if m != j {
        assert commits[m] != commit;
      }
    }
    assert Snapshot(commits) == after;
  }

  /** One turn of the second loop of resolve_fixes, for commits[j]. */
  method RevertOne(commits: seq<Commit>, shas: set<string>, j: nat) returns (shas': set<string>)
    requires Distinct(commits) && j < |commits|
    modifies commits
    ensures (Snapshot(commits), shas') == RevertStep(old(Snapshot(commits)), shas, j)
  {
    ghost var before := Snapshot(commits);
    shas' := shas;
    var commit := commits[j].Data();
    assert commit == before[j];
    if commit.nominationType == Some(Revert) && commit.becauseSha.Some? && commit.becauseSha.value in shas {
      var target := commit.becauseSha.value;
      var found := FindLastWithSha(commits, target);
      if found.Some? {
        RevertStepTakes(before, shas, j, found.value);
        DenominatePair(commits, found.value, j);
        shas' := shas - {target};
      } else {
        RevertStepKeeps(before, shas, j);
      }
    } else {
      RevertStepKeeps(before, shas, j);
    }
  }

  /** The second loop of resolve_fixes: a revert of a live sha denominates both commits. */
  method DenominateReverts(commits: seq<Commit>, shas0: set<string>)
    requires Distinct(commits)
    modifies commits
    ensures Snapshot(commits) == RevertPass(old(Snapshot(commits)), shas0, 0).0
  {
    ghost var cs0 := Snapshot(commits);
    var shas := shas0;
    var j := 0;
    while j < |commits|
      invariant 0 <= j <= |commits|
      invariant RevertPass(Snapshot(commits), shas, j) == RevertPass(cs0, shas0, 0)
    {
      ghost var before, shasBefore := Snapshot(commits), shas;
      shas := RevertOne(commits, shas, j);
      assert RevertPass(before, shasBefore, j) == RevertPass(Snapshot(commits), shas, j + 1);
      j := j + 1;
    }
    assert RevertPass(Snapshot(commits), shas, j) == (Snapshot(commits), shas);
  }

  /** resolve_fixes(commits, previous). */
  method ResolveFixes(commits: seq<Commit>, previous: seq<Commit>)
    requires Distinct(commits)
    modifies commits
    ensures Snapshot(commits) == ResolvedFixes(old(Snapshot(commits)), old(Snapshot(previous)))
  {
    var shas := set k | 0 <= k < |previous| && previous[k].nominated :: previous[k].sha;
    assert shas == NominatedShas(Snapshot(previous));
    shas := NominateFixes(commits, shas);
    DenominateReverts(commits, shas);
  }

  // ---------------------------------------------------------------------
  // The post-pass of gather_commits
  // ---------------------------------------------------------------------

  /** A commit still UNRESOLVED and not nominated is NOTNEEDED. */
  function SettleUnneeded(c: CommitData): CommitData
  {
    if c.resolution == Unresolved && !c.nominated then c.(resolution := NotNeeded) else c
  }

  function SettlePass(cs: seq<CommitData>): (r: seq<CommitData>)
    ensures |r| == |cs|
  {
    seq(|cs|, k requires 0 <= k < |cs| => SettleUnneeded(cs[k]))
  }

  /** The post-pass, a commit at a time. */
  method SettleCommits(commits: seq<Commit>)
    requires Distinct(commits)
    modifies commits
    ensures Snapshot(commits) == SettlePass(old(Snapshot(commits)))
  {
    ghost var cs0 := Snapshot(commits);
    var i := 0;
    while i < |commits|
      invariant 0 <= i <= |commits|
      invariant forall k :: 0 <= k < i ==> commits[k].Data() == SettleUnneeded(cs0[k])
      invariant forall k :: i <= k < |commits| ==> commits[k].Data() == cs0[k]
    {
      var commit := commits[i];
      if commit.resolution == Unresolved && !commit.nominated {
        commit.resolution := NotNeeded;
      }
      i := i + 1;
    }
  }

  /** gather_commits once every commit's nomination is known. */
  method GatherCommits(commits: seq<Commit>, previous: seq<Commit>)
    requires Distinct(commits)
    modifies commits
    ensures Snapshot(commits) == SettlePass(ResolvedFixes(old(Snapshot(commits)), old(Snapshot(previous))))
  {
    ResolveFixes(commits, previous);
    SettleCommits(commits);
  }

  /**
   * Afterwards no commit is left undecided: each is nominated or carries a
   * resolution; the post-pass changes nothing but the resolution of the
   * undecided ones, and running it again changes nothing.
   */
  lemma SettlePassDecides(cs: seq<CommitData>)
    ensures forall k :: 0 <= k < |cs| ==>
      SettlePass(cs)[k].nominated || SettlePass(cs)[k].resolution != Unresolved
    ensures forall k :: 0 <= k < |cs| ==>
      SettlePass(cs)[k] == (if cs[k].resolution == Unresolved && !cs[k].nominated then cs[k].(resolution := NotNeeded) else cs[k])
    ensures SettlePass(SettlePass(cs)) == SettlePass(cs)
  {
  }

  // ---------------------------------------------------------------------
  // What resolve_fixes promises
  // ---------------------------------------------------------------------

  /** The shas of the commits from k on that the first loop leaves nominated. */
  function NominatedFrom(cs: seq<CommitData>, shas0: set<string>, k: nat): set<string>
    requires k <= |cs|
  {
    set m | k <= m < |cs| && Fixed(cs, shas0, m).nominated :: cs[m].sha
  }

  /** The shas seen by the first loop: the previous nominations plus every commit it left nominated. */
  lemma {:induction false} ShasAfterCollects(cs: seq<CommitData>, shas0: set<string>, k: nat)
    requires k <= |cs|
    ensures ShasAfter(cs, shas0, k) == shas0 + NominatedFrom(cs, shas0, k)
    decreases |cs| - k
  {
    if k < |cs| {
      ShasAfterCollects(cs, shas0, k + 1);
      NominatedShasStep(cs, shas0, k);
      var added := if Fixed(cs, shas0, k).nominated then {cs[k].sha} else {};
      assert ShasAfter(cs, shas0, k) == ShasAfter(cs, shas0, k + 1) + added;
    } else {
      assert NominatedFrom(cs, shas0, k) == {};
    }
  }

  lemma NominatedShasStep(cs: seq<CommitData>, shas0: set<string>, k: nat)
    requires k < |cs|
    ensures NominatedFrom(cs, shas0, k) ==
      NominatedFrom(cs, shas0, k + 1) + (if Fixed(cs, shas0, k).nominated then {cs[k].sha} else {})
  {
    var later := NominatedFrom(cs, shas0, k + 1);
    var here := NominatedFrom(cs, shas0, k);
    var added := if Fixed(cs, shas0, k).nominated then {cs[k].sha} else {};
    assert here <= later + added by {
      forall x | x in here
        ensures x in later + added
      {
        var m :| k <= m < |cs| && Fixed(cs, shas0, m).nominated && cs[m].sha == x;
        if m > k {
          assert x in later;
        }
      }
    }
    assert later + added <= here by {
      forall x | x in later + added
        ensures x in here
      {
        if x in later {
          var m :| k + 1 <= m < |cs| && Fixed(cs, shas0, m).nominated && cs[m].sha == x;
          assert k <= m;
        }
      }
    }
  }

  /** The first loop only ever turns `nominated` on, and touches nothing else. */
  lemma FixedOnlyNominates(cs: seq<CommitData>, shas0: set<string>, k: nat)
    requires k < |cs|
    ensures Fixed(cs, shas0, k) == cs[k].(nominated := Fixed(cs, shas0, k).nominated)
    ensures cs[k].nominated ==> Fixed(cs, shas0, k).nominated
    ensures cs[k].nominationType != Some(Fixes) ==> Fixed(cs, shas0, k) == cs[k]
  {
  }

  /**
   * An undecided FIXES commit is nominated exactly when the commit it fixes
   * was nominated before, or is an older commit of the list that the loop
   * left nominated.
   */
  lemma FixNominatedIff(cs: seq<CommitData>, shas0: set<string>, k: nat)
    requires k < |cs| && !cs[k].nominated && cs[k].nominationType == Some(Fixes)
    ensures Fixed(cs, shas0, k).nominated <==>
      cs[k].becauseSha.Some? &&
      (cs[k].becauseSha.value in shas0 ||
       exists m :: k < m < |cs| && Fixed(cs, shas0, m).nominated && cs[m].sha == cs[k].becauseSha.value)
  {
    ShasAfterCollects(cs, shas0, k + 1);
    if cs[k].becauseSha.Some? {
      var sha := cs[k].becauseSha.value;
      var later := NominatedFrom(cs, shas0, k + 1);
      if sha in later && sha !in shas0 {
        var m :| k + 1 <= m < |cs| && Fixed(cs, shas0, m).nominated && cs[m].sha == sha;
      }
      if exists m :: k < m < |cs| && Fixed(cs, shas0, m).nominated && cs[m].sha == sha {
        var m :| k < m < |cs| && Fixed(cs, shas0, m).nominated && cs[m].sha == sha;
        assert cs[m].sha in later;
      }
    }
  }

  /** Fixes chain: a fix of a commit that ends nominated ends nominated too. */
  lemma FixesPropagate(cs: seq<CommitData>, shas0: set<string>, k: nat, m: nat)
    requires k < m < |cs|
    requires !cs[k].nominated && cs[k].nominationType == Some(Fixes) && cs[k].becauseSha == Some(cs[m].sha)
    requires Fixed(cs, shas0, m).nominated
    ensures Fixed(cs, shas0, k).nominated
  {
    FixNominatedIff(cs, shas0, k);
  }

  /** A list without reverts goes through the second loop unchanged. */
  lemma {:induction false} RevertPassWithoutReverts(cs: seq<CommitData>, shas: set<string>, j: nat)
    requires j <= |cs|
    requires forall m :: 0 <= m < |cs| ==> cs[m].nominationType != Some(Revert)
    ensures RevertPass(cs, shas, j) == (cs, shas)
    decreases |cs| - j
  {
    if j < |cs| {
      RevertPassWithoutReverts(cs, shas, j + 1);
    }
  }

  /**
   * The docstring's example: commit 1 was nominated earlier, commit 2 fixes
   * commit 1 and commit 3 fixes commit 2 (git log order, newest first).
   * Both new commits end nominated.
   */
  lemma ChainOfFixes()
    ensures var c3 := CommitData("3", "fix 2", false, Some(Fixes), Unresolved, None, Some("2"));
            var c2 := CommitData("2", "fix 1", false, Some(Fixes), Unresolved, None, Some("1"));
            var c1 := CommitData("1", "feature", true, Some(Cc), Unresolved, None, None);
            var r := ResolvedFixes([c3, c2], [c1]);
            |r| == 2 && r[0].nominated && r[1].nominated
  {
    var c3 := CommitData("3", "fix 2", false, Some(Fixes), Unresolved, None, Some("2"));
    var c2 := CommitData("2", "fix 1", false, Some(Fixes), Unresolved, None, Some("1"));
    var c1 := CommitData("1", "feature", true, Some(Cc), Unresolved, None, None);
    var cs := [c3, c2];
    var shas0 := NominatedShas([c1]);
    assert [c1][0].sha in shas0;
    assert Fixed(cs, shas0, 1).nominated;
    FixesPropagate(cs, shas0, 0, 1);
    var fixed := FixPass(cs, shas0);
    RevertPassWithoutReverts(fixed, ShasAfter(cs, shas0, 0), 0);
  }

  /**
   * One turn of the second loop: a revert of a sha still in the set takes
   * both the last commit with that sha and the revert itself off the list,
   * and drops the sha; otherwise nothing changes.
   */
  lemma RevertStepEffect(cs: seq<CommitData>, shas: set<string>, j: nat)
    requires j < |cs|
    ensures var (cs', shas') := RevertStep(cs, shas, j);
      if RevertsLive(cs[j], shas) && LastWithSha(cs, cs[j].becauseSha.value).Some? then
        var k := LastWithSha(cs, cs[j].becauseSha.value).value;
        cs[k].sha == cs[j].becauseSha.value &&
        cs'[k].resolution == Denominated && !cs'[k].nominated &&
        cs'[j].resolution == Denominated && !cs'[j].nominated &&
        (forall m :: 0 <= m < |cs| && m != k && m != j ==> cs'[m] == cs[m]) &&
        shas' == shas - {cs[j].becauseSha.value}
      else
        cs' == cs && shas' == shas
  {
  }

  /** The second loop never nominates: every commit is left as it was or denominated. */
  lemma {:induction false} RevertPassOnlyDenominates(cs: seq<CommitData>, shas: set<string>, j: nat)
    requires j <= |cs|
    ensures |RevertPass(cs, shas, j).0| == |cs|
    ensures forall m :: 0 <= m < |cs| ==>
      RevertPass(cs, shas, j).0[m] == cs[m] || RevertPass(cs, shas, j).0[m] == Denominate(cs[m])
    ensures RevertPass(cs, shas, j).1 <= shas
    decreases |cs| - j
  {
    if j < |cs| {
      var (cs', shas') := RevertStep(cs, shas, j);
      RevertPassOnlyDenominates(cs', shas', j + 1);
      forall m | 0 <= m < |cs|
        ensures cs'[m] == cs[m] || cs'[m] == Denominate(cs[m])
      {
      }
    }
  }
}
