/**
 * The string building of the build helper python/fortworth.py: the Bodega build and repository
 * URLs, the catalog API URLs, the GitHub commit URL, the RPM release and Maven version strings,
 * the artifact records a build reports and the Maven settings repository list.  The output of
 * git, rpm and mvn and the service URLs from the environment are parameters.
 */
module Fortworth {
  import opened Wrappers
  import opened Dicts
  import opened Strings
  import opened Json
  import ModelObjects

  /** The exceptions the helpers raise: a failed `assert`, and unpacking the wrong number of pieces. */
  datatype Error = AssertionError | ValueError

  /** A Python value as `str.format` prints it: `None`, an integer or a string. */
  datatype Scalar = NoneValue | IntValue(i: int) | StrValue(s: string)

  function Format(v: Scalar): string
  {
    match v
    case NoneValue => "None"
    case IntValue(i) => if i < 0 then "-" + NatToString(-i) else NatToString(i)
    case StrValue(s) => s
  }

  /** The same value in a JSON document. */
  function ToJson(v: Scalar): Json
  {
    match v
    case NoneValue => JNull
    case IntValue(i) => JNum(i)
    case StrValue(s) => JStr(s)
  }

  /** `BuildData`: a build of a branch of a repo, with its id and URL (both may be `None`). */
  datatype BuildData = BuildData(repo: string, branch: string, id: Scalar, url: Scalar)

  /** `BuildData(repo, branch, id, url)`: the repo and the branch must not be empty. */
  function NewBuildData(repo: string, branch: string, id: Scalar, url: Scalar): (r: Result<BuildData, Error>)
    ensures r.Ok? <==> repo != "" && branch != ""
    ensures r.Ok? ==> r.value == BuildData(repo, branch, id, url)
    ensures r.Err? ==> r.error == AssertionError
  {
    if repo == "" || branch == "" then Err(AssertionError) else Ok(BuildData(repo, branch, id, url))
  }

  /** `assert service_url`: the service URL from the environment must be set and not empty. */
  function ServiceUrl(service: Option<string>): (r: Result<string, Error>)
    ensures r.Ok? <==> service.Some? && service.value != ""
    ensures r.Ok? ==> r.value == service.value
  {
    if service.None? || service.value == "" then Err(AssertionError) else Ok(service.value)
  }

  // ---------------------------------------------------------------------------------------------
  // Bodega

  /** `bodega_build_url`: `{service}/{repo}/{branch}/{id}`. */
  function BodegaBuildUrl(b: BuildData, service: Option<string>): Result<string, Error>
  {
    var base :- ServiceUrl(service);
    Ok(base + "/" + b.repo + "/" + b.branch + "/" + Format(b.id))
  }

  /** `_yum_repo_url` and `_maven_repo_url`, which are the same: the build URL and `/repo`. */
  function RepoUrl(b: BuildData, service: Option<string>): Result<string, Error>
  {
    var build :- BodegaBuildUrl(b, service);
    Ok(build + "/repo")
  }

  /**
   * Without `/` in the repo, the branch and the id, the build URL splits into the service URL's
   * pieces followed by exactly those three, and the repository URL adds `repo`.
   */
  lemma BuildUrlSegments(b: BuildData, service: string)
    requires service != "" && '/' !in b.repo && '/' !in b.branch && '/' !in Format(b.id)
    ensures Split(BodegaBuildUrl(b, Some(service)).value, '/') == Split(service, '/') + [b.repo, b.branch, Format(b.id)]
    ensures Split(RepoUrl(b, Some(service)).value, '/') == Split(service, '/') + [b.repo, b.branch, Format(b.id), "repo"]
  {
    var s1 := service + "/" + b.repo;
    var s2 := s1 + "/" + b.branch;
    var s3 := s2 + "/" + Format(b.id);
    assert s1 == service + ['/'] + b.repo;
    assert s2 == s1 + ['/'] + b.branch;
    assert s3 == s2 + ['/'] + Format(b.id);
    assert s3 + "/repo" == s3 + ['/'] + "repo";
    SplitLast(service, '/', b.repo);
    SplitLast(s1, '/', b.branch);
    SplitLast(s2, '/', Format(b.id));
    SplitLast(s3, '/', "repo");
  }

  // ---------------------------------------------------------------------------------------------
  // The catalog's API

  /** `stagger_get_data`: `{service}/api/data`. */
  function DataUrl(service: Option<string>): (r: Result<string, Error>)
    ensures r.Ok? <==> service.Some? && service.value != ""
    ensures r.Ok? ==> StartsWith(r.value, service.value) && EndsWith(r.value, "/api/data")
  {
    var base :- ServiceUrl(service);
    Ok(base + "/api/data")
  }

  /** `stagger_get_tag` and `stagger_put_tag`: the tag's API URL, with `?dry-run=1` for a dry run. */
  function TagUrl(service: Option<string>, repo: string, branch: string, tag: string, dryRun: bool): Result<string, Error>
  {
    var base :- ServiceUrl(service);
    var url := base + "/api/repos/" + repo + "/branches/" + branch + "/tags/" + tag;
    Ok(if dryRun then url + "?dry-run=1" else url)
  }

  /** `stagger_get_artifact` and `stagger_put_artifact`: the artifact's API URL, with `?dry-run=1` for a dry run. */
  function ArtifactUrl(service: Option<string>, repo: string, branch: string, tag: string, artifact: string, dryRun: bool): Result<string, Error>
  {
    var base :- ServiceUrl(service);
    var url := base + "/api/repos/" + repo + "/branches/" + branch + "/tags/" + tag + "/artifacts/" + artifact;
    Ok(if dryRun then url + "?dry-run=1" else url)
  }

  lemma Extend(p: string, x: string, l: string, piece: string)
    requires l == p + x
    ensures l + piece == p + (x + piece)
  {
  }

  /** The helper asks for exactly the paths the catalog server gives its tags and artifacts. */
  lemma UrlsMatchServer(service: string, r: string, b: string, t: string, a: string)
    requires service != ""
    ensures TagUrl(Some(service), r, b, t, false) == Ok(service + "/" + ModelObjects.ApiPath([r, b, t]))
    ensures ArtifactUrl(Some(service), r, b, t, a, false) == Ok(service + "/" + ModelObjects.ApiPath([r, b, t, a]))
  {
    ModelObjects.TagPaths(r, b, t);
    var ids := [r, b, t, a];
    assert ids[..3] == [r, b, t];
    assert ModelObjects.Segment(3, a) == "/artifacts/" + a;
    var p := service + "/";
    var x0 := "api/repos/";
    var l0 := service + "/api/repos/";
    assert l0 == p + x0;
    Extend(p, x0, l0, r);
    Extend(p, x0 + r, l0 + r, "/branches/");
    Extend(p, x0 + r + "/branches/", l0 + r + "/branches/", b);
    Extend(p, x0 + r + "/branches/" + b, l0 + r + "/branches/" + b, "/tags/");
    Extend(p, x0 + r + "/branches/" + b + "/tags/", l0 + r + "/branches/" + b + "/tags/", t);
    var x := x0 + r + "/branches/" + b + "/tags/" + t;
    var l := l0 + r + "/branches/" + b + "/tags/" + t;
    assert l == p + ModelObjects.ApiPath([r, b, t]);
    Extend(p, x, l, "/artifacts/");
    Extend(p, x + "/artifacts/", l + "/artifacts/", a);
    assert ModelObjects.ApiPath(ids) == x + ("/artifacts/" + a);
    assert x + ("/artifacts/" + a) == x + "/artifacts/" + a;
  }

  /** The prefix before the first separator is the same whatever follows the separator. */
  lemma {:induction false} SplitOnceAt(a: string, c: char, b: string)
    requires c !in a
    ensures SplitOnce(a + [c] + b, c) == [a, b]
  {
    var s := a + [c] + b;
    if |a| == 0 {
      assert s == [c] + b;
      assert s[1..] == b;
    } else {
      assert s[0] == a[0] && s[1..] == a[1..] + [c] + b;
      SplitOnceAt(a[1..], c, b);
      assert [s[0]] + a[1..] == a;
    }
  }

  /** A dry run only adds the query: the URL before `?` is the one a real run uses. */
  lemma DryRunQuery(service: Option<string>, r: string, b: string, t: string, a: string)
    requires TagUrl(service, r, b, t, false).Ok? && ArtifactUrl(service, r, b, t, a, false).Ok?
    requires '?' !in TagUrl(service, r, b, t, false).value && '?' !in ArtifactUrl(service, r, b, t, a, false).value
    ensures SplitOnce(TagUrl(service, r, b, t, true).value, '?') == [TagUrl(service, r, b, t, false).value, "dry-run=1"]
    ensures SplitOnce(ArtifactUrl(service, r, b, t, a, true).value, '?') == [ArtifactUrl(service, r, b, t, a, false).value, "dry-run=1"]
  {
    var u := TagUrl(service, r, b, t, false).value;
    var v := ArtifactUrl(service, r, b, t, a, false).value;
    assert u + "?dry-run=1" == u + ['?'] + "dry-run=1";
    assert v + "?dry-run=1" == v + ['?'] + "dry-run=1";
    SplitOnceAt(u, '?', "dry-run=1");
    SplitOnceAt(v, '?', "dry-run=1");
  }

  // ---------------------------------------------------------------------------------------------
  // The commit URL

  const GitHub := "https://github.com/"

  /** `repo[0:-4]` after `repo.endswith(".git")`. */
  function StripGit(repo: string): (r: string)
    ensures EndsWith(repo, ".git") ==> r + ".git" == repo
    ensures !EndsWith(repo, ".git") ==> r == repo
  {
    if EndsWith(repo, ".git") then repo[..|repo| - 4] else repo
  }

  /**
   * `git_current_commit_url` as written: the unpacking `party, repo = ...split("/", 1)` of a
   * GitHub URL without a further `/` raises `ValueError`, which the `except IndexError` does
   * not catch.
   */
  function CommitUrlAsWritten(sourceUrl: string, commit: string): Result<Option<string>, Error>
  {
    if !StartsWith(sourceUrl, GitHub) then Ok(None)
    else
      var parts := SplitOnce(sourceUrl[|GitHub|..], '/');
      if |parts| != 2 then Err(ValueError)
      else Ok(Some(GitHub + parts[0] + "/" + StripGit(parts[1]) + "/commit/" + commit))
  }

  /** The commit URL as the handler means it: `None` for any URL that does not name a GitHub repo. */
  function CommitUrl(sourceUrl: string, commit: string): (r: Option<string>)
    ensures r.Some? <==> StartsWith(sourceUrl, GitHub) && '/' in sourceUrl[|GitHub|..]
  {
    if !StartsWith(sourceUrl, GitHub) then None
    else
      var parts := SplitOnce(sourceUrl[|GitHub|..], '/');
      if |parts| != 2 then None
      else Some(GitHub + parts[0] + "/" + StripGit(parts[1]) + "/commit/" + commit)
  }

  /** A GitHub URL with no `/` after the host part makes the code as written fail. */
  lemma CommitUrlAsWrittenFails(party: string, commit: string)
    requires '/' !in party
    ensures CommitUrlAsWritten(GitHub + party, commit) == Err(ValueError)
    ensures CommitUrl(GitHub + party, commit) == None
  {
    assert (GitHub + party)[..|GitHub|] == GitHub;
    assert (GitHub + party)[|GitHub|..] == party;
  }

  /** Everywhere else the two agree. */
  lemma CommitUrlAgrees(sourceUrl: string, commit: string)
    requires CommitUrlAsWritten(sourceUrl, commit).Ok?
    ensures CommitUrlAsWritten(sourceUrl, commit).value == CommitUrl(sourceUrl, commit)
  {
  }

  /** `https://github.com/party/repo[.git]` gives `https://github.com/party/repo/commit/{commit}`. */
  lemma CommitUrlOfRepo(party: string, repo: string, commit: string)
    requires '/' !in party && !EndsWith(repo, ".git")
    ensures CommitUrl(GitHub + party + "/" + repo, commit) == Some(GitHub + party + "/" + repo + "/commit/" + commit)
    ensures CommitUrl(GitHub + party + "/" + repo + ".git", commit) == Some(GitHub + party + "/" + repo + "/commit/" + commit)
  {
    var u := GitHub + party + "/" + repo;
    var g := u + ".git";
    assert u[..|GitHub|] == GitHub && g[..|GitHub|] == GitHub;
    assert u[|GitHub|..] == party + ['/'] + repo;
    assert g[|GitHub|..] == party + ['/'] + (repo + ".git");
    SplitOnceAt(party, '/', repo);
    SplitOnceAt(party, '/', repo + ".git");
    assert (repo + ".git")[|repo + ".git"| - 4..] == ".git";
    assert (repo + ".git")[..|repo + ".git"| - 4] == repo;
  }

  // ---------------------------------------------------------------------------------------------
  // Release and version strings

  /** The release `rpm_configure` substitutes: `0.{build_id or 0}.{commit[:8]}`. */
  function RpmRelease(buildId: Scalar, commit: string): string
  {
    "0." + Format(if buildId.NoneValue? then IntValue(0) else buildId) + "." + Take(commit, 8)
  }

  /** `rpm_configure`: the input spec file must end in `.in` and the source must be a git checkout. */
  function RpmConfigure(inputSpecFile: string, isCheckout: bool, buildId: Scalar, commit: string): (r: Result<string, Error>)
    ensures r.Ok? <==> EndsWith(inputSpecFile, ".in") && isCheckout
    ensures r.Ok? ==> r.value == RpmRelease(buildId, commit)
  {
    if !EndsWith(inputSpecFile, ".in") || !isCheckout then Err(AssertionError)
    else Ok(RpmRelease(buildId, commit))
  }

  /**
   * The release splits at its dots into `0`, the build id (`0` for none) and at most eight
   * characters that begin the commit id.
   */
  lemma RpmReleaseParts(buildId: Scalar, commit: string)
    requires '.' !in Format(buildId) && '.' !in commit
    ensures var parts := Split(RpmRelease(buildId, commit), '.');
      && parts == ["0", Format(if buildId.NoneValue? then IntValue(0) else buildId), Take(commit, 8)]
      && |parts[2]| <= 8 && StartsWith(commit, parts[2])
  {
    var id := Format(if buildId.NoneValue? then IntValue(0) else buildId);
    var c := Take(commit, 8);
    ReleaseIdPlain(buildId);
    TakePrefix(commit, 8, '.');
    DottedParts("0", id, c);
    assert RpmRelease(buildId, commit) == "0" + "." + id + "." + c;
  }

  lemma ReleaseIdPlain(buildId: Scalar)
    requires '.' !in Format(buildId)
    ensures '.' !in Format(if buildId.NoneValue? then IntValue(0) else buildId)
  {
    if buildId.NoneValue? {
      assert Format(IntValue(0)) == "0";
    }
  }

  /** `s[:n]` is a prefix of `s` of at most `n` characters, so it holds no character `s` lacks. */
  lemma TakePrefix(s: string, n: nat, ch: char)
    requires ch !in s
    ensures |Take(s, n)| <= n && StartsWith(s, Take(s, n)) && ch !in Take(s, n)
  {
    if n <= |s| {
      assert forall i :: 0 <= i < n ==> Take(s, n)[i] == s[i];
    }
  }

  /** Three pieces without dots, joined by dots, split back into those three. */
  lemma DottedParts(x: string, y: string, z: string)
    requires '.' !in x && '.' !in y && '.' !in z
    ensures Split(x + "." + y + "." + z, '.') == [x, y, z]
  {
    SplitNone(z, '.');
    SplitFirst(y, '.', z);
    SplitFirst(x, '.', y + "." + z);
    assert y + "." + z == y + ['.'] + z;
    assert x + "." + y + "." + z == x + ['.'] + (y + "." + z);
  }

  const Snapshot := "SNAPSHOT"

  /** The version `maven_build` sets: `SNAPSHOT` replaced by `{build id}.{commit[:8]}`. */
  function MavenVersion(version: string, buildId: Scalar, commit: string): string
  {
    ReplaceAll(Strip(version), Snapshot, Format(buildId) + "." + Take(commit, 8))
  }

  /** A version without `SNAPSHOT` is kept as it is. */
  lemma ReleaseVersionKept(version: string, buildId: Scalar, commit: string)
    requires !Contains(Strip(version), Snapshot)
    ensures MavenVersion(version, buildId, commit) == Strip(version)
  {
    ReplaceAbsent(Strip(version), Snapshot, Format(buildId) + "." + Take(commit, 8));
  }

  /** `{base}SNAPSHOT`, with no earlier occurrence, becomes `{base}{build id}.{commit[:8]}`. */
  lemma SnapshotReplaced(version: string, base: string, buildId: Scalar, commit: string)
    requires Strip(version) == base + Snapshot
    requires forall k :: 0 <= k < |base| ==> !StartsWith((base + Snapshot)[k..], Snapshot)
    ensures MavenVersion(version, buildId, commit) == base + Format(buildId) + "." + Take(commit, 8)
  {
    ReplaceTrailing(base, Format(buildId) + "." + Take(commit, 8));
  }

  lemma {:induction false} ReplaceTrailing(base: string, rep: string)
    requires forall k :: 0 <= k < |base| ==> !StartsWith((base + Snapshot)[k..], Snapshot)
    ensures ReplaceAll(base + Snapshot, Snapshot, rep) == base + rep
    decreases |base|
  {
    var s := base + Snapshot;
    if |base| == 0 {
      assert s == Snapshot && s[|Snapshot|..] == "";
      assert StartsWith(s, Snapshot);
    } else {
      assert s[0..] == s;
      assert !StartsWith(s, Snapshot);
      assert s[1..] == base[1..] + Snapshot;
      forall k | 0 <= k < |base[1..]|
        ensures !StartsWith((base[1..] + Snapshot)[k..], Snapshot)
      {
        assert (base[1..] + Snapshot)[k..] == s[k + 1..];
      }
      ReplaceTrailing(base[1..], rep);
      assert base == [base[0]] + base[1..];
    }
  }

  // ---------------------------------------------------------------------------------------------
  // Artifact records

  /** Which helper reads the records: `_rpm_make_tag_data` or `_maven_make_tag_data`. */
  datatype Packaging = RpmPackaging | MavenPackaging

  /** `a, b, c = record.split(",")`: exactly three pieces, or `ValueError`. */
  function Fields(record: string): (r: Result<seq<string>, Error>)
    ensures r.Ok? <==> |Split(record, ',')| == 3
    ensures r.Ok? ==> r.value == Split(record, ',')
  {
    var parts := Split(record, ',');
    if |parts| != 3 then Err(ValueError) else Ok(parts)
  }

  /** The keys of an rpm and of a Maven artifact, in the order the helpers write them. */
  const RpmKeys: seq<string> := ["type", "repository_url", "name", "version", "release"]
  const MavenKeys: seq<string> := ["type", "repository_url", "group_id", "artifact_id", "version"]

  /**
   * The artifact a record describes: its type, the build's repository URL, then the three
   * fields, `name,version,release` for rpm and `group_id,artifact_id,version` for Maven.
   */
  function RecordArtifact(p: Packaging, fields: seq<string>, repoUrl: string): Json
    requires |fields| == 3
  {
    var keys := if p.RpmPackaging? then RpmKeys else MavenKeys;
    var kind := if p.RpmPackaging? then "rpm" else "maven";
    JObj([(keys[0], JStr(kind)), (keys[1], JStr(repoUrl)),
          (keys[2], JStr(fields[0])), (keys[3], JStr(fields[1])), (keys[4], JStr(fields[2]))])
  }

  /** The id an artifact is stored under: the package name, or the Maven artifact id. */
  function RecordKey(p: Packaging, fields: seq<string>): string
    requires |fields| == 3
  {
    if p.RpmPackaging? then fields[0] else fields[1]
  }

  /** What one record contributes: its id and its artifact, or the error that stops the loop. */
  function RecordEntry(p: Packaging, b: BuildData, service: Option<string>, record: string): Result<(string, Json), Error>
  {
    var fields, url := Fields(record), RepoUrl(b, service);
    if fields.Err? then Err(fields.error)
    else if url.Err? then Err(url.error)
    else Ok((RecordKey(p, fields.value), RecordArtifact(p, fields.value, url.value)))
  }

  /**
   * A loop over the first `n` entries that stores each entry's value under its id, in order;
   * the first error stops it.
   */
  function Collect<V>(entries: seq<Result<(string, V), Error>>, n: nat): Result<Dict<V>, Error>
    requires n <= |entries|
  {
    if n == 0 then Ok([])
    else
      var prev, e := Collect(entries, n - 1), entries[n - 1];
      if prev.Err? then prev
      else if e.Err? then Err(e.error)
      else Ok(Put(prev.value, e.value.0, e.value.1))
  }

  /** The id an entry is stored under (meaningful once it is not an error). */
  function IdOf<V>(e: Result<(string, V), Error>): string
  {
    if e.Ok? then e.value.0 else ""
  }

  /** The ids a successful loop stores are unique. */
  lemma {:induction false} CollectUnique<V>(entries: seq<Result<(string, V), Error>>, n: nat)
    requires n <= |entries| && Collect(entries, n).Ok?
    ensures UniqueKeys(Collect(entries, n).value)
  {
    if n > 0 {
      CollectUnique(entries, n - 1);
      var e := entries[n - 1].value;
      PutFacts(Collect(entries, n - 1).value, e.0, e.1);
    }
  }

  /** A put keeps every key and adds its own. */
  lemma PutKeys<V>(d: Dict<V>, k: string, v: V)
    ensures forall x :: x in Keys(Put(d, k, v)) <==> x == k || x in Keys(d)
  {
    PutFacts(d, k, v);
    if k !in Keys(d) {
      assert Keys(Put(d, k, v)) == Keys(d) + [k];
    }
  }

  /** A successful loop met no error, and stored every entry's id. */
  lemma {:induction false} CollectHas<V>(entries: seq<Result<(string, V), Error>>, n: nat, i: nat)
    requires n <= |entries| && Collect(entries, n).Ok? && i < n
    ensures entries[i].Ok?
    ensures IdOf(entries[i]) in Keys(Collect(entries, n).value)
  {
    var e := entries[n - 1].value;
    PutKeys(Collect(entries, n - 1).value, e.0, e.1);
    if i < n - 1 {
      CollectHas(entries, n - 1, i);
    }
  }

  /** Every stored id is some entry's id. */
  lemma {:induction false} CollectFrom<V>(entries: seq<Result<(string, V), Error>>, n: nat, k: string)
    requires n <= |entries| && Collect(entries, n).Ok? && k in Keys(Collect(entries, n).value)
    ensures exists i :: 0 <= i < n && k == IdOf(entries[i])
  {
    var e := entries[n - 1].value;
    PutKeys(Collect(entries, n - 1).value, e.0, e.1);
    if k == e.0 {
      assert k == IdOf(entries[n - 1]);
    } else {
      CollectFrom(entries, n - 1, k);
    }
  }

  /** A later entry with the same id overwrites an earlier one: each id holds its last entry's value. */
  lemma {:induction false} CollectLastWins<V>(entries: seq<Result<(string, V), Error>>, n: nat, i: nat)
    requires n <= |entries| && Collect(entries, n).Ok? && i < n
    requires forall j :: i < j < n ==> IdOf(entries[j]) != IdOf(entries[i])
    ensures entries[i].Ok?
    ensures Get(Collect(entries, n).value, IdOf(entries[i])) == Some(entries[i].value.1)
  {
    CollectHas(entries, n, i);
    var d, e := Collect(entries, n - 1).value, entries[n - 1].value;
    assert Collect(entries, n).value == Put(d, e.0, e.1);
    var k, v := IdOf(entries[i]), entries[i].value.1;
    if i < n - 1 {
      CollectLastWins(entries, n - 1, i);
      assert Get(d, k) == Some(v);
      assert e.0 != k;
      PutFacts(d, e.0, e.1);
      assert Get(Put(d, e.0, e.1), k) == Get(d, k);
    } else {
      assert k == e.0 && v == e.1;
    }
  }

  /** One more entry: stored when it is not an error and the loop has not stopped. */
  lemma CollectNext<V>(entries: seq<Result<(string, V), Error>>, n: nat, d: Dict<V>)
    requires n < |entries| && Collect(entries, n) == Ok(d)
    ensures Collect(entries, n + 1) == if entries[n].Err? then Err(entries[n].error) else Ok(Put(d, entries[n].value.0, entries[n].value.1))
  {
  }

  /** Once an entry is an error, the loop's result stays that error. */
  lemma {:induction false} CollectErr<V>(entries: seq<Result<(string, V), Error>>, n: nat, m: nat)
    requires n <= m <= |entries| && Collect(entries, n).Err?
    ensures Collect(entries, m) == Collect(entries, n)
    decreases m - n
  {
    if n < m {
      CollectErr(entries, n, m - 1);
    }
  }

  /** What each record contributes, in record order. */
  function Entries(p: Packaging, b: BuildData, service: Option<string>, records: seq<string>): (es: seq<Result<(string, Json), Error>>)
    ensures |es| == |records|
    ensures forall i :: 0 <= i < |records| ==> es[i] == RecordEntry(p, b, service, records[i])
  {
    seq(|records|, i requires 0 <= i < |records| => RecordEntry(p, b, service, records[i]))
  }

  /** The record loop of `_rpm_make_tag_data` and `_maven_make_tag_data`. */
  function RecordArtifacts(p: Packaging, records: seq<string>, b: BuildData, service: Option<string>): Result<Dict<Json>, Error>
  {
    Collect(Entries(p, b, service, records), |records|)
  }

  /** The id of the `i`-th record (meaningful once it has three pieces). */
  function KeyAt(p: Packaging, records: seq<string>, i: nat): string
    requires i < |records|
  {
    var f := Fields(records[i]);
    if f.Ok? then RecordKey(p, f.value) else ""
  }

  lemma KeyAtId(p: Packaging, records: seq<string>, b: BuildData, service: Option<string>, i: nat)
    requires i < |records| && RepoUrl(b, service).Ok?
    ensures KeyAt(p, records, i) == IdOf(Entries(p, b, service, records)[i])
  {
  }

  /** A successful record loop saw three pieces in every record and a repository URL, and its ids are unique. */
  lemma RecordsWellFormed(p: Packaging, records: seq<string>, b: BuildData, service: Option<string>)
    requires RecordArtifacts(p, records, b, service).Ok?
    ensures UniqueKeys(RecordArtifacts(p, records, b, service).value)
    ensures forall i :: 0 <= i < |records| ==> Fields(records[i]).Ok?
    ensures |records| > 0 ==> RepoUrl(b, service).Ok?
  {
    var es := Entries(p, b, service, records);
    CollectUnique(es, |records|);
    forall i | 0 <= i < |records|
      ensures Fields(records[i]).Ok? && RepoUrl(b, service).Ok?
    {
      CollectHas(es, |records|, i);
    }
  }

  /** The stored ids are exactly the records' ids. */
  lemma RecordKeys(p: Packaging, records: seq<string>, b: BuildData, service: Option<string>)
    requires RecordArtifacts(p, records, b, service).Ok?
    ensures forall i :: 0 <= i < |records| ==> KeyAt(p, records, i) in Keys(RecordArtifacts(p, records, b, service).value)
    ensures forall k :: k in Keys(RecordArtifacts(p, records, b, service).value) ==>
      exists i :: 0 <= i < |records| && k == KeyAt(p, records, i)
  {
    RecordsWellFormed(p, records, b, service);
    var es := Entries(p, b, service, records);
    var keys := Keys(RecordArtifacts(p, records, b, service).value);
    forall i | 0 <= i < |records|
      ensures KeyAt(p, records, i) in keys
    {
      CollectHas(es, |records|, i);
      KeyAtId(p, records, b, service, i);
    }
    forall k | k in keys
      ensures exists i :: 0 <= i < |records| && k == KeyAt(p, records, i)
    {
      CollectFrom(es, |records|, k);
      var i :| 0 <= i < |records| && k == IdOf(es[i]);
      KeyAtId(p, records, b, service, i);
    }
  }

  /** A later record with the same id overwrites an earlier one: each id holds its last record's artifact. */
  lemma RecordLastWins(p: Packaging, records: seq<string>, b: BuildData, service: Option<string>, i: nat)
    requires RecordArtifacts(p, records, b, service).Ok? && i < |records|
    requires forall j :: i < j < |records| ==> KeyAt(p, records, j) != KeyAt(p, records, i)
    ensures Fields(records[i]).Ok? && RepoUrl(b, service).Ok?
    ensures Get(RecordArtifacts(p, records, b, service).value, KeyAt(p, records, i)) ==
      Some(RecordArtifact(p, Fields(records[i]).value, RepoUrl(b, service).value))
  {
    RecordsWellFormed(p, records, b, service);
    var es := Entries(p, b, service, records);
    forall j | i < j < |records|
      ensures IdOf(es[j]) != IdOf(es[i])
    {
      KeyAtId(p, records, b, service, i);
      KeyAtId(p, records, b, service, j);
    }
    CollectLastWins(es, |records|, i);
    KeyAtId(p, records, b, service, i);
  }

  /** The tag data `_rpm_make_tag_data` and `_maven_make_tag_data` send to the catalog. */
  function TagData(p: Packaging, output: string, b: BuildData, service: Option<string>, sourceUrl: string, commit: string): Result<Json, Error>
  {
    var artifacts :- RecordArtifacts(p, Words(output), b, service);
    var commitUrl := CommitUrl(sourceUrl, commit);
    Ok(JObj([("build_id", ToJson(b.id)), ("build_url", ToJson(b.url)), ("commit_id", JStr(commit)),
             ("commit_url", if commitUrl.Some? then JStr(commitUrl.value) else JNull), ("artifacts", JObj(artifacts))]))
  }

  /** The record loop of `_rpm_make_tag_data` and `_maven_make_tag_data`. */
  method MakeArtifacts(p: Packaging, records: seq<string>, b: BuildData, service: Option<string>)
    returns (r: Result<Dict<Json>, Error>)
    ensures r == RecordArtifacts(p, records, b, service)
  {
    var artifacts: Dict<Json> := [];
    ghost var es := Entries(p, b, service, records);
    for i := 0 to |records|
      invariant Collect(es, i) == Ok(artifacts)
    {
      var e := RecordEntry(p, b, service, records[i]);
      CollectNext(es, i, artifacts);
      if e.Err? {
        CollectErr(es, i + 1, |records|);
        return Err(e.error);
      }
      artifacts := Put(artifacts, e.value.0, e.value.1);
    }
    r := Ok(artifacts);
  }

  /** `_rpm_make_tag_data` and `_maven_make_tag_data`: the record loop, then the tag's fields. */
  method MakeTagData(p: Packaging, output: string, b: BuildData, service: Option<string>, sourceUrl: string, commit: string)
    returns (r: Result<Json, Error>)
    ensures r == TagData(p, output, b, service, sourceUrl, commit)
  {
    var artifacts := MakeArtifacts(p, Words(output), b, service);
    if artifacts.Err? {
      return Err(artifacts.error);
    }
    var commitUrl := CommitUrl(sourceUrl, commit);
    r := Ok(JObj([("build_id", ToJson(b.id)), ("build_url", ToJson(b.url)), ("commit_id", JStr(commit)),
                  ("commit_url", if commitUrl.Some? then JStr(commitUrl.value) else JNull), ("artifacts", JObj(artifacts.value))]));
  }

  // ---------------------------------------------------------------------------------------------
  // Maven settings

  /** The id `_make_settings_file` gives the `i`-th repository. */
  function RepoId(i: nat): string
  {
    "repo-" + NatToString(i)
  }

  function RepoEntry(i: nat, url: string): string
  {
    "<repository><id>" + RepoId(i) + "</id><url>" + url + "</url></repository>"
  }

  /** No two repositories share an id. */
  lemma RepoIdsDistinct(i: nat, j: nat)
    requires i != j
    ensures RepoId(i) != RepoId(j)
  {
    NatToStringInjective(i, j);
    assert RepoId(i)[5..] == NatToString(i) && RepoId(j)[5..] == NatToString(j);
  }

  const SettingsHead := "<settings>\n      <profiles>\n        <profile>\n          <id>main</id>\n          <repositories>\n            "
  const SettingsTail := "\n          </repositories>\n        </profile>\n      </profiles>\n      <activeProfiles>\n        <activeProfile>main</activeProfile>\n      </activeProfiles>\n    </settings>"

  /** The settings document: one repository entry per URL, in input order, inside the template. */
  function Settings(urls: seq<string>): string
  {
    SettingsHead + Join(seq(|urls|, i requires 0 <= i < |urls| => RepoEntry(i, urls[i])), "") + SettingsTail
  }

  /** `_make_settings_file`, up to writing the temporary file. */
  method MakeSettings(urls: seq<string>) returns (xml: string)
    ensures xml == Settings(urls)
    ensures forall i, j :: 0 <= i < j < |urls| ==> RepoId(i) != RepoId(j)
  {
    var repos: seq<string> := [];
    for i := 0 to |urls|
      invariant repos == seq(i, k requires 0 <= k < i => RepoEntry(k, urls[k]))
    {
      repos := repos + [RepoEntry(i, urls[i])];
    }
    xml := SettingsHead + Join(repos, "") + SettingsTail;
    forall i, j | 0 <= i < j < |urls|
      ensures RepoId(i) != RepoId(j)
    {
      RepoIdsDistinct(i, j);
    }
  }
}
