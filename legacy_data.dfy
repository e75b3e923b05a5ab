/**
 * The earlier catalog of python/stagger/data.py: repos hold tags, tags hold artifacts, and each
 * object is built from keyword arguments.  `data()` drops the back references (`repo`, `tag`),
 * so objects are values here and the back references are left out.
 */
module LegacyData {
  import opened Wrappers
  import opened Dicts
  import opened Strings
  import opened Json

  /** The exceptions the code raises. */
  datatype Error =
    | DataError(message: string)    // `DataError(...)`
    | KeyError(key: Json)           // a missing dictionary key
    | TypeError                     // a bad keyword argument, `**` of a non-mapping, an unhashable key
    | AttributeError                // `.items()` of a value that is not a dictionary
    | AssertionError(message: string)

  // ---------------------------------------------------------------------------------------------
  // Artifacts

  /** The artifact subclasses. */
  datatype Kind = ContainerImage | Maven | File | Rpm

  /** The `type` value `Artifact._subclasses_by_type` maps to each subclass. */
  function TypeName(k: Kind): string
  {
    match k
    case ContainerImage => "container-image"
    case Maven => "maven"
    case File => "file"
    case Rpm => "rpm"
  }

  /** The keyword parameters of each subclass's `__init__` after `tag`, in assignment order. */
  function Params(k: Kind): (ps: seq<string>)
    ensures |ps| > 0 && ps[0] == "type" && "tag" !in ps
  {
    match k
    case ContainerImage => ["type", "registry_url", "repository", "image_id"]
    case Maven => ["type", "repository_url", "group_id", "artifact_id", "version"]
    case File => ["type", "url"]
    case Rpm => ["type", "repository_url", "name", "version", "release"]
  }

  /** `Artifact._subclasses_by_type[t]`: a list or dictionary is unhashable; any other unknown value is a missing key. */
  function KindOf(t: Json): (r: Result<Kind, Error>)
    ensures forall k :: t == JStr(TypeName(k)) ==> r == Ok(k)
    ensures r.Ok? ==> t == JStr(TypeName(r.value))
    ensures r.Err? ==> r.error == (if t.JArr? || t.JObj? then TypeError else KeyError(t))
  {
    match t
    case JStr("container-image") => Ok(ContainerImage)
    case JStr("maven") => Ok(Maven)
    case JStr("file") => Ok(File)
    case JStr("rpm") => Ok(Rpm)
    case JArr(_) => Err(TypeError)
    case JObj(_) => Err(TypeError)
    case _ => Err(KeyError(t))
  }

  /** An artifact: its subclass and its attributes other than `tag`, in assignment order. */
  datatype Artifact = Artifact(kind: Kind, attrs: Dict<Json>)

  /** The value a keyword parameter receives: the argument, or the default. */
  function Arg(kwargs: Dict<Json>, name: string, default: Json): Json
  {
    match Get(kwargs, name)
    case Some(v) => v
    case None => default
  }

  /** Every keyword argument names a parameter; otherwise the call raises `TypeError`. */
  predicate Accepts(params: seq<string>, kwargs: Dict<Json>)
  {
    forall k :: k in Keys(kwargs) ==> k in params
  }

  /** The attributes set from keyword parameters that default to `None`. */
  function Bind(params: seq<string>, kwargs: Dict<Json>): (attrs: Dict<Json>)
    ensures Keys(attrs) == params
  {
    var attrs := seq(|params|, i requires 0 <= i < |params| => (params[i], Arg(kwargs, params[i], JNull)));
    KeysIndex(attrs);
    assert forall i :: 0 <= i < |params| ==> Keys(attrs)[i] == params[i];
    attrs
  }

  /**
   * The check `"type" not in artifact_data` and the lookup `artifact_data["type"]`: an object
   * answers by its keys; a list by its elements and a string by its substrings, either of which
   * then fails the lookup; any other value cannot be searched.
   */
  function TypeOf(data: Json): (r: Result<(Json, Dict<Json>), Error>)
    ensures r.Ok? <==> data.JObj? && Get(data.members, "type").Some?
    ensures r.Ok? ==> r.value == (Get(data.members, "type").value, data.members)
  {
    match data
    case JObj(m) =>
      if Get(m, "type").None? then Err(DataError("Artifact has no type field")) else Ok((Get(m, "type").value, m))
    case JArr(items) => if JStr("type") in items then Err(TypeError) else Err(DataError("Artifact has no type field"))
    case JStr(s) => if Contains(s, "type") then Err(TypeError) else Err(DataError("Artifact has no type field"))
    case _ => Err(TypeError)
  }

  /** One turn of the artifact loop of `Tag.__init__`: `cls(self, **artifact_data)` for the class of its type. */
  function NewArtifact(data: Json): Result<Artifact, Error>
  {
    var (t, m) :- TypeOf(data);
    var k :- KindOf(t);
    if !Accepts(Params(k), m) then Err(TypeError)
    else Ok(Artifact(k, Bind(Params(k), m)))
  }

  /** An artifact as a constructor leaves it: every parameter set once, in order, its type naming its class. */
  predicate ArtifactValid(a: Artifact)
  {
    Keys(a.attrs) == Params(a.kind) && Get(a.attrs, "type") == Some(JStr(TypeName(a.kind)))
  }

  /** An artifact without a `type` raises `DataError`. */
  lemma NoTypeField(m: Dict<Json>)
    requires Get(m, "type").None?
    ensures NewArtifact(JObj(m)) == Err(DataError("Artifact has no type field"))
  {
  }

  /** An artifact whose `type` names no subclass raises `KeyError` for it. */
  lemma UnknownType(m: Dict<Json>, t: string)
    requires Get(m, "type") == Some(JStr(t)) && forall k :: t != TypeName(k)
    ensures NewArtifact(JObj(m)) == Err(KeyError(JStr(t)))
  {
  }

  /** A constructed artifact has its class's attributes and type, and no `tag` among them. */
  lemma NewArtifactValid(data: Json)
    requires NewArtifact(data).Ok?
    ensures ArtifactValid(NewArtifact(data).value)
    ensures "tag" !in Keys(NewArtifact(data).value.attrs)
  {
    var a := NewArtifact(data).value;
    ParamsUnique(a.kind, a.attrs);
    GetAt(a.attrs, 0);
  }

  /** No parameter name repeats, so attributes keyed by the parameters are uniquely keyed. */
  lemma ParamsUnique(k: Kind, attrs: Dict<Json>)
    requires Keys(attrs) == Params(k)
    ensures UniqueKeys(attrs)
  {
    KeysIndex(attrs);
    UniqueKeysDistinct(attrs);
    var ps := Params(k);
    assert forall i, j :: 0 <= i < j < |ps| ==> ps[i] != ps[j];
  }

  /** Binding attributes that already are the parameters, in order, gives them back. */
  lemma BindSelf(ps: seq<string>, attrs: Dict<Json>)
    requires Keys(attrs) == ps && UniqueKeys(attrs)
    ensures Bind(ps, attrs) == attrs
  {
    KeysIndex(attrs);
    var b := Bind(ps, attrs);
    forall i | 0 <= i < |ps|
      ensures b[i] == attrs[i]
    {
      GetAt(attrs, i);
    }
  }

  // ---------------------------------------------------------------------------------------------
  // Building dictionaries entry by entry, and serialising them

  /**
   * A constructor loop `for id, value in items.items(): d[id] = make(value)`: the entries in
   * order, each stored with a dictionary assignment; the first error stops it.
   */
  function BuildAll<X>(items: Dict<Json>, make: Json -> Result<X, Error>): Result<Dict<X>, Error>
  {
    if |items| == 0 then Ok([])
    else
      var done :- BuildAll(items[..|items| - 1], make);
      var x :- make(items[|items| - 1].1);
      Ok(Put(done, items[|items| - 1].0, x))
  }

  /** A `data()` loop `d[id] = value.data()` into a fresh dictionary, for uniquely keyed entries. */
  function MapData<X>(d: Dict<X>, data: X -> Json): (r: Dict<Json>)
    ensures |r| == |d| && forall i :: 0 <= i < |d| ==> r[i] == (d[i].0, data(d[i].1))
  {
    seq(|d|, i requires 0 <= i < |d| => (d[i].0, data(d[i].1)))
  }

  lemma BuildStep<X>(items: Dict<Json>, make: Json -> Result<X, Error>, i: nat)
    requires i < |items|
    ensures BuildAll(items[..i + 1], make) ==
      match BuildAll(items[..i], make)
      case Err(e) => Err(e)
      case Ok(done) => match make(items[i].1) case Err(e) => Err(e) case Ok(x) => Ok(Put(done, items[i].0, x))
  {
    assert items[..i + 1][..i] == items[..i];
  }

  /** Once the loop has failed it stays failed. */
  lemma {:induction false} BuildErr<X>(items: Dict<Json>, make: Json -> Result<X, Error>, i: nat)
    requires i <= |items| && BuildAll(items[..i], make).Err?
    ensures BuildAll(items, make) == BuildAll(items[..i], make)
    decreases |items| - i
  {
    if i < |items| {
      BuildStep(items, make, i);
      BuildErr(items, make, i + 1);
    } else {
      TakeAll(items);
    }
  }

  /** A built dictionary has one entry per id. */
  lemma {:induction false} BuildUnique<X>(items: Dict<Json>, make: Json -> Result<X, Error>)
    requires BuildAll(items, make).Ok?
    ensures UniqueKeys(BuildAll(items, make).value)
    ensures forall e :: e in BuildAll(items, make).value ==> Ok(e.1) in MadeFrom(items, make)
  {
    if |items| > 0 {
      var init := items[..|items| - 1];
      BuildUnique(init, make);
      var done := BuildAll(init, make).value;
      var (id, v) := items[|items| - 1];
      PutFacts(done, id, make(v).value);
      PutEntries(done, id, make(v).value);
      forall e | e in BuildAll(items, make).value
        ensures Ok(e.1) in MadeFrom(items, make)
      {
        MadeFromPrefix(items, make);
      }
    }
  }

  /** What `make` gives for each entry. */
  function MadeFrom<X>(items: Dict<Json>, make: Json -> Result<X, Error>): seq<Result<X, Error>>
  {
    seq(|items|, i requires 0 <= i < |items| => make(items[i].1))
  }

  lemma MadeFromPrefix<X>(items: Dict<Json>, make: Json -> Result<X, Error>)
    requires |items| > 0
    ensures MadeFrom(items, make) == MadeFrom(items[..|items| - 1], make) + [make(items[|items| - 1].1)]
  {
  }

  /**
   * Building from the serialised entries of a uniquely keyed dictionary gives it back, when
   * each value is rebuilt from its own `data()`.
   */
  lemma {:induction false} BuildRestores<X>(d: Dict<X>, data: X -> Json, make: Json -> Result<X, Error>, n: nat)
    requires UniqueKeys(d) && n <= |d|
    requires forall i :: 0 <= i < |d| ==> make(data(d[i].1)) == Ok(d[i].1)
    ensures BuildAll(MapData(d, data)[..n], make) == Ok(d[..n])
  {
    if n > 0 {
      BuildRestores(d, data, make, n - 1);
      var items := MapData(d, data);
      assert items[..n][..n - 1] == items[..n - 1];
      PutNext(d, n - 1);
    }
  }

  /** The serialised entries keep the ids, in order. */
  lemma {:induction false} MapDataKeys<X>(d: Dict<X>, data: X -> Json)
    ensures Keys(MapData(d, data)) == Keys(d)
  {
    KeysIndex(d);
    KeysIndex(MapData(d, data));
    forall i | 0 <= i < |d|
      ensures Keys(MapData(d, data))[i] == Keys(d)[i]
    {
      KeyAt(d, i);
      KeyAt(MapData(d, data), i);
    }
  }

  // ---------------------------------------------------------------------------------------------
  // Tags and repos

  /** A tag: `build_id`, `build_url` and the artifacts by id. */
  datatype Tag = Tag(buildId: Json, buildUrl: Json, artifacts: Dict<Artifact>)

  /** A repo: its tags by id. */
  datatype Repo = Repo(tags: Dict<Tag>)

  /** The loop of `Tag.__init__` over `artifacts.items()`. */
  function ArtifactsOf(v: Json): Result<Dict<Artifact>, Error>
  {
    match v
    case JObj(items) => BuildAll(items, NewArtifact)
    case _ => Err(AttributeError)
  }

  /** `Tag(repo, **tag_data)`, with `build_id=None, build_url=None, artifacts={}`. */
  function NewTag(data: Json): Result<Tag, Error>
  {
    match data
    case JObj(m) =>
      if !Accepts(["build_id", "build_url", "artifacts"], m) then Err(TypeError)
      else
        var artifacts :- ArtifactsOf(Arg(m, "artifacts", JObj([])));
        Ok(Tag(Arg(m, "build_id", JNull), Arg(m, "build_url", JNull), artifacts))
    case _ => Err(TypeError)
  }

  /** `Repo(**repo)`, with `tags={}`. */
  function NewRepo(data: Json): Result<Repo, Error>
  {
    match data
    case JObj(m) =>
      if !Accepts(["tags"], m) then Err(TypeError)
      else
        var tags := Arg(m, "tags", JObj([]));
        if !tags.JObj? then Err(AttributeError)
        else
          var built :- BuildAll(tags.members, NewTag);
          Ok(Repo(built))
    case _ => Err(TypeError)
  }

  predicate TagValid(t: Tag)
  {
    UniqueKeys(t.artifacts) && forall e | e in t.artifacts :: ArtifactValid(e.1)
  }

  predicate RepoValid(r: Repo)
  {
    UniqueKeys(r.tags) && forall e | e in r.tags :: TagValid(e.1)
  }

  /** `Artifact.data()`: every attribute but `tag`. */
  function ArtifactData(a: Artifact): Json
  {
    JObj(a.attrs)
  }

  /** `Tag.data()`: `build_id` and `build_url`, then the artifacts' data under their ids; never `repo`. */
  function TagData(t: Tag): Json
  {
    JObj([("build_id", t.buildId), ("build_url", t.buildUrl), ("artifacts", JObj(MapData(t.artifacts, ArtifactData)))])
  }

  /** `Repo.data()`: the tags' data under their ids. */
  function RepoData(r: Repo): Json
  {
    JObj([("tags", JObj(MapData(r.tags, TagData)))])
  }

  /** Missing `build_id` and `build_url` arguments leave `None`. */
  lemma NewTagDefaults(m: Dict<Json>)
    requires NewTag(JObj(m)).Ok?
    ensures Get(m, "build_id").None? ==> NewTag(JObj(m)).value.buildId == JNull
    ensures Get(m, "build_url").None? ==> NewTag(JObj(m)).value.buildUrl == JNull
    ensures Get(m, "artifacts").None? ==> NewTag(JObj(m)).value.artifacts == []
  {
  }

  /** Constructed tags and repos are valid: ids are unique and every artifact is as its class builds it. */
  lemma NewTagValid(data: Json)
    requires NewTag(data).Ok?
    ensures TagValid(NewTag(data).value)
  {
    var items := Arg(data.members, "artifacts", JObj([])).members;
    assert NewTag(data).value.artifacts == BuildAll(items, NewArtifact).value;
    BuildUnique(items, NewArtifact);
    forall e | e in NewTag(data).value.artifacts
      ensures ArtifactValid(e.1)
    {
      var made := MadeFrom(items, NewArtifact);
      var i :| 0 <= i < |made| && made[i] == Ok(e.1);
      NewArtifactValid(items[i].1);
    }
  }

  lemma NewRepoValid(data: Json)
    requires NewRepo(data).Ok?
    ensures RepoValid(NewRepo(data).value)
  {
    var items := Arg(data.members, "tags", JObj([])).members;
    assert NewRepo(data).value.tags == BuildAll(items, NewTag).value;
    BuildUnique(items, NewTag);
    forall e | e in NewRepo(data).value.tags
      ensures TagValid(e.1)
    {
      var made := MadeFrom(items, NewTag);
      var i :| 0 <= i < |made| && made[i] == Ok(e.1);
      NewTagValid(items[i].1);
    }
  }

  /** An artifact is rebuilt from its own data. */
  lemma ArtifactRestores(a: Artifact)
    requires ArtifactValid(a)
    ensures NewArtifact(ArtifactData(a)) == Ok(a)
  {
    ParamsUnique(a.kind, a.attrs);
    BindSelf(Params(a.kind), a.attrs);
    assert TypeOf(JObj(a.attrs)) == Ok((JStr(TypeName(a.kind)), a.attrs));
    assert KindOf(JStr(TypeName(a.kind))) == Ok(a.kind);
    assert Accepts(Params(a.kind), a.attrs);
  }

  /** The members of a tag's data: exactly `build_id`, `build_url` and `artifacts`. */
  lemma TagFields(t: Tag)
    ensures Keys(TagData(t).members) == ["build_id", "build_url", "artifacts"]
    ensures Get(TagData(t).members, "build_id") == Some(t.buildId)
    ensures Get(TagData(t).members, "build_url") == Some(t.buildUrl)
    ensures Get(TagData(t).members, "artifacts") == Some(JObj(MapData(t.artifacts, ArtifactData)))
  {
    var m := TagData(t).members;
    assert m[1..][1..][1..] == [];
    assert Keys(m[1..][1..]) == ["artifacts"];
    assert Keys(m[1..]) == ["build_url", "artifacts"];
  }

  /** Rebuilding every child from its data gives back the uniquely keyed children. */
  lemma {:induction false} ChildrenRestore<X>(d: Dict<X>, data: X -> Json, make: Json -> Result<X, Error>)
    requires UniqueKeys(d)
    requires forall i :: 0 <= i < |d| ==> make(data(d[i].1)) == Ok(d[i].1)
    ensures BuildAll(MapData(d, data), make) == Ok(d)
  {
    BuildRestores(d, data, make, |d|);
    assert MapData(d, data)[..|d|] == MapData(d, data) && d[..|d|] == d;
  }

  /** A tag's artifacts are rebuilt from their data. */
  lemma ArtifactsRestore(t: Tag)
    requires TagValid(t)
    ensures BuildAll(MapData(t.artifacts, ArtifactData), NewArtifact) == Ok(t.artifacts)
  {
    forall i | 0 <= i < |t.artifacts|
      ensures NewArtifact(ArtifactData(t.artifacts[i].1)) == Ok(t.artifacts[i].1)
    {
      assert t.artifacts[i] in t.artifacts;
      ArtifactRestores(t.artifacts[i].1);
    }
    ChildrenRestore(t.artifacts, ArtifactData, NewArtifact);
  }

  /** A tag is rebuilt from its own data. */
  lemma TagRestores(t: Tag)
    requires TagValid(t)
    ensures NewTag(TagData(t)) == Ok(t)
  {
    ArtifactsRestore(t);
    TagFields(t);
    var m := TagData(t).members;
    assert Accepts(["build_id", "build_url", "artifacts"], m);
    assert ArtifactsOf(Arg(m, "artifacts", JObj([]))) == Ok(t.artifacts);
  }

  /** A repo is rebuilt from its own data. */
  lemma RepoRestores(r: Repo)
    requires RepoValid(r)
    ensures NewRepo(RepoData(r)) == Ok(r)
  {
    forall i | 0 <= i < |r.tags|
      ensures NewTag(TagData(r.tags[i].1)) == Ok(r.tags[i].1)
    {
      assert r.tags[i] in r.tags;
      TagRestores(r.tags[i].1);
    }
    ChildrenRestore(r.tags, TagData, NewTag);
    var m := RepoData(r).members;
    assert Keys(m) == ["tags"];
    assert Arg(m, "tags", JObj([])) == JObj(MapData(r.tags, TagData));
  }

  /** The serialised data has no back references, and the children keep their ids. */
  lemma DataDropsParents(r: Repo, t: Tag, a: Artifact)
    requires ArtifactValid(a)
    ensures "repo" !in Keys(TagData(t).members) && "tag" !in Keys(ArtifactData(a).members)
    ensures Keys(MapData(t.artifacts, ArtifactData)) == Keys(t.artifacts)
    ensures Keys(MapData(r.tags, TagData)) == Keys(r.tags)
  {
    TagFields(t);
    MapDataKeys(t.artifacts, ArtifactData);
    MapDataKeys(r.tags, TagData);
  }

  // ---------------------------------------------------------------------------------------------
  // The store

  /** `Data.data()`. */
  function DocOf(repos: Dict<Repo>): Json
  {
    JObj([("repos", JObj(MapData(repos, RepoData)))])
  }

  /**
   * `"repos" in data` on the decoded document, and `data["repos"]` when it holds: an object
   * answers by its keys; a list or a string answers by elements or substrings and then fails
   * the lookup; any other value cannot be searched.
   */
  function ReposOf(doc: Json): (r: Result<Json, Error>)
    ensures r.Ok? <==> doc.JObj? && Get(doc.members, "repos").Some?
  {
    match doc
    case JObj(m) => if Get(m, "repos").None? then Err(AssertionError("No repos field in data")) else Ok(Get(m, "repos").value)
    case JArr(items) => if JStr("repos") in items then Err(TypeError) else Err(AssertionError("No repos field in data"))
    case JStr(s) => if Contains(s, "repos") then Err(TypeError) else Err(AssertionError("No repos field in data"))
    case _ => Err(TypeError)
  }

  /** The loop of `load` from its `n`-th entry on: repos stored one by one until one fails. */
  function LoadFrom(items: Dict<Json>, n: nat, repos: Dict<Repo>): (Dict<Repo>, Option<Error>)
    requires n <= |items|
    decreases |items| - n
  {
    if n == |items| then (repos, None)
    else match NewRepo(items[n].1)
      case Err(e) => (repos, Some(e))
      case Ok(r) => LoadFrom(items, n + 1, Put(repos, items[n].0, r))
  }

  /** `Data.load()` of a decoded document into the current repos. */
  function LoadInto(doc: Json, repos: Dict<Repo>): (Dict<Repo>, Option<Error>)
  {
    var found := ReposOf(doc);
    if found.Err? then (repos, Some(found.error))
    else if found.value.JObj? then LoadFrom(found.value.members, 0, repos)
    else (repos, Some(AttributeError))
  }

  lemma {:induction false} LoadFromRestores(d: Dict<Repo>, n: nat)
    requires UniqueKeys(d) && n <= |d| && forall e | e in d :: RepoValid(e.1)
    ensures LoadFrom(MapData(d, RepoData), n, d[..n]) == (d, None)
    decreases |d| - n
  {
    if n < |d| {
      assert d[n] in d;
      RepoRestores(d[n].1);
      PutNext(d, n);
      LoadFromRestores(d, n + 1);
    } else {
      TakeAll(d);
    }
  }

  /** Loading what `data()` wrote into an empty store gives back the same repos. */
  lemma LoadRestores(repos: Dict<Repo>)
    requires UniqueKeys(repos) && forall e | e in repos :: RepoValid(e.1)
    ensures LoadInto(DocOf(repos), []) == (repos, None)
  {
    LoadFromRestores(repos, 0);
    assert repos[..0] == [];
  }

  /** A document without `repos` fails the assertion and loads nothing. */
  lemma LoadNeedsRepos(m: Dict<Json>, repos: Dict<Repo>)
    requires Get(m, "repos").None?
    ensures LoadInto(JObj(m), repos) == (repos, Some(AssertionError("No repos field in data")))
  {
  }

  /** The store of `Data`: its repos by id. */
  class Data {
    var repos: Dict<Repo>

    ghost predicate Valid()
      reads this
    {
      UniqueKeys(repos) && forall e | e in repos :: RepoValid(e.1)
    }

    constructor()
      ensures Valid() && repos == []
    {
      repos := [];
    }

    /** `put_repo`: the repo is built, then replaces whatever was stored under its id. */
    method PutRepo(repoId: string, repoData: Json) returns (err: Option<Error>)
      requires Valid()
      modifies this
      ensures Valid()
      ensures NewRepo(repoData).Err? ==> err == Some(NewRepo(repoData).error) && repos == old(repos)
      ensures NewRepo(repoData).Ok? ==> err.None? && repos == Put(old(repos), repoId, NewRepo(repoData).value)
    {
      var r := MakeRepo(repoData);
      if r.Err? {
        return Some(r.error);
      }
      NewRepoValid(repoData);
      StoreValid(repos, repoId, r.value);
      repos := Put(repos, repoId, r.value);
      err := None;
    }

    /** `delete_repo`: `KeyError` for an unknown id, otherwise only that repo goes. */
    method DeleteRepo(repoId: string) returns (err: Option<Error>)
      requires Valid()
      modifies this
      ensures Valid()
      ensures Get(old(repos), repoId).None? ==> err == Some(KeyError(JStr(repoId))) && repos == old(repos)
      ensures Get(old(repos), repoId).Some? ==> err.None? && repos == Remove(old(repos), repoId)
      ensures Get(repos, repoId).None?
      ensures forall k :: k != repoId ==> Get(repos, k) == Get(old(repos), k)
    {
      if Get(repos, repoId).None? {
        return Some(KeyError(JStr(repoId)));
      }
      RemoveValid(repos, repoId);
      repos := Remove(repos, repoId);
      err := None;
    }

    /**
     * `put_tag`: a missing repo is created empty and stored first, then the tag is built and
     * stored under its id; a tag that fails to build leaves the new empty repo in place.
     */
    method PutTag(repoId: string, tagId: string, tagData: Json) returns (err: Option<Error>)
      requires Valid()
      modifies this
      ensures Valid()
      ensures var base := Put(old(repos), repoId, Owner(old(repos), repoId));
        && (NewTag(tagData).Err? ==> err == Some(NewTag(tagData).error) && repos == base)
        && (NewTag(tagData).Ok? ==>
             && err.None?
             && repos == Put(old(repos), repoId, Repo(Put(Owner(old(repos), repoId).tags, tagId, NewTag(tagData).value))))
    {
      var repo := Owner(repos, repoId);
      if Get(repos, repoId).None? {
        StoreValid(repos, repoId, repo);
        repos := Put(repos, repoId, repo);
      } else {
        PutSame(repos, repoId, repo);
      }
      ghost var base := repos;
      var t := MakeTag(tagData);
      if t.Err? {
        return Some(t.error);
      }
      NewTagValid(tagData);
      OwnerValid(old(repos), repoId);
      var repo' := Repo(Put(repo.tags, tagId, t.value));
      TagsValid(repo, tagId, t.value);
      StoreValid(repos, repoId, repo');
      PutPut(old(repos), repoId, repo, repo');
      repos := Put(repos, repoId, repo');
      err := None;
    }

    /** `delete_tag`: `KeyError` for an unknown repo or tag, otherwise only that tag goes. */
    method DeleteTag(repoId: string, tagId: string) returns (err: Option<Error>)
      requires Valid()
      modifies this
      ensures Valid()
      ensures Get(old(repos), repoId).None? ==> err == Some(KeyError(JStr(repoId))) && repos == old(repos)
      ensures Get(old(repos), repoId).Some? && Get(Get(old(repos), repoId).value.tags, tagId).None? ==>
        err == Some(KeyError(JStr(tagId))) && repos == old(repos)
      ensures Get(old(repos), repoId).Some? && Get(Get(old(repos), repoId).value.tags, tagId).Some? ==>
        err.None? && repos == Put(old(repos), repoId, Repo(Remove(Get(old(repos), repoId).value.tags, tagId)))
    {
      var repo := Get(repos, repoId);
      if repo.None? {
        return Some(KeyError(JStr(repoId)));
      }
      if Get(repo.value.tags, tagId).None? {
        return Some(KeyError(JStr(tagId)));
      }
      var repo' := Repo(Remove(repo.value.tags, tagId));
      OwnerValid(repos, repoId);
      RemoveTagValid(repo.value, tagId);
      StoreValid(repos, repoId, repo');
      repos := Put(repos, repoId, repo');
      err := None;
    }

    /** `load` of a decoded document: each repo is built and stored in turn; the first failure stops it. */
    method Load(doc: Json) returns (err: Option<Error>)
      requires Valid()
      modifies this
      ensures Valid()
      ensures (repos, err) == LoadInto(doc, old(repos))
    {
      var rs := ReposOf(doc);
      if rs.Err? {
        return Some(rs.error);
      }
      if !rs.value.JObj? {
        return Some(AttributeError);
      }
      var items := rs.value.members;
      var i := 0;
      while i < |items|
        invariant i <= |items| && Valid()
        invariant LoadFrom(items, i, repos) == LoadInto(doc, old(repos))
        decreases |items| - i
      {
        var r := MakeRepo(items[i].1);
        if r.Err? {
          return Some(r.error);
        }
        NewRepoValid(items[i].1);
        StoreValid(repos, items[i].0, r.value);
        repos := Put(repos, items[i].0, r.value);
        i := i + 1;
      }
      err := None;
    }

    /** `data()`: the document of every repo's data under its id. */
    method Serialize() returns (doc: Json)
      requires Valid()
      ensures doc == DocOf(repos)
    {
      var out: Dict<Json> := [];
      for i := 0 to |repos|
        invariant out == MapData(repos[..i], RepoData)
      {
        assert repos[i] in repos;
        var d := SerializeRepo(repos[i].1);
        SerializeStep(repos, RepoData, i, out);
        out := Put(out, repos[i].0, d);
      }
      TakeAll(repos);
      doc := JObj([("repos", JObj(out))]);
    }
  }

  /** The repo `put_tag` stores under: the existing one, or `Repo(tags={})`. */
  function Owner(repos: Dict<Repo>, repoId: string): Repo
  {
    match Get(repos, repoId)
    case Some(r) => r
    case None => Repo([])
  }

  lemma OwnerValid(repos: Dict<Repo>, repoId: string)
    requires forall e | e in repos :: RepoValid(e.1)
    ensures RepoValid(Owner(repos, repoId))
  {
  }

  lemma StoreValid(repos: Dict<Repo>, id: string, r: Repo)
    requires UniqueKeys(repos) && (forall e | e in repos :: RepoValid(e.1)) && RepoValid(r)
    ensures UniqueKeys(Put(repos, id, r)) && forall e | e in Put(repos, id, r) :: RepoValid(e.1)
  {
    PutFacts(repos, id, r);
    PutEntries(repos, id, r);
  }

  lemma RemoveValid(repos: Dict<Repo>, id: string)
    requires UniqueKeys(repos) && forall e | e in repos :: RepoValid(e.1)
    ensures UniqueKeys(Remove(repos, id)) && forall e | e in Remove(repos, id) :: RepoValid(e.1)
  {
    RemoveEntries(repos, id);
  }

  lemma TagsValid(r: Repo, id: string, t: Tag)
    requires RepoValid(r) && TagValid(t)
    ensures RepoValid(Repo(Put(r.tags, id, t)))
  {
    PutFacts(r.tags, id, t);
    PutEntries(r.tags, id, t);
  }

  lemma RemoveTagValid(r: Repo, id: string)
    requires RepoValid(r)
    ensures RepoValid(Repo(Remove(r.tags, id)))
  {
    RemoveEntries(r.tags, id);
  }

  /** One more turn of a `data()` loop: a put of a new id appends. */
  lemma SerializeStep<X>(d: Dict<X>, data: X -> Json, i: nat, out: Dict<Json>)
    requires UniqueKeys(d) && i < |d| && out == MapData(d[..i], data)
    ensures Put(out, d[i].0, data(d[i].1)) == MapData(d[..i + 1], data)
  {
    UniquePrefix(d, i);
    MapDataKeys(d[..i], data);
    PutAppend(out, d[i].0, data(d[i].1));
    MapDataSnoc(d, data, i);
  }

  lemma MapDataSnoc<X>(d: Dict<X>, data: X -> Json, i: nat)
    requires i < |d|
    ensures MapData(d[..i + 1], data) == MapData(d[..i], data) + [(d[i].0, data(d[i].1))]
  {
    var a, b := MapData(d[..i + 1], data), MapData(d[..i], data) + [(d[i].0, data(d[i].1))];
    forall n | 0 <= n < |a|
      ensures a[n] == b[n]
    {
      assert d[..i + 1][n] == d[n];
    }
  }

  // ---------------------------------------------------------------------------------------------
  // The constructor and serialisation loops

  /** The artifact loop of `Tag.__init__`. */
  method MakeArtifacts(items: Dict<Json>) returns (r: Result<Dict<Artifact>, Error>)
    ensures r == BuildAll(items, NewArtifact)
  {
    var done: Dict<Artifact> := [];
    for i := 0 to |items|
      invariant BuildAll(items[..i], NewArtifact) == Ok(done)
    {
      BuildStep(items, NewArtifact, i);
      var a := NewArtifact(items[i].1);
      if a.Err? {
        BuildErr(items, NewArtifact, i + 1);
        return Err(a.error);
      }
      done := Put(done, items[i].0, a.value);
    }
    TakeAll(items);
    r := Ok(done);
  }

  /** `Tag(repo, **tag_data)`. */
  method MakeTag(data: Json) returns (r: Result<Tag, Error>)
    ensures r == NewTag(data)
  {
    if !data.JObj? || !Accepts(["build_id", "build_url", "artifacts"], data.members) {
      return Err(TypeError);
    }
    var m := data.members;
    var artifacts := Arg(m, "artifacts", JObj([]));
    if !artifacts.JObj? {
      return Err(AttributeError);
    }
    var built := MakeArtifacts(artifacts.members);
    if built.Err? {
      return Err(built.error);
    }
    r := Ok(Tag(Arg(m, "build_id", JNull), Arg(m, "build_url", JNull), built.value));
  }

  /** The tag loop of `Repo.__init__`. */
  method MakeTags(items: Dict<Json>) returns (r: Result<Dict<Tag>, Error>)
    ensures r == BuildAll(items, NewTag)
  {
    var done: Dict<Tag> := [];
    for i := 0 to |items|
      invariant BuildAll(items[..i], NewTag) == Ok(done)
    {
      BuildStep(items, NewTag, i);
      var t := MakeTag(items[i].1);
      if t.Err? {
        BuildErr(items, NewTag, i + 1);
        return Err(t.error);
      }
      done := Put(done, items[i].0, t.value);
    }
    TakeAll(items);
    r := Ok(done);
  }

  /** `Repo(**repo_data)`. */
  method MakeRepo(data: Json) returns (r: Result<Repo, Error>)
    ensures r == NewRepo(data)
  {
    if !data.JObj? || !Accepts(["tags"], data.members) {
      return Err(TypeError);
    }
    var tags := Arg(data.members, "tags", JObj([]));
    if !tags.JObj? {
      return Err(AttributeError);
    }
    var built := MakeTags(tags.members);
    if built.Err? {
      return Err(built.error);
    }
    r := Ok(Repo(built.value));
  }

  /** `Tag.data()`. */
  method SerializeTag(t: Tag) returns (d: Json)
    requires TagValid(t)
    ensures d == TagData(t)
  {
    var out: Dict<Json> := [];
    for i := 0 to |t.artifacts|
      invariant out == MapData(t.artifacts[..i], ArtifactData)
    {
      SerializeStep(t.artifacts, ArtifactData, i, out);
      out := Put(out, t.artifacts[i].0, ArtifactData(t.artifacts[i].1));
    }
    assert t.artifacts[..|t.artifacts|] == t.artifacts;
    d := JObj([("build_id", t.buildId), ("build_url", t.buildUrl), ("artifacts", JObj(out))]);
  }

  /** `Repo.data()`. */
  method SerializeRepo(r: Repo) returns (d: Json)
    requires RepoValid(r)
    ensures d == RepoData(r)
  {
    var out: Dict<Json> := [];
    for i := 0 to |r.tags|
      invariant out == MapData(r.tags[..i], TagData)
    {
      assert r.tags[i] in r.tags;
      var td := SerializeTag(r.tags[i].1);
      SerializeStep(r.tags, TagData, i, out);
      out := Put(out, r.tags[i].0, td);
    }
    assert r.tags[..|r.tags|] == r.tags;
    d := JObj([("tags", JObj(out))]);
  }
}
