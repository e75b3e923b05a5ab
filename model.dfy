/**
 * The catalog the server keeps (`Model` in python/stagger/model.py): repos by id, each holding
 * branches, tags and artifacts; a revision counter that every change raises; and the object
 * updates handed to the messaging server, in the order they are fired.
 */
module Catalog {
  import opened Wrappers
  import opened Dicts
  import opened Json
  import opened ModelObjects
  import opened Strings

  /** The parent of an object at depth `level` (0 for a repo): the model itself, then the container classes. */
  function ParentAt(level: nat): (p: Option<Class>)
    requires level < 4
    ensures CanHaveChildren(p)
  {
    match level
    case 0 => None
    case 1 => Some(RepoClass)
    case 2 => Some(BranchClass)
    case _ => Some(TagClass)
  }

  /** The class of the container at depth `level`. */
  function ContainerAt(level: nat): (c: Class)
    requires level < 3
    ensures !c.IsArtifact() && ChildClassOk(ParentAt(level), c) && ParentAt(level + 1) == Some(c)
  {
    match level
    case 0 => RepoClass
    case 1 => BranchClass
    case _ => TagClass
  }

  /** `Repo(model, id, None)`, `Branch(model, id, repo)` or `Tag(model, id, branch)` with no fields. */
  function Blank(c: Class, now: int): Obj
    requires !c.IsArtifact()
  {
    Obj(c, InitAttrs(c, [], now), [])
  }

  /** The empty container is what the constructor builds from no fields. */
  lemma BlankConstructs(c: Class, now: int)
    requires !c.IsArtifact()
    ensures Construct(c, JObj([]), now) == Ok(Blank(c, now))
  {
  }

  /** An empty container is well formed. */
  lemma BlankWellFormed(level: nat, now: int)
    requires level < 3
    ensures var o := Blank(ContainerAt(level), now);
      ChildClassOk(ParentAt(level), o.cls) && Typed(o) && WellFormed(o)
  {
    BlankConstructs(ContainerAt(level), now);
    ConstructWellFormed(ContainerAt(level), JObj([]), now);
  }

  /** The object reached from `kids` along the id path `ids`, when every level is there. */
  function Lookup(kids: Dict<Obj>, ids: seq<string>): Option<Obj>
    decreases |ids|
  {
    if |ids| == 0 then None
    else
      match Get(kids, ids[0])
      case None => None
      case Some(o) => if |ids| == 1 then Some(o) else Lookup(o.children, ids[1..])
  }

  /** The `KeyError` a walk along `ids` raises: the first id that is not there. */
  function MissingKey(kids: Dict<Obj>, ids: seq<string>): (r: Option<Error>)
    requires |ids| >= 1
    ensures r.None? <==> Lookup(kids, ids).Some?
    ensures r.Some? ==> exists i :: 0 <= i < |ids| && r == Some(KeyError(JStr(ids[i])))
    decreases |ids|
  {
    match Get(kids, ids[0])
    case None => Some(KeyError(JStr(ids[0])))
    case Some(o) => if |ids| == 1 then None else MissingKey(o.children, ids[1..])
  }

  /** The container stored under `id` (`kids.get(id)`), or an empty one when there is none. */
  function Container(kids: Dict<Obj>, level: nat, id: string, now: int): Obj
    requires level < 3
  {
    match Get(kids, id)
    case Some(p) => p
    case None => Blank(ContainerAt(level), now)
  }

  /**
   * What the `put_*` operations do to the table: store `o` at the end of `ids`, creating every
   * missing container on the way (`level` is the depth of `ids[0]`).
   */
  function Graft(kids: Dict<Obj>, level: nat, ids: seq<string>, o: Obj, now: int): Dict<Obj>
    requires 1 <= |ids| && level + |ids| <= 4
    decreases |ids|
  {
    var id := ids[0];
    if |ids| == 1 then Put(kids, id, o)
    else
      var p := Container(kids, level, id, now);
      Put(kids, id, p.(children := Graft(p.children, level + 1, ids[1..], o, now)))
  }

  /** What a `put_*` whose new object fails to construct leaves behind: the containers it created on the way. */
  function Reserve(kids: Dict<Obj>, level: nat, ids: seq<string>, now: int): Dict<Obj>
    requires level + |ids| <= 3
    decreases |ids|
  {
    if |ids| == 0 then kids
    else
      var p := Container(kids, level, ids[0], now);
      Put(kids, ids[0], p.(children := Reserve(p.children, level + 1, ids[1..], now)))
  }

  /** What the `delete_*` operations do to the table: `del` the last id of a path that exists. */
  function Prune(kids: Dict<Obj>, ids: seq<string>): Dict<Obj>
    requires |ids| >= 1 && Lookup(kids, ids).Some?
    decreases |ids|
  {
    if |ids| == 1 then Remove(kids, ids[0])
    else
      var p := Get(kids, ids[0]).value;
      Put(kids, ids[0], p.(children := Prune(p.children, ids[1..])))
  }

  /** Two id paths that part somewhere: neither object contains the other. */
  predicate Diverge(p: seq<string>, q: seq<string>)
  {
    |p| > 0 && |q| > 0 && (p[0] != q[0] || Diverge(p[1..], q[1..]))
  }

  /** `p` is a proper ancestor path of `q`. */
  predicate Above(p: seq<string>, q: seq<string>)
  {
    1 <= |p| < |q| && q[..|p|] == p
  }

  /** An ancestor path starts with the same id, and what follows it is an ancestor of the rest. */
  lemma AboveHead(p: seq<string>, q: seq<string>)
    requires Above(p, q)
    ensures p[0] == q[0]
    ensures |p| > 1 ==> Above(p[1..], q[1..])
  {
    assert p[0] == q[..|p|][0];
    if |p| > 1 {
      assert q[1..][..|p| - 1] == q[..|p|][1..];
    }
  }

  /** A path that leads to (or is) `q` starts with the same id, and what follows leads to the rest. */
  lemma PrefixHead(p: seq<string>, q: seq<string>)
    requires 1 <= |p| <= |q| && q[..|p|] == p
    ensures p[0] == q[0]
    ensures |p| > 1 ==> 1 <= |p[1..]| <= |q[1..]| && q[1..][..|p| - 1] == p[1..]
  {
    assert p[0] == q[..|p|][0];
    if |p| > 1 {
      assert q[1..][..|p| - 1] == q[..|p|][1..];
    }
  }

  // ---------------------------------------------------------------------------------------------
  // What a put does to the tree

  /** After a put the new object is stored at its path. */
  lemma {:induction false} GraftStores(kids: Dict<Obj>, level: nat, ids: seq<string>, o: Obj, now: int)
    requires 1 <= |ids| && level + |ids| <= 4
    ensures Lookup(Graft(kids, level, ids, o, now), ids) == Some(o)
    decreases |ids|
  {
    if |ids| > 1 {
      var p := Container(kids, level, ids[0], now);
      GraftStores(p.children, level + 1, ids[1..], o, now);
    }
  }

  /** A lookup after a put of `child` under `id`: the new child on its path, the old table off it. */
  lemma LookupPut(kids: Dict<Obj>, id: string, child: Obj, q: seq<string>)
    requires |q| >= 1
    ensures Lookup(Put(kids, id, child), q)
      == if q[0] != id then Lookup(kids, q) else if |q| == 1 then Some(child) else Lookup(child.children, q[1..])
  {
    PutFacts(kids, id, child);
  }

  /** A lookup below `q[0]` goes through the container a put walks through. */
  lemma LookupContainer(kids: Dict<Obj>, level: nat, now: int, q: seq<string>)
    requires level < 3 && |q| > 1
    ensures Lookup(kids, q) == Lookup(Container(kids, level, q[0], now).children, q[1..])
  {
  }

  /** A put leaves every object off its path as it was. */
  lemma {:induction false} GraftFrame(kids: Dict<Obj>, level: nat, ids: seq<string>, o: Obj, now: int, q: seq<string>)
    requires 1 <= |ids| && level + |ids| <= 4
    requires Diverge(ids, q)
    ensures Lookup(Graft(kids, level, ids, o, now), q) == Lookup(kids, q)
    decreases |ids|
  {
    if |ids| == 1 {
      LookupPut(kids, ids[0], o, q);
    } else {
      var p := Container(kids, level, ids[0], now);
      var child := p.(children := Graft(p.children, level + 1, ids[1..], o, now));
      LookupPut(kids, ids[0], child, q);
      if ids[0] == q[0] {
        GraftFrame(p.children, level + 1, ids[1..], o, now, q[1..]);
        LookupContainer(kids, level, now, q);
      }
    }
  }

  /**
   * One level of a walk to an ancestor: storing `child` under `id` in place of `p` keeps the
   * object at `q` (below `id`) there, with its attributes, when the level below does.
   */
  lemma AncestorStep(kids: Dict<Obj>, id: string, p: Obj, child: Obj, q: seq<string>)
    requires |q| >= 1 && q[0] == id && child.attrs == p.attrs
    requires Get(kids, id).Some? ==> Get(kids, id) == Some(p)
    requires |q| > 1 ==> Lookup(child.children, q[1..]).Some?
    requires |q| > 1 && Lookup(p.children, q[1..]).Some? ==>
      Lookup(child.children, q[1..]).value.attrs == Lookup(p.children, q[1..]).value.attrs
    ensures Lookup(Put(kids, id, child), q).Some?
    ensures Lookup(kids, q).Some? ==> Lookup(Put(kids, id, child), q).value.attrs == Lookup(kids, q).value.attrs
  {
    LookupPut(kids, id, child, q);
  }

  /** The containers on a put's path exist afterwards, and those that were there keep their attributes. */
  lemma {:induction false} GraftAncestors(kids: Dict<Obj>, level: nat, ids: seq<string>, o: Obj, now: int, q: seq<string>)
    requires 1 <= |ids| && level + |ids| <= 4
    requires Above(q, ids)
    ensures Lookup(Graft(kids, level, ids, o, now), q).Some?
    ensures Lookup(kids, q).Some? ==> Lookup(Graft(kids, level, ids, o, now), q).value.attrs == Lookup(kids, q).value.attrs
    decreases |ids|
  {
    var p := Container(kids, level, ids[0], now);
    var child := p.(children := Graft(p.children, level + 1, ids[1..], o, now));
    assert Graft(kids, level, ids, o, now) == Put(kids, ids[0], child);
    AboveHead(q, ids);
    if |q| > 1 {
      GraftAncestors(p.children, level + 1, ids[1..], o, now, q[1..]);
    }
    AncestorStep(kids, ids[0], p, child, q);
  }

  /** A put of a well-formed object of the right class keeps the table well formed. */
  lemma {:induction false} GraftValid(kids: Dict<Obj>, level: nat, ids: seq<string>, o: Obj, now: int)
    requires 1 <= |ids| && level + |ids| <= 4
    requires ChildrenWellFormed(ParentAt(level), kids)
    requires ChildClassOk(ParentAt(level + |ids| - 1), o.cls) && Typed(o) && WellFormed(o)
    ensures ChildrenWellFormed(ParentAt(level), Graft(kids, level, ids, o, now))
    decreases |ids|
  {
    if |ids| == 1 {
      ChildrenPut(ParentAt(level), kids, ids[0], o);
    } else {
      var p := ContainerOk(kids, level, ids[0], now);
      var rest := ids[1..];
      assert level + 1 + |rest| - 1 == level + |ids| - 1;
      GraftValid(p.children, level + 1, rest, o, now);
      var p' := WithChildren(p, Graft(p.children, level + 1, rest, o, now));
      assert ChildClassOk(ParentAt(level), p'.cls);
      ChildrenPut(ParentAt(level), kids, ids[0], p');
      assert Graft(kids, level, ids, o, now) == Put(kids, ids[0], p');
    }
  }

  /** Either way a `put_*` ends, with the new object stored or only the containers created, the table stays well formed. */
  lemma PutValid(kids: Dict<Obj>, ids: seq<string>, data: Json, now: int)
    requires 1 <= |ids| <= 4 && ChildrenWellFormed(None, kids)
    ensures ChildrenWellFormed(None, Reserve(kids, 0, ids[..|ids| - 1], now))
    ensures var r := ConstructChild(ParentAt(|ids| - 1), data, now);
      r.Ok? ==> ChildrenWellFormed(None, Graft(kids, 0, ids, r.value, now))
  {
    ReserveValid(kids, 0, ids[..|ids| - 1], now);
    var r := ConstructChild(ParentAt(|ids| - 1), data, now);
    if r.Ok? {
      ConstructChildWellFormed(ParentAt(|ids| - 1), data, now);
      GraftValid(kids, 0, ids, r.value, now);
    }
  }

  /** The container a put walks through is a well-formed container of the right class. */
  lemma ContainerOk(kids: Dict<Obj>, level: nat, id: string, now: int) returns (p: Obj)
    requires level < 3 && ChildrenWellFormed(ParentAt(level), kids)
    ensures p == Container(kids, level, id, now)
    ensures p.cls == ContainerAt(level) && Typed(p) && WellFormed(p)
    ensures ChildrenWellFormed(ParentAt(level + 1), p.children)
  {
    p := Container(kids, level, id, now);
    if Get(kids, id).None? {
      BlankWellFormed(level, now);
    } else {
      assert (id, p) in kids;
    }
  }

  /** Replacing a container's children by a well-formed table keeps it well formed. */
  lemma WithChildren(p: Obj, kids: Dict<Obj>) returns (p': Obj)
    requires WellFormed(p) && Typed(p) && !p.cls.IsArtifact() && ChildrenWellFormed(Some(p.cls), kids)
    ensures p' == p.(children := kids) && WellFormed(p') && Typed(p')
  {
    p' := p.(children := kids);
  }

  /** A failed put still has every container on the path, the ones that were there unchanged. */
  lemma {:induction false} ReserveAncestors(kids: Dict<Obj>, level: nat, ids: seq<string>, now: int, q: seq<string>)
    requires level + |ids| <= 3
    requires 1 <= |q| <= |ids| && ids[..|q|] == q
    ensures Lookup(Reserve(kids, level, ids, now), q).Some?
    ensures Lookup(kids, q).Some? ==> Lookup(Reserve(kids, level, ids, now), q).value.attrs == Lookup(kids, q).value.attrs
    decreases |ids|
  {
    var p := Container(kids, level, ids[0], now);
    var child := p.(children := Reserve(p.children, level + 1, ids[1..], now));
    assert Reserve(kids, level, ids, now) == Put(kids, ids[0], child);
    PrefixHead(q, ids);
    if |q| > 1 {
      ReserveAncestors(p.children, level + 1, ids[1..], now, q[1..]);
    }
    AncestorStep(kids, ids[0], p, child, q);
  }

  /** A failed put leaves every object off its path as it was. */
  lemma {:induction false} ReserveFrame(kids: Dict<Obj>, level: nat, ids: seq<string>, now: int, q: seq<string>)
    requires level + |ids| <= 3
    requires Diverge(ids, q)
    ensures Lookup(Reserve(kids, level, ids, now), q) == Lookup(kids, q)
    decreases |ids|
  {
    var p := Container(kids, level, ids[0], now);
    var child := p.(children := Reserve(p.children, level + 1, ids[1..], now));
    assert Reserve(kids, level, ids, now) == Put(kids, ids[0], child);
    LookupPut(kids, ids[0], child, q);
    if ids[0] == q[0] {
      ReserveFrame(p.children, level + 1, ids[1..], now, q[1..]);
      LookupContainer(kids, level, now, q);
    }
  }

  /** When every container on the path is already there, a failed put changes nothing. */
  lemma {:induction false} ReserveExisting(kids: Dict<Obj>, level: nat, ids: seq<string>, now: int)
    requires level + |ids| <= 3
    requires |ids| > 0 ==> Lookup(kids, ids).Some?
    ensures Reserve(kids, level, ids, now) == kids
    decreases |ids|
  {
    if |ids| > 0 {
      var p := Get(kids, ids[0]).value;
      if |ids| > 1 {
        ReserveExisting(p.children, level + 1, ids[1..], now);
      }
      assert p.(children := p.children) == p;
      PutSame(kids, ids[0], p);
    }
  }

  /** A failed put keeps the table well formed. */
  lemma {:induction false} ReserveValid(kids: Dict<Obj>, level: nat, ids: seq<string>, now: int)
    requires level + |ids| <= 3
    requires ChildrenWellFormed(ParentAt(level), kids)
    ensures ChildrenWellFormed(ParentAt(level), Reserve(kids, level, ids, now))
    decreases |ids|
  {
    if |ids| > 0 {
      var p := ContainerOk(kids, level, ids[0], now);
      ReserveValid(p.children, level + 1, ids[1..], now);
      var p' := WithChildren(p, Reserve(p.children, level + 1, ids[1..], now));
      ChildrenPut(ParentAt(level), kids, ids[0], p');
    }
  }

  // ---------------------------------------------------------------------------------------------
  // What a delete does to the tree

  /** After a delete nothing is stored at the path. */
  lemma {:induction false} PruneRemoves(kids: Dict<Obj>, ids: seq<string>)
    requires |ids| >= 1 && Lookup(kids, ids).Some?
    ensures Lookup(Prune(kids, ids), ids) == None
    decreases |ids|
  {
    if |ids| > 1 {
      var p := Get(kids, ids[0]).value;
      PruneRemoves(p.children, ids[1..]);
    }
  }

  /** A delete leaves every object off its path as it was. */
  lemma {:induction false} PruneFrame(kids: Dict<Obj>, ids: seq<string>, q: seq<string>)
    requires |ids| >= 1 && Lookup(kids, ids).Some?
    requires Diverge(ids, q)
    ensures Lookup(Prune(kids, ids), q) == Lookup(kids, q)
    decreases |ids|
  {
    if |ids| == 1 {
      LookupRemove(kids, ids[0], q);
    } else {
      var p := Get(kids, ids[0]).value;
      var child := p.(children := Prune(p.children, ids[1..]));
      assert Prune(kids, ids) == Put(kids, ids[0], child);
      LookupPut(kids, ids[0], child, q);
      if ids[0] == q[0] {
        PruneFrame(p.children, ids[1..], q[1..]);
      }
    }
  }

  /** A lookup after a `del` of `id`: nothing below `id`, the old table elsewhere. */
  lemma LookupRemove(kids: Dict<Obj>, id: string, q: seq<string>)
    requires |q| >= 1
    ensures Lookup(Remove(kids, id), q) == if q[0] == id then None else Lookup(kids, q)
  {
  }

  /** The containers on a delete's path were there before and stay, with their attributes. */
  lemma {:induction false} PruneAncestors(kids: Dict<Obj>, ids: seq<string>, q: seq<string>)
    requires |ids| >= 1 && Lookup(kids, ids).Some?
    requires Above(q, ids)
    ensures Lookup(kids, q).Some? && Lookup(Prune(kids, ids), q).Some?
    ensures Lookup(Prune(kids, ids), q).value.attrs == Lookup(kids, q).value.attrs
    decreases |ids|
  {
    var p := Get(kids, ids[0]).value;
    var child := p.(children := Prune(p.children, ids[1..]));
    assert Prune(kids, ids) == Put(kids, ids[0], child);
    AboveHead(q, ids);
    if |q| > 1 {
      PruneAncestors(p.children, ids[1..], q[1..]);
    }
    AncestorStep(kids, ids[0], p, child, q);
  }

  /** A delete keeps the table well formed. */
  lemma {:induction false} PruneValid(kids: Dict<Obj>, level: nat, ids: seq<string>)
    requires |ids| >= 1 && level + |ids| <= 4 && Lookup(kids, ids).Some?
    requires ChildrenWellFormed(ParentAt(level), kids)
    ensures ChildrenWellFormed(ParentAt(level), Prune(kids, ids))
    decreases |ids|
  {
    if |ids| == 1 {
      ChildrenRemove(ParentAt(level), kids, ids[0]);
    } else {
      var p := ContainerOk(kids, level, ids[0], 0);
      PruneValid(p.children, level + 1, ids[1..]);
      var p' := WithChildren(p, Prune(p.children, ids[1..]));
      ChildrenPut(ParentAt(level), kids, ids[0], p');
    }
  }

  /** Removing an entry keeps a children table well formed. */
  lemma ChildrenRemove(parent: Option<Class>, kids: Dict<Obj>, id: string)
    requires ChildrenWellFormed(parent, kids)
    ensures ChildrenWellFormed(parent, Remove(kids, id))
  {
    RemoveEntries(kids, id);
  }

  // ---------------------------------------------------------------------------------------------
  // The document `data()` writes and `load` reads

  /** `Model.data()`: the configuration, every repo's `data()` under its id, and the revision. */
  function ModelDoc(httpUrl: string, amqpUrl: string, repos: Dict<Obj>, revision: int): Json
  {
    JObj([
      ("config", JObj([("http_url", JStr(httpUrl)), ("amqp_url", JStr(amqpUrl))])),
      ("repos", JObj(DataOf(repos))),
      ("revision", JNum(revision))])
  }

  /**
   * `Model.load` on a decoded document, from the repos and revision held before: the new repos,
   * the new revision and the error raised, if any.  Repos are stored as they are built, so a
   * repo that fails to construct leaves the earlier ones in place and the revision as it was.
   */
  function LoadInto(data: Json, repos: Dict<Obj>, revision: int, now: int): (Dict<Obj>, int, Option<Error>)
  {
    match data
    case JArr(items) => (repos, revision, Some(SearchFailure(JStr("repos") in items, JStr("revision") in items)))
    case JStr(s) => (repos, revision, Some(SearchFailure(Contains(s, "repos"), Contains(s, "revision"))))
    case JNull | JBool(_) | JNum(_) => (repos, revision, Some(TypeError))
    case JObj(_) =>
      match Get(data.members, "repos")
      case None => (repos, revision, Some(AssertionFailed("No repos field in data")))
      case Some(reposData) =>
        match Get(data.members, "revision")
        case None => (repos, revision, Some(AssertionFailed("No revision field in data")))
        case Some(rev) =>
          if !reposData.JObj? then (repos, revision, Some(AttributeError))
          else
            var (loaded, err) := InitChildren(None, reposData, |reposData.members|, repos, now);
            if err.Some? then (loaded, revision, err)
            else
              match rev
              case JNum(n) => (loaded, n, None)
              case _ => (loaded, revision, Some(TypeError))
  }

  /**
   * The two assertions of `load` on a list or a string, which `in` searches by element or by
   * substring: a word not found fails its assertion, and when both are found `data["repos"]`
   * cannot index the value.
   */
  function SearchFailure(hasRepos: bool, hasRevision: bool): (e: Error)
    ensures e.AssertionFailed? <==> !(hasRepos && hasRevision)
    ensures !hasRepos ==> e == AssertionFailed("No repos field in data")
  {
    if !hasRepos then AssertionFailed("No repos field in data")
    else if !hasRevision then AssertionFailed("No revision field in data")
    else TypeError
  }

  /** Loading what `data()` wrote into an empty model restores the repos and the revision. */
  lemma LoadRestores(httpUrl: string, amqpUrl: string, repos: Dict<Obj>, revision: int, before: int, now: int)
    requires ChildrenWellFormed(None, repos)
    ensures LoadInto(ModelDoc(httpUrl, amqpUrl, repos, revision), [], before, now) == (repos, revision, None)
  {
    var doc := ModelDoc(httpUrl, amqpUrl, repos, revision);
    assert Get(doc.members, "repos") == Some(JObj(DataOf(repos)));
    assert Get(doc.members, "revision") == Some(JNum(revision));
    RebuildTable(None, repos, now);
    var reposData := JObj(DataOf(repos));
    assert |reposData.members| == |repos|;
    LoadIntoOk(doc, reposData, [], before, revision, now);
  }

  /** A document with both fields, whose repos all construct, is loaded whole. */
  lemma LoadIntoOk(data: Json, reposData: Json, repos: Dict<Obj>, revision: int, n: int, now: int)
    requires data.JObj? && reposData.JObj? && Get(data.members, "repos") == Some(reposData)
    requires Get(data.members, "revision") == Some(JNum(n))
    requires InitChildren(None, reposData, |reposData.members|, repos, now).1.None?
    ensures LoadInto(data, repos, revision, now) == (InitChildren(None, reposData, |reposData.members|, repos, now).0, n, None)
  {
  }

  /** Loading keeps the repos table well formed, also when it stops at an error. */
  lemma LoadValid(data: Json, repos: Dict<Obj>, revision: int, now: int)
    requires ChildrenWellFormed(None, repos)
    ensures ChildrenWellFormed(None, LoadInto(data, repos, revision, now).0)
  {
    var r := LoadInto(data, repos, revision, now);
    if data.JObj? {
      var reposData := Get(data.members, "repos");
      var rev := Get(data.members, "revision");
      if reposData.Some? && rev.Some? && reposData.value.JObj? {
        var loaded := InitChildren(None, reposData.value, |reposData.value.members|, repos, now);
        InitChildrenWellFormed(None, reposData.value, |reposData.value.members|, repos, now);
        assert r.0 == loaded.0;
      } else {
        assert r.0 == repos;
      }
    } else {
      assert r.0 == repos;
    }
  }

  /** A document without `repos` or `revision` fails its assertion and loads nothing. */
  lemma LoadRequiresFields(data: Json, repos: Dict<Obj>, revision: int, now: int)
    requires data.JObj? && ("repos" !in Keys(data.members) || "revision" !in Keys(data.members))
    ensures LoadInto(data, repos, revision, now).0 == repos
    ensures LoadInto(data, repos, revision, now).1 == revision
    ensures LoadInto(data, repos, revision, now).2.value.AssertionFailed?
  {
  }

  /**
   * A list or a string document is searched by `in` as well: unless both words are found in it,
   * an assertion fails; either way nothing is loaded and the revision stays.
   */
  lemma LoadOfSequence(data: Json, repos: Dict<Obj>, revision: int, now: int)
    requires data.JArr? || data.JStr?
    ensures LoadInto(data, repos, revision, now).0 == repos
    ensures LoadInto(data, repos, revision, now).1 == revision
    ensures data.JArr? ==> (LoadInto(data, repos, revision, now).2.value.AssertionFailed?
      <==> !(JStr("repos") in data.items && JStr("revision") in data.items))
    ensures data.JStr? ==> (LoadInto(data, repos, revision, now).2.value.AssertionFailed?
      <==> !(Contains(data.s, "repos") && Contains(data.s, "revision")))
  {
  }

  /** `x = kids.get(id)`, and when it is `None` a new empty container stored under `id`. */
  method GetOrCreate(kids: Dict<Obj>, level: nat, id: string, now: int) returns (p: Obj, kids': Dict<Obj>)
    requires level < 3
    ensures p == Container(kids, level, id, now)
    ensures kids' == Put(kids, id, p)
  {
    var found := Get(kids, id);
    if found.None? {
      p := Blank(ContainerAt(level), now);
      kids' := Put(kids, id, p);
    } else {
      p := found.value;
      PutSame(kids, id, p);
      kids' := kids;
    }
  }

  /** The table `put_tag` holds once the repo and the branch are there. */
  lemma ReserveTwo(kids: Dict<Obj>, ids: seq<string>, now: int, rp: Obj, br: Obj, r: Dict<Obj>)
    requires |ids| == 2
    requires rp == Container(kids, 0, ids[0], now) && br == Container(rp.children, 1, ids[1], now)
    requires r == Put(kids, ids[0], rp.(children := Put(rp.children, ids[1], br)))
    ensures r == Reserve(kids, 0, ids, now)
  {
    var ids1 := ids[1..];
    assert ids1[0] == ids[1] && ids1[1..] == [];
    assert Reserve(br.children, 2, ids1[1..], now) == br.children;
    assert br.(children := br.children) == br;
    assert Reserve(rp.children, 1, ids1, now) == Put(rp.children, ids[1], br);
  }

  /** The table `put_artifact` holds once the repo, the branch and the tag are there. */
  lemma ReserveThree(kids: Dict<Obj>, ids: seq<string>, now: int, rp: Obj, br: Obj, tg: Obj, r: Dict<Obj>)
    requires |ids| == 3
    requires rp == Container(kids, 0, ids[0], now) && br == Container(rp.children, 1, ids[1], now)
    requires tg == Container(br.children, 2, ids[2], now)
    requires r == Put(kids, ids[0], rp.(children := Put(rp.children, ids[1], br.(children := Put(br.children, ids[2], tg)))))
    ensures r == Reserve(kids, 0, ids, now)
  {
    var ids1 := ids[1..];
    var ids2 := ids1[1..];
    assert ids1[0] == ids[1] && ids2[0] == ids[2] && ids2[1..] == [];
    assert Reserve(tg.children, 3, ids2[1..], now) == tg.children;
    assert tg.(children := tg.children) == tg;
    assert Reserve(br.children, 2, ids2, now) == Put(br.children, ids[2], tg);
    assert Reserve(rp.children, 1, ids1, now) == Put(rp.children, ids[1], br.(children := Put(br.children, ids[2], tg)));
  }

  /** The descent of `put_tag`: the repo and its branch, each fetched or created; `br` is then held by `rp'`. */
  method ReserveBranch(kids: Dict<Obj>, ids: seq<string>, now: int) returns (rp: Obj, br: Obj, rp': Obj, reserved: Dict<Obj>)
    requires |ids| == 3
    ensures rp == Container(kids, 0, ids[0], now) && br == Container(rp.children, 1, ids[1], now)
    ensures rp' == rp.(children := Put(rp.children, ids[1], br))
    ensures reserved == Put(kids, ids[0], rp') && reserved == Reserve(kids, 0, ids[..2], now)
  {
    var withRepo, branches;
    rp, withRepo := GetOrCreate(kids, 0, ids[0], now);
    br, branches := GetOrCreate(rp.children, 1, ids[1], now);
    rp' := rp.(children := branches);
    PutPut(kids, ids[0], rp, rp');
    reserved := Put(withRepo, ids[0], rp');
    ReserveTwo(kids, ids[..2], now, rp, br, reserved);
  }

  /** The store of `put_tag`: the tag goes into the branch that `ReserveBranch` left in the table. */
  method GraftTag(kids: Dict<Obj>, ids: seq<string>, o: Obj, now: int, rp: Obj, br: Obj, rp': Obj, reserved: Dict<Obj>)
    returns (grafted: Dict<Obj>)
    requires |ids| == 3
    requires rp == Container(kids, 0, ids[0], now) && br == Container(rp.children, 1, ids[1], now)
    requires rp' == rp.(children := Put(rp.children, ids[1], br))
    requires reserved == Put(kids, ids[0], rp')
    ensures grafted == Graft(kids, 0, ids, o, now)
  {
    var br' := br.(children := Put(br.children, ids[2], o));
    PutPut(rp.children, ids[1], br, br');
    var rp'' := rp'.(children := Put(rp'.children, ids[1], br'));
    PutPut(kids, ids[0], rp', rp'');
    GraftTwo(kids, ids, o, now, rp, br, rp'');
    grafted := Put(reserved, ids[0], rp'');
  }

  /**
   * The descent of `put_artifact`: the repo, its branch and the branch's tag, each fetched or
   * created and stored in its parent; `tg` is then held by `br'`, and `br'` by `rp'`.
   */
  method ReserveTag(kids: Dict<Obj>, ids: seq<string>, now: int) returns (rp: Obj, br: Obj, tg: Obj, rp': Obj, br': Obj, reserved: Dict<Obj>)
    requires |ids| == 4
    ensures rp == Container(kids, 0, ids[0], now) && br == Container(rp.children, 1, ids[1], now)
    ensures tg == Container(br.children, 2, ids[2], now)
    ensures br' == br.(children := Put(br.children, ids[2], tg))
    ensures rp' == rp.(children := Put(rp.children, ids[1], br'))
    ensures reserved == Put(kids, ids[0], rp') && reserved == Reserve(kids, 0, ids[..3], now)
  {
    var withRepo, branches, tags;
    rp, withRepo := GetOrCreate(kids, 0, ids[0], now);
    br, branches := GetOrCreate(rp.children, 1, ids[1], now);
    tg, tags := GetOrCreate(br.children, 2, ids[2], now);
    br' := br.(children := tags);
    PutPut(rp.children, ids[1], br, br');
    rp' := rp.(children := Put(branches, ids[1], br'));
    PutPut(kids, ids[0], rp, rp');
    reserved := Put(withRepo, ids[0], rp');
    ReserveThree(kids, ids[..3], now, rp, br, tg, reserved);
  }

  /** The store of `put_artifact`: the artifact goes into the tag that `ReserveTag` left in the table. */
  method GraftArtifact(kids: Dict<Obj>, ids: seq<string>, o: Obj, now: int, rp: Obj, br: Obj, tg: Obj, rp': Obj, br': Obj,
                       reserved: Dict<Obj>)
    returns (grafted: Dict<Obj>)
    requires |ids| == 4
    requires rp == Container(kids, 0, ids[0], now) && br == Container(rp.children, 1, ids[1], now)
    requires tg == Container(br.children, 2, ids[2], now)
    requires br' == br.(children := Put(br.children, ids[2], tg))
    requires rp' == rp.(children := Put(rp.children, ids[1], br'))
    requires reserved == Put(kids, ids[0], rp')
    ensures grafted == Graft(kids, 0, ids, o, now)
  {
    var tg' := tg.(children := Put(tg.children, ids[3], o));
    PutPut(br.children, ids[2], tg, tg');
    var br'' := br'.(children := Put(br'.children, ids[2], tg'));
    PutPut(rp.children, ids[1], br', br'');
    var rp'' := rp'.(children := Put(rp'.children, ids[1], br''));
    PutPut(kids, ids[0], rp', rp'');
    GraftThree(kids, ids, o, now, rp, br, tg, rp'');
    grafted := Put(reserved, ids[0], rp'');
  }

  /** The table after a successful `put_branch`. */
  lemma GraftOne(kids: Dict<Obj>, ids: seq<string>, o: Obj, now: int, rp: Obj, rp': Obj)
    requires |ids| == 2
    requires rp == Container(kids, 0, ids[0], now)
    requires rp' == rp.(children := Put(rp.children, ids[1], o))
    ensures Put(kids, ids[0], rp') == Graft(kids, 0, ids, o, now)
  {
    var ids1 := ids[1..];
    assert ids1 == [ids[1]];
    assert Graft(rp.children, 1, ids1, o, now) == Put(rp.children, ids[1], o);
  }

  /** The table after a successful `put_tag`. */
  lemma GraftTwo(kids: Dict<Obj>, ids: seq<string>, o: Obj, now: int, rp: Obj, br: Obj, rp'': Obj)
    requires |ids| == 3
    requires rp == Container(kids, 0, ids[0], now) && br == Container(rp.children, 1, ids[1], now)
    requires rp'' == rp.(children := Put(rp.children, ids[1], br.(children := Put(br.children, ids[2], o))))
    ensures Put(kids, ids[0], rp'') == Graft(kids, 0, ids, o, now)
  {
    var ids1 := ids[1..];
    assert ids1[0] == ids[1] && ids1[1..] == [ids[2]];
    assert Graft(br.children, 2, ids1[1..], o, now) == Put(br.children, ids[2], o);
    assert Graft(rp.children, 1, ids1, o, now) == Put(rp.children, ids[1], br.(children := Graft(br.children, 2, ids1[1..], o, now)));
  }

  /** The table after a successful `put_artifact`. */
  lemma GraftThree(kids: Dict<Obj>, ids: seq<string>, o: Obj, now: int, rp: Obj, br: Obj, tg: Obj, rp'': Obj)
    requires |ids| == 4
    requires rp == Container(kids, 0, ids[0], now) && br == Container(rp.children, 1, ids[1], now)
    requires tg == Container(br.children, 2, ids[2], now)
    requires rp'' == rp.(children := Put(rp.children, ids[1],
      br.(children := Put(br.children, ids[2], tg.(children := Put(tg.children, ids[3], o))))))
    ensures Put(kids, ids[0], rp'') == Graft(kids, 0, ids, o, now)
  {
    var ids1 := ids[1..];
    var ids2 := ids1[1..];
    assert ids1[0] == ids[1] && ids2[0] == ids[2] && ids2[1..] == [ids[3]];
    assert Graft(tg.children, 3, ids2[1..], o, now) == Put(tg.children, ids[3], o);
    assert Graft(br.children, 2, ids2, o, now) == Put(br.children, ids[2], tg.(children := Graft(tg.children, 3, ids2[1..], o, now)));
    assert Graft(rp.children, 1, ids1, o, now) == Put(rp.children, ids[1], br.(children := Graft(br.children, 2, ids2, o, now)));
  }

  /** A walk that finds `ids[0]` goes on in that object's children. */
  lemma WalkBelow(kids: Dict<Obj>, ids: seq<string>, p: Obj)
    requires |ids| >= 2 && Get(kids, ids[0]) == Some(p)
    ensures Lookup(kids, ids) == Lookup(p.children, ids[1..])
    ensures MissingKey(kids, ids) == MissingKey(p.children, ids[1..])
  {
  }

  /** A walk that does not find `ids[0]` stops with a `KeyError` for it. */
  lemma WalkStops(kids: Dict<Obj>, ids: seq<string>)
    requires |ids| >= 1 && Get(kids, ids[0]) == None
    ensures Lookup(kids, ids) == None
    ensures MissingKey(kids, ids) == Some(KeyError(JStr(ids[0])))
  {
  }

  /** A delete below `ids[0]`: the pruned children stored back under `ids[0]`. */
  lemma PruneBelow(kids: Dict<Obj>, ids: seq<string>, p: Obj)
    requires |ids| >= 2 && Get(kids, ids[0]) == Some(p) && Lookup(p.children, ids[1..]).Some?
    ensures Lookup(kids, ids).Some?
    ensures Prune(kids, ids) == Put(kids, ids[0], p.(children := Prune(p.children, ids[1..])))
  {
  }

  /** A delete at the last level is the `del`. */
  lemma PruneOne(kids: Dict<Obj>, id: string)
    requires Get(kids, id).Some?
    ensures Lookup(kids, [id]).Some?
    ensures Prune(kids, [id]) == Remove(kids, id)
  {
  }

  /** The container `put_branch` created or found is all that a failed `put_branch` leaves behind. */
  lemma ReserveOne(kids: Dict<Obj>, id: string, now: int, rp: Obj, r: Dict<Obj>)
    requires rp == Container(kids, 0, id, now) && r == Put(kids, id, rp)
    ensures r == Reserve(kids, 0, [id], now)
  {
    assert [id][1..] == [];
    assert Reserve(rp.children, 1, [], now) == rp.children;
    assert rp.(children := rp.children) == rp;
  }

  /** The serialised table grows by one entry per repo. */
  lemma DataOfNext(kids: Dict<Obj>, i: nat)
    requires UniqueKeys(kids) && i < |kids|
    ensures DataOf(kids[..i + 1]) == Put(DataOf(kids[..i]), kids[i].0, ObjData(kids[i].1))
  {
    DataOfUnique(kids);
    PutNext(DataOf(kids), i);
    assert DataOf(kids)[..i] == DataOf(kids[..i]);
    assert DataOf(kids)[..i + 1] == DataOf(kids[..i + 1]);
  }

  // ---------------------------------------------------------------------------------------------
  // The model

  class Model {
    /** `app.http_url` and `app.amqp_url`, copied into `data()`'s configuration. */
    const httpUrl: string
    const amqpUrl: string

    var repos: Dict<Obj>
    var revision: int
    /** The objects passed to `fire_object_update`, in order. */
    var updates: seq<Update>

    /** Every repo, and everything under it, is a well-formed object of the right class. */
    ghost predicate Valid()
      reads this
    {
      ChildrenWellFormed(None, repos)
    }

    constructor(httpUrl: string, amqpUrl: string)
      ensures Valid()
      ensures this.httpUrl == httpUrl && this.amqpUrl == amqpUrl
      ensures repos == [] && revision == 0 && updates == []
    {
      this.httpUrl := httpUrl;
      this.amqpUrl := amqpUrl;
      repos := [];
      revision := 0;
      updates := [];
    }

    /** `Model.mark_modified`: one more revision. */
    method RaiseRevision()
      modifies this
      ensures revision == old(revision) + 1
      ensures repos == old(repos) && updates == old(updates)
    {
      revision := revision + 1;
    }

    /** `_mark_modified` of the object at `ids`: an update for it, then for each ancestor up to the repo. */
    method FireUpdates(ids: seq<string>)
      requires 1 <= |ids| <= 4
      modifies this
      ensures updates == old(updates) + Fired(ids)
      ensures repos == old(repos) && revision == old(revision)
      decreases |ids|
    {
      ghost var before := updates;
      var u := Update(TypeNameAt(|ids|), EventPath(ids));
      updates := updates + [u];
      if |ids| > 1 {
        FireUpdates(ids[..|ids| - 1]);
        AppendAssoc(before, [u], Fired(ids[..|ids| - 1]));
      }
    }

    /** `ModelObject.mark_modified` of the object at `ids`. */
    method MarkModified(ids: seq<string>)
      requires 1 <= |ids| <= 4
      modifies this
      ensures updates == old(updates) + Fired(ids) && revision == old(revision) + 1
      ensures repos == old(repos)
    {
      FireUpdates(ids);
      RaiseRevision();
    }

    /** `put_repo`: replace the repo wholesale. */
    method PutRepo(repoId: string, repoData: Json, now: int) returns (r: Result<Obj, Error>)
      requires Valid()
      modifies this
      ensures Valid()
      ensures r == ConstructChild(None, repoData, now)
      ensures r.Ok? ==> repos == Graft(old(repos), 0, [repoId], r.value, now)
      ensures r.Ok? ==> revision == old(revision) + 1 && updates == old(updates) + Fired([repoId])
      ensures r.Err? ==> repos == old(repos) && revision == old(revision) && updates == old(updates)
    {
      PutValid(repos, [repoId], repoData, now);
      r := NewObject(RepoClass, repoData, now);
      if r.Err? {
        return;
      }
      repos := Put(repos, repoId, r.value);
      MarkModified([repoId]);
    }

    /** `put_branch`: create the repo if it is missing, then replace the branch. */
    method PutBranch(repoId: string, branchId: string, branchData: Json, now: int) returns (r: Result<Obj, Error>)
      requires Valid()
      modifies this
      ensures Valid()
      ensures r == ConstructChild(Some(RepoClass), branchData, now)
      ensures r.Ok? ==> repos == Graft(old(repos), 0, [repoId, branchId], r.value, now)
      ensures r.Ok? ==> revision == old(revision) + 1 && updates == old(updates) + Fired([repoId, branchId])
      ensures r.Err? ==> repos == Reserve(old(repos), 0, [repoId], now)
      ensures r.Err? ==> revision == old(revision) && updates == old(updates)
    {
      ghost var before := repos;
      PutValid(before, [repoId, branchId], branchData, now);
      assert [repoId, branchId][..1] == [repoId];
      var rp;
      rp, repos := GetOrCreate(repos, 0, repoId, now);
      ReserveOne(before, repoId, now, rp, repos);
      r := NewObject(BranchClass, branchData, now);
      if r.Err? {
        return;
      }
      var rp' := rp.(children := Put(rp.children, branchId, r.value));
      PutPut(before, repoId, rp, rp');
      GraftOne(before, [repoId, branchId], r.value, now, rp, rp');
      repos := Put(repos, repoId, rp');
      MarkModified([repoId, branchId]);
    }

    /** `put_tag`: create the repo and the branch if they are missing, then replace the tag. */
    method PutTag(repoId: string, branchId: string, tagId: string, tagData: Json, now: int) returns (r: Result<Obj, Error>)
      requires Valid()
      modifies this
      ensures Valid()
      ensures r == ConstructChild(Some(BranchClass), tagData, now)
      ensures r.Ok? ==> repos == Graft(old(repos), 0, [repoId, branchId, tagId], r.value, now)
      ensures r.Ok? ==> revision == old(revision) + 1 && updates == old(updates) + Fired([repoId, branchId, tagId])
      ensures r.Err? ==> repos == Reserve(old(repos), 0, [repoId, branchId], now)
      ensures r.Err? ==> revision == old(revision) && updates == old(updates)
    {
      var before := repos;
      var ids := [repoId, branchId, tagId];
      assert ids[..2] == [repoId, branchId];
      assert ParentAt(|ids| - 1) == Some(BranchClass);
      var rp, br, rp', reserved := ReserveBranch(repos, ids, now);
      PutValid(before, ids, tagData, now);
      assert ChildrenWellFormed(None, reserved);
      repos := reserved;
      r := NewObject(TagClass, tagData, now);
      assert r == ConstructChild(Some(BranchClass), tagData, now);
      if r.Err? {
        return;
      }
      var grafted := GraftTag(before, ids, r.value, now, rp, br, rp', reserved);
      assert ChildrenWellFormed(None, grafted);
      repos := grafted;
      MarkModified([repoId, branchId, tagId]);
    }

    /** `put_artifact`: create the repo, the branch and the tag if they are missing, then replace the artifact. */
    method PutArtifact(repoId: string, branchId: string, tagId: string, artifactId: string, artifactData: Json, now: int)
      returns (r: Result<Obj, Error>)
      requires Valid()
      modifies this
      ensures Valid()
      ensures r == ConstructChild(Some(TagClass), artifactData, now)
      ensures r.Ok? ==> repos == Graft(old(repos), 0, [repoId, branchId, tagId, artifactId], r.value, now)
      ensures r.Ok? ==> revision == old(revision) + 1 && updates == old(updates) + Fired([repoId, branchId, tagId, artifactId])
      ensures r.Err? ==> repos == Reserve(old(repos), 0, [repoId, branchId, tagId], now)
      ensures r.Err? ==> revision == old(revision) && updates == old(updates)
    {
      var before := repos;
      var ids := [repoId, branchId, tagId, artifactId];
      assert ids[..3] == [repoId, branchId, tagId];
      assert ParentAt(|ids| - 1) == Some(TagClass);
      var rp, br, tg, rp', br', reserved := ReserveTag(repos, ids, now);
      PutValid(before, ids, artifactData, now);
      assert ChildrenWellFormed(None, reserved);
      repos := reserved;
      r := NewArtifact(artifactData, now);
      if r.Err? {
        return;
      }
      var grafted := GraftArtifact(before, ids, r.value, now, rp, br, tg, rp', br', reserved);
      assert ChildrenWellFormed(None, grafted);
      repos := grafted;
      MarkModified([repoId, branchId, tagId, artifactId]);
    }

    /** `delete_repo`: `del self.repos[repo_id]`, then a new revision; no update is fired. */
    method DeleteRepo(repoId: string) returns (err: Option<Error>)
      requires Valid()
      modifies this
      ensures Valid()
      ensures err == MissingKey(old(repos), [repoId])
      ensures err.None? ==> repos == Prune(old(repos), [repoId])
      ensures err.None? ==> revision == old(revision) + 1 && updates == old(updates)
      ensures err.Some? ==> repos == old(repos) && revision == old(revision) && updates == old(updates)
    {
      if Get(repos, repoId).None? {
        return Some(KeyError(JStr(repoId)));
      }
      PruneValid(repos, 0, [repoId]);
      repos := Remove(repos, repoId);
      RaiseRevision();
      err := None;
    }

    /** `delete_branch`: walk to the repo, `del repo.branches[branch_id]`, then mark the repo modified. */
    method DeleteBranch(repoId: string, branchId: string) returns (err: Option<Error>)
      requires Valid()
      modifies this
      ensures Valid()
      ensures err == MissingKey(old(repos), [repoId, branchId])
      ensures err.None? ==> repos == Prune(old(repos), [repoId, branchId])
      ensures err.None? ==> revision == old(revision) + 1 && updates == old(updates) + Fired([repoId])
      ensures err.Some? ==> repos == old(repos) && revision == old(revision) && updates == old(updates)
    {
      ghost var ids := [repoId, branchId];
      assert ids[1..] == [branchId];
      var repo := Get(repos, repoId);
      if repo.None? {
        WalkStops(repos, ids);
        return Some(KeyError(JStr(repoId)));
      }
      var rp := repo.value;
      WalkBelow(repos, ids, rp);
      if Get(rp.children, branchId).None? {
        WalkStops(rp.children, ids[1..]);
        return Some(KeyError(JStr(branchId)));
      }
      PruneOne(rp.children, branchId);
      PruneBelow(repos, ids, rp);
      PruneValid(repos, 0, ids);
      rp := rp.(children := Remove(rp.children, branchId));
      repos := Put(repos, repoId, rp);
      MarkModified([repoId]);
      err := None;
    }

    /** `delete_tag`: walk to the branch, `del branch.tags[tag_id]`, then mark the branch modified. */
    method DeleteTag(repoId: string, branchId: string, tagId: string) returns (err: Option<Error>)
      requires Valid()
      modifies this
      ensures Valid()
      ensures err == MissingKey(old(repos), [repoId, branchId, tagId])
      ensures err.None? ==> repos == Prune(old(repos), [repoId, branchId, tagId])
      ensures err.None? ==> revision == old(revision) + 1 && updates == old(updates) + Fired([repoId, branchId])
      ensures err.Some? ==> repos == old(repos) && revision == old(revision) && updates == old(updates)
    {
      ghost var ids := [repoId, branchId, tagId];
      ghost var ids1 := ids[1..];
      assert ids1 == [branchId, tagId] && ids1[1..] == [tagId];
      var repo := Get(repos, repoId);
      if repo.None? {
        WalkStops(repos, ids);
        return Some(KeyError(JStr(repoId)));
      }
      var rp := repo.value;
      WalkBelow(repos, ids, rp);
      var branch := Get(rp.children, branchId);
      if branch.None? {
        WalkStops(rp.children, ids1);
        return Some(KeyError(JStr(branchId)));
      }
      var br := branch.value;
      WalkBelow(rp.children, ids1, br);
      if Get(br.children, tagId).None? {
        WalkStops(br.children, ids1[1..]);
        return Some(KeyError(JStr(tagId)));
      }
      PruneOne(br.children, tagId);
      PruneBelow(rp.children, ids1, br);
      PruneBelow(repos, ids, rp);
      PruneValid(repos, 0, ids);
      br := br.(children := Remove(br.children, tagId));
      rp := rp.(children := Put(rp.children, branchId, br));
      repos := Put(repos, repoId, rp);
      MarkModified([repoId, branchId]);
      err := None;
    }

    /** `delete_artifact`: walk to the tag, `del tag.artifacts[artifact_id]`, then mark the tag modified. */
    method DeleteArtifact(repoId: string, branchId: string, tagId: string, artifactId: string) returns (err: Option<Error>)
      requires Valid()
      modifies this
      ensures Valid()
      ensures err == MissingKey(old(repos), [repoId, branchId, tagId, artifactId])
      ensures err.None? ==> repos == Prune(old(repos), [repoId, branchId, tagId, artifactId])
      ensures err.None? ==> revision == old(revision) + 1 && updates == old(updates) + Fired([repoId, branchId, tagId])
      ensures err.Some? ==> repos == old(repos) && revision == old(revision) && updates == old(updates)
    {
      ghost var ids := [repoId, branchId, tagId, artifactId];
      ghost var ids1 := ids[1..];
      ghost var ids2 := ids1[1..];
      assert ids1 == [branchId, tagId, artifactId] && ids2 == [tagId, artifactId] && ids2[1..] == [artifactId];
      var repo := Get(repos, repoId);
      if repo.None? {
        WalkStops(repos, ids);
        return Some(KeyError(JStr(repoId)));
      }
      var rp := repo.value;
      WalkBelow(repos, ids, rp);
      var branch := Get(rp.children, branchId);
      if branch.None? {
        WalkStops(rp.children, ids1);
        return Some(KeyError(JStr(branchId)));
      }
      var br := branch.value;
      WalkBelow(rp.children, ids1, br);
      var tag := Get(br.children, tagId);
      if tag.None? {
        WalkStops(br.children, ids2);
        return Some(KeyError(JStr(tagId)));
      }
      var tg := tag.value;
      WalkBelow(br.children, ids2, tg);
      if Get(tg.children, artifactId).None? {
        WalkStops(tg.children, ids2[1..]);
        return Some(KeyError(JStr(artifactId)));
      }
      PruneOne(tg.children, artifactId);
      PruneBelow(br.children, ids2, tg);
      PruneBelow(rp.children, ids1, br);
      PruneBelow(repos, ids, rp);
      PruneValid(repos, 0, ids);
      tg := tg.(children := Remove(tg.children, artifactId));
      br := br.(children := Put(br.children, tagId, tg));
      rp := rp.(children := Put(rp.children, branchId, br));
      repos := Put(repos, repoId, rp);
      MarkModified([repoId, branchId, tagId]);
      err := None;
    }

    /** `Model.data()`. */
    method Data() returns (j: Json)
      requires Valid()
      ensures j == ModelDoc(httpUrl, amqpUrl, repos, revision)
    {
      var data: Dict<Json> := [];
      for i := 0 to |repos|
        invariant data == DataOf(repos[..i])
      {
        assert repos[i] in repos;
        var d := Serialize(repos[i].1);
        DataOfNext(repos, i);
        data := Put(data, repos[i].0, d);
      }
      TakeAll(repos);
      var config := JObj([("http_url", JStr(httpUrl)), ("amqp_url", JStr(amqpUrl))]);
      j := JObj([("config", config), ("repos", JObj(data)), ("revision", JNum(revision))]);
    }

    /** `Model.load` on a decoded document: the loop stores each repo as soon as it is built. */
    method Load(data: Json, now: int) returns (err: Option<Error>)
      requires Valid()
      modifies this
      ensures Valid()
      ensures (repos, revision, err) == LoadInto(data, old(repos), old(revision), now)
      ensures updates == old(updates)
    {
      LoadValid(data, repos, revision, now);
      match data {
        case JArr(items) =>
          return Some(SearchFailure(JStr("repos") in items, JStr("revision") in items));
        case JStr(s) =>
          return Some(SearchFailure(Contains(s, "repos"), Contains(s, "revision")));
        case JObj(_) =>
        case _ =>
          return Some(TypeError);
      }
      var reposData := Get(data.members, "repos");
      if reposData.None? {
        return Some(AssertionFailed("No repos field in data"));
      }
      var rev := Get(data.members, "revision");
      if rev.None? {
        return Some(AssertionFailed("No revision field in data"));
      }
      if !reposData.value.JObj? {
        return Some(AttributeError);
      }
      var loaded;
      loaded, err := FillChildren(None, reposData.value, repos, now);
      repos := loaded;
      if err.Some? {
        return;
      }
      match rev.value {
        case JNum(n) => revision := n;
        case _ => err := Some(TypeError);
      }
    }
  }
}
