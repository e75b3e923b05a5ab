/**
 * The object tree of the Stagger server (python/stagger/model.py): repos hold
 * branches, branches hold tags, tags hold artifacts.  This module gives the
 * construction of an object from decoded JSON fields (`ModelObject.__init__`,
 * `Artifact.create`), its serialisation (`ModelObject.data`), the hierarchical
 * `api_path` and `event_path`, and the order in which a modification fires updates.
 */
module ModelObjects {
  import opened Wrappers
  import opened Dicts
  import opened Json
  import opened Strings

  /** The concrete subclasses of `ModelObject`. */
  datatype Class = RepoClass | BranchClass | TagClass | ContainerClass | MavenClass | FileClass | RpmClass {
    predicate IsArtifact() { this in {ContainerClass, MavenClass, FileClass, RpmClass} }
  }

  /** `_fields` of each class, in declaration order. */
  function Fields(c: Class): seq<string>
  {
    match c
    case RepoClass => ["source_url", "job_url", "branches"]
    case BranchClass => ["tags"]
    case TagClass => ["build_id", "build_url", "commit_id", "commit_url", "artifacts"]
    case ContainerClass => ["type", "registry_url", "repository", "image_id"]
    case MavenClass => ["type", "repository_url", "group_id", "artifact_id", "version"]
    case FileClass => ["type", "url"]
    case RpmClass => ["type", "repository_url", "name", "version", "release"]
  }

  /** `_child_fields`: the field that holds the children, for the three container classes. */
  function ChildField(c: Class): Option<string>
  {
    match c
    case RepoClass => Some("branches")
    case BranchClass => Some("tags")
    case TagClass => Some("artifacts")
    case _ => None
  }

  /** `_required_fields`: every field of an artifact class, none of the others. */
  function RequiredFields(c: Class): seq<string>
  {
    if c.IsArtifact() then Fields(c) else []
  }

  /** The plain (non-child) fields, which `__init__` copies into attributes. */
  function AttrNames(c: Class): seq<string>
  {
    match c
    case RepoClass => ["source_url", "job_url"]
    case BranchClass => []
    case TagClass => ["build_id", "build_url", "commit_id", "commit_url"]
    case _ => Fields(c)
  }

  /** `type_name`, sent with every update message. */
  function TypeName(c: Class): string
  {
    match c
    case RepoClass => "repo"
    case BranchClass => "branch"
    case TagClass => "tag"
    case _ => "artifact"
  }

  /** The key of an artifact class in `Artifact._subclasses_by_type`. */
  function TypeKey(c: Class): string
    requires c.IsArtifact()
  {
    match c
    case ContainerClass => "container"
    case MavenClass => "maven"
    case FileClass => "file"
    case RpmClass => "rpm"
  }

  /** The errors construction and deletion raise. */
  datatype Error =
    | BadData(missing: seq<string>)   // BadDataError "is missing required values: ..."
    | NoTypeField                     // BadDataError "Artifact data has no type field"
    | KeyError(key: Json)             // a failed dictionary lookup
    | TypeError                       // a value of the wrong shape (`**` of a non-mapping, unhashable key, ...)
    | AttributeError                  // `.items()` of a value that is not a mapping
    | AssertionFailed(what: string)   // a failed `assert`

  /** A constructed object: its public attributes (in assignment order) and its children. */
  datatype Obj = Obj(cls: Class, attrs: Dict<Json>, children: Dict<Obj>)

  /** The class `_subclasses_by_type[t]` gives, or the error the lookup raises. */
  function ArtifactClass(t: Json): (r: Result<Class, Error>)
    ensures r.Ok? ==> r.value.IsArtifact() && t == JStr(TypeKey(r.value))
    ensures r.Err? <==> t !in {JStr("container"), JStr("maven"), JStr("file"), JStr("rpm")}
    ensures r.Err? ==> r.error == if t.JArr? || t.JObj? then TypeError else KeyError(t)
  {
    match t
    case JStr("container") => Ok(ContainerClass)
    case JStr("maven") => Ok(MavenClass)
    case JStr("file") => Ok(FileClass)
    case JStr("rpm") => Ok(RpmClass)
    case JArr(_) => Err(TypeError)
    case JObj(_) => Err(TypeError)
    case _ => Err(KeyError(t))
  }

  /** Keyword arguments that collide with the positional parameters of `__init__(self, model, id, parent, **fields)`. */
  predicate CollidesWithParameters(fields: Dict<Json>)
  {
    "self" in Keys(fields) || "model" in Keys(fields) || "id" in Keys(fields) || "parent" in Keys(fields)
  }

  /** Keyword arguments that collide with the parameters of `Artifact.create(model, id, parent, **artifact_data)`. */
  predicate CollidesWithCreate(fields: Dict<Json>)
  {
    "model" in Keys(fields) || "id" in Keys(fields) || "parent" in Keys(fields)
  }

  /** The `missing` list: the required names that are absent or `None`, in order. */
  function Missing(names: seq<string>, fields: Dict<Json>): seq<string>
  {
    if |names| == 0 then []
    else
      var name := names[|names| - 1];
      Missing(names[..|names| - 1], fields)
        + (if Supplied(fields, name) then [] else [name])
  }

  /** The `setattr` loop over `names`, skipping the child field. */
  function SetAttrs(c: Class, names: seq<string>, fields: Dict<Json>, init: Dict<Json>): Dict<Json>
  {
    if |names| == 0 then init
    else
      var done := SetAttrs(c, names[..|names| - 1], fields, init);
      var name := names[|names| - 1];
      if ChildField(c) == Some(name) then done
      else Put(done, name, FieldValue(fields, name))
  }

  /** `fields.get(name, None)`. */
  function FieldValue(fields: Dict<Json>, name: string): Json
  {
    match Get(fields, name)
    case Some(v) => v
    case None => JNull
  }

  /** The `update_time` attribute: the supplied value, or the current time in milliseconds. */
  function UpdateTime(fields: Dict<Json>, now: int): (t: Json)
    ensures "update_time" in Keys(fields) ==> Some(t) == Get(fields, "update_time")
    ensures "update_time" !in Keys(fields) ==> t == JNum(now)
  {
    match Get(fields, "update_time")
    case Some(v) => v
    case None => JNum(now)
  }

  /** `cls(model, id, parent, **data)`: the object, or the error its construction raises. */
  function Construct(c: Class, data: Json, now: int): Result<Obj, Error>
    decreases data, 1
  {
    if !data.JObj? || CollidesWithParameters(data.members) then Err(TypeError)
    else
      var fields := data.members;
      var missing := Missing(RequiredFields(c), fields);
      if |missing| > 0 then Err(BadData(missing))
      else
        var attrs := InitAttrs(c, fields, now);
        match ChildField(c)
        case None => Ok(Obj(c, attrs, []))
        case Some(name) =>
          match Get(fields, name)
          case None => Ok(Obj(c, attrs, []))
          case Some(kidsData) =>
            MemberSmaller(fields, name);
            if !kidsData.JObj? then Err(AttributeError)
            else
              var (kids, err) := InitChildren(Some(c), kidsData, |kidsData.members|, [], now);
              if err.Some? then Err(err.value) else Ok(Obj(c, attrs, kids))
  }

  /** The attributes `__init__` sets: `update_time`, then every plain field in order. */
  function InitAttrs(c: Class, fields: Dict<Json>, now: int): Dict<Json>
  {
    SetAttrs(c, Fields(c), fields, [("update_time", UpdateTime(fields, now))])
  }

  /** `Artifact.create(model, id, parent, **data)`: dispatch on the `type` field. */
  function CreateArtifact(data: Json, now: int): Result<Obj, Error>
    decreases data, 2
  {
    if !data.JObj? || CollidesWithCreate(data.members) then Err(TypeError)
    else
      match Get(data.members, "type")
      case None => Err(NoTypeField)
      case Some(t) =>
        var c :- ArtifactClass(t);
        Construct(c, data, now)
  }

  /** The constructor of a child of `parent`; a missing parent (`None`) is the model, whose children are repos. */
  function ConstructChild(parent: Option<Class>, data: Json, now: int): Result<Obj, Error>
    requires CanHaveChildren(parent)
    decreases data, 3
  {
    match parent
    case None => Construct(RepoClass, data, now)
    case Some(RepoClass) => Construct(BranchClass, data, now)
    case Some(BranchClass) => Construct(TagClass, data, now)
    case Some(TagClass) => CreateArtifact(data, now)
  }

  /** The model and the three container classes have children; artifacts do not. */
  predicate CanHaveChildren(parent: Option<Class>)
  {
    parent.None? || !parent.value.IsArtifact()
  }

  /**
   * The loop `for id, d in kids.items(): children[id] = child(d)` over the first `n` entries,
   * starting from `base`; it stops at the first child that fails, keeping what was stored before.
   */
  function InitChildren(parent: Option<Class>, kids: Json, n: nat, base: Dict<Obj>, now: int): (Dict<Obj>, Option<Error>)
    requires CanHaveChildren(parent) && kids.JObj? && n <= |kids.members|
    decreases kids, 0, n
  {
    if n == 0 then (base, None)
    else
      var (done, err) := InitChildren(parent, kids, n - 1, base, now);
      if err.Some? then (done, err)
      else
        assert kids.members[n - 1] in kids.members;
        match ConstructChild(parent, kids.members[n - 1].1, now)
        case Err(e) => (done, Some(e))
        case Ok(child) => (Put(done, kids.members[n - 1].0, child), None)
  }

  /** The class a child of `parent` may have. */
  predicate ChildClassOk(parent: Option<Class>, child: Class)
  {
    match parent
    case None => child == RepoClass
    case Some(RepoClass) => child == BranchClass
    case Some(BranchClass) => child == TagClass
    case Some(TagClass) => child.IsArtifact()
    case Some(_) => false
  }

  /**
   * What every constructed object satisfies: the attributes are `update_time` and the plain
   * fields in order; an artifact has every field set and none to `None`; the children are
   * uniquely keyed, of the right class, typed, and themselves well formed.
   */
  predicate WellFormed(o: Obj)
    decreases o
  {
    && Keys(o.attrs) == ["update_time"] + AttrNames(o.cls)
    && UniqueKeys(o.attrs)
    && (o.cls.IsArtifact() ==>
          && o.children == []
          && forall n :: n in Fields(o.cls) ==> Get(o.attrs, n) != Some(JNull))
    && UniqueKeys(o.children)
    && forall e | e in o.children :: ChildClassOk(Some(o.cls), e.1.cls) && Typed(e.1) && WellFormed(e.1)
  }

  /** An artifact's `type` attribute is the key of its class. */
  predicate Typed(o: Obj)
  {
    o.cls.IsArtifact() ==> Get(o.attrs, "type") == Some(JStr(TypeKey(o.cls)))
  }

  /** The children of `parent` (the model itself when `None`) are uniquely keyed, of the right class and well formed. */
  predicate ChildrenWellFormed(parent: Option<Class>, kids: Dict<Obj>)
  {
    && UniqueKeys(kids)
    && forall e | e in kids :: ChildClassOk(parent, e.1.cls) && Typed(e.1) && WellFormed(e.1)
  }

  /** The entry `data()` adds for the child field: the children's data, under their ids. */
  function ChildEntry(c: Class, kids: Dict<Json>): Dict<Json>
  {
    match ChildField(c)
    case None => []
    case Some(name) => [(name, JObj(kids))]
  }

  /**
   * `data()`: the public attributes in assignment order (the underscore-prefixed ones are
   * never among them), then the child field with each child's own `data()`.
   */
  function ObjData(o: Obj): Json
    decreases o
  {
    JObj(o.attrs + ChildEntry(o.cls, seq(|o.children|, i requires 0 <= i < |o.children| =>
      assert o.children[i] in o.children;
      (o.children[i].0, ObjData(o.children[i].1)))))
  }

  /** `_child_data(children)`: each child's `data()` under its id. */
  function DataOf(kids: Dict<Obj>): (r: Dict<Json>)
    ensures |r| == |kids|
    ensures forall i :: 0 <= i < |kids| ==> r[i] == (kids[i].0, ObjData(kids[i].1))
  {
    seq(|kids|, i requires 0 <= i < |kids| => (kids[i].0, ObjData(kids[i].1)))
  }

  lemma ObjDataChildren(o: Obj)
    ensures ObjData(o) == JObj(o.attrs + ChildEntry(o.cls, DataOf(o.children)))
  {
    assert seq(|o.children|, i requires 0 <= i < |o.children| => (o.children[i].0, ObjData(o.children[i].1)))
      == DataOf(o.children);
  }

  /** Serialised children keep their ids and their order. */
  lemma DataOfKeys(kids: Dict<Obj>)
    ensures Keys(DataOf(kids)) == Keys(kids)
  {
    KeysIndex(DataOf(kids));
    KeysIndex(kids);
  }

  /** The members of `data()` are `update_time` and the class's fields, in declaration order. */
  lemma DataKeys(o: Obj)
    requires WellFormed(o)
    ensures ObjData(o).JObj?
    ensures Keys(ObjData(o).members) == ["update_time"] + Fields(o.cls)
  {
    ObjDataChildren(o);
    EntryKeys(o.cls, o.attrs, DataOf(o.children));
  }

  lemma EntryKeys(c: Class, attrs: Dict<Json>, kids: Dict<Json>)
    requires Keys(attrs) == ["update_time"] + AttrNames(c)
    ensures Keys(attrs + ChildEntry(c, kids)) == ["update_time"] + Fields(c)
  {
    KeysAppend(attrs, ChildEntry(c, kids));
  }

  /** The `missing` list is empty exactly when every name is present and not `None`. */
  lemma {:induction false} MissingEmpty(names: seq<string>, fields: Dict<Json>)
    ensures Missing(names, fields) == [] <==> forall n :: n in names ==> Supplied(fields, n)
  {
    if |names| > 0 {
      var init := names[..|names| - 1];
      var name := names[|names| - 1];
      MissingEmpty(init, fields);
      FrontLast(names);
      var extra := if Supplied(fields, name) then [] else [name];
      assert Missing(names, fields) == Missing(init, fields) + extra;
      if forall n :: n in names ==> Supplied(fields, n) {
        assert forall n :: n in init ==> n in names;
        assert name in names;
      } else {
        var n :| n in names && !Supplied(fields, n);
        if n != name {
          assert n in init;
        }
      }
    }
  }

  /** A required name counts as supplied when it is present and not `None`. */
  predicate Supplied(fields: Dict<Json>, name: string)
  {
    Get(fields, name).Some? && Get(fields, name) != Some(JNull)
  }

  /** The `setattr` loop over all fields is the loop over the plain fields: the child field comes last and is skipped. */
  lemma SetAttrsPlain(c: Class, fields: Dict<Json>, init: Dict<Json>)
    ensures SetAttrs(c, Fields(c), fields, init) == SetAttrs(c, AttrNames(c), fields, init)
  {
    if !c.IsArtifact() {
      assert Fields(c)[..|Fields(c)| - 1] == AttrNames(c);
    }
  }

  /** The plain field names are distinct, differ from `update_time` and are never the child field. */
  lemma AttrNamesFresh(c: Class, j: nat)
    requires j < |AttrNames(c)|
    ensures AttrNames(c)[j] !in ["update_time"] + AttrNames(c)[..j]
    ensures ChildField(c) != Some(AttrNames(c)[j])
  {
  }

  /** Names that `setattr` appends one by one: each new, not `update_time`, and never the child field. */
  predicate FreshNames(c: Class, names: seq<string>)
  {
    |names| == 0 ||
      var k := |names| - 1;
      && names[k] !in ["update_time"] + names[..k]
      && ChildField(c) != Some(names[k])
      && FreshNames(c, names[..k])
  }

  lemma AttrNamesAreFresh(c: Class)
    ensures FreshNames(c, AttrNames(c))
  {
    forall j | 0 <= j < |AttrNames(c)|
      ensures AttrNames(c)[j] !in ["update_time"] + AttrNames(c)[..j] && ChildField(c) != Some(AttrNames(c)[j])
    {
      AttrNamesFresh(c, j);
    }
    FreshUpTo(c, AttrNames(c), |AttrNames(c)|);
    assert AttrNames(c)[..|AttrNames(c)|] == AttrNames(c);
  }

  /** A prefix whose every name is new, not `update_time` and not the child field is fresh. */
  lemma {:induction false} FreshUpTo(c: Class, names: seq<string>, n: nat)
    requires n <= |names|
    requires forall j :: 0 <= j < n ==> names[j] !in ["update_time"] + names[..j] && ChildField(c) != Some(names[j])
    ensures FreshNames(c, names[..n])
  {
    if n > 0 {
      FreshUpTo(c, names, n - 1);
      var p := names[..n];
      assert p[n - 1] == names[n - 1] && p[..n - 1] == names[..n - 1];
    }
  }

  /**
   * After the `setattr` loop over fresh names the attributes are `update_time` and those
   * names, in order, each holding the supplied value or `None`.
   */
  lemma SetAttrsBuild(c: Class, names: seq<string>, fields: Dict<Json>, u: Json)
    requires FreshNames(c, names)
    ensures var attrs := SetAttrs(c, names, fields, [("update_time", u)]);
      && Keys(attrs) == ["update_time"] + names
      && UniqueKeys(attrs)
      && Get(attrs, "update_time") == Some(u)
      && forall n :: n in names ==> Get(attrs, n) == Some(FieldValue(fields, n))
  {
    SetAttrsKeys(c, names, fields, u);
    FreshAvoids(c, names);
    SetAttrsUpdateTime(c, names, fields, u);
    forall n | n in names
      ensures Get(SetAttrs(c, names, fields, [("update_time", u)]), n) == Some(FieldValue(fields, n))
    {
      SetAttrsGet(c, names, fields, u, n);
    }
  }

  /** No fresh name is `update_time`. */
  lemma {:induction false} FreshAvoids(c: Class, names: seq<string>)
    requires FreshNames(c, names)
    ensures "update_time" !in names
  {
    if |names| > 0 {
      var k := |names| - 1;
      FreshAvoids(c, names[..k]);
      assert names == names[..k] + [names[k]];
    }
  }

  /** The keys the `setattr` loop leaves: `update_time`, then the names in order, each once. */
  lemma {:induction false} SetAttrsKeys(c: Class, names: seq<string>, fields: Dict<Json>, u: Json)
    requires FreshNames(c, names)
    ensures Keys(SetAttrs(c, names, fields, [("update_time", u)])) == ["update_time"] + names
    ensures UniqueKeys(SetAttrs(c, names, fields, [("update_time", u)]))
  {
    if |names| > 0 {
      var k := |names| - 1;
      var name, init := names[k], names[..k];
      var start := [("update_time", u)];
      FreshPrefix(c, names);
      var prev := SetAttrs(c, init, fields, start);
      SetAttrsKeys(c, init, fields, u);
      var v := FieldValue(fields, name);
      SetAttrsLast(c, names, fields, start);
      assert name !in Keys(prev);
      PutFacts(prev, name, v);
      AfterUpdateTime(names);
    }
  }

  /** `update_time` and a list of names is `update_time` and all but the last, then the last. */
  lemma AfterUpdateTime(names: seq<string>)
    requires |names| > 0
    ensures ["update_time"] + names == ["update_time"] + names[..|names| - 1] + [names[|names| - 1]]
  {
    assert names == names[..|names| - 1] + [names[|names| - 1]];
  }

  /** The `setattr` loop never touches `update_time` when no name is `update_time`. */
  lemma {:induction false} SetAttrsUpdateTime(c: Class, names: seq<string>, fields: Dict<Json>, u: Json)
    requires "update_time" !in names
    ensures Get(SetAttrs(c, names, fields, [("update_time", u)]), "update_time") == Some(u)
  {
    if |names| > 0 {
      var k := |names| - 1;
      var init, name := names[..k], names[k];
      var prev := SetAttrs(c, init, fields, [("update_time", u)]);
      FrontLast(names);
      SetAttrsUpdateTime(c, init, fields, u);
      PutFacts(prev, name, FieldValue(fields, name));
    }
  }

  /** Each name the `setattr` loop visits holds the supplied value, or `None` when there is none. */
  lemma {:induction false} SetAttrsGet(c: Class, names: seq<string>, fields: Dict<Json>, u: Json, n: string)
    requires FreshNames(c, names) && n in names
    ensures Get(SetAttrs(c, names, fields, [("update_time", u)]), n) == Some(FieldValue(fields, n))
  {
    var k := |names| - 1;
    var start := [("update_time", u)];
    FreshPrefix(c, names);
    SetAttrsLast(c, names, fields, start);
    var prev := SetAttrs(c, names[..k], fields, start);
    if n != names[k] {
      FrontLast(names);
      SetAttrsGet(c, names[..k], fields, u, n);
      PutFacts(prev, names[k], FieldValue(fields, names[k]));
    }
  }

  lemma FreshPrefix(c: Class, names: seq<string>)
    requires FreshNames(c, names) && |names| > 0
    ensures FreshNames(c, names[..|names| - 1])
    ensures names[|names| - 1] !in ["update_time"] + names[..|names| - 1]
    ensures ChildField(c) != Some(names[|names| - 1])
  {
  }

  lemma SetAttrsLast(c: Class, names: seq<string>, fields: Dict<Json>, init: Dict<Json>)
    requires |names| > 0 && ChildField(c) != Some(names[|names| - 1])
    ensures SetAttrs(c, names, fields, init)
      == Put(SetAttrs(c, names[..|names| - 1], fields, init), names[|names| - 1], FieldValue(fields, names[|names| - 1]))
  {
  }

  /** The attributes `__init__` sets are keyed by `update_time` and the plain fields, holding the supplied values. */
  lemma InitAttrsShape(c: Class, fields: Dict<Json>, now: int)
    ensures var attrs := InitAttrs(c, fields, now);
      && Keys(attrs) == ["update_time"] + AttrNames(c)
      && UniqueKeys(attrs)
      && Get(attrs, "update_time") == Some(UpdateTime(fields, now))
      && forall n :: n in AttrNames(c) ==> Get(attrs, n) == Some(FieldValue(fields, n))
  {
    var u := UpdateTime(fields, now);
    SetAttrsPlain(c, fields, [("update_time", u)]);
    AttrNamesAreFresh(c);
    SetAttrsBuild(c, AttrNames(c), fields, u);
  }

  /**
   * What a successful `cls(...)` is made of: the class, the attributes `__init__` sets, and the
   * children the `_init_children` loop stored, or none when the child field is not supplied.
   */
  lemma ConstructOk(c: Class, data: Json, now: int)
    requires Construct(c, data, now).Ok?
    ensures data.JObj? && Missing(RequiredFields(c), data.members) == []
    ensures Construct(c, data, now).value.cls == c
    ensures Construct(c, data, now).value.attrs == InitAttrs(c, data.members, now)
    ensures ChildField(c).None? || Get(data.members, ChildField(c).value).None? ==>
      Construct(c, data, now).value.children == []
    ensures ChildField(c).Some? && Get(data.members, ChildField(c).value).Some? ==>
      (var kids := Get(data.members, ChildField(c).value).value;
        kids.JObj? && InitChildren(Some(c), kids, |kids.members|, [], now) == (Construct(c, data, now).value.children, None))
  {
  }

  /**
   * The errors construction promises: required values that are absent or `None` raise
   * `BadDataError` naming every one of them, in order; artifact data without `type` raises
   * `BadDataError`; a `type` that names no artifact class raises `KeyError` for it.
   */
  lemma ConstructErrors(c: Class, data: Json, now: int)
    requires data.JObj? && !CollidesWithParameters(data.members)
    ensures Missing(RequiredFields(c), data.members) != [] ==>
      Construct(c, data, now) == Err(BadData(Missing(RequiredFields(c), data.members)))
    ensures Get(data.members, "type").None? ==> CreateArtifact(data, now) == Err(NoTypeField)
    ensures (Get(data.members, "type").Some? && Get(data.members, "type").value.JStr?
        && Get(data.members, "type").value.s !in ["container", "maven", "file", "rpm"]) ==>
      CreateArtifact(data, now) == Err(KeyError(Get(data.members, "type").value))
  {
  }

  /** Every object `cls(...)` returns is well formed and of class `cls`. */
  lemma {:induction false} ConstructWellFormed(c: Class, data: Json, now: int)
    requires Construct(c, data, now).Ok?
    ensures Construct(c, data, now).value.cls == c
    ensures WellFormed(Construct(c, data, now).value)
    decreases data, 1
  {
    ConstructOk(c, data, now);
    var fields := data.members;
    InitAttrsShape(c, fields, now);
    if c.IsArtifact() {
      ArtifactAttrsSet(c, fields, now);
    } else {
      var name := ChildField(c).value;
      if Get(fields, name).Some? {
        var kidsData := Get(fields, name).value;
        MemberSmaller(fields, name);
        InitChildrenWellFormed(Some(c), kidsData, |kidsData.members|, [], now);
      }
    }
  }

  /** An artifact built with no required field missing has every field set, none to `None`. */
  lemma ArtifactAttrsSet(c: Class, fields: Dict<Json>, now: int)
    requires c.IsArtifact() && Missing(RequiredFields(c), fields) == []
    ensures forall n :: n in Fields(c) ==> Get(InitAttrs(c, fields, now), n) != Some(JNull)
  {
    InitAttrsShape(c, fields, now);
    MissingEmpty(RequiredFields(c), fields);
    assert AttrNames(c) == Fields(c);
    forall n | n in Fields(c)
      ensures Get(InitAttrs(c, fields, now), n) != Some(JNull)
    {
      assert Supplied(fields, n);
    }
  }

  /** Every object `Artifact.create(...)` returns is a well-formed artifact whose `type` is its class's key. */
  lemma {:induction false} CreateArtifactWellFormed(data: Json, now: int)
    requires CreateArtifact(data, now).Ok?
    ensures var o := CreateArtifact(data, now).value; o.cls.IsArtifact() && Typed(o) && WellFormed(o)
    decreases data, 2
  {
    var fields := data.members;
    var t := Get(fields, "type").value;
    var c := ArtifactClass(t).value;
    assert CreateArtifact(data, now) == Construct(c, data, now);
    ConstructWellFormed(c, data, now);
    InitAttrsShape(c, fields, now);
    assert "type" in AttrNames(c);
    assert Construct(c, data, now).value.attrs == InitAttrs(c, fields, now);
  }

  /** Every child a container constructs is of the class its parent holds, typed and well formed. */
  lemma {:induction false} ConstructChildWellFormed(parent: Option<Class>, data: Json, now: int)
    requires CanHaveChildren(parent) && ConstructChild(parent, data, now).Ok?
    ensures var o := ConstructChild(parent, data, now).value;
      ChildClassOk(parent, o.cls) && Typed(o) && WellFormed(o)
    decreases data, 3
  {
    match parent
    case None => ConstructWellFormed(RepoClass, data, now);
    case Some(RepoClass) => ConstructWellFormed(BranchClass, data, now);
    case Some(BranchClass) => ConstructWellFormed(TagClass, data, now);
    case Some(TagClass) => CreateArtifactWellFormed(data, now);
  }

  /** The children loop keeps the children table well formed, also when it stops at an error. */
  lemma {:induction false} InitChildrenWellFormed(parent: Option<Class>, kids: Json, n: nat, base: Dict<Obj>, now: int)
    requires CanHaveChildren(parent) && kids.JObj? && n <= |kids.members|
    requires ChildrenWellFormed(parent, base)
    ensures ChildrenWellFormed(parent, InitChildren(parent, kids, n, base, now).0)
    decreases kids, 0, n
  {
    if n > 0 {
      InitChildrenWellFormed(parent, kids, n - 1, base, now);
      var (done, err) := InitChildren(parent, kids, n - 1, base, now);
      if err.None? {
        var (id, d) := kids.members[n - 1];
        assert kids.members[n - 1] in kids.members;
        var r := ConstructChild(parent, d, now);
        if r.Ok? {
          ConstructChildWellFormed(parent, d, now);
          ChildrenPut(parent, done, id, r.value);
        }
      }
    }
  }

  /** Storing a well-formed child of the right class keeps a children table well formed. */
  lemma ChildrenPut(parent: Option<Class>, kids: Dict<Obj>, id: string, child: Obj)
    requires ChildrenWellFormed(parent, kids)
    requires ChildClassOk(parent, child.cls) && Typed(child) && WellFormed(child)
    ensures ChildrenWellFormed(parent, Put(kids, id, child))
  {
    PutEntries(kids, id, child);
    PutFacts(kids, id, child);
  }

  /** No serialised member name collides with a parameter of `__init__` or `Artifact.create`. */
  lemma FieldsNotParameters(c: Class)
    ensures forall n :: n in ["update_time"] + Fields(c) ==> n !in {"self", "model", "id", "parent"}
  {
  }

  /** `load` rebuilds an object from its `data()`: `cls(..., **o.data())` is `o` again. */
  lemma {:induction false} RebuildObject(o: Obj, now: int)
    requires WellFormed(o)
    ensures Construct(o.cls, ObjData(o), now) == Ok(o)
    decreases o, 2
  {
    ObjDataChildren(o);
    DataOfKeys(o.children);
    match ChildField(o.cls)
    case None =>
      RebuildAttrs(o.cls, o.attrs, [], now);
      ConstructLeaf(o.cls, ObjData(o), now, o.attrs);
    case Some(name) =>
      RebuildContainer(o, name, now);
  }

  lemma {:induction false} RebuildContainer(o: Obj, name: string, now: int)
    requires WellFormed(o) && ChildField(o.cls) == Some(name)
    requires ObjData(o) == JObj(o.attrs + ChildEntry(o.cls, DataOf(o.children)))
    ensures Construct(o.cls, ObjData(o), now) == Ok(o)
    decreases o, 1
  {
    var kidsData := JObj(DataOf(o.children));
    assert ObjData(o) == JObj(o.attrs + [(name, kidsData)]);
    RebuildChildren(o, now);
    RebuildContainerFrom(o.cls, name, o.attrs, kidsData, o.children, now);
  }

  /** The child field is neither `update_time` nor a plain field. */
  lemma ChildFieldNotAttr(c: Class)
    ensures ChildField(c).Some? ==> ChildField(c).value !in ["update_time"] + AttrNames(c)
  {
  }

  /** A container's attributes followed by its child entry construct the container again, once the children loop does. */
  lemma RebuildContainerFrom(c: Class, name: string, attrs: Dict<Json>, kidsData: Json, kids: Dict<Obj>, now: int)
    requires ChildField(c) == Some(name)
    requires Keys(attrs) == ["update_time"] + AttrNames(c) && UniqueKeys(attrs)
    requires kidsData.JObj? && InitChildren(Some(c), kidsData, |kidsData.members|, [], now) == (kids, None)
    ensures Construct(c, JObj(attrs + [(name, kidsData)]), now) == Ok(Obj(c, attrs, kids))
  {
    var entry := [(name, kidsData)];
    RebuildAttrs(c, attrs, entry, now);
    ChildFieldNotAttr(c);
    GetAppend(attrs, entry, name);
    assert Get(entry, name) == Some(kidsData);
    ConstructContainer(c, name, JObj(attrs + entry), now, attrs, kidsData, kids);
  }

  /**
   * The attributes `o.attrs`, followed by the child entry, pass the parameter and
   * required-field checks and are set again as they were.
   */
  lemma RebuildAttrs(c: Class, attrs: Dict<Json>, entry: Dict<Json>, now: int)
    requires Keys(attrs) == ["update_time"] + AttrNames(c) && UniqueKeys(attrs)
    requires c.IsArtifact() ==> forall n :: n in Fields(c) ==> Get(attrs, n) != Some(JNull)
    requires Keys(entry) == match ChildField(c) case None => [] case Some(name) => [name]
    ensures !CollidesWithParameters(attrs + entry)
    ensures Missing(RequiredFields(c), attrs + entry) == []
    ensures InitAttrs(c, attrs + entry, now) == attrs
  {
    KeysAppend(attrs, entry);
    FieldsNotParameters(c);
    AttrsThenChild(c);
    assert Keys(attrs + entry) == ["update_time"] + Fields(c);
    LookupFirst(attrs, entry);
    RebuildRequired(c, attrs, entry);
    RebuildInit(c, attrs, entry, now);
  }

  /** `update_time` and the fields are `update_time`, the plain fields, then the child field if any. */
  lemma AttrsThenChild(c: Class)
    ensures ["update_time"] + Fields(c)
      == ["update_time"] + AttrNames(c) + match ChildField(c) case None => [] case Some(name) => [name]
  {
  }

  /** Lookups of the attributes' own keys are unaffected by what follows them. */
  lemma LookupFirst(attrs: Dict<Json>, entry: Dict<Json>)
    ensures forall n :: n in Keys(attrs) ==> Get(attrs + entry, n) == Get(attrs, n)
  {
    forall n | n in Keys(attrs)
      ensures Get(attrs + entry, n) == Get(attrs, n)
    {
      GetAppend(attrs, entry, n);
    }
  }

  lemma RebuildRequired(c: Class, attrs: Dict<Json>, entry: Dict<Json>)
    requires Keys(attrs) == ["update_time"] + AttrNames(c)
    requires c.IsArtifact() ==> forall n :: n in Fields(c) ==> Get(attrs, n) != Some(JNull)
    requires forall n :: n in Keys(attrs) ==> Get(attrs + entry, n) == Get(attrs, n)
    ensures Missing(RequiredFields(c), attrs + entry) == []
  {
    if c.IsArtifact() {
      forall n | n in RequiredFields(c)
        ensures Supplied(attrs + entry, n)
      {
        assert n in Keys(attrs);
      }
    }
    MissingEmpty(RequiredFields(c), attrs + entry);
  }

  lemma RebuildInit(c: Class, attrs: Dict<Json>, entry: Dict<Json>, now: int)
    requires Keys(attrs) == ["update_time"] + AttrNames(c) && UniqueKeys(attrs)
    requires forall n :: n in Keys(attrs) ==> Get(attrs + entry, n) == Get(attrs, n)
    ensures InitAttrs(c, attrs + entry, now) == attrs
  {
    var members := attrs + entry;
    var rebuilt := InitAttrs(c, members, now);
    InitAttrsShape(c, members, now);
    forall k
      ensures Get(rebuilt, k) == Get(attrs, k)
    {
      if k in Keys(attrs) {
        assert k == "update_time" || k in AttrNames(c);
      }
    }
    DictEqual(rebuilt, attrs);
  }

  /** When the checks pass, an artifact class constructs the object with the attributes set. */
  lemma ConstructLeaf(c: Class, data: Json, now: int, attrs: Dict<Json>)
    requires ChildField(c).None? && data.JObj? && !CollidesWithParameters(data.members)
    requires Missing(RequiredFields(c), data.members) == []
    requires InitAttrs(c, data.members, now) == attrs
    ensures Construct(c, data, now) == Ok(Obj(c, attrs, []))
  {
  }

  /** When the checks pass and the children loop succeeds, a container class constructs the object with those children. */
  lemma ConstructContainer(c: Class, name: string, data: Json, now: int, attrs: Dict<Json>, kidsData: Json, kids: Dict<Obj>)
    requires ChildField(c) == Some(name) && data.JObj? && !CollidesWithParameters(data.members)
    requires Missing(RequiredFields(c), data.members) == []
    requires InitAttrs(c, data.members, now) == attrs
    requires Get(data.members, name) == Some(kidsData)
    requires kidsData.JObj? && InitChildren(Some(c), kidsData, |kidsData.members|, [], now) == (kids, None)
    ensures Construct(c, data, now) == Ok(Obj(c, attrs, kids))
  {
  }

  /** A child is rebuilt from its `data()` by the constructor its parent uses. */
  lemma {:induction false} RebuildChild(parent: Option<Class>, o: Obj, now: int)
    requires CanHaveChildren(parent) && ChildClassOk(parent, o.cls) && Typed(o) && WellFormed(o)
    ensures ConstructChild(parent, ObjData(o), now) == Ok(o)
    decreases o, 3
  {
    RebuildObject(o, now);
    if parent == Some(TagClass) {
      ArtifactDataType(o);
    }
  }

  /** An artifact's `data()` passes `Artifact.create`'s checks, and its `type` names the artifact's class. */
  lemma ArtifactDataType(o: Obj)
    requires o.cls.IsArtifact() && Typed(o) && WellFormed(o)
    ensures ObjData(o).JObj? && !CollidesWithCreate(ObjData(o).members)
    ensures Get(ObjData(o).members, "type") == Some(JStr(TypeKey(o.cls)))
    ensures ArtifactClass(JStr(TypeKey(o.cls))) == Ok(o.cls)
  {
    var c := o.cls;
    var entry := ChildEntry(c, DataOf(o.children));
    ObjDataChildren(o);
    DataKeys(o);
    FieldsNotParameters(c);
    GetAppend(o.attrs, entry, "type");
  }

  /** The children loop over `o.data()`'s child field rebuilds `o`'s children, in order. */
  lemma RebuildChildren(o: Obj, now: int)
    requires WellFormed(o) && !o.cls.IsArtifact()
    ensures InitChildren(Some(o.cls), JObj(DataOf(o.children)), |o.children|, [], now) == (o.children, None)
    decreases o, 0
  {
    var data := DataOf(o.children);
    forall i | 0 <= i < |o.children|
      ensures data[i].0 == o.children[i].0 && ConstructChild(Some(o.cls), data[i].1, now) == Ok(o.children[i].1)
    {
      assert o.children[i] in o.children;
      RebuildChild(Some(o.cls), o.children[i].1, now);
    }
    RebuildKids(Some(o.cls), o.children, data, |o.children|, now);
    TakeAll(o.children);
  }

  /** A well-formed children table is rebuilt from its serialised form by the children loop. */
  lemma RebuildTable(parent: Option<Class>, kids: Dict<Obj>, now: int)
    requires CanHaveChildren(parent) && ChildrenWellFormed(parent, kids)
    ensures InitChildren(parent, JObj(DataOf(kids)), |kids|, [], now) == (kids, None)
  {
    var data := DataOf(kids);
    forall i | 0 <= i < |kids|
      ensures data[i].0 == kids[i].0 && ConstructChild(parent, data[i].1, now) == Ok(kids[i].1)
    {
      assert kids[i] in kids;
      RebuildChild(parent, kids[i].1, now);
    }
    RebuildKids(parent, kids, data, |kids|, now);
    TakeAll(kids);
  }

  /** The children loop over entries that each construct the matching child rebuilds the first `n` children. */
  lemma {:induction false} RebuildKids(parent: Option<Class>, kids: Dict<Obj>, data: Dict<Json>, n: nat, now: int)
    requires CanHaveChildren(parent) && UniqueKeys(kids) && |data| == |kids| && n <= |kids|
    requires forall i :: 0 <= i < |kids| ==> data[i].0 == kids[i].0 && ConstructChild(parent, data[i].1, now) == Ok(kids[i].1)
    ensures InitChildren(parent, JObj(data), n, [], now) == (kids[..n], None)
  {
    if n > 0 {
      var k := n - 1;
      RebuildKids(parent, kids, data, k, now);
      PutNext(kids, k);
      assert JObj(data).members[k] == data[k];
      assert ConstructChild(parent, data[k].1, now) == Ok(kids[k].1) && data[k].0 == kids[k].0;
      InitChildrenOk(parent, JObj(data), k, [], now, kids[..k], kids[k].1);
    }
  }

  /** One successful step of the children loop: the new child is stored under its id. */
  lemma InitChildrenOk(parent: Option<Class>, kids: Json, i: nat, base: Dict<Obj>, now: int, done: Dict<Obj>, child: Obj)
    requires CanHaveChildren(parent) && kids.JObj? && i < |kids.members|
    requires InitChildren(parent, kids, i, base, now) == (done, None)
    requires ConstructChild(parent, kids.members[i].1, now) == Ok(child)
    ensures InitChildren(parent, kids, i + 1, base, now) == (Put(done, kids.members[i].0, child), None)
  {
  }

  /** The collection names of the four levels, the repo level first. */
  function Collection(level: nat): string
    requires level < 4
  {
    match level
    case 0 => "repos"
    case 1 => "branches"
    case 2 => "tags"
    case _ => "artifacts"
  }

  /** The segment a child adds to its parent's path: `/{collection}/{id}`. */
  function Segment(level: nat, id: string): string
    requires level < 4
  {
    "/" + Collection(level) + "/" + id
  }

  /** `api_path` of the object reached by `ids` (a repo id, then branch, tag and artifact ids). */
  function ApiPath(ids: seq<string>): string
    requires 1 <= |ids| <= 4
  {
    if |ids| == 1 then "api/repos/" + ids[0]
    else ApiPath(ids[..|ids| - 1]) + Segment(|ids| - 1, ids[|ids| - 1])
  }

  /** `event_path` of the object reached by `ids`. */
  function EventPath(ids: seq<string>): string
    requires 1 <= |ids| <= 4
  {
    if |ids| == 1 then "events/repos/" + ids[0]
    else EventPath(ids[..|ids| - 1]) + Segment(|ids| - 1, ids[|ids| - 1])
  }

  /** The labelled segments both paths end with: `/repos/{r}/branches/{b}/...`. */
  function LabelledPath(ids: seq<string>): string
    requires |ids| <= 4
  {
    if |ids| == 0 then ""
    else LabelledPath(ids[..|ids| - 1]) + Segment(|ids| - 1, ids[|ids| - 1])
  }

  /** `api_path` is `api` and `event_path` is `events`, each followed by the same labelled segments. */
  lemma PathsShareSegments(ids: seq<string>)
    requires 1 <= |ids| <= 4
    ensures ApiPath(ids) == "api" + LabelledPath(ids)
    ensures EventPath(ids) == "events" + LabelledPath(ids)
  {
    ApiPathSegments(ids);
    EventPathSegments(ids);
  }

  /** The server's paths of a tag, written out. */
  lemma TagPaths(r: string, b: string, t: string)
    ensures ApiPath([r, b, t]) == "api/repos/" + r + "/branches/" + b + "/tags/" + t
    ensures EventPath([r, b, t]) == "events/repos/" + r + "/branches/" + b + "/tags/" + t
  {
    var ids := [r, b, t];
    assert ids[..2] == [r, b] && [r, b][..1] == [r];
    assert Segment(1, b) == "/branches/" + b && Segment(2, t) == "/tags/" + t;
    assert ApiPath([r, b]) == "api/repos/" + r + "/branches/" + b;
    assert ApiPath(ids) == ApiPath([r, b]) + ("/tags/" + t);
    assert EventPath([r, b]) == "events/repos/" + r + "/branches/" + b;
    assert EventPath(ids) == EventPath([r, b]) + ("/tags/" + t);
  }

  lemma {:induction false} ApiPathSegments(ids: seq<string>)
    requires 1 <= |ids| <= 4
    ensures ApiPath(ids) == "api" + LabelledPath(ids)
  {
    var init := ids[..|ids| - 1];
    if |ids| == 1 {
      RootSegment("api", ids[0]);
    } else {
      ApiPathSegments(init);
      Assoc(ApiPath(init), "api", LabelledPath(init), Segment(|ids| - 1, ids[|ids| - 1]));
    }
  }

  lemma {:induction false} EventPathSegments(ids: seq<string>)
    requires 1 <= |ids| <= 4
    ensures EventPath(ids) == "events" + LabelledPath(ids)
  {
    var init := ids[..|ids| - 1];
    if |ids| == 1 {
      RootSegment("events", ids[0]);
    } else {
      EventPathSegments(init);
      Assoc(EventPath(init), "events", LabelledPath(init), Segment(|ids| - 1, ids[|ids| - 1]));
    }
  }

  lemma RootSegment(root: string, id: string)
    ensures root + "/repos/" + id == root + ("" + Segment(0, id))
  {
    assert "/repos/" == "/" + "repos" + "/";
  }

  lemma Assoc(p: string, q: string, r: string, t: string)
    requires p == q + r
    ensures p + t == q + (r + t)
  {
  }

  /** A path names one object: distinct id paths of the same depth give distinct event paths. */
  lemma {:induction false} EventPathInjective(ids: seq<string>, ids': seq<string>)
    requires 1 <= |ids| <= 4 && |ids'| == |ids|
    requires forall i :: 0 <= i < |ids| ==> '/' !in ids[i] && '/' !in ids'[i]
    requires EventPath(ids) == EventPath(ids')
    ensures ids == ids'
  {
    var n := |ids| - 1;
    if n == 0 {
      PrefixCancel("events/repos/", ids[0], ids'[0]);
    } else {
      LastSegment(EventPath(ids[..n]), EventPath(ids'[..n]), n, ids[n], ids'[n]);
      EventPathInjective(ids[..n], ids'[..n]);
      FrontLastEqual(ids, ids');
    }
  }

  /** Two paths ending in a segment of the same level are equal only if their prefixes and their ids are. */
  lemma LastSegment(p: string, p': string, level: nat, id: string, id': string)
    requires level < 4 && '/' !in id && '/' !in id'
    requires p + Segment(level, id) == p' + Segment(level, id')
    ensures p == p' && id == id'
  {
    var c := Collection(level);
    SegmentParts(p, level, id);
    SegmentParts(p', level, id');
    var a, a' := p + "/" + c, p' + "/" + c;
    SplitLast(a, '/', id);
    SplitLast(a', '/', id');
    SplitLast(p, '/', c);
    SplitLast(p', '/', c);
    SnocInjective(Split(a, '/'), Split(a', '/'), id, id');
    SnocInjective(Split(p, '/'), Split(p', '/'), c, c);
    SplitInjective(p, p', '/');
  }

  /** Where the separators of a segment are. */
  lemma SegmentParts(p: string, level: nat, id: string)
    requires level < 4
    ensures p + Segment(level, id) == (p + "/" + Collection(level)) + ['/'] + id
    ensures '/' !in Collection(level)
  {
  }

  /** A modification notice: the `type` and `path` properties of the message sent for an object. */
  datatype Update = Update(typeName: string, path: string)

  /** The `type_name` of the object at depth `depth`. */
  function TypeNameAt(depth: nat): string
    requires 1 <= depth <= 4
  {
    ["repo", "branch", "tag", "artifact"][depth - 1]
  }

  /** `_mark_modified` of the object at `ids`: an update for the object, then for its parent, and so on. */
  function Fired(ids: seq<string>): seq<Update>
    requires 1 <= |ids| <= 4
  {
    [Update(TypeNameAt(|ids|), EventPath(ids))] + (if |ids| == 1 then [] else Fired(ids[..|ids| - 1]))
  }

  /** One update per level, the object's first and the repo's last, each carrying its own event path. */
  lemma FiredOrder(ids: seq<string>)
    requires 1 <= |ids| <= 4
    ensures |Fired(ids)| == |ids|
    ensures forall i :: 0 <= i < |ids| ==>
      Fired(ids)[i] == Update(TypeNameAt(|ids| - i), EventPath(ids[..|ids| - i]))
  {
    FiredLength(ids);
    forall i | 0 <= i < |ids|
      ensures Fired(ids)[i] == Update(TypeNameAt(|ids| - i), EventPath(ids[..|ids| - i]))
    {
      FiredAt(ids, i);
    }
  }

  lemma {:induction false} FiredLength(ids: seq<string>)
    requires 1 <= |ids| <= 4
    ensures |Fired(ids)| == |ids|
  {
    if |ids| > 1 {
      FiredLength(ids[..|ids| - 1]);
    }
  }

  /** The `i`-th update is the one of the ancestor `i` levels up. */
  lemma {:induction false} FiredAt(ids: seq<string>, i: nat)
    requires 1 <= |ids| <= 4 && i < |ids|
    ensures i < |Fired(ids)| && Fired(ids)[i] == Update(TypeNameAt(|ids| - i), EventPath(ids[..|ids| - i]))
  {
    FiredLength(ids);
    if i == 0 {
      TakeAll(ids);
    } else {
      var init := ids[..|ids| - 1];
      FiredAt(init, i - 1);
      TakeOfFront(ids, |ids| - i);
    }
  }

  /** One failing step of the children loop: the error is kept and the table is left as it was. */
  lemma InitChildrenErr(parent: Option<Class>, kids: Json, i: nat, base: Dict<Obj>, now: int, done: Dict<Obj>, e: Error)
    requires CanHaveChildren(parent) && kids.JObj? && i < |kids.members|
    requires InitChildren(parent, kids, i, base, now) == (done, None)
    requires ConstructChild(parent, kids.members[i].1, now) == Err(e)
    ensures InitChildren(parent, kids, i + 1, base, now) == (done, Some(e))
  {
  }

  /** Once the children loop has failed, the later entries are never looked at. */
  lemma {:induction false} InitChildrenStops(parent: Option<Class>, kids: Json, m: nat, n: nat, base: Dict<Obj>, now: int)
    requires CanHaveChildren(parent) && kids.JObj? && m <= n <= |kids.members|
    requires InitChildren(parent, kids, m, base, now).1.Some?
    ensures InitChildren(parent, kids, n, base, now) == InitChildren(parent, kids, m, base, now)
  {
    if m < n {
      InitChildrenStops(parent, kids, m, n - 1, base, now);
    }
  }

  /** The `missing` loop of `__init__`. */
  method CollectMissing(names: seq<string>, fields: Dict<Json>) returns (missing: seq<string>)
    ensures missing == Missing(names, fields)
  {
    missing := [];
    for i := 0 to |names|
      invariant missing == Missing(names[..i], fields)
    {
      assert names[..i + 1][..i] == names[..i];
      var name := names[i];
      var value := Get(fields, name);
      if value.None? || value == Some(JNull) {
        missing := missing + [name];
      }
    }
    TakeAll(names);
  }

  /** The `setattr` loop of `__init__`: every field that is not the child field, in declaration order. */
  method AssignFields(c: Class, fields: Dict<Json>, init: Dict<Json>) returns (attrs: Dict<Json>)
    ensures attrs == SetAttrs(c, Fields(c), fields, init)
  {
    var names := Fields(c);
    attrs := init;
    for i := 0 to |names|
      invariant attrs == SetAttrs(c, names[..i], fields, init)
    {
      SetAttrsStep(c, names, i, fields, init);
      var name := names[i];
      if ChildField(c) != Some(name) {
        attrs := Put(attrs, name, FieldValue(fields, name));
      }
    }
    TakeAll(names);
  }

  /** One step of the `setattr` loop. */
  lemma SetAttrsStep(c: Class, names: seq<string>, i: nat, fields: Dict<Json>, init: Dict<Json>)
    requires i < |names|
    ensures SetAttrs(c, names[..i + 1], fields, init)
      == if ChildField(c) == Some(names[i]) then SetAttrs(c, names[..i], fields, init)
         else Put(SetAttrs(c, names[..i], fields, init), names[i], FieldValue(fields, names[i]))
  {
    assert names[..i + 1][..i] == names[..i];
  }

  /** `cls(model, id, parent, **data)`: `__init__` followed by `_init_children`. */
  method NewObject(c: Class, data: Json, now: int) returns (r: Result<Obj, Error>)
    ensures r == Construct(c, data, now)
    decreases data, 1
  {
    if !data.JObj? || CollidesWithParameters(data.members) {
      return Err(TypeError);
    }
    var fields := data.members;
    var updateTime := match Get(fields, "update_time") case Some(v) => v case None => JNum(now);
    var missing := CollectMissing(RequiredFields(c), fields);
    if |missing| > 0 {
      return Err(BadData(missing));
    }
    var attrs := AssignFields(c, fields, [("update_time", updateTime)]);
    match ChildField(c) {
      case None =>
        r := Ok(Obj(c, attrs, []));
      case Some(name) =>
        var kidsData := Get(fields, name);
        if kidsData.None? {
          r := Ok(Obj(c, attrs, []));
        } else {
          MemberSmaller(fields, name);
          if !kidsData.value.JObj? {
            return Err(AttributeError);
          }
          var kids, err := FillChildren(Some(c), kidsData.value, [], now);
          r := if err.Some? then Err(err.value) else Ok(Obj(c, attrs, kids));
        }
    }
  }

  /** `Artifact.create(model, id, parent, **data)`. */
  method NewArtifact(data: Json, now: int) returns (r: Result<Obj, Error>)
    ensures r == CreateArtifact(data, now)
    decreases data, 2
  {
    if !data.JObj? || CollidesWithCreate(data.members) {
      return Err(TypeError);
    }
    var t := Get(data.members, "type");
    if t.None? {
      return Err(NoTypeField);
    }
    var c := ArtifactClass(t.value);
    if c.Err? {
      return Err(c.error);
    }
    r := NewObject(c.value, data, now);
  }

  /** The constructor call in a `_init_children` loop (or in `Model.load` for a repo). */
  method NewChild(parent: Option<Class>, data: Json, now: int) returns (r: Result<Obj, Error>)
    requires CanHaveChildren(parent)
    ensures r == ConstructChild(parent, data, now)
    decreases data, 3
  {
    match parent
    case None => r := NewObject(RepoClass, data, now);
    case Some(RepoClass) => r := NewObject(BranchClass, data, now);
    case Some(BranchClass) => r := NewObject(TagClass, data, now);
    case Some(TagClass) => r := NewArtifact(data, now);
  }

  /** The `_init_children` loop: construct each child and store it under its id, stopping at the first error. */
  method FillChildren(parent: Option<Class>, kids: Json, base: Dict<Obj>, now: int) returns (children: Dict<Obj>, err: Option<Error>)
    requires CanHaveChildren(parent) && kids.JObj?
    ensures (children, err) == InitChildren(parent, kids, |kids.members|, base, now)
    decreases kids, 1
  {
    children, err := base, None;
    var i := 0;
    while i < |kids.members| && err.None?
      invariant 0 <= i <= |kids.members|
      invariant InitChildren(parent, kids, i, base, now) == (children, err)
    {
      children, err := StoreChild(parent, kids, i, base, children, now);
      i := i + 1;
    }
    if err.Some? {
      InitChildrenStops(parent, kids, i, |kids.members|, base, now);
    }
  }

  /** One pass of the `_init_children` loop: `children[id] = cls(..., **d)` for the `i`-th entry. */
  method StoreChild(parent: Option<Class>, kids: Json, i: nat, base: Dict<Obj>, done: Dict<Obj>, now: int)
    returns (children: Dict<Obj>, err: Option<Error>)
    requires CanHaveChildren(parent) && kids.JObj? && i < |kids.members|
    requires InitChildren(parent, kids, i, base, now) == (done, None)
    ensures InitChildren(parent, kids, i + 1, base, now) == (children, err)
    decreases kids, 0
  {
    var id, d := kids.members[i].0, kids.members[i].1;
    assert kids.members[i] in kids.members;
    var child := NewChild(parent, d, now);
    if child.Err? {
      InitChildrenErr(parent, kids, i, base, now, done, child.error);
      children, err := done, Some(child.error);
    } else {
      InitChildrenOk(parent, kids, i, base, now, done, child.value);
      children, err := Put(done, id, child.value), None;
    }
  }

  /** Serialised children are uniquely keyed when the children are. */
  lemma DataOfUnique(kids: Dict<Obj>)
    requires UniqueKeys(kids)
    ensures UniqueKeys(DataOf(kids))
  {
    UniqueKeysDistinct(kids);
    UniqueKeysDistinct(DataOf(kids));
  }

  /** `data()`: the attributes in order, then the child field holding `_child_data` of the children. */
  method Serialize(o: Obj) returns (j: Json)
    requires WellFormed(o)
    ensures j == ObjData(o)
    decreases o, 1
  {
    var fields: Dict<Json> := [];
    for i := 0 to |o.attrs|
      invariant fields == o.attrs[..i]
    {
      PutNext(o.attrs, i);
      fields := Put(fields, o.attrs[i].0, o.attrs[i].1);
    }
    TakeAll(o.attrs);
    ObjDataChildren(o);
    match ChildField(o.cls) {
      case None =>
        assert o.attrs + [] == o.attrs;
      case Some(name) =>
        var kids := ChildData(o);
        assert name !in Keys(o.attrs);
        PutAppend(fields, name, JObj(kids));
        fields := Put(fields, name, JObj(kids));
    }
    j := JObj(fields);
  }

  /** `_child_data(children)`: each child's `data()` under its id, in order. */
  method ChildData(o: Obj) returns (d: Dict<Json>)
    requires WellFormed(o)
    ensures d == DataOf(o.children)
    decreases o, 0
  {
    d := [];
    DataOfUnique(o.children);
    for i := 0 to |o.children|
      invariant d == DataOf(o.children)[..i]
    {
      var (id, child) := o.children[i];
      assert o.children[i] in o.children;
      var cd := Serialize(child);
      PutNext(DataOf(o.children), i);
      d := Put(d, id, cd);
    }
    TakeAll(DataOf(o.children));
  }
}
