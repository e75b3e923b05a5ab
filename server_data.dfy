/**
 * The strict store of server/data.py: a tag or an artifact is a dictionary filled key by key
 * from keyword arguments, where an undeclared key or a declared key that stays missing raises
 * `DataError`.  Tags are keyed by `repository:branch:name`.
 */
module ServerData {
  import opened Wrappers
  import opened Dicts
  import opened Strings
  import opened Json

  /** The exceptions the code raises. */
  datatype Error =
    | DataError(message: string)
    | KeyError(key: Json)
    | TypeError             // `**` of a non-mapping, an unhashable key, a bad `in` test
    | AttributeError        // `.items()` of a value that is not a dictionary
    | AssertionError(message: string)

  /** The artifact subclasses. */
  datatype Kind = ContainerImage | Maven | File | Rpm

  /** The classes built from keyword arguments. */
  datatype Class = TagClass | ArtifactClass(kind: Kind)

  /** The `type` value `Artifact._subclasses_by_type` maps to each subclass. */
  function TypeName(k: Kind): string
  {
    match k
    case ContainerImage => "container-image"
    case Maven => "maven"
    case File => "file"
    case Rpm => "rpm"
  }

  /** Each class's `_fields`. */
  function FieldsOf(c: Class): (fs: seq<string>)
    ensures forall i, j :: 0 <= i < j < |fs| ==> fs[i] != fs[j]
    ensures c.ArtifactClass? ==> "type" in fs
  {
    match c
    case TagClass => ["repository", "repository_url", "branch", "name", "commit", "artifacts"]
    case ArtifactClass(ContainerImage) => ["type", "registry_url", "repository", "id"]
    case ArtifactClass(Maven) => ["type", "repository_url", "group", "artifact", "version"]
    case ArtifactClass(File) => ["type", "url"]
    case ArtifactClass(Rpm) => ["type", "repository_url", "name", "version", "release"]
  }

  /** `Artifact._subclasses_by_type[t]`: a list or dictionary is unhashable; any other unknown value is a missing key. */
  function KindOf(t: Json): (r: Result<Kind, Error>)
    ensures forall k :: t == JStr(TypeName(k)) ==> r == Ok(k)
    ensures r.Ok? ==> t == JStr(TypeName(r.value))
    ensures r.Err? ==> r.error == (if t.JArr? || t.JObj? then TypeError else KeyError(t))
  {
    match t
    case JStr("container-image") => Ok(ContainerImage)
    case JStr("maven") => Ok(Maven)
    case JStr("file") => Ok(File)
    case JStr("rpm") => Ok(Rpm)
    case JArr(_) => Err(TypeError)
    case JObj(_) => Err(TypeError)
    case _ => Err(KeyError(t))
  }

  /**
   * The dispatch in `Tag._process_field`: `"type" not in ivalue`, then the class of
   * `ivalue["type"]`.  An object answers `in` by its keys; a list by its elements and a string by
   * its substrings, either of which then fails the lookup; any other value cannot be searched.
   */
  function ArtifactKindOf(v: Json): (r: Result<Kind, Error>)
    ensures r.Ok? ==> v.JObj? && Get(v.members, "type") == Some(JStr(TypeName(r.value)))
    ensures v.JObj? && Get(v.members, "type").None? ==> r == Err(DataError("Artifact has no type field"))
  {
    match v
    case JObj(m) =>
      if Get(m, "type").None? then Err(DataError("Artifact has no type field")) else KindOf(Get(m, "type").value)
    case JArr(items) => if JStr("type") in items then Err(TypeError) else Err(DataError("Artifact has no type field"))
    case JStr(s) => if Contains(s, "type") then Err(TypeError) else Err(DataError("Artifact has no type field"))
    case _ => Err(TypeError)
  }

  /** Only a tag holds objects built in turn. */
  function Rank(c: Class): nat
  {
    if c.TagClass? then 1 else 0
  }

  /** `_DataObject.__init__(**kwargs)`: fill the dictionary, then `_check_fields`. */
  function NewObject(c: Class, kwargs: Dict<Json>): Result<Dict<Json>, Error>
    decreases Rank(c), 3, 0
  {
    var fields :- FillFields(c, kwargs);
    match Missing(FieldsOf(c), fields)
    case Some(name) => Err(DataError("Missing field '" + name + "'"))
    case None => Ok(fields)
  }

  /** The loop of `__init__` over `kwargs.items()`: `setattr(self, *self._process_field(name, value))`. */
  function FillFields(c: Class, kwargs: Dict<Json>): Result<Dict<Json>, Error>
    decreases Rank(c), 2, |kwargs|
  {
    if |kwargs| == 0 then Ok([])
    else
      var done :- FillFields(c, kwargs[..|kwargs| - 1]);
      var (name, value) := kwargs[|kwargs| - 1];
      var v :- ProcessField(c, name, value);
      Ok(Put(done, name, v))
  }

  /** `_process_field`: an undeclared name is an error; a tag's `artifacts` are built into artifact objects. */
  function ProcessField(c: Class, name: string, value: Json): (r: Result<Json, Error>)
    ensures name !in FieldsOf(c) ==> r == Err(DataError("Extra field '" + name + "'"))
    ensures name in FieldsOf(c) && !(c.TagClass? && name == "artifacts") ==> r == Ok(value)
    decreases Rank(c), 1, 0
  {
    if name !in FieldsOf(c) then Err(DataError("Extra field '" + name + "'"))
    else if c.TagClass? && name == "artifacts" then
      if !value.JObj? then Err(AttributeError)
      else
        var artifacts :- BuildArtifacts(value.members);
        Ok(JObj(artifacts))
    else Ok(value)
  }

  /** The artifact loop of `Tag._process_field`: `artifacts[iname] = cls(**ivalue)`; the first error stops it. */
  function BuildArtifacts(items: Dict<Json>): Result<Dict<Json>, Error>
    decreases 1, 0, |items|
  {
    if |items| == 0 then Ok([])
    else
      var done :- BuildArtifacts(items[..|items| - 1]);
      var (id, value) := items[|items| - 1];
      var k :- ArtifactKindOf(value);
      var artifact :- NewObject(ArtifactClass(k), value.members);
      Ok(Put(done, id, JObj(artifact)))
  }

  /** `_check_fields`: the first declared name that is not a key, if any. */
  function Missing(names: seq<string>, fields: Dict<Json>): (r: Option<string>)
    ensures r.None? <==> forall n :: n in names ==> n in Keys(fields)
    ensures r.Some? ==> r.value in names && r.value !in Keys(fields)
  {
    if |names| == 0 then None
    else if names[0] !in Keys(fields) then assert names[0] in names; Some(names[0])
    else
      var r := Missing(names[1..], fields);
      assert r.None? ==> forall n :: n in names ==> n in Keys(fields) by {
        if r.None? {
          forall n | n in names
            ensures n in Keys(fields)
          {
            if n != names[0] {
              assert n in names[1..];
            }
          }
        }
      }
      assert r.Some? ==> r.value in names by {
        if r.Some? {
          var i :| 0 <= i < |names[1..]| && names[1..][i] == r.value;
          assert names[i + 1] == r.value;
        }
      }
      r
  }

  /** The name reported is the first declared one that is absent. */
  lemma {:induction false} MissingFirst(names: seq<string>, fields: Dict<Json>, i: nat)
    requires i < |names| && names[i] !in Keys(fields)
    requires forall j :: 0 <= j < i ==> names[j] in Keys(fields)
    ensures Missing(names, fields) == Some(names[i])
  {
    if i > 0 {
      assert names[0] in Keys(fields);
      MissingFirst(names[1..], fields, i - 1);
    }
  }

  // ---------------------------------------------------------------------------------------------
  // Validation

  lemma FillStep(c: Class, kwargs: Dict<Json>, i: nat)
    requires i < |kwargs|
    ensures FillFields(c, kwargs[..i + 1]) ==
      match FillFields(c, kwargs[..i])
      case Err(e) => Err(e)
      case Ok(done) =>
        match ProcessField(c, kwargs[i].0, kwargs[i].1)
        case Err(e) => Err(e)
        case Ok(v) => Ok(Put(done, kwargs[i].0, v))
  {
    assert kwargs[..i + 1][..i] == kwargs[..i];
  }

  /** Once the loop has failed it stays failed. */
  lemma {:induction false} FillErr(c: Class, kwargs: Dict<Json>, i: nat)
    requires i <= |kwargs| && FillFields(c, kwargs[..i]).Err?
    ensures FillFields(c, kwargs) == FillFields(c, kwargs[..i])
    decreases |kwargs| - i
  {
    if i < |kwargs| {
      FillStep(c, kwargs, i);
      FillErr(c, kwargs, i + 1);
    } else {
      TakeAll(kwargs);
    }
  }

  /**
   * An undeclared field raises `DataError` naming it, as soon as the loop reaches it: every
   * argument before it having been accepted, the object is not built.
   */
  lemma ExtraField(c: Class, kwargs: Dict<Json>, i: nat)
    requires i < |kwargs| && FillFields(c, kwargs[..i]).Ok? && kwargs[i].0 !in FieldsOf(c)
    ensures NewObject(c, kwargs) == Err(DataError("Extra field '" + kwargs[i].0 + "'"))
  {
    FillStep(c, kwargs, i);
    FillErr(c, kwargs, i + 1);
  }

  /** The keys filled in are the argument names, each of them declared. */
  lemma {:induction false} FillKeys(c: Class, kwargs: Dict<Json>)
    requires FillFields(c, kwargs).Ok?
    ensures UniqueKeys(FillFields(c, kwargs).value)
    ensures forall n :: n in Keys(FillFields(c, kwargs).value) <==> n in Keys(kwargs)
    ensures forall n :: n in Keys(kwargs) ==> n in FieldsOf(c)
  {
    if |kwargs| > 0 {
      var init := kwargs[..|kwargs| - 1];
      FillKeys(c, init);
      var done := FillFields(c, init).value;
      var (name, value) := kwargs[|kwargs| - 1];
      PutFacts(done, name, ProcessField(c, name, value).value);
      FrontLast(kwargs);
      KeysAppend(init, [(name, value)]);
    }
  }

  /**
   * An object is built exactly when the loop accepts every argument and then every declared
   * field is present: its keys are then exactly the declared fields.
   */
  lemma FieldsExact(c: Class, kwargs: Dict<Json>)
    ensures NewObject(c, kwargs).Ok? <==>
      FillFields(c, kwargs).Ok? && forall n :: n in FieldsOf(c) ==> n in Keys(FillFields(c, kwargs).value)
    ensures NewObject(c, kwargs).Ok? ==>
      UniqueKeys(NewObject(c, kwargs).value) && forall n :: n in Keys(NewObject(c, kwargs).value) <==> n in FieldsOf(c)
  {
    if FillFields(c, kwargs).Ok? {
      FillKeys(c, kwargs);
    }
  }

  /** A declared field left out raises `DataError` naming the first such field. */
  lemma MissingField(c: Class, kwargs: Dict<Json>, i: nat)
    requires FillFields(c, kwargs).Ok? && i < |FieldsOf(c)|
    requires FieldsOf(c)[i] !in Keys(kwargs)
    requires forall j :: 0 <= j < i ==> FieldsOf(c)[j] in Keys(kwargs)
    ensures NewObject(c, kwargs) == Err(DataError("Missing field '" + FieldsOf(c)[i] + "'"))
  {
    FillKeys(c, kwargs);
    MissingFirst(FieldsOf(c), FillFields(c, kwargs).value, i);
  }

  /** An artifact keeps the values it was given: only a tag's `artifacts` are processed. */
  lemma {:induction false} FillValues(c: Class, kwargs: Dict<Json>, name: string)
    requires FillFields(c, kwargs).Ok? && UniqueKeys(kwargs)
    requires !(c.TagClass? && name == "artifacts")
    ensures Get(FillFields(c, kwargs).value, name) == Get(kwargs, name)
  {
    if |kwargs| > 0 {
      var init := kwargs[..|kwargs| - 1];
      var (n, v) := kwargs[|kwargs| - 1];
      FrontLast(kwargs);
      UniquePrefix(kwargs, |kwargs| - 1);
      var done := FillFields(c, init).value;
      var pv := ProcessField(c, n, v).value;
      assert FillFields(c, kwargs).value == Put(done, n, pv);
      GetAppend(init, [(n, v)], name);
      if name == n {
        assert Get([(n, v)], name) == Some(v);
      } else {
        FillValues(c, init, name);
        PutFacts(done, n, pv);
        assert Get([(n, v)], name) == None;
      }
    }
  }

  /** An artifact without `type` raises `DataError`, and `type` naming no subclass `KeyError`. */
  lemma TypeErrors(m: Dict<Json>, t: string)
    ensures Get(m, "type").None? ==> ArtifactKindOf(JObj(m)) == Err(DataError("Artifact has no type field"))
    ensures Get(m, "type") == Some(JStr(t)) && (forall k :: t != TypeName(k)) ==>
      ArtifactKindOf(JObj(m)) == Err(KeyError(JStr(t)))
  {
  }

  // ---------------------------------------------------------------------------------------------
  // Records as stored

  /** A record whose keys are exactly its class's fields. */
  predicate Exact(c: Class, r: Dict<Json>)
  {
    && UniqueKeys(r)
    && (forall n :: n in Keys(r) ==> n in FieldsOf(c))
    && (forall n :: n in FieldsOf(c) ==> n in Keys(r))
  }

  /** A stored artifact: an object whose `type` names its class and whose keys are that class's fields. */
  predicate ArtifactValid(v: Json)
  {
    ArtifactKindOf(v).Ok? && Exact(ArtifactClass(ArtifactKindOf(v).value), v.members)
  }

  /** A record as `NewObject` leaves it; a tag's `artifacts` are stored artifacts by id. */
  predicate RecordValid(c: Class, r: Dict<Json>)
  {
    && Exact(c, r)
    && (c.TagClass? ==> ArtifactsStored(r))
  }

  /** A tag's `artifacts` field holds an object of stored artifacts, uniquely keyed. */
  predicate ArtifactsStored(r: Dict<Json>)
  {
    && Get(r, "artifacts").Some? && Get(r, "artifacts").value.JObj?
    && var a := Get(r, "artifacts").value.members;
       UniqueKeys(a) && forall e | e in a :: ArtifactValid(e.1)
  }

  /** Built artifacts are stored artifacts, uniquely keyed. */
  lemma {:induction false} BuildArtifactsValid(items: Dict<Json>)
    requires BuildArtifacts(items).Ok? && forall i | 0 <= i < |items| :: Decoded(items[i].1)
    ensures UniqueKeys(BuildArtifacts(items).value) && forall e | e in BuildArtifacts(items).value :: ArtifactValid(e.1)
  {
    if |items| > 0 {
      var init := items[..|items| - 1];
      BuildArtifactsValid(init);
      var done := BuildArtifacts(init).value;
      var (id, value) := items[|items| - 1];
      var k := ArtifactKindOf(value).value;
      var art := NewObject(ArtifactClass(k), value.members).value;
      FieldsExact(ArtifactClass(k), value.members);
      FillValues(ArtifactClass(k), value.members, "type");
      assert ArtifactKindOf(JObj(art)) == Ok(k);
      PutFacts(done, id, JObj(art));
      PutEntries(done, id, JObj(art));
    }
  }

  /** Every object built is a valid record of its class. */
  lemma NewObjectValid(c: Class, kwargs: Dict<Json>)
    requires NewObject(c, kwargs).Ok? && forall i | 0 <= i < |kwargs| :: Decoded(kwargs[i].1)
    ensures RecordValid(c, NewObject(c, kwargs).value)
  {
    FieldsExact(c, kwargs);
    FillKeys(c, kwargs);
    if c.TagClass? {
      TagArtifactsValid(kwargs);
    }
  }

  lemma {:induction false} TagArtifactsValid(kwargs: Dict<Json>)
    requires FillFields(TagClass, kwargs).Ok? && "artifacts" in Keys(kwargs)
    requires forall i | 0 <= i < |kwargs| :: Decoded(kwargs[i].1)
    ensures ArtifactsStored(FillFields(TagClass, kwargs).value)
  {
    var init := kwargs[..|kwargs| - 1];
    var (n, v) := kwargs[|kwargs| - 1];
    FrontLast(kwargs);
    KeysAppend(init, [(n, v)]);
    var done := FillFields(TagClass, init).value;
    var pv := ProcessField(TagClass, n, v).value;
    var r := Put(done, n, pv);
    assert FillFields(TagClass, kwargs).value == r;
    PutFacts(done, n, pv);
    if n == "artifacts" {
      BuildArtifactsValid(v.members);
      assert pv == JObj(BuildArtifacts(v.members).value);
      assert Get(r, "artifacts") == Some(pv);
    } else {
      TagArtifactsValid(init);
      assert Get(r, "artifacts") == Get(done, "artifacts");
    }
  }

  /** Filling from a record's own entries, each processed back to itself, gives the record back. */
  lemma {:induction false} FillRestores(c: Class, r: Dict<Json>, n: nat)
    requires UniqueKeys(r) && n <= |r|
    requires forall i :: 0 <= i < |r| ==> ProcessField(c, r[i].0, r[i].1) == Ok(r[i].1)
    ensures FillFields(c, r[..n]) == Ok(r[..n])
  {
    if n > 0 {
      FillRestores(c, r, n - 1);
      FillStep(c, r, n - 1);
      PutNext(r, n - 1);
    }
  }

  /** A record whose keys are its class's fields, each processed back to itself, is rebuilt unchanged. */
  lemma RecordRestores(c: Class, r: Dict<Json>)
    requires Exact(c, r)
    requires forall i :: 0 <= i < |r| ==> ProcessField(c, r[i].0, r[i].1) == Ok(r[i].1)
    ensures NewObject(c, r) == Ok(r)
  {
    FillRestores(c, r, |r|);
    TakeAll(r);
  }

  /** A stored artifact is rebuilt unchanged from its entries. */
  lemma ArtifactRestores(v: Json)
    requires ArtifactValid(v)
    ensures NewObject(ArtifactClass(ArtifactKindOf(v).value), v.members) == Ok(v.members)
  {
    var c := ArtifactClass(ArtifactKindOf(v).value);
    forall i | 0 <= i < |v.members|
      ensures ProcessField(c, v.members[i].0, v.members[i].1) == Ok(v.members[i].1)
    {
      KeyAt(v.members, i);
    }
    RecordRestores(c, v.members);
  }

  /** The stored artifacts of a tag are rebuilt unchanged. */
  lemma {:induction false} ArtifactsRestore(a: Dict<Json>, n: nat)
    requires UniqueKeys(a) && n <= |a| && forall e | e in a :: ArtifactValid(e.1)
    ensures BuildArtifacts(a[..n]) == Ok(a[..n])
  {
    if n > 0 {
      ArtifactsRestore(a, n - 1);
      assert a[n - 1] in a;
      ArtifactRestoresNext(a, n);
    }
  }

  lemma ArtifactRestoresNext(a: Dict<Json>, n: nat)
    requires UniqueKeys(a) && 0 < n <= |a| && ArtifactValid(a[n - 1].1)
    requires BuildArtifacts(a[..n - 1]) == Ok(a[..n - 1])
    ensures BuildArtifacts(a[..n]) == Ok(a[..n])
  {
    TakeTake(a, n - 1, n);
    var value := a[n - 1].1;
    ArtifactRestores(value);
    BuildArtifactsStep(a[..n], a[..n - 1], value.members);
    PutNext(a, n - 1);
  }

  /** One more turn of the artifact loop, when the last artifact builds. */
  lemma BuildArtifactsStep(items: Dict<Json>, done: Dict<Json>, m: Dict<Json>)
    requires |items| > 0 && BuildArtifacts(items[..|items| - 1]) == Ok(done)
    requires ArtifactKindOf(items[|items| - 1].1).Ok?
    requires NewObject(ArtifactClass(ArtifactKindOf(items[|items| - 1].1).value), items[|items| - 1].1.members) == Ok(m)
    ensures BuildArtifacts(items) == Ok(Put(done, items[|items| - 1].0, JObj(m)))
  {
  }

  /** Rebuilding a valid record, as `load` does with a saved tag, gives it back unchanged. */
  lemma TagRestores(r: Dict<Json>)
    requires RecordValid(TagClass, r)
    ensures NewObject(TagClass, r) == Ok(r)
  {
    var a := Get(r, "artifacts").value.members;
    ArtifactsRestore(a, |a|);
    TakeAll(a);
    forall i | 0 <= i < |r|
      ensures ProcessField(TagClass, r[i].0, r[i].1) == Ok(r[i].1)
    {
      KeyAt(r, i);
      if r[i].0 == "artifacts" {
        GetAt(r, i);
      }
    }
    RecordRestores(TagClass, r);
  }

  // ---------------------------------------------------------------------------------------------
  // Tag ids

  /** `str(value)` inside an f-string, for the values a decoded document holds other than containers. */
  function PyStr(v: Json): Option<string>
  {
    match v
    case JStr(s) => Some(s)
    case JNull => Some("None")
    case JBool(b) => Some(if b then "True" else "False")
    case JNum(n) => Some(if n < 0 then "-" + NatToString(-n) else NatToString(n))
    case _ => None
  }

  /** `Tag.id`: `repository:branch:name`, reading a missing field as `None`. */
  function TagId(tag: Dict<Json>): Option<string>
  {
    var repository :- PyStr(Arg(tag, "repository"));
    var branch :- PyStr(Arg(tag, "branch"));
    var name :- PyStr(Arg(tag, "name"));
    Some(repository + ":" + branch + ":" + name)
  }

  /** `dict.get`, the class's `__getattr__`: `None` for a missing key. */
  function Arg(d: Dict<Json>, name: string): Json
  {
    match Get(d, name)
    case Some(v) => v
    case None => JNull
  }

  /** Ids of tags whose repository, branch and name contain no `:` split back into those three. */
  lemma TagIdSplits(repository: string, branch: string, name: string)
    requires ':' !in repository && ':' !in branch && ':' !in name
    ensures Split(repository + ":" + branch + ":" + name, ':') == [repository, branch, name]
  {
    SplitNone(name, ':');
    SplitFirst(branch, ':', name);
    assert branch + ":" + name == branch + [':'] + name;
    SplitFirst(repository, ':', branch + ":" + name);
    assert repository + ":" + branch + ":" + name == repository + [':'] + (branch + ":" + name);
  }

  /** So such tags share an id only when they share all three. */
  lemma TagIdInjective(t1: Dict<Json>, t2: Dict<Json>)
    requires TagId(t1).Some? && TagId(t1) == TagId(t2)
    requires forall n :: n in ["repository", "branch", "name"] ==>
      && PyStr(Arg(t1, n)).Some? && ':' !in PyStr(Arg(t1, n)).value
      && PyStr(Arg(t2, n)).Some? && ':' !in PyStr(Arg(t2, n)).value
    ensures forall n :: n in ["repository", "branch", "name"] ==> PyStr(Arg(t1, n)) == PyStr(Arg(t2, n))
  {
    var r1, b1, n1 := PyStr(Arg(t1, "repository")).value, PyStr(Arg(t1, "branch")).value, PyStr(Arg(t1, "name")).value;
    var r2, b2, n2 := PyStr(Arg(t2, "repository")).value, PyStr(Arg(t2, "branch")).value, PyStr(Arg(t2, "name")).value;
    TagIdSplits(r1, b1, n1);
    TagIdSplits(r2, b2, n2);
  }

  /**
   * A `:` inside a field lets two different tags share an id, so storing one replaces the other:
   * `a:b` / `c` and `a` / `b:c` both give `a:b:c:name`.
   */
  lemma TagIdCollides(a: string, b: string, c: string, name: string)
    ensures var t1 := [("repository", JStr(a + ":" + b)), ("branch", JStr(c)), ("name", JStr(name))];
      var t2 := [("repository", JStr(a)), ("branch", JStr(b + ":" + c)), ("name", JStr(name))];
      t1 != t2 && TagId(t1).Some? && TagId(t1) == TagId(t2)
  {
    var t1 := [("repository", JStr(a + ":" + b)), ("branch", JStr(c)), ("name", JStr(name))];
    var t2 := [("repository", JStr(a)), ("branch", JStr(b + ":" + c)), ("name", JStr(name))];
    assert |a + ":" + b| != |a|;
    assert t1[0] != t2[0];
    TagIdOf(a + ":" + b, c, name);
    TagIdOf(a, b + ":" + c, name);
    Regroup(a, ":", b, c, name);
  }

  lemma Regroup<T>(a: seq<T>, sep: seq<T>, b: seq<T>, c: seq<T>, d: seq<T>)
    ensures (a + sep + b) + sep + c + sep + d == a + sep + (b + sep + c) + sep + d
  {
  }

  /** The id of a record that holds the three fields as strings, in that order. */
  lemma TagIdOf(repository: string, branch: string, name: string)
    ensures TagId([("repository", JStr(repository)), ("branch", JStr(branch)), ("name", JStr(name))])
      == Some(repository + ":" + branch + ":" + name)
  {
    var t := [("repository", JStr(repository)), ("branch", JStr(branch)), ("name", JStr(name))];
    assert Arg(t, "repository") == JStr(repository);
    assert Arg(t, "branch") == JStr(branch);
    assert Get(t[1..][1..], "name") == Some(JStr(name));
    assert Arg(t, "name") == JStr(name);
  }

  // ---------------------------------------------------------------------------------------------
  // The store

  /**
   * `"tags" in data` on the decoded document, and `data["tags"]` when it holds: an object
   * answers by its keys; a list or a string answers by elements or substrings and then fails
   * the lookup; any other value cannot be searched.
   */
  function TagsOf(doc: Json): (r: Result<Json, Error>)
    ensures r.Ok? <==> doc.JObj? && Get(doc.members, "tags").Some?
    ensures r.Ok? ==> r.value == Get(doc.members, "tags").value
    ensures doc.JObj? && Get(doc.members, "tags").None? ==> r == Err(AssertionError("No tags in data"))
  {
    match doc
    case JObj(m) => if Get(m, "tags").None? then Err(AssertionError("No tags in data")) else Ok(Get(m, "tags").value)
    case JArr(items) => if JStr("tags") in items then Err(TypeError) else Err(AssertionError("No tags in data"))
    case JStr(s) => if Contains(s, "tags") then Err(TypeError) else Err(AssertionError("No tags in data"))
    case _ => Err(TypeError)
  }

  /** `Tag(**value)`: a value that is not a mapping raises `TypeError`. */
  function NewTag(value: Json): Result<Dict<Json>, Error>
  {
    if value.JObj? then NewObject(TagClass, value.members) else Err(TypeError)
  }

  /** The loop of `load` from its `n`-th entry on: tags stored one by one under their saved ids until one fails. */
  function LoadFrom(items: Dict<Json>, n: nat, tags: Dict<Dict<Json>>): (Dict<Dict<Json>>, Option<Error>)
    requires n <= |items|
    decreases |items| - n
  {
    if n == |items| then (tags, None)
    else match NewTag(items[n].1)
      case Err(e) => (tags, Some(e))
      case Ok(t) => LoadFrom(items, n + 1, Put(tags, items[n].0, t))
  }

  /** `Data.load()` of a decoded document into the current tags. */
  function LoadInto(doc: Json, tags: Dict<Dict<Json>>): (Dict<Dict<Json>>, Option<Error>)
  {
    var found := TagsOf(doc);
    if found.Err? then (tags, Some(found.error))
    else if found.value.JObj? then LoadFrom(found.value.members, 0, tags)
    else (tags, Some(AttributeError))
  }

  /** The document `save` writes: `{"tags": self.tags}`, each tag a dictionary. */
  function SaveDoc(tags: Dict<Dict<Json>>): (doc: Json)
    ensures doc.JObj? && |doc.members| == 1 && doc.members[0].0 == "tags" && doc.members[0].1.JObj?
    ensures |doc.members[0].1.members| == |tags|
    ensures forall i :: 0 <= i < |tags| ==> doc.members[0].1.members[i] == (tags[i].0, JObj(tags[i].1))
  {
    JObj([("tags", JObj(seq(|tags|, i requires 0 <= i < |tags| => (tags[i].0, JObj(tags[i].1)))))])
  }

  predicate StoreValid(tags: Dict<Dict<Json>>)
  {
    UniqueKeys(tags) && forall e | e in tags :: RecordValid(TagClass, e.1)
  }

  lemma {:induction false} LoadFromRestores(tags: Dict<Dict<Json>>, n: nat)
    requires StoreValid(tags) && n <= |tags|
    ensures LoadFrom(SaveDoc(tags).members[0].1.members, n, tags[..n]) == (tags, None)
    decreases |tags| - n
  {
    var items := SaveDoc(tags).members[0].1.members;
    if n < |tags| {
      assert tags[n] in tags;
      TagRestores(tags[n].1);
      assert items[n] == (tags[n].0, JObj(tags[n].1));
      assert NewTag(items[n].1) == Ok(tags[n].1);
      PutNext(tags, n);
      LoadFromRestores(tags, n + 1);
    } else {
      TakeAll(tags);
    }
  }

  /** Loading what `save` wrote into an empty store gives back the same tags under the same ids. */
  lemma LoadRestores(tags: Dict<Dict<Json>>)
    requires StoreValid(tags)
    ensures LoadInto(SaveDoc(tags), []) == (tags, None)
  {
    LoadFromRestores(tags, 0);
    assert tags[..0] == [];
  }

  /** A member of a decoded object is decoded. */
  lemma DecodedMember(m: Dict<Json>, name: string)
    requires Decoded(JObj(m)) && Get(m, name).Some?
    ensures Decoded(Get(m, name).value)
  {
    var i :| 0 <= i < |m| && m[i] == (name, Get(m, name).value);
  }

  lemma PutValid(tags: Dict<Dict<Json>>, id: string, tag: Dict<Json>)
    requires StoreValid(tags) && RecordValid(TagClass, tag)
    ensures StoreValid(Put(tags, id, tag))
  {
    PutFacts(tags, id, tag);
    PutEntries(tags, id, tag);
  }

  /** The store of server/data.py: the tags by id. */
  class Data {
    var tags: Dict<Dict<Json>>

    ghost predicate Valid()
      reads this
    {
      StoreValid(tags)
    }

    constructor()
      ensures Valid() && tags == []
    {
      tags := [];
    }

    /** `put_tag`: the tag is stored under its id, replacing any tag stored there. */
    method PutTag(tag: Dict<Json>)
      requires Valid() && RecordValid(TagClass, tag) && TagId(tag).Some?
      modifies this
      ensures Valid()
      ensures tags == Put(old(tags), TagId(tag).value, tag)
      ensures Get(tags, TagId(tag).value) == Some(tag)
      ensures forall k :: k != TagId(tag).value ==> Get(tags, k) == Get(old(tags), k)
    {
      var id := TagId(tag).value;
      PutValid(tags, id, tag);
      PutFacts(tags, id, tag);
      tags := Put(tags, id, tag);
    }

    /** `delete_tag`: `KeyError` for an unknown id, otherwise only that tag goes. */
    method DeleteTag(id: string) returns (err: Option<Error>)
      requires Valid()
      modifies this
      ensures Valid()
      ensures Get(old(tags), id).None? ==> err == Some(KeyError(JStr(id))) && tags == old(tags)
      ensures Get(old(tags), id).Some? ==> err.None? && tags == Remove(old(tags), id)
    {
      if Get(tags, id).None? {
        return Some(KeyError(JStr(id)));
      }
      RemoveEntries(tags, id);
      tags := Remove(tags, id);
      err := None;
    }

    /** `load` of a decoded document: each tag is built and stored under its saved id; the first failure stops it. */
    method Load(doc: Json) returns (err: Option<Error>)
      requires Valid() && Decoded(doc)
      modifies this
      ensures Valid()
      ensures (tags, err) == LoadInto(doc, old(tags))
    {
      var found := TagsOf(doc);
      if found.Err? {
        return Some(found.error);
      }
      if !found.value.JObj? {
        return Some(AttributeError);
      }
      var items := found.value.members;
      DecodedMember(doc.members, "tags");
      var i := 0;
      while i < |items|
        invariant i <= |items| && Valid()
        invariant LoadFrom(items, i, tags) == LoadInto(doc, old(tags))
        decreases |items| - i
      {
        if !items[i].1.JObj? {
          return Some(TypeError);
        }
        var t := Construct(TagClass, items[i].1.members);
        if t.Err? {
          return Some(t.error);
        }
        assert Decoded(items[i].1);
        NewObjectValid(TagClass, items[i].1.members);
        PutValid(tags, items[i].0, t.value);
        tags := Put(tags, items[i].0, t.value);
        i := i + 1;
      }
      err := None;
    }
  }

  // ---------------------------------------------------------------------------------------------
  // The constructor loops

  /** `_DataObject.__init__`: the argument loop, then the `_check_fields` loop. */
  method Construct(c: Class, kwargs: Dict<Json>) returns (r: Result<Dict<Json>, Error>)
    ensures r == NewObject(c, kwargs)
    decreases Rank(c), 3, 0
  {
    var fields: Dict<Json> := [];
    for i := 0 to |kwargs|
      invariant FillFields(c, kwargs[..i]) == Ok(fields)
    {
      FillStep(c, kwargs, i);
      var v := Process(c, kwargs[i].0, kwargs[i].1);
      if v.Err? {
        FillErr(c, kwargs, i + 1);
        return Err(v.error);
      }
      fields := Put(fields, kwargs[i].0, v.value);
    }
    TakeAll(kwargs);
    var missing := CheckFields(FieldsOf(c), fields);
    if missing.Some? {
      return Err(DataError("Missing field '" + missing.value + "'"));
    }
    r := Ok(fields);
  }

  /** `_check_fields`. */
  method CheckFields(names: seq<string>, fields: Dict<Json>) returns (missing: Option<string>)
    ensures missing == Missing(names, fields)
  {
    for j := 0 to |names|
      invariant Missing(names, fields) == Missing(names[j..], fields)
    {
      if names[j] !in Keys(fields) {
        return Some(names[j]);
      }
      assert names[j..][1..] == names[j + 1..];
    }
    assert names[|names|..] == [];
    missing := None;
  }

  /** `_process_field`. */
  method Process(c: Class, name: string, value: Json) returns (r: Result<Json, Error>)
    ensures r == ProcessField(c, name, value)
    decreases Rank(c), 1, 0
  {
    if name !in FieldsOf(c) {
      return Err(DataError("Extra field '" + name + "'"));
    }
    if !(c.TagClass? && name == "artifacts") {
      return Ok(value);
    }
    if !value.JObj? {
      return Err(AttributeError);
    }
    var built := MakeArtifacts(value.members);
    if built.Err? {
      return Err(built.error);
    }
    r := Ok(JObj(built.value));
  }

  /** The artifact loop of `Tag._process_field`. */
  method MakeArtifacts(items: Dict<Json>) returns (r: Result<Dict<Json>, Error>)
    ensures r == BuildArtifacts(items)
    decreases 1, 0, |items|
  {
    var done: Dict<Json> := [];
    for i := 0 to |items|
      invariant BuildArtifacts(items[..i]) == Ok(done)
    {
      assert items[..i + 1][..i] == items[..i];
      var k := ArtifactKindOf(items[i].1);
      if k.Err? {
        ArtifactsErr(items, i + 1);
        return Err(k.error);
      }
      var a := Construct(ArtifactClass(k.value), items[i].1.members);
      if a.Err? {
        ArtifactsErr(items, i + 1);
        return Err(a.error);
      }
      done := Put(done, items[i].0, JObj(a.value));
    }
    TakeAll(items);
    r := Ok(done);
  }

  lemma {:induction false} ArtifactsErr(items: Dict<Json>, i: nat)
    requires i <= |items| && BuildArtifacts(items[..i]).Err?
    ensures BuildArtifacts(items) == BuildArtifacts(items[..i])
    decreases |items| - i
  {
    if i < |items| {
      assert items[..i + 1][..i] == items[..i];
      ArtifactsErr(items, i + 1);
    } else {
      TakeAll(items);
    }
  }
}
