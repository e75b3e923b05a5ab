/**
 * The browser client (static/main.js): the `Stagger` page object with its current request,
 * the fetched catalog document and the session history, the routing of `render`, the
 * display helpers and the two views it builds, the catalog table and the tag page.
 *
 * The DOM is modelled by the nodes the view functions create: text, plain links and
 * state-change links.  A render that throws (a property read of `null` or `undefined`)
 * leaves the displayed content as it was, since `replaceElement` is never reached.
 */
module Client {
  import opened Wrappers
  import opened Dicts
  import opened Strings
  import opened Json
  import opened ModelObjects
  import Amqp

  // ---------------------------------------------------------------------------------------------
  // JavaScript values read from the fetched document

  /** A property value: `None` is `undefined`, `Some(JNull)` is `null`. */
  type Value = Option<Json>

  /** JavaScript truthiness: `undefined`, `null`, `false`, `0` and `""` are falsy. */
  predicate Truthy(v: Value)
  {
    match v
    case None => false
    case Some(JNull) => false
    case Some(JBool(b)) => b
    case Some(JNum(n)) => n != 0
    case Some(JStr(s)) => s != ""
    case Some(_) => true
  }

  /**
   * The index below `n` that the key `name` denotes: the `i < n` whose decimal digits are
   * `name`.  A key with a sign, a leading zero or any other text denotes no index.
   */
  function IndexBelow(name: string, n: nat): (r: Option<nat>)
    ensures r.Some? ==> r.value < n && NatToString(r.value) == name
    ensures r.None? ==> forall i :: 0 <= i < n ==> NatToString(i) != name
  {
    if n == 0 then None
    else if NatToString(n - 1) == name then Some(n - 1)
    else IndexBelow(name, n - 1)
  }

  /**
   * `v[name]` of a value that is neither `null` nor `undefined`: the member of an object;
   * the element at an index key, or the `length`, of an array or a string (a string's
   * element is its one-character string); otherwise `undefined`.
   */
  function Field(v: Json, name: string): Value
  {
    match v
    case JObj(m) => Get(m, name)
    case JArr(items) =>
      if name == "length" then Some(JNum(|items|))
      else (match IndexBelow(name, |items|) case Some(i) => Some(items[i]) case None => None)
    case JStr(s) =>
      if name == "length" then Some(JNum(|s|))
      else (match IndexBelow(name, |s|) case Some(i) => Some(JStr([s[i]])) case None => None)
    case _ => None
  }

  /** `v[name]`: reading a property of `null` or `undefined` throws `TypeError`. */
  function Prop(v: Value, name: string): (r: Result<Value, Error>)
    ensures r.Err? <==> v.None? || v == Some(JNull)
    ensures r.Err? ==> r.error == TypeError
    ensures r.Ok? ==> r.value == Field(v.value, name)
  {
    if v.None? || v == Some(JNull) then Err(TypeError) else Ok(Field(v.value, name))
  }

  /**
   * The members `Object.keys(v)` walks, each with the value `v[key]` reads back: an object's
   * members, the index keys of an array or a string, and none for a number or a boolean.
   */
  function Entries(v: Value): (r: Result<Dict<Json>, Error>)
    ensures r.Err? <==> v.None? || v == Some(JNull)
    ensures r.Ok? && v.value.JObj? ==> r.value == v.value.members
    ensures r.Ok? && v.value.JArr? ==> |r.value| == |v.value.items|
    ensures r.Ok? && v.value.JStr? ==> |r.value| == |v.value.s|
    ensures r.Ok? && !(v.value.JObj? || v.value.JArr? || v.value.JStr?) ==> r.value == []
  {
    match v
    case None => Err(TypeError)
    case Some(JNull) => Err(TypeError)
    case Some(JObj(m)) => Ok(m)
    case Some(JArr(items)) => Ok(seq(|items|, i requires 0 <= i < |items| => (NatToString(i), items[i])))
    case Some(JStr(s)) => Ok(seq(|s|, i requires 0 <= i < |s| => (NatToString(i), JStr([s[i]]))))
    case Some(_) => Ok([])
  }

  /** The key of an array's or a string's `i`-th entry is `i` in decimal, and never `length`. */
  lemma IndexKey(v: Json, i: nat)
    requires (v.JArr? || v.JStr?) && i < |Entries(Some(v)).value|
    ensures Entries(Some(v)).value[i].0 == NatToString(i) != "length"
  {
    assert NatToString(i)[0] != 'l';
  }

  /**
   * `Object.keys` and the property read agree: every entry's value is what `v[key]` reads
   * back (for an object, when its member names are distinct, as `JSON.parse` leaves them).
   */
  lemma EntriesReadBack(v: Json, i: nat)
    requires v != JNull && i < |Entries(Some(v)).value|
    requires v.JObj? ==> UniqueKeys(v.members)
    ensures Field(v, Entries(Some(v)).value[i].0) == Some(Entries(Some(v)).value[i].1)
  {
    var key := Entries(Some(v)).value[i].0;
    match v
    case JObj(m) => GetAt(m, i);
    case JArr(items) =>
      IndexKey(v, i);
      var j := IndexBelow(key, |items|);
      if j.Some? && j.value != i {
        NatToStringInjective(i, j.value);
      }
    case JStr(s) =>
      IndexKey(v, i);
      var j := IndexBelow(key, |s|);
      if j.Some? && j.value != i {
        NatToStringInjective(i, j.value);
      }
  }

  /** The entries of an array or a string have distinct keys. */
  lemma EntriesUnique(v: Json)
    requires v.JArr? || v.JStr?
    ensures UniqueKeys(Entries(Some(v)).value)
  {
    var e := Entries(Some(v)).value;
    forall i, j | 0 <= i < j < |e|
      ensures e[i].0 != e[j].0
    {
      IndexKey(v, i);
      IndexKey(v, j);
      NatToStringInjective(i, j);
    }
    UniqueKeysDistinct(e);
  }

  /** A template literal's text for a destructured value: `undefined` prints as `"undefined"`. */
  function Show(v: Option<string>): string
  {
    match v
    case None => "undefined"
    case Some(s) => s
  }

  // ---------------------------------------------------------------------------------------------
  // Display helpers

  /** What the view functions create: a text node, a plain link, a link made by `createStateChangeLink`. */
  datatype Node =
    | Text(text: Json)
    | Link(href: Json, text: Json)
    | StateLink(path: string, title: string)

  /** `createOptionalLink`: the placeholder stands in for a falsy text; a link only for a truthy `href`. */
  function OptionalLink(href: Value, text: Value, nullValue: string): (n: Node)
    ensures n.Link? <==> Truthy(href)
    ensures n.Text? <==> !Truthy(href)
    ensures n.Link? ==> Some(n.href) == href
    ensures Truthy(text) ==> Some(n.text) == text
    ensures !Truthy(text) ==> n.text == JStr(nullValue)
  {
    var shown := if Truthy(text) then text.value else JStr(nullValue);
    if Truthy(href) then Link(href.value, shown) else Text(shown)
  }

  /**
   * `v > 8` for the `length` read off a shown id: a number compares by value; `undefined`,
   * `null`, a boolean and an object never exceed 8.
   */
  predicate AboveEight(v: Value)
  {
    v.Some? && v.value.JNum? && v.value.n > 8
  }

  /**
   * The id `createCommitLink` shows: when `id && id.length > 8`, `id.substring(0, 7)`.  A string
   * of more than eight characters is cut to its first seven; an array that long, or an object
   * whose `length` member is a number above 8, has no `substring` and throws; every other
   * value is shown as it is.
   */
  function ShortId(id: Value): (r: Result<Value, Error>)
    ensures id.Some? && id.value.JStr? ==>
      && r.Ok? && r.value.Some? && r.value.value.JStr?
      && StartsWith(id.value.s, r.value.value.s)
      && (|id.value.s| <= 8 ==> r.value.value.s == id.value.s)
      && (|id.value.s| > 8 ==> |r.value.value.s| == 7)
    ensures r.Err? <==>
      || (id.Some? && id.value.JArr? && |id.value.items| > 8)
      || (id.Some? && id.value.JObj? && AboveEight(Get(id.value.members, "length")))
    ensures r.Ok? && !(id.Some? && id.value.JStr?) ==> r.value == id
  {
    if Truthy(id) && AboveEight(Field(id.value, "length")) then
      match id.value
      case JStr(s) => Ok(Some(JStr(s[..7])))
      case _ => Err(TypeError)
    else Ok(id)
  }

  /** `createCommitLink(parent, href, id, nullValue)`. */
  function CommitLink(href: Value, id: Value, nullValue: string): (r: Result<Node, Error>)
  {
    var shown :- ShortId(id);
    Ok(OptionalLink(href, shown, nullValue))
  }

  /** A commit id string is shown in full up to eight characters, and as its first seven beyond. */
  lemma CommitLinkText(href: Value, s: string, nullValue: string)
    requires s != ""
    ensures CommitLink(href, Some(JStr(s)), nullValue).Ok?
    ensures var n := CommitLink(href, Some(JStr(s)), nullValue).value;
      n.text == JStr(if |s| > 8 then s[..7] else s) && (n.Link? <==> Truthy(href))
  {
    var shown := ShortId(Some(JStr(s)));
    if |s| > 8 {
      assert shown.value.value.s == s[..7];
    }
  }

  /** The separator `renderHeader` puts after every navigation link. */
  const Separator: string := " \U{00A0}>\U{00A0} "

  /** The links of the breadcrumb, each followed by the separator. */
  function CrumbLinks(links: seq<(string, string)>): (nodes: seq<Node>)
    ensures |nodes| == 2 * |links|
  {
    if |links| == 0 then []
    else CrumbLinks(links[..|links| - 1]) + [StateLink(links[|links| - 1].0, links[|links| - 1].1), Text(JStr(Separator))]
  }

  /** The `nav` of `renderHeader(parent, title, navLinks)`; an empty list throws at `navLinks[-1][1]`. */
  function Crumbs(navLinks: seq<(string, string)>): Result<seq<Node>, Error>
  {
    if |navLinks| == 0 then Err(TypeError)
    else Ok(CrumbLinks(navLinks[..|navLinks| - 1]) + [Text(JStr(navLinks[|navLinks| - 1].1))])
  }

  lemma {:induction false} CrumbLinksAt(links: seq<(string, string)>, i: nat)
    requires i < |links|
    ensures CrumbLinks(links)[2 * i] == StateLink(links[i].0, links[i].1)
    ensures CrumbLinks(links)[2 * i + 1] == Text(JStr(Separator))
  {
    if i < |links| - 1 {
      CrumbLinksAt(links[..|links| - 1], i);
    }
  }

  /**
   * Every entry but the last is a navigation link followed by the separator, and the last
   * entry's title is plain text.
   */
  lemma CrumbsShape(navLinks: seq<(string, string)>, i: nat)
    requires |navLinks| > 0
    ensures Crumbs(navLinks).Ok? && |Crumbs(navLinks).value| == 2 * |navLinks| - 1
    ensures var nodes := Crumbs(navLinks).value;
      && nodes[2 * (|navLinks| - 1)] == Text(JStr(navLinks[|navLinks| - 1].1))
      && (i < |navLinks| - 1 ==>
        nodes[2 * i] == StateLink(navLinks[i].0, navLinks[i].1) && nodes[2 * i + 1] == Text(JStr(Separator)))
  {
    var init := navLinks[..|navLinks| - 1];
    if i < |navLinks| - 1 {
      CrumbLinksAt(init, i);
    }
  }

  /** The loop of `renderHeader` over `navLinks.slice(0, -1)`, then the last title. */
  method Breadcrumb(navLinks: seq<(string, string)>) returns (r: Result<seq<Node>, Error>)
    ensures r == Crumbs(navLinks)
  {
    if |navLinks| == 0 {
      return Err(TypeError);
    }
    var init := navLinks[..|navLinks| - 1];
    var nav: seq<Node> := [];
    for i := 0 to |init|
      invariant nav == CrumbLinks(init[..i])
    {
      assert init[..i + 1][..i] == init[..i];
      nav := nav + [StateLink(init[i].0, init[i].1), Text(JStr(Separator))];
    }
    TakeAll(init);
    r := Ok(nav + [Text(JStr(navLinks[|navLinks| - 1].1))]);
  }

  // ---------------------------------------------------------------------------------------------
  // Routing

  /** The two views of the client. */
  datatype Route = TagRoute | CatalogRoute

  /** The test of `render`: the tag view for paths under `/tags/`, the catalog for any other path. */
  function RouteOf(path: string): (r: Route)
    ensures r == TagRoute <==> StartsWith(path, "/tags/")
  {
    if StartsWith(path, "/tags/") then TagRoute else CatalogRoute
  }

  lemma RouteExamples()
    ensures RouteOf("/") == CatalogRoute && RouteOf("/nonexistent") == CatalogRoute
    ensures RouteOf("/tags") == CatalogRoute && RouteOf("/tags/") == TagRoute
  {
    assert !StartsWith("/", "/tags/") && !StartsWith("/tags", "/tags/");
    assert "/nonexistent"[1] != "/tags/"[1];
  }

  /** `path.split("/", 5).slice(2)`, destructured into three variables. */
  function TagParams(path: string): (p: seq<Option<string>>)
    ensures |p| == 3
    ensures forall i :: 0 <= i < 3 ==>
      p[i] == if i + 2 < |Split(path, '/')| then Some(Split(path, '/')[i + 2]) else None
  {
    var parts := SplitLimit(path, '/', 5);
    var rest := if |parts| <= 2 then [] else parts[2..];
    seq(3, i requires 0 <= i < 3 => if i < |rest| then Some(rest[i]) else None)
  }

  /** The label the views give a tag: `repo/branch/tag`. */
  function TagLabel(r: string, b: string, t: string): string
  {
    r + "/" + b + "/" + t
  }

  /** The path of a tag's page: `/tags/repo/branch/tag`. */
  function TagHref(r: string, b: string, t: string): string
  {
    "/tags/" + TagLabel(r, b, t)
  }

  lemma {:induction false} SplitLabel(r: string, b: string, t: string)
    requires '/' !in r && '/' !in b && '/' !in t
    ensures Split(TagHref(r, b, t), '/') == ["", "tags", r, b, t]
  {
    var text := TagLabel(r, b, t);
    assert Split(text, '/') == [r, b, t] by {
      SplitThree(r, b, t, '/');
      assert text == r + ['/'] + b + ['/'] + t;
    }
    SplitFirst("tags", '/', text);
    SplitFirst("", '/', "tags" + ['/'] + text);
    assert TagHref(r, b, t) == "" + ['/'] + ("tags" + ['/'] + text);
  }

  /** The tag page reads back the ids of the catalog row's link that leads to it. */
  lemma TagParamsOfHref(r: string, b: string, t: string)
    requires '/' !in r && '/' !in b && '/' !in t
    ensures RouteOf(TagHref(r, b, t)) == TagRoute
    ensures TagParams(TagHref(r, b, t)) == [Some(r), Some(b), Some(t)]
  {
    SplitLabel(r, b, t);
    assert StartsWith(TagHref(r, b, t), "/tags/");
  }

  // ---------------------------------------------------------------------------------------------
  // The catalog view

  /** A row of the catalog table: tag link, build, commit and updated cells. */
  datatype Row = Row(tag: Node, build: Node, commit: Node, updated: Node)

  /** The cells the inner loop of `renderMainView` creates for one tag. */
  function TagRow(r: string, b: string, t: string, tagData: Json): Result<Row, Error>
  {
    if tagData == JNull then Err(TypeError)
    else
      var commit :- CommitLink(Field(tagData, "commit_url"), Field(tagData, "commit_id"), "-");
      Ok(Row(StateLink(TagHref(r, b, t), TagLabel(r, b, t)),
             OptionalLink(Field(tagData, "build_url"), Field(tagData, "build_id"), "-"), commit, Text(JStr("-"))))
  }

  /** The rows of a loop over the members of an object, each member giving rows through `f`; the first error stops it. */
  function Collect(items: Dict<Json>, f: (string, Json) -> Result<seq<Row>, Error>): Result<seq<Row>, Error>
  {
    if |items| == 0 then Ok([])
    else
      var done :- Collect(items[..|items| - 1], f);
      var more :- f(items[|items| - 1].0, items[|items| - 1].1);
      Ok(done + more)
  }

  /** The member `name` of `v`, walked as an object. */
  function MembersOf(v: Json, name: string): Result<Dict<Json>, Error>
  {
    var m :- Prop(Some(v), name);
    Entries(m)
  }

  /** The innermost loop, over the tags of branch `b` of repo `r`. */
  function TagRows(r: string, b: string): (string, Json) -> Result<seq<Row>, Error>
  {
    (t: string, tagData: Json) => var row :- TagRow(r, b, t, tagData); Ok([row])
  }

  /** The middle loop, over the branches of repo `r`. */
  function BranchRows(r: string): (string, Json) -> Result<seq<Row>, Error>
  {
    (b: string, branch: Json) => var tags :- MembersOf(branch, "tags"); Collect(tags, TagRows(r, b))
  }

  /** The outer loop, over the repos. */
  function RepoRows(): (string, Json) -> Result<seq<Row>, Error>
  {
    (r: string, repo: Json) =>
      match MembersOf(repo, "branches")
      case Err(e) => Err(e)
      case Ok(branches) => Collect(branches, BranchRows(r))
  }

  /** `this.data["repos"]`, walked as an object. */
  function RepoEntries(data: Value): Result<Dict<Json>, Error>
  {
    var repos :- Prop(data, "repos");
    Entries(repos)
  }

  /** The rows of `renderMainView`. */
  function CatalogRows(data: Value): Result<seq<Row>, Error>
  {
    var repos :- RepoEntries(data);
    Collect(repos, RepoRows())
  }

  lemma CollectStep(items: Dict<Json>, f: (string, Json) -> Result<seq<Row>, Error>, i: nat)
    requires i < |items|
    ensures Collect(items[..i + 1], f) ==
      match Collect(items[..i], f)
      case Err(e) => Err(e)
      case Ok(done) => match f(items[i].0, items[i].1) case Err(e) => Err(e) case Ok(more) => Ok(done + more)
  {
    assert items[..i + 1][..i] == items[..i];
  }

  /** Once the loop has failed it stays failed: the whole walk gives that error. */
  lemma {:induction false} CollectErr(items: Dict<Json>, f: (string, Json) -> Result<seq<Row>, Error>, i: nat)
    requires i <= |items| && Collect(items[..i], f).Err?
    ensures Collect(items, f) == Collect(items[..i], f)
    decreases |items| - i
  {
    if i < |items| {
      CollectStep(items, f, i);
      CollectErr(items, f, i + 1);
    } else {
      TakeAll(items);
    }
  }

  /** Every member's rows are among the rows of a walk that succeeds. */
  lemma {:induction false} CollectCover(items: Dict<Json>, f: (string, Json) -> Result<seq<Row>, Error>, i: nat, x: Row)
    requires Collect(items, f).Ok? && i < |items|
    ensures f(items[i].0, items[i].1).Ok?
    ensures x in f(items[i].0, items[i].1).value ==> x in Collect(items, f).value
  {
    var n := |items| - 1;
    if i < n {
      CollectCover(items[..n], f, i, x);
    }
  }

  /** And a walk that succeeds has no rows but the members' rows. */
  lemma {:induction false} CollectOnly(items: Dict<Json>, f: (string, Json) -> Result<seq<Row>, Error>, x: Row)
    requires Collect(items, f).Ok? && x in Collect(items, f).value
    ensures exists i :: 0 <= i < |items| && f(items[i].0, items[i].1).Ok? && x in f(items[i].0, items[i].1).value
  {
    var n := |items| - 1;
    var init := items[..n];
    var done := Collect(init, f).value;
    if x in done {
      CollectOnly(init, f, x);
      var i :| 0 <= i < |init| && f(init[i].0, init[i].1).Ok? && x in f(init[i].0, init[i].1).value;
      assert items[i] == init[i];
    }
  }

  /** Each row links the label `repo/branch/tag` to `/tags/repo/branch/tag`, and its Updated cell is `-`. */
  ghost predicate RowShape(x: Row)
  {
    exists r, b, t :: x.tag == StateLink(TagHref(r, b, t), TagLabel(r, b, t)) && x.updated == Text(JStr("-"))
  }

  /**
   * For every tag `t` of every branch `b` of every repo `r` the catalog has a row labelled
   * `r/b/t` linking to the tag's page.
   */
  lemma CatalogCover(data: Value, i: nat, j: nat, k: nat)
    requires CatalogRows(data).Ok?
    requires RepoEntries(data).Ok? && i < |RepoEntries(data).value|
    requires MembersOf(RepoEntries(data).value[i].1, "branches").Ok?
    requires j < |MembersOf(RepoEntries(data).value[i].1, "branches").value|
    requires MembersOf(MembersOf(RepoEntries(data).value[i].1, "branches").value[j].1, "tags").Ok?
    requires k < |MembersOf(MembersOf(RepoEntries(data).value[i].1, "branches").value[j].1, "tags").value|
    ensures var (r, repo) := RepoEntries(data).value[i];
      var (b, branch) := MembersOf(repo, "branches").value[j];
      var (t, _) := MembersOf(branch, "tags").value[k];
      exists x :: x in CatalogRows(data).value && x.tag == StateLink(TagHref(r, b, t), TagLabel(r, b, t))
  {
    var repos := RepoEntries(data).value;
    var (r, repo) := repos[i];
    var branches := MembersOf(repo, "branches").value;
    var (b, branch) := branches[j];
    var tags := MembersOf(branch, "tags").value;
    var (t, td) := tags[k];
    CollectCover(repos, RepoRows(), i, Row(StateLink("", ""), Text(JNull), Text(JNull), Text(JNull)));
    assert Collect(branches, BranchRows(r)).Ok?;
    CollectCover(branches, BranchRows(r), j, Row(StateLink("", ""), Text(JNull), Text(JNull), Text(JNull)));
    assert Collect(tags, TagRows(r, b)).Ok?;
    CollectCover(tags, TagRows(r, b), k, Row(StateLink("", ""), Text(JNull), Text(JNull), Text(JNull)));
    var x := TagRow(r, b, t, td).value;
    assert x in TagRows(r, b)(t, td).value;
    CollectCover(tags, TagRows(r, b), k, x);
    CollectCover(branches, BranchRows(r), j, x);
    CollectCover(repos, RepoRows(), i, x);
  }

  /** Every row of the catalog has that shape. */
  lemma CatalogRowShape(data: Value, x: Row)
    requires CatalogRows(data).Ok? && x in CatalogRows(data).value
    ensures RowShape(x)
  {
    var repos := RepoEntries(data).value;
    CollectOnly(repos, RepoRows(), x);
    var i :| 0 <= i < |repos| && RepoRows()(repos[i].0, repos[i].1).Ok? && x in RepoRows()(repos[i].0, repos[i].1).value;
    var (r, repo) := repos[i];
    var branches := MembersOf(repo, "branches").value;
    CollectOnly(branches, BranchRows(r), x);
    var j :| 0 <= j < |branches| && BranchRows(r)(branches[j].0, branches[j].1).Ok? && x in BranchRows(r)(branches[j].0, branches[j].1).value;
    var (b, branch) := branches[j];
    var tags := MembersOf(branch, "tags").value;
    CollectOnly(tags, TagRows(r, b), x);
    var k :| 0 <= k < |tags| && TagRows(r, b)(tags[k].0, tags[k].1).Ok? && x in TagRows(r, b)(tags[k].0, tags[k].1).value;
    var (t, td) := tags[k];
    assert x == TagRow(r, b, t, td).value;
    assert x.tag == StateLink(TagHref(r, b, t), TagLabel(r, b, t)) && x.updated == Text(JStr("-"));
  }

  /** A loop over one member gives that member's rows. */
  lemma CollectOne(e: (string, Json), f: (string, Json) -> Result<seq<Row>, Error>)
    ensures Collect([e], f) == f(e.0, e.1)
  {
    assert [e][..0] == [];
    if f(e.0, e.1).Ok? {
      assert [] + f(e.0, e.1).value == f(e.0, e.1).value;
    }
  }

  /** A repo held in an array under `repos` is walked by its index: the row `0/b/t`. */
  lemma CatalogOfArray()
    ensures var tags := JObj([("t", JObj([]))]);
      var repo := JObj([("branches", JObj([("b", JObj([("tags", tags)]))]))]);
      CatalogRows(Some(JObj([("repos", JArr([repo]))]))) ==
        Ok([Row(StateLink("/tags/0/b/t", "0/b/t"), Text(JStr("-")), Text(JStr("-")), Text(JStr("-")))])
  {
    var tags := JObj([("t", JObj([]))]);
    var branch := JObj([("tags", tags)]);
    var repo := JObj([("branches", JObj([("b", branch)]))]);
    var row := Row(StateLink("/tags/0/b/t", "0/b/t"), Text(JStr("-")), Text(JStr("-")), Text(JStr("-")));
    var repos := RepoEntries(Some(JObj([("repos", JArr([repo]))]))).value;
    assert repos == [("0", repo)];
    assert Field(JObj([]), "commit_id") == None && Field(JObj([]), "commit_url") == None;
    assert Field(JObj([]), "build_id") == None && Field(JObj([]), "build_url") == None;
    assert ShortId(None) == Ok(None);
    assert CommitLink(None, None, "-") == Ok(Text(JStr("-")));
    assert TagHref("0", "b", "t") == "/tags/0/b/t" && TagLabel("0", "b", "t") == "0/b/t";
    assert TagRow("0", "b", "t", JObj([])) == Ok(row);
    CollectOne(("t", JObj([])), TagRows("0", "b"));
    assert MembersOf(branch, "tags") == Ok([("t", JObj([]))]);
    CollectOne(("b", branch), BranchRows("0"));
    assert MembersOf(repo, "branches") == Ok([("b", branch)]);
    CollectOne(("0", repo), RepoRows());
  }

  /**
   * A string under `repos` is walked by its characters, and the first one has no `branches`:
   * `Object.keys(undefined)` throws, so the catalog is not rendered.
   */
  lemma CatalogOfString()
    ensures CatalogRows(Some(JObj([("repos", JStr("ab"))]))) == Err(TypeError)
  {
    var repos := RepoEntries(Some(JObj([("repos", JStr("ab"))]))).value;
    assert repos == [("0", JStr("a")), ("1", JStr("b"))];
    assert Field(JStr("a"), "branches") == None by {
      assert NatToString(0) == "0";
    }
    assert MembersOf(JStr("a"), "branches") == Err(TypeError);
    assert repos[..1] == [("0", JStr("a"))];
    assert RepoRows()("0", JStr("a")) == Err(TypeError);
    CollectOne(("0", JStr("a")), RepoRows());
    assert Collect(repos[..1], RepoRows()) == Err(TypeError);
    CollectErr(repos, RepoRows(), 1);
  }

  // ---------------------------------------------------------------------------------------------
  // The tag view

  /** What the page needs of `window.location`. */
  datatype Location = Location(origin: string, hostname: string)

  /** The contents of `#content` the two views build. */
  datatype View =
    | CatalogView(rows: seq<Row>)
    | TagView(title: string, nav: seq<Node>, apiUrl: string, eventUrl: string,
              build: Node, commit: Node, commands: seq<(string, string)>, data: Json)

  /** `data = this.data["repos"][r]["branches"][b]["tags"][t]`. */
  function TagData(data: Value, r: string, b: string, t: string): Result<Value, Error>
  {
    var repos :- Prop(data, "repos");
    var repo :- Prop(repos, r);
    var branches :- Prop(repo, "branches");
    var branch :- Prop(branches, b);
    var tags :- Prop(branch, "tags");
    Prop(tags, t)
  }

  /** `apiUrl`: the origin, then the server's `api_path` of the tag. */
  function ApiUrl(origin: string, r: string, b: string, t: string): (url: string)
    ensures url == origin + "/" + ApiPath([r, b, t])
  {
    TagPaths(r, b, t);
    origin + "/" + ("api/repos/" + r + "/branches/" + b + "/tags/" + t)
  }

  /** The `eventPath` of the tag page as written: the ids without their collection labels. */
  function EventPathAsWritten(r: string, b: string, t: string): string
  {
    "events/" + r + "/" + b + "/" + t
  }

  /** The tag's own event address, under which the server publishes the tag's updates. */
  function EventUrl(hostname: string, r: string, b: string, t: string): (url: string)
    ensures url == "amqp://" + hostname + ":5672/" + EventPath([r, b, t])
  {
    TagPaths(r, b, t);
    "amqp://" + hostname + ":5672/" + ("events/repos/" + r + "/branches/" + b + "/tags/" + t)
  }

  /** The address as written splits into four pieces. */
  lemma {:induction false} SplitAsWritten(r: string, b: string, t: string)
    requires '/' !in r && '/' !in b && '/' !in t
    ensures Split(EventPathAsWritten(r, b, t), '/') == ["events", r, b, t]
  {
    var text := TagLabel(r, b, t);
    assert Split(text, '/') == [r, b, t] by {
      SplitThree(r, b, t, '/');
      assert text == r + ['/'] + b + ['/'] + t;
    }
    SplitFirst("events", '/', text);
    assert EventPathAsWritten(r, b, t) == "events" + ['/'] + text;
  }

  /** An object's event path splits into `events`, then a label and an id per level. */
  lemma {:induction false} SplitEventPath(ids: seq<string>)
    requires 1 <= |ids| <= 4 && forall i :: 0 <= i < |ids| ==> '/' !in ids[i]
    ensures |Split(EventPath(ids), '/')| == 1 + 2 * |ids|
  {
    PathsShareSegments(ids);
    Amqp.SplitLabelled("events", ids);
  }

  /**
   * The address the page shows as written is never one the server publishes to: it has four
   * pieces, while `events` has one and every object's event path an odd number.
   */
  lemma {:induction false} EventPathAsWrittenUnreached(r: string, b: string, t: string, ids: seq<string>)
    requires '/' !in r && '/' !in b && '/' !in t
    requires 1 <= |ids| <= 4 && forall i :: 0 <= i < |ids| ==> '/' !in ids[i]
    ensures EventPathAsWritten(r, b, t) != EventPath(ids)
    ensures EventPathAsWritten(r, b, t) != "events"
  {
    SplitAsWritten(r, b, t);
    SplitEventPath(ids);
    SplitNone("events", '/');
  }

  /** The corrected address parses back to the tag's ids, as the server's parser reads them. */
  lemma EventUrlParses(r: string, b: string, t: string)
    requires '/' !in r && '/' !in b && '/' !in t
    ensures Amqp.ParseEventAddress(EventPath([r, b, t])) == Ok(Amqp.EventIds(Some(r), Some(b), Some(t), None))
  {
    Amqp.ParseEventPath([r, b, t]);
    var e := Amqp.ParseEventAddress(EventPath([r, b, t])).value;
    assert Amqp.IdList(e)[0] == Some(r) && Amqp.IdList(e)[1] == Some(b) && Amqp.IdList(e)[2] == Some(t) && Amqp.IdList(e)[3] == None;
  }

  /** The example commands of the tag page. */
  function Commands(apiUrl: string, eventUrl: string): seq<(string, string)>
  {
    [ ("Get data", "curl " + apiUrl),
      ("Create or update", "curl -X PUT " + apiUrl + " -d @data.json"),
      ("Delete", "curl -X DELETE " + apiUrl),
      ("Check for updates", "curl --head -H 'If-None-Match: <etag>' " + apiUrl),
      ("Listen for events", "qreceive " + eventUrl) ]
  }

  /** `renderTagView`. */
  function TagViewOf(path: string, data: Value, loc: Location): Result<View, Error>
  {
    var p := TagParams(path);
    var r, b, t := Show(p[0]), Show(p[1]), Show(p[2]);
    var tag := TagLabel(r, b, t);
    var found :- TagData(data, r, b, t);
    if found.None? || found == Some(JNull) then Err(TypeError)
    else
      var d := found.value;
      var nav := Crumbs([("/", "Stagger"), ("/tags/" + tag, "Tag " + tag)]).value;
      var api := ApiUrl(loc.origin, r, b, t);
      var events := EventUrl(loc.hostname, r, b, t);
      Ok(TagView(tag, nav, api, events, OptionalLink(Field(d, "build_url"), Field(d, "build_id"), "-"),
                 OptionalLink(Field(d, "commit_url"), Field(d, "commit_id"), "-"), Commands(api, events), d))
  }

  /**
   * The tag page of a tag in the document: titled `repo/branch/tag`, a link back to the
   * catalog, the tag's API and event URLs, its build link and its full commit id.
   */
  lemma TagViewOfTag(r: string, b: string, t: string, data: Value, loc: Location, tagData: Json)
    requires '/' !in r && '/' !in b && '/' !in t
    requires TagData(data, r, b, t) == Ok(Some(tagData)) && tagData != JNull
    ensures TagViewOf(TagHref(r, b, t), data, loc).Ok?
    ensures var v := TagViewOf(TagHref(r, b, t), data, loc).value;
      && v.title == TagLabel(r, b, t)
      && v.nav == [StateLink("/", "Stagger"), Text(JStr(Separator)), Text(JStr("Tag " + TagLabel(r, b, t)))]
      && v.apiUrl == loc.origin + "/" + ApiPath([r, b, t])
      && v.eventUrl == "amqp://" + loc.hostname + ":5672/" + EventPath([r, b, t])
      && v.commit == OptionalLink(Field(tagData, "commit_url"), Field(tagData, "commit_id"), "-")
      && v.data == tagData
  {
    TagParamsOfHref(r, b, t);
    var links := [("/", "Stagger"), ("/tags/" + TagLabel(r, b, t), "Tag " + TagLabel(r, b, t))];
    assert links[..1] == [("/", "Stagger")];
    assert links[..1][..0] == [];
  }

  /** The tag page finds a repo held in an array by its index key. */
  lemma TagViewOfArray(b: string, t: string, tagData: Json, loc: Location)
    requires '/' !in b && '/' !in t && tagData != JNull
    ensures var repo := JObj([("branches", JObj([(b, JObj([("tags", JObj([(t, tagData)]))]))]))]);
      TagViewOf(TagHref("0", b, t), Some(JObj([("repos", JArr([repo]))])), loc).Ok?
  {
    var repo := JObj([("branches", JObj([(b, JObj([("tags", JObj([(t, tagData)]))]))]))]);
    var data := Some(JObj([("repos", JArr([repo]))]));
    assert Field(JArr([repo]), "0") == Some(repo) by {
      assert NatToString(0) == "0";
    }
    assert TagData(data, "0", b, t) == Ok(Some(tagData));
    TagViewOfTag("0", b, t, data, loc, tagData);
  }

  /** `render`: a `null` request or path throws at `this.request.path.startsWith`. */
  function RenderView(request: Option<Request>, data: Value, loc: Location): Result<View, Error>
  {
    if request.None? || request.value.path.None? then Err(TypeError)
    else if RouteOf(request.value.path.value) == TagRoute then TagViewOf(request.value.path.value, data, loc)
    else
      var rows :- CatalogRows(data);
      Ok(CatalogView(rows))
  }

  // ---------------------------------------------------------------------------------------------
  // The page object

  /** `this.request`: the path and the parsed query string. */
  datatype Request = Request(path: Option<string>, query: Dict<string>)

  /** An entry of the session history: the state stored with it (`null` for the first page) and its URL. */
  datatype Entry = Entry(state: Option<Request>, url: string)

  /** `new URL(href).pathname` for a link of the page: the text before any query or fragment. */
  function PathPart(href: string): (p: string)
    ensures StartsWith(href, p) && '?' !in p && '#' !in p
    ensures |p| < |href| ==> href[|p|] == '?' || href[|p|] == '#'
  {
    if |href| == 0 || href[0] == '?' || href[0] == '#' then ""
    else [href[0]] + PathPart(href[1..])
  }

  /** The `Stagger` object of the page, with the browser's session history it drives. */
  class Stagger {
    /** `this.request`; `None` once a `popstate` has restored the first page's `null` state. */
    var request: Option<Request>
    /** `this.data`: the last document fetched from `/api/data`, `None` while it is `null`. */
    var data: Value
    /** The session history and the index of its current entry. */
    var entries: seq<Entry>
    var current: nat
    /** What `#content` shows: `None` until a render succeeds. */
    var view: Option<View>
    /** How many times `fetchDataPeriodically` was started. */
    var polls: nat
    /** The page's origin and host name, which same-document navigation keeps. */
    const location: Location

    ghost predicate Valid()
      reads this
    {
      current < |entries|
    }

    /** The constructor: an empty request, no data, and the history entry of the page itself. */
    constructor(loc: Location, url: string)
      ensures Valid() && location == loc
      ensures request == Some(Request(None, [])) && data == None
      ensures entries == [Entry(None, url)] && current == 0 && view == None && polls == 0
    {
      location := loc;
      request := Some(Request(None, []));
      data := None;
      entries := [Entry(None, url)];
      current := 0;
      view := None;
      polls := 0;
    }

    /** The `statechange` listener: `render()`. */
    method Render() returns (err: Option<Error>)
      requires Valid()
      modifies this
      ensures Valid()
      ensures var v := RenderView(old(request), old(data), location);
        && (v.Ok? ==> view == Some(v.value) && err.None?)
        && (v.Err? ==> view == old(view) && err == Some(v.error))
      ensures request == old(request) && data == old(data) && entries == old(entries)
      ensures current == old(current) && polls == old(polls)
    {
      var v: Result<View, Error>;
      if request.None? || request.value.path.None? {
        v := Err(TypeError);
      } else if StartsWith(request.value.path.value, "/tags/") {
        v := RenderTagView(request.value.path.value);
      } else {
        v := RenderMainView();
      }
      if v.Ok? {
        view := Some(v.value);
        err := None;
      } else {
        err := Some(v.error);
      }
    }

    /** `renderTagView`. */
    method RenderTagView(path: string) returns (v: Result<View, Error>)
      ensures v == TagViewOf(path, data, location)
    {
      var p := TagParams(path);
      var r, b, t := Show(p[0]), Show(p[1]), Show(p[2]);
      var tag := TagLabel(r, b, t);
      var found := TagData(data, r, b, t);
      if found.Err? {
        return Err(found.error);
      }
      var d := found.value;
      if d.None? || d == Some(JNull) {
        return Err(TypeError);
      }
      var nav := Breadcrumb([("/", "Stagger"), ("/tags/" + tag, "Tag " + tag)]);
      assert nav.Ok?;
      var api := ApiUrl(location.origin, r, b, t);
      var events := EventUrl(location.hostname, r, b, t);
      var build := OptionalLink(Field(d.value, "build_url"), Field(d.value, "build_id"), "-");
      var commit := OptionalLink(Field(d.value, "commit_url"), Field(d.value, "commit_id"), "-");
      v := Ok(TagView(tag, nav.value, api, events, build, commit, Commands(api, events), d.value));
    }

    /** `renderMainView`: the catalog table, one row per tag. */
    method RenderMainView() returns (v: Result<View, Error>)
      ensures v == match CatalogRows(data) case Ok(rows) => Ok(CatalogView(rows)) case Err(e) => Err(e)
    {
      var repos := RepoEntries(data);
      if repos.Err? {
        return Err(repos.error);
      }
      var rows := WalkRepos(repos.value);
      if rows.Err? {
        return Err(rows.error);
      }
      v := Ok(CatalogView(rows.value));
    }

    /** Opening the page (`load`): the path and query of the address, stored with `replaceState`. */
    method Load(pathname: string, search: string, query: Dict<string>, href: string) returns (err: Option<Error>)
      requires Valid()
      modifies this
      ensures Valid()
      ensures old(request).None? ==>
        && err == Some(TypeError) && request == old(request)
        && entries == old(entries) && polls == old(polls)
      ensures old(request).Some? ==>
        && err.None?
        && request == Some(Request(Some(pathname), if search != "" then query else old(request).value.query))
        && entries == old(entries)[old(current) := Entry(request, href)]
        && polls == old(polls) + 1
      ensures current == old(current) && data == old(data) && view == old(view)
    {
      if request.None? {
        return Some(TypeError);
      }
      var req := request.value.(path := Some(pathname));
      if search != "" {
        req := req.(query := query);
      }
      request := Some(req);
      entries := entries[current := Entry(request, href)];
      polls := polls + 1;
      err := None;
    }

    /**
     * A click on a link made by `createStateChangeLink`: the request takes the link's path,
     * polling restarts, the request is pushed as a new history entry and the page re-renders.
     */
    method Click(href: string) returns (err: Option<Error>)
      requires Valid()
      modifies this
      ensures Valid()
      ensures old(request).None? ==>
        && err == Some(TypeError) && request == old(request)
        && entries == old(entries) && current == old(current) && polls == old(polls) && view == old(view)
      ensures old(request).Some? ==>
        && request == Some(old(request).value.(path := Some(PathPart(href))))
        && entries == old(entries)[..old(current) + 1] + [Entry(request, location.origin + href)]
        && current == old(current) + 1
        && polls == old(polls) + 1
        && var v := RenderView(request, data, location);
          (v.Ok? ==> view == Some(v.value) && err.None?) && (v.Err? ==> view == old(view) && err == Some(v.error))
      ensures data == old(data)
    {
      if request.None? {
        return Some(TypeError);
      }
      request := Some(request.value.(path := Some(PathPart(href))));
      polls := polls + 1;
      entries := entries[..current + 1] + [Entry(request, location.origin + href)];
      current := current + 1;
      err := Render();
    }

    /** `popstate` after the browser moved to entry `k`: the stored request is restored, nothing is pushed. */
    method PopState(k: nat) returns (err: Option<Error>)
      requires Valid() && k < |entries|
      modifies this
      ensures Valid()
      ensures request == old(entries)[k].state && current == k
      ensures entries == old(entries) && data == old(data) && polls == old(polls)
      ensures var v := RenderView(request, data, location);
        (v.Ok? ==> view == Some(v.value) && err.None?) && (v.Err? ==> view == old(view) && err == Some(v.error))
    {
      current := k;
      request := entries[k].state;
      err := Render();
    }

    /** The callback of `fetchPeriodically`: the new document replaces `data` and the page re-renders. */
    method Arrive(d: Json) returns (err: Option<Error>)
      requires Valid()
      modifies this
      ensures Valid()
      ensures data == Some(d) && request == old(request) && entries == old(entries)
      ensures current == old(current) && polls == old(polls)
      ensures var v := RenderView(request, data, location);
        (v.Ok? ==> view == Some(v.value) && err.None?) && (v.Err? ==> view == old(view) && err == Some(v.error))
    {
      data := Some(d);
      err := Render();
    }
  }

  // ---------------------------------------------------------------------------------------------
  // The loops of `renderMainView`

  /** The innermost loop. */
  method WalkTags(r: string, b: string, tags: Dict<Json>) returns (res: Result<seq<Row>, Error>)
    ensures res == Collect(tags, TagRows(r, b))
  {
    var rows: seq<Row> := [];
    for i := 0 to |tags|
      invariant Collect(tags[..i], TagRows(r, b)) == Ok(rows)
    {
      CollectStep(tags, TagRows(r, b), i);
      var row := TagRow(r, b, tags[i].0, tags[i].1);
      if row.Err? {
        CollectErr(tags, TagRows(r, b), i + 1);
        return Err(row.error);
      }
      rows := rows + [row.value];
    }
    TakeAll(tags);
    res := Ok(rows);
  }

  /** The middle loop. */
  method WalkBranches(r: string, branches: Dict<Json>) returns (res: Result<seq<Row>, Error>)
    ensures res == Collect(branches, BranchRows(r))
  {
    var rows: seq<Row> := [];
    for i := 0 to |branches|
      invariant Collect(branches[..i], BranchRows(r)) == Ok(rows)
    {
      CollectStep(branches, BranchRows(r), i);
      var (b, branch) := branches[i];
      var tags := MembersOf(branch, "tags");
      var more: Result<seq<Row>, Error>;
      if tags.Err? {
        more := Err(tags.error);
      } else {
        more := WalkTags(r, b, tags.value);
      }
      if more.Err? {
        CollectErr(branches, BranchRows(r), i + 1);
        return Err(more.error);
      }
      rows := rows + more.value;
    }
    TakeAll(branches);
    res := Ok(rows);
  }

  /** The outer loop. */
  method WalkRepos(repos: Dict<Json>) returns (res: Result<seq<Row>, Error>)
    ensures res == Collect(repos, RepoRows())
  {
    var rows: seq<Row> := [];
    for i := 0 to |repos|
      invariant Collect(repos[..i], RepoRows()) == Ok(rows)
    {
      CollectStep(repos, RepoRows(), i);
      var (r, repo) := repos[i];
      var branches := MembersOf(repo, "branches");
      var more: Result<seq<Row>, Error>;
      if branches.Err? {
        more := Err(branches.error);
      } else {
        more := WalkBranches(r, branches.value);
      }
      if more.Err? {
        CollectErr(repos, RepoRows(), i + 1);
        return Err(more.error);
      }
      rows := rows + more.value;
    }
    TakeAll(repos);
    res := Ok(rows);
  }
}
