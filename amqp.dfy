/**
 * The messaging side of the server (python/stagger/amqpserver.py): the parser of event
 * addresses, and the table of subscribed sending links that object updates fan out to.
 */
module Amqp {
  import opened Wrappers
  import opened Dicts
  import opened Strings
  import opened Json
  import opened ModelObjects

  // ---------------------------------------------------------------------------------------------
  // `_parse_event_address`

  /** The `assert` statements of the parser fail (Python's `AssertionError`). */
  datatype AddressError = AssertionError

  /** The four ids `_parse_event_address` returns; `None` for those the address does not name. */
  datatype EventIds = EventIds(repo: Option<string>, branch: Option<string>, tag: Option<string>, artifact: Option<string>)

  /** The ids as a sequence, repo first. */
  function IdList(e: EventIds): seq<Option<string>>
  {
    [e.repo, e.branch, e.tag, e.artifact]
  }

  /** The labels the parser expects before the ids, the repo level first. */
  const Labels: seq<string> := ["repos", "branches", "tags", "artifacts"]

  lemma LabelsAreCollections(k: nat)
    requires k < 4
    ensures Labels[k] == Collection(k)
  {
  }

  /** `n` ids not found. */
  function Nones<T>(n: nat): (ids: seq<Option<T>>)
    ensures |ids| == n
  {
    if n == 0 then [] else [None] + Nones(n - 1)
  }

  lemma {:induction false} NonesAt<T>(n: nat, i: nat)
    requires i < n
    ensures Nones<T>(n)[i] == None
  {
    if i > 0 {
      NonesAt<T>(n - 1, i - 1);
    }
  }

  /**
   * The `try` block from the `k`-th id on: `elems[2k+1]` is compared with the label of level `k`,
   * and when it matches, `elems[2k+2]` is the id.  The first index past the end raises `IndexError`,
   * which is swallowed, so every later id stays `None`.
   */
  function ScanFrom<T(==)>(elems: seq<T>, labels: seq<T>, k: nat): (ids: seq<Option<T>>)
    requires k <= 4 && |labels| == 4
    ensures |ids| == 4 - k
    decreases 4 - k
  {
    if k == 4 then []
    else if |elems| <= 2 * k + 1 then Nones(4 - k)
    else if elems[2 * k + 1] == labels[k] then
      if |elems| <= 2 * k + 2 then Nones(4 - k)
      else [Some(elems[2 * k + 2])] + ScanFrom(elems, labels, k + 1)
    else [None] + ScanFrom(elems, labels, k + 1)
  }

  /** `_parse_event_address(address)`. */
  function ParseEventAddress(address: string): (r: Result<EventIds, AddressError>)
    ensures r.Err? <==> StartsWith(address, "/") || !StartsWith(address, "events")
  {
    if StartsWith(address, "/") || !StartsWith(address, "events") then Err(AssertionError)
    else
      var ids := ScanFrom(Split(address, '/'), Labels, 0);
      Ok(EventIds(ids[0], ids[1], ids[2], ids[3]))
  }

  /**
   * Each id on its own: the `k`-th id is set exactly when the label before it is that of level `k`
   * and the address is long enough to hold the id; no index before it can then be out of range.
   */
  lemma {:induction false} ScanClosedForm<T>(elems: seq<T>, labels: seq<T>, k: nat, j: nat)
    requires k <= j < 4 && |labels| == 4
    ensures ScanFrom(elems, labels, k)[j - k]
      == if |elems| > 2 * j + 2 && elems[2 * j + 1] == labels[j] then Some(elems[2 * j + 2]) else None
    decreases j - k
  {
    var ids := ScanFrom(elems, labels, k);
    if |elems| <= 2 * k + 1 || (elems[2 * k + 1] == labels[k] && |elems| <= 2 * k + 2) {
      assert ids == Nones(4 - k);
      NonesAt<T>(4 - k, j - k);
      assert |elems| <= 2 * j + 2;
    } else if j > k {
      var head: Option<T> := if elems[2 * k + 1] == labels[k] then Some(elems[2 * k + 2]) else None;
      var rest := ScanFrom(elems, labels, k + 1);
      assert ids == [head] + rest;
      assert ids[j - k] == rest[j - k - 1];
      ScanClosedForm(elems, labels, k + 1, j);
    } else {
      assert ids[0] == if elems[2 * k + 1] == labels[k] then Some(elems[2 * k + 2]) else None;
    }
  }

  /** What the parser returns for an address it accepts, id by id. */
  lemma ParseFields(address: string, j: nat)
    requires !StartsWith(address, "/") && StartsWith(address, "events") && j < 4
    ensures var elems := Split(address, '/');
      IdList(ParseEventAddress(address).value)[j]
        == if |elems| > 2 * j + 2 && elems[2 * j + 1] == Collection(j) then Some(elems[2 * j + 2]) else None
  {
    ScanClosedForm(Split(address, '/'), Labels, 0, j);
    LabelsAreCollections(j);
  }

  /** The pieces the labelled segments of a path split into: a label, then an id, per level. */
  function PathElems(ids: seq<string>): (elems: seq<string>)
    requires |ids| <= 4
    ensures |elems| == 2 * |ids|
  {
    if |ids| == 0 then []
    else PathElems(ids[..|ids| - 1]) + [Collection(|ids| - 1), ids[|ids| - 1]]
  }

  lemma {:induction false} PathElemsAt(ids: seq<string>, k: nat)
    requires |ids| <= 4 && k < |ids|
    ensures PathElems(ids)[2 * k] == Collection(k) && PathElems(ids)[2 * k + 1] == ids[k]
  {
    if k < |ids| - 1 {
      PathElemsAt(ids[..|ids| - 1], k);
    }
  }

  /** A root without separators followed by labelled segments splits into the root, then label and id per level. */
  lemma {:induction false} SplitLabelled(root: string, ids: seq<string>)
    requires |ids| <= 4 && '/' !in root
    requires forall i :: 0 <= i < |ids| ==> '/' !in ids[i]
    ensures Split(root + LabelledPath(ids), '/') == [root] + PathElems(ids)
  {
    if |ids| == 0 {
      assert root + "" == root;
      SplitNone(root, '/');
    } else {
      var n := |ids| - 1;
      var init := ids[..n];
      var c := Collection(n);
      SplitLabelled(root, init);
      var p := root + LabelledPath(init);
      var q := p + ['/'] + c;
      LabelledParts(root, ids);
      SegmentParts(p, n, ids[n]);
      SplitLast(p, '/', c);
      SplitLast(q, '/', ids[n]);
      ElemsParts(root, ids);
    }
  }

  /** The text of a labelled path, its last label and its last id split off. */
  lemma LabelledParts(root: string, ids: seq<string>)
    requires 1 <= |ids| <= 4
    ensures root + LabelledPath(ids)
      == root + LabelledPath(ids[..|ids| - 1]) + ['/'] + Collection(|ids| - 1) + ['/'] + ids[|ids| - 1]
  {
    var n := |ids| - 1;
    var c, x := Collection(n), ids[n];
    assert LabelledPath(ids) == LabelledPath(ids[..n]) + Segment(n, x);
    assert Segment(n, x) == ['/'] + c + ['/'] + x;
    RegroupSegment(root, LabelledPath(ids[..n]), c, x, '/');
  }

  /** The pieces of a labelled path, its last label and its last id split off. */
  lemma ElemsParts(root: string, ids: seq<string>)
    requires 1 <= |ids| <= 4
    ensures [root] + PathElems(ids) == [root] + PathElems(ids[..|ids| - 1]) + [Collection(|ids| - 1)] + [ids[|ids| - 1]]
  {
    var n := |ids| - 1;
    assert PathElems(ids) == PathElems(ids[..n]) + [Collection(n), ids[n]];
    RegroupPair([root], PathElems(ids[..n]), Collection(n), ids[n]);
  }

  lemma RegroupSegment<T>(a: seq<T>, b: seq<T>, c: seq<T>, x: seq<T>, s: T)
    ensures a + (b + ([s] + c + [s] + x)) == a + b + [s] + c + [s] + x
  {
  }

  lemma RegroupPair<T>(a: seq<T>, b: seq<T>, x: T, y: T)
    ensures a + (b + [x, y]) == a + b + [x] + [y]
  {
  }

  /** Where the labels and the ids sit among the pieces of an event path. */
  lemma {:induction false} EventElemsAt(elems: seq<string>, ids: seq<string>, j: nat)
    requires |ids| <= 4 && elems == ["events"] + PathElems(ids)
    ensures |elems| == 1 + 2 * |ids|
    ensures j < |ids| ==> elems[2 * j + 1] == Collection(j) && elems[2 * j + 2] == ids[j]
  {
    if j < |ids| {
      PathElemsAt(ids, j);
      assert elems[2 * j + 1] == PathElems(ids)[2 * j];
      assert elems[2 * j + 2] == PathElems(ids)[2 * j + 1];
    }
  }

  /** The parser's `try` block on such pieces gives back the ids, then `None` for the levels the path does not reach. */
  lemma {:induction false} ScanPath(elems: seq<string>, ids: seq<string>, j: nat)
    requires |ids| <= 4 && j < 4 && |elems| == 1 + 2 * |ids|
    requires j < |ids| ==> elems[2 * j + 1] == Collection(j) && elems[2 * j + 2] == ids[j]
    ensures ScanFrom(elems, Labels, 0)[j] == if j < |ids| then Some(ids[j]) else None
  {
    ScanClosedForm(elems, Labels, 0, j);
    LabelsAreCollections(j);
  }

  /** An address made of `events` and more passes both of the parser's assertions. */
  lemma EventsPrefix(rest: string)
    ensures StartsWith("events" + rest, "events") && !StartsWith("events" + rest, "/")
  {
    assert ("events" + rest)[..6] == "events";
    assert ("events" + rest)[0] == 'e';
  }

  /** The parser reads back the ids of every event path the model publishes. */
  lemma {:induction false} ParseEventPath(ids: seq<string>)
    requires 1 <= |ids| <= 4
    requires forall i :: 0 <= i < |ids| ==> '/' !in ids[i]
    ensures ParseEventAddress(EventPath(ids)).Ok?
    ensures forall j :: 0 <= j < 4 ==>
      IdList(ParseEventAddress(EventPath(ids)).value)[j] == if j < |ids| then Some(ids[j]) else None
  {
    PathsShareSegments(ids);
    EventsPrefix(LabelledPath(ids));
    SplitLabelled("events", ids);
    var elems := Split(EventPath(ids), '/');
    var scanned := ScanFrom(elems, Labels, 0);
    assert ParseEventAddress(EventPath(ids)) == Ok(EventIds(scanned[0], scanned[1], scanned[2], scanned[3]));
    forall j | 0 <= j < 4
      ensures scanned[j] == if j < |ids| then Some(ids[j]) else None
    {
      EventElemsAt(elems, ids, j);
      ScanPath(elems, ids, j);
    }
  }

  // ---------------------------------------------------------------------------------------------
  // The subscription table

  /**
   * A link of the messaging connection: its name, whether the server sends on it, the address
   * the peer asked for (`remote_source.address`), the address the server stored
   * (`source.address`) and the credit the peer has granted.
   */
  datatype Link = Link(name: string, isSender: bool, remoteAddress: Option<string>, source: string, credit: nat)

  /** The message `on_object_update` builds: the `type` and `path` properties and the object's JSON. */
  datatype Message = Message(typeName: string, path: string, body: Json)

  /** One `sender.send(message)`: the address the sender is subscribed under and its link name. */
  datatype Delivery = Delivery(address: string, link: string, message: Message)

  /** `address[1:]` when the address starts with `/`. */
  function StripSlash(address: string): (r: string)
    ensures StartsWith(address, "/") ==> "/" + r == address
    ensures !StartsWith(address, "/") ==> r == address
  {
    if StartsWith(address, "/") then address[1..] else address
  }

  /** `self.subscriptions[address]` on a `defaultdict(dict)`: an empty table is stored for a new address. */
  function Touch(subs: Dict<Dict<Link>>, address: string): (r: Dict<Dict<Link>>)
    ensures Get(r, address).Some?
  {
    if Get(subs, address).Some? then subs else Put(subs, address, [])
  }

  /** The links subscribed under `address`; none when the address was never used. */
  function Table(subs: Dict<Dict<Link>>, address: string): Dict<Link>
  {
    match Get(subs, address)
    case Some(t) => t
    case None => []
  }

  /** A sender after one `send`: one credit used. */
  function Spend(l: Link): (l': Link)
    requires l.credit > 0
    ensures l'.credit == l.credit - 1 && l' == l.(credit := l'.credit)
  {
    l.(credit := l.credit - 1)
  }

  /** A link after the `if sender.credit > 0: sender.send(message)` of the fan-out loop. */
  function Offered(l: Link): Link
  {
    if l.credit > 0 then Spend(l) else l
  }

  /** The table after the loop of `on_object_update` over it: every sender with credit sends once. */
  function Deliver(links: Dict<Link>): (r: Dict<Link>)
    ensures |r| == |links|
  {
    if |links| == 0 then [] else [(links[0].0, Offered(links[0].1))] + Deliver(links[1..])
  }

  /** The sends of that loop, in table order. */
  function Sends(address: string, links: Dict<Link>, m: Message): seq<Delivery>
  {
    if |links| == 0 then []
    else (if links[0].1.credit > 0 then [Delivery(address, links[0].0, m)] else []) + Sends(address, links[1..], m)
  }

  /** The subscriptions after the loop over the senders of `address` (which the lookup stores if it is new). */
  function Fanned(subs: Dict<Dict<Link>>, address: string): Dict<Dict<Link>>
  {
    var touched := Touch(subs, address);
    Put(touched, address, Deliver(Table(touched, address)))
  }

  /** The senders of an address with credit receive the message, once each, and no one else does. */
  lemma {:induction false} SendsExactly(address: string, links: Dict<Link>, m: Message, d: Delivery)
    requires UniqueKeys(links)
    ensures d in Sends(address, links, m)
      <==> d.address == address && d.message == m && exists l :: (d.link, l) in links && l.credit > 0
    ensures multiset(Sends(address, links, m))[d] <= 1
  {
    if |links| > 0 {
      var rest := links[1..];
      SendsExactly(address, rest, m, d);
      var (n, l) := links[0];
      assert links == [(n, l)] + rest;
      if d.link == n {
        forall l' | (n, l') in rest
          ensures false
        {
          EntryKey(rest, n, l');
        }
        assert d !in Sends(address, rest, m);
      }
    }
  }

  /** The loop only spends credit: the same ids in the same order, each link as it was or with one credit less. */
  lemma {:induction false} DeliverAt(links: Dict<Link>, i: nat)
    requires i < |links|
    ensures Deliver(links)[i] == (links[i].0, Offered(links[i].1))
  {
    if i > 0 {
      DeliverAt(links[1..], i - 1);
    }
  }

  /** Sending keeps every link under its id. */
  lemma {:induction false} DeliverKeys(links: Dict<Link>)
    ensures Keys(Deliver(links)) == Keys(links)
  {
    if |links| > 0 {
      DeliverKeys(links[1..]);
    }
  }

  lemma {:induction false} DeliverAppend(a: Dict<Link>, b: Dict<Link>)
    ensures Deliver(a + b) == Deliver(a) + Deliver(b)
  {
    if |a| > 0 {
      assert (a + b)[1..] == a[1..] + b;
      DeliverAppend(a[1..], b);
    } else {
      assert a + b == b;
    }
  }

  lemma {:induction false} SendsAppend(address: string, a: Dict<Link>, b: Dict<Link>, m: Message)
    ensures Sends(address, a + b, m) == Sends(address, a, m) + Sends(address, b, m)
  {
    if |a| > 0 {
      assert (a + b)[1..] == a[1..] + b;
      SendsAppend(address, a[1..], b, m);
    } else {
      assert a + b == b;
    }
  }

  /** One more turn of the fan-out loop. */
  lemma LoopStep(address: string, links: Dict<Link>, m: Message, i: nat)
    requires i < |links|
    ensures Deliver(links[..i + 1]) == Deliver(links[..i]) + [(links[i].0, Offered(links[i].1))]
    ensures Sends(address, links[..i + 1], m)
      == Sends(address, links[..i], m) + (if links[i].1.credit > 0 then [Delivery(address, links[i].0, m)] else [])
  {
    assert links[..i + 1] == links[..i] + [links[i]];
    DeliverAppend(links[..i], [links[i]]);
    SendsAppend(address, links[..i], [links[i]], m);
  }

  /** The table as the fan-out loop leaves it after one more turn. */
  lemma {:induction false} OutStep(links: Dict<Link>, out: Dict<Link>, i: nat)
    requires i < |links| && out == Deliver(links[..i]) + links[i..]
    ensures |out| == |links| && out[i] == links[i]
    ensures out[i := (links[i].0, Offered(links[i].1))] == Deliver(links[..i + 1]) + links[i + 1..]
  {
    LoopStep("", links, Message("", "", JNull), i);
    assert links[i..] == [links[i]] + links[i + 1..];
  }

  /** The table as the fan-out loop leaves it after the last turn. */
  lemma OutDone(links: Dict<Link>, out: Dict<Link>)
    requires out == Deliver(links[..|links|]) + links[|links|..]
    ensures out == Deliver(links)
  {
    TakeAll(links);
    assert links[|links|..] == [];
  }

  /** Every table has uniquely named links, and every address occurs once. */
  predicate TablesValid(subs: Dict<Dict<Link>>)
  {
    UniqueKeys(subs) && forall e | e in subs :: UniqueKeys(e.1)
  }

  /** Sending keeps the link names unique. */
  lemma {:induction false} DeliverUnique(links: Dict<Link>)
    requires UniqueKeys(links)
    ensures UniqueKeys(Deliver(links))
  {
    if |links| > 0 {
      DeliverKeys(links[1..]);
      DeliverUnique(links[1..]);
    }
  }

  lemma TableValid(subs: Dict<Dict<Link>>, address: string)
    requires TablesValid(subs)
    ensures UniqueKeys(Table(subs, address))
  {
  }

  /** Storing a uniquely keyed table keeps the subscriptions valid. */
  lemma PutTableValid(subs: Dict<Dict<Link>>, address: string, t: Dict<Link>)
    requires TablesValid(subs) && UniqueKeys(t)
    ensures TablesValid(Put(subs, address, t))
  {
    PutEntries(subs, address, t);
    PutFacts(subs, address, t);
  }

  lemma TouchValid(subs: Dict<Dict<Link>>, address: string)
    requires TablesValid(subs)
    ensures TablesValid(Touch(subs, address))
    ensures Table(Touch(subs, address), address) == Table(subs, address)
  {
    if Get(subs, address).None? {
      PutTableValid(subs, address, []);
    }
  }

  // ---------------------------------------------------------------------------------------------
  // The handler

  /** The subscriptions after a sending link `l` (its source address already set) is stored under its name. */
  function Attach(subs: Dict<Dict<Link>>, l: Link): Dict<Dict<Link>>
  {
    var touched := Touch(subs, l.source);
    Put(touched, l.source, Put(Table(touched, l.source), l.name, l))
  }

  /** The subscriptions and the error after `del self.subscriptions[l.source][l.name]`. */
  function Detach(subs: Dict<Dict<Link>>, l: Link): (Dict<Dict<Link>>, Option<Error>)
  {
    var touched := Touch(subs, l.source);
    var table := Table(touched, l.source);
    if Get(table, l.name).None? then (touched, Some(KeyError(JStr(l.name))))
    else (Put(touched, l.source, Remove(table, l.name)), None)
  }

  /** The `defaultdict` lookup changes no table: a new address gets an empty one, which it already read as. */
  lemma TouchTables(subs: Dict<Dict<Link>>, address: string, a: string)
    ensures Table(Touch(subs, address), a) == Table(subs, a)
  {
    if Get(subs, address).None? {
      PutFacts(subs, address, []);
    }
  }

  /** After an attach the link is found under its address and name; every other lookup is as before. */
  lemma AttachStores(subs: Dict<Dict<Link>>, l: Link, a: string, n: string)
    ensures Get(Table(Attach(subs, l), a), n) == if a == l.source && n == l.name then Some(l) else Get(Table(subs, a), n)
  {
    var touched := Touch(subs, l.source);
    var t := Table(touched, l.source);
    PutFacts(touched, l.source, Put(t, l.name, l));
    PutFacts(t, l.name, l);
    TouchTables(subs, l.source, a);
  }

  /**
   * A detach fails exactly when the link's name is not under its address; otherwise only that
   * name is gone.  Either way every other lookup is as before.
   */
  lemma DetachRemoves(subs: Dict<Dict<Link>>, l: Link, a: string, n: string)
    ensures Detach(subs, l).1.Some? <==> Get(Table(subs, l.source), l.name).None?
    ensures Get(Table(Detach(subs, l).0, a), n) == if a == l.source && n == l.name then None else Get(Table(subs, a), n)
  {
    var touched := Touch(subs, l.source);
    var t := Table(touched, l.source);
    TouchTables(subs, l.source, a);
    TouchTables(subs, l.source, l.source);
    if Get(t, l.name).Some? {
      PutFacts(touched, l.source, Remove(t, l.name));
    }
  }

  /** Closing a link right after opening it succeeds and leaves every other subscription as it was. */
  lemma AttachThenDetach(subs: Dict<Dict<Link>>, l: Link, a: string, n: string)
    ensures Detach(Attach(subs, l), l).1.None?
    ensures Get(Table(Detach(Attach(subs, l), l).0, a), n) == if a == l.source && n == l.name then None else Get(Table(subs, a), n)
  {
    AttachStores(subs, l, l.source, l.name);
    DetachRemoves(Attach(subs, l), l, a, n);
    AttachStores(subs, l, a, n);
  }

  /**
   * The subscriptions after a flow frame from the peer sets the credit of the sender `l` to
   * `credit`.  Proton keeps `sender.credit` up to date by itself; a link that is not subscribed
   * leaves the table as it is.
   */
  function Grant(subs: Dict<Dict<Link>>, l: Link, credit: nat): Dict<Dict<Link>>
  {
    match Get(Table(subs, l.source), l.name)
    case None => subs
    case Some(stored) => Put(subs, l.source, Put(Table(subs, l.source), l.name, stored.(credit := credit)))
  }

  /** A grant changes only the credit of that link; every other lookup is as before. */
  lemma GrantStores(subs: Dict<Dict<Link>>, l: Link, credit: nat, a: string, n: string)
    ensures Get(Table(Grant(subs, l, credit), a), n) ==
      if a == l.source && n == l.name && Get(Table(subs, a), n).Some?
      then Some(Get(Table(subs, a), n).value.(credit := credit))
      else Get(Table(subs, a), n)
  {
    var t := Table(subs, l.source);
    match Get(t, l.name) {
      case None =>
      case Some(stored) =>
        PutFacts(subs, l.source, Put(t, l.name, stored.(credit := credit)));
        PutFacts(t, l.name, stored.(credit := credit));
    }
  }

  /** A grant keeps the subscriptions valid. */
  lemma GrantValid(subs: Dict<Dict<Link>>, l: Link, credit: nat)
    requires TablesValid(subs)
    ensures TablesValid(Grant(subs, l, credit))
  {
    var t := Table(subs, l.source);
    match Get(t, l.name) {
      case None =>
      case Some(stored) =>
        TableValid(subs, l.source);
        PutFacts(t, l.name, stored.(credit := credit));
        PutTableValid(subs, l.source, Put(t, l.name, stored.(credit := credit)));
    }
  }

  /** A subscribed sender that the peer has given credit receives the next message for its address. */
  lemma GrantedSenderReceives(subs: Dict<Dict<Link>>, l: Link, credit: nat, m: Message)
    requires TablesValid(subs) && Get(Table(subs, l.source), l.name).Some? && credit > 0
    ensures Delivery(l.source, l.name, m) in Sends(l.source, Table(Grant(subs, l, credit), l.source), m)
  {
    var g := Grant(subs, l, credit);
    GrantValid(subs, l, credit);
    TableValid(g, l.source);
    GrantStores(subs, l, credit, l.source, l.name);
    SendsExactly(l.source, Table(g, l.source), m, Delivery(l.source, l.name, m));
  }

  /** The proton `MessagingHandler` of the server: its `subscriptions` and the messages it has sent. */
  class Handler {
    /** `subscriptions`: address to link name to link, in insertion order. */
    var subscriptions: Dict<Dict<Link>>
    /** Every `sender.send(message)`, in order. */
    var sent: seq<Delivery>

    ghost predicate Valid()
      reads this
    {
      TablesValid(subscriptions)
    }

    constructor()
      ensures Valid() && subscriptions == [] && sent == []
    {
      subscriptions := [];
      sent := [];
    }

    /**
     * `on_link_opening`: a sending link must name an address; one leading `/` is stripped, the
     * link's source address is set to the result, and the link is stored under it by name.
     * Returns the link as it is afterwards.
     */
    method OnLinkOpening(link: Link) returns (r: Result<Link, AddressError>)
      requires Valid()
      modifies this
      ensures Valid()
      ensures !link.isSender ==> r == Ok(link) && subscriptions == old(subscriptions)
      ensures link.isSender && link.remoteAddress.None? ==>
        r == Err(AssertionError) && subscriptions == old(subscriptions)
      ensures link.isSender && link.remoteAddress.Some? ==>
        r == Ok(link.(source := StripSlash(link.remoteAddress.value)))
      ensures r.Ok? && link.isSender ==> subscriptions == Attach(old(subscriptions), r.value)
      ensures sent == old(sent)
    {
      if !link.isSender {
        return Ok(link);
      }
      if link.remoteAddress.None? {
        return Err(AssertionError);
      }
      var address := link.remoteAddress.value;
      if StartsWith(address, "/") {
        address := address[1..];
      }
      var l := link.(source := address);
      TouchValid(subscriptions, address);
      subscriptions := Touch(subscriptions, address);
      var table := Get(subscriptions, address).value;
      TableValid(subscriptions, address);
      PutFacts(table, l.name, l);
      PutTableValid(subscriptions, address, Put(table, l.name, l));
      subscriptions := Put(subscriptions, address, Put(table, l.name, l));
      r := Ok(l);
    }

    /**
     * `on_link_closing`: `del self.subscriptions[address][name]` for a sending link, where the
     * address is the one stored at opening.  A name that is not there raises `KeyError`, after
     * the `defaultdict` lookup has stored an empty table for a new address.
     */
    method OnLinkClosing(link: Link) returns (err: Option<Error>)
      requires Valid()
      modifies this
      ensures Valid()
      ensures !link.isSender ==> err.None? && subscriptions == old(subscriptions)
      ensures link.isSender ==> (subscriptions, err) == Detach(old(subscriptions), link)
      ensures sent == old(sent)
    {
      if !link.isSender {
        return None;
      }
      var address := link.source;
      TouchValid(subscriptions, address);
      subscriptions := Touch(subscriptions, address);
      var table := Get(subscriptions, address).value;
      if Get(table, link.name).None? {
        return Some(KeyError(JStr(link.name)));
      }
      TableValid(subscriptions, address);
      PutTableValid(subscriptions, address, Remove(table, link.name));
      subscriptions := Put(subscriptions, address, Remove(table, link.name));
      err := None;
    }

    /**
     * A flow frame from the peer: proton sets the sender's credit to what the peer grants.  No
     * handler of the server runs; this is how a subscriber's credit is topped up.
     */
    method OnLinkFlow(link: Link, credit: nat)
      requires Valid()
      modifies this
      ensures Valid()
      ensures subscriptions == Grant(old(subscriptions), link, credit)
      ensures sent == old(sent)
    {
      GrantValid(subscriptions, link, credit);
      var table := Table(subscriptions, link.source);
      var stored := Get(table, link.name);
      if stored.Some? {
        subscriptions := Put(subscriptions, link.source, Put(table, link.name, stored.value.(credit := credit)));
      }
    }

    /** One of the loops of `on_object_update`: every sender of `address` with credit sends `m`. */
    method SendTo(address: string, m: Message)
      requires Valid()
      modifies this
      ensures Valid()
      ensures subscriptions == Fanned(old(subscriptions), address)
      ensures sent == old(sent) + Sends(address, Table(old(subscriptions), address), m)
    {
      TouchValid(subscriptions, address);
      subscriptions := Touch(subscriptions, address);
      var links := Get(subscriptions, address).value;
      var out := links;
      ghost var before := sent;
      ghost var touched := subscriptions;
      for i := 0 to |links|
        invariant subscriptions == touched
        invariant out == Deliver(links[..i]) + links[i..]
        invariant sent == before + Sends(address, links[..i], m)
      {
        LoopStep(address, links, m, i);
        OutStep(links, out, i);
        var (n, l) := links[i];
        out := out[i := (n, Offered(l))];
        if l.credit > 0 {
          sent := sent + [Delivery(address, n, m)];
        }
      }
      OutDone(links, out);
      TakeAll(links);
      assert Table(touched, address) == links;
      TableValid(subscriptions, address);
      DeliverUnique(links);
      PutTableValid(subscriptions, address, out);
      subscriptions := Put(subscriptions, address, out);
    }

    /**
     * `on_object_update`: the message for the update goes to the senders subscribed under the
     * object's event path, then to those subscribed under `events`.
     */
    method OnObjectUpdate(u: Update, body: Json)
      requires Valid()
      modifies this
      ensures Valid()
      ensures var m := Message(u.typeName, u.path, body);
        var mid := Fanned(old(subscriptions), u.path);
        && subscriptions == Fanned(mid, "events")
        && sent == old(sent) + Sends(u.path, Table(old(subscriptions), u.path), m) + Sends("events", Table(mid, "events"), m)
    {
      var m := Message(u.typeName, u.path, body);
      SendTo(u.path, m);
      SendTo("events", m);
    }
  }
}
