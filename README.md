# Stagger, modelled in Dafny

Stagger is a catalog of build artifacts. Build jobs report what they produced as a tree of
repos, branches, tags and artifacts. The server keeps that tree in memory, saves it as a JSON
document, serves it over HTTP, and announces every change to AMQP subscribers. A browser page
shows the catalog and one page per tag.

This project models the core of that system and proves properties of the model.

| file | module | models |
|---|---|---|
| `wrappers.dfy` | `Wrappers` | `Option` and `Result` |
| `json.dfy` | `Json` | decoded JSON values; a decoded object never repeats a key |
| `dicts.dfy` | `Dicts` | Python dicts and JavaScript objects as ordered association lists (`d[k] = v`, `del d[k]`, `d.get(k)`, iteration order) |
| `strings.dfy` | `Strings` | `str.split`, `split()`, `strip()`, `replace`, `str(n)` and the JavaScript string helpers the code uses |
| `model_objects.dfy` | `ModelObjects` | the object classes of `python/stagger/model.py`: construction from keyword fields, `data()`, `api_path`, `event_path`, and the order in which updates fire |
| `model.dfy` | `Catalog` | the `Model` class: `load`, `data`, `mark_modified`, and the `put_*`/`delete_*` operations on the tree |
| `amqp.dfy` | `Amqp` | `python/stagger/amqpserver.py`: the parser of event addresses and the `MessagingHandler` with its subscription table and fan-out |
| `client.dfy` | `Client` | `static/main.js`: the `Stagger` page object, its routing, its history handling, the helpers and the two views |
| `legacy_data.dfy` | `LegacyData` | `python/stagger/data.py`: the older repo → tag → artifact store |
| `server_data.dfy` | `ServerData` | `server/data.py`: the flat store of tags under `repository:branch:name` ids |
| `fortworth.dfy` | `Fortworth` | `python/fortworth.py`: the build helpers that report to the catalog (URLs, commit links, tag data, release strings, Maven settings) |
| `brbn.dfy` | `Brbn` | `python/brbn.py`: how `Handler.__call__` picks a response and writes its `ETag` |

Classes whose fields the source updates in place are Dafny classes:

- `Catalog.Model`
- `Amqp.Handler`
- `Client.Stagger`
- `LegacyData.Data`
- `ServerData.Data`
- `Brbn.Response`

Their methods state the whole new state. Each method is tied to the specification functions
that the lemmas are about. The objects of the tree are values (`ModelObjects.Obj`). An object's
parent link is replaced by the path of ids that leads to the object.

The things outside the code are parameters:

- the clock (`now`, in milliseconds);
- the decoded request and file contents;
- the hooks of a `brbn` handler;
- the browser's location;
- a link's credit.

## Model

| member | source | states |
|---|---|---|
| `ModelObjects.ArtifactClass` | python/stagger/model.py:374-379 | the lookup in `_subclasses_by_type` succeeds exactly for the four type keys, and the class found has that key; any other string or scalar raises `KeyError` for itself, and a list or an object (unhashable) `TypeError` |
| `ModelObjects.Construct` | python/stagger/model.py:212-238 | `cls(model, id, parent, **data)`: the `missing` check, the `setattr` loop, then `_init_children`; `ConstructOk`, `ConstructErrors` and `RebuildObject` state what it returns |
| `ModelObjects.CreateArtifact` | python/stagger/model.py:346-356 | `Artifact.create`: the `type` lookup, then the constructor of that class; `ConstructErrors` and `CreateArtifactWellFormed` state what it returns |
| `ModelObjects.ConstructErrors` | python/stagger/model.py:212-353 | required values absent or `None` raise `BadDataError` listing every one in order; artifact data without `type` raises `BadDataError`; a string `type` that names no class raises `KeyError` for it |
| `ModelObjects.ObjData` | python/stagger/model.py:254-266 | `data()`: the public attributes, then the child field holding each child's `data()`; `ObjDataChildren`, `DataKeys` and `RebuildObject` state its shape and that it can be loaded back |
| `ModelObjects.ApiPath` | python/stagger/model.py:247-314 | `api_path`: `api/repos/{id}` for a repo, the parent's path and `/{collection}/{id}` below it; `ApiPathSegments` and `TagPaths` state its form |
| `ModelObjects.EventPath` | python/stagger/model.py:251-314 | `event_path`: the same with `events`; `EventPathSegments` and `EventPathInjective` state its form and that distinct objects get distinct paths |
| `ModelObjects.UpdateTime` | python/stagger/model.py:219-222 | a supplied `update_time` is kept as it is; without one the current time is used |
| `ModelObjects.DataOf` | python/stagger/model.py:268-274 | `_child_data` has one entry per child, with the same id, in the same order, holding that child's `data()` |
| `ModelObjects.ObjDataChildren` | python/stagger/model.py:254-266 | `data()` is the public attributes followed by the child field, which holds each child's `data()` |
| `ModelObjects.DataOfKeys` | python/stagger/model.py:268-274 | serialised children keep their ids and their order |
| `ModelObjects.DataKeys` | python/stagger/model.py:254-266 | the members of a constructed object's `data()` are `update_time`, then the class's `_fields` in declaration order |
| `ModelObjects.MissingEmpty` | python/stagger/model.py:224-231 | the `missing` list is empty if and only if every required name is present and not `None` |
| `ModelObjects.SetAttrsPlain` | python/stagger/model.py:233-235 | the `setattr` loop over all fields sets exactly the plain fields, because the child field is skipped |
| `ModelObjects.AttrNamesAreFresh` | python/stagger/model.py:296-372 | in every class the plain field names are distinct, none is `update_time`, and none is the child field |
| `ModelObjects.SetAttrsBuild` | python/stagger/model.py:233-235 | after the `setattr` loop the attributes are `update_time` and the names in order, each holding the supplied value or `None` |
| `ModelObjects.SetAttrsKeys` | python/stagger/model.py:233-235 | the attribute keys are `update_time` and then the names, each once |
| `ModelObjects.SetAttrsGet` | python/stagger/model.py:233-235 | every name the loop visits holds `fields.get(name, None)` |
| `ModelObjects.InitAttrsShape` | python/stagger/model.py:219-235 | the attributes `__init__` sets are keyed by `update_time` and the plain fields, and hold the supplied values |
| `ModelObjects.ConstructOk` | python/stagger/model.py:212-237 | a construction that succeeds had no missing required field; it has the class, the attributes `__init__` sets, and the children the children loop built (none when the child field is absent) |
| `ModelObjects.ConstructWellFormed` | python/stagger/model.py:212-237 | every object a constructor returns is well formed: ordered attributes, required fields set, children uniquely keyed, of the right class and well formed |
| `ModelObjects.ArtifactAttrsSet` | python/stagger/model.py:224-235 | an artifact built with nothing missing has every field set, and none of them is `None` |
| `ModelObjects.CreateArtifactWellFormed` | python/stagger/model.py:346-356 | `Artifact.create` returns a well-formed artifact whose `type` attribute is its class's key |
| `ModelObjects.ConstructChildWellFormed` | python/stagger/model.py:301-340 | a child built by a repo, a branch or a tag (or by the model, for a repo) has the class that parent holds, and is typed and well formed |
| `ModelObjects.InitChildrenWellFormed` | python/stagger/model.py:301-306 | the children loop keeps the children table well formed, also when it stops at an error |
| `ModelObjects.ChildrenPut` | python/stagger/model.py:305-306 | storing a well-formed child of the right class keeps a children table well formed |
| `ModelObjects.FieldsNotParameters` | python/stagger/model.py:212-212 | no serialised member name collides with a parameter of `__init__` or of `Artifact.create` |
| `ModelObjects.RebuildObject` | python/stagger/model.py:254-266 | construction inverts `data()`: `cls(model, id, parent, **o.data())` gives `o` back |
| `ModelObjects.RebuildChild` | python/stagger/model.py:301-340 | a child is rebuilt from its `data()` by the constructor its parent uses |
| `ModelObjects.ArtifactDataType` | python/stagger/model.py:346-353 | an artifact's `data()` passes the checks of `Artifact.create`, and its `type` selects the artifact's own class |
| `ModelObjects.RebuildChildren` | python/stagger/model.py:301-340 | the children loop over `o.data()`'s child field rebuilds `o`'s children in order |
| `ModelObjects.RebuildTable` | python/stagger/model.py:55-57 | a well-formed children table is rebuilt from its serialised form |
| `ModelObjects.InitChildrenOk` | python/stagger/model.py:304-306 | one successful turn of the children loop stores the new child under its id |
| `ModelObjects.InitChildrenErr` | python/stagger/model.py:304-306 | one failing turn keeps the error and leaves the table as it was |
| `ModelObjects.InitChildrenStops` | python/stagger/model.py:304-306 | once the children loop has failed, no later entry is looked at |
| `ModelObjects.PathsShareSegments` | python/stagger/model.py:246-252 | `api_path` is `api` and `event_path` is `events`, each followed by the same `/collection/id` segments |
| `ModelObjects.TagPaths` | python/stagger/model.py:308-314 | a tag's paths are `api/repos/r/branches/b/tags/t` and `events/repos/r/branches/b/tags/t` |
| `ModelObjects.EventPathInjective` | python/stagger/model.py:250-252 | for ids without `/`, distinct objects of the same depth have distinct event paths |
| `ModelObjects.FiredOrder` | python/stagger/model.py:283-288 | `_mark_modified` fires one update per level, the object's first and the repo's last, each with its own `type_name` and event path |
| `ModelObjects.FiredAt` | python/stagger/model.py:283-288 | the `i`-th update fired is that of the ancestor `i` levels up |
| `ModelObjects.FiredLength` | python/stagger/model.py:283-288 | one update is fired for each level from the object up to its repo |
| `ModelObjects.ApiPathSegments` | python/stagger/model.py:247-310 | an object's `api_path` is `api` followed by `/{collection}/{id}` for each level from the repo down |
| `ModelObjects.EventPathSegments` | python/stagger/model.py:251-314 | an object's `event_path` is `events` followed by the same labelled segments |
| `ModelObjects.CollectMissing` | python/stagger/model.py:224-228 | the `missing` loop computes the list of required names that are absent or `None` |
| `ModelObjects.AssignFields` | python/stagger/model.py:233-235 | the `setattr` loop computes the attributes of the plain fields in declaration order |
| `ModelObjects.NewObject` | python/stagger/model.py:212-238 | `cls(model, id, parent, **data)` returns the object, or the error its construction raises |
| `ModelObjects.NewArtifact` | python/stagger/model.py:346-356 | `Artifact.create` returns the artifact of the class its `type` names, or the error |
| `ModelObjects.NewChild` | python/stagger/model.py:305-305 | the constructor call a parent makes for a child |
| `ModelObjects.FillChildren` | python/stagger/model.py:301-306 | the `_init_children` loop builds each child and stores it under its id, and stops at the first error |
| `ModelObjects.StoreChild` | python/stagger/model.py:305-306 | one pass of the children loop |
| `ModelObjects.DataOfUnique` | python/stagger/model.py:268-274 | serialised children are uniquely keyed when the children are |
| `ModelObjects.Serialize` | python/stagger/model.py:254-266 | the loop of `data()` computes the object's serialised form |
| `ModelObjects.ChildData` | python/stagger/model.py:268-274 | the loop of `_child_data` computes every child's `data()` under its id |
| `Catalog.ContainerAt` | python/stagger/model.py:296-340 | repos hold branches, branches hold tags, tags hold artifacts |
| `Catalog.BlankConstructs` | python/stagger/model.py:141-143 | `Repo(model, id, None)`, and a branch or tag made the same way, with no fields is the empty container |
| `Catalog.BlankWellFormed` | python/stagger/model.py:147-149 | an empty container is well formed |
| `Catalog.MissingKey` | python/stagger/model.py:196-198 | the walk of a `delete_*` raises no `KeyError` if and only if every level of the path exists; otherwise it raises one for an id on the path |
| `Catalog.GraftStores` | python/stagger/model.py:167-192 | after a put the new object is stored at its path |
| `Catalog.GraftFrame` | python/stagger/model.py:167-192 | a put leaves every object off its path as it was |
| `Catalog.GraftAncestors` | python/stagger/model.py:169-185 | after a put every container on its path exists, and those that existed keep their attributes |
| `Catalog.GraftValid` | python/stagger/model.py:167-192 | a put of a well-formed object of the right class keeps the tree well formed |
| `Catalog.PutValid` | python/stagger/model.py:137-156 | however a `put_*` ends, with the object stored or with only the containers created, the tree stays well formed |
| `Catalog.ContainerOk` | python/stagger/model.py:139-143 | the container a put walks through, found or created, is a well-formed container of the right class |
| `Catalog.ReserveAncestors` | python/stagger/model.py:169-185 | a put whose object fails to construct still leaves every container on the path, and those that existed are unchanged |
| `Catalog.ReserveFrame` | python/stagger/model.py:169-185 | a failed put leaves every object off its path as it was |
| `Catalog.ReserveExisting` | python/stagger/model.py:169-185 | when every container on the path already exists, a failed put changes nothing |
| `Catalog.ReserveValid` | python/stagger/model.py:169-185 | a failed put keeps the tree well formed |
| `Catalog.PruneRemoves` | python/stagger/model.py:194-202 | after a delete nothing is stored at the path |
| `Catalog.PruneFrame` | python/stagger/model.py:194-202 | a delete leaves every object off its path as it was |
| `Catalog.PruneAncestors` | python/stagger/model.py:194-202 | the containers on a delete's path were there before and remain, with their attributes |
| `Catalog.PruneValid` | python/stagger/model.py:194-202 | a delete keeps the tree well formed |
| `Catalog.ChildrenRemove` | python/stagger/model.py:113-113 | `del` of an entry keeps a children table well formed |
| `Catalog.LoadRestores` | python/stagger/model.py:45-61 | loading the document `data()` wrote into an empty model restores the repos and the revision |
| `Catalog.LoadIntoOk` | python/stagger/model.py:52-59 | a document with both fields whose repos all construct is loaded whole, with its revision |
| `Catalog.LoadValid` | python/stagger/model.py:55-57 | loading keeps the repos well formed, also when it stops at an error |
| `Catalog.LoadRequiresFields` | python/stagger/model.py:52-53 | a document without `repos` or `revision` fails its assertion and changes nothing |
| `Catalog.GetOrCreate` | python/stagger/model.py:118-122 | `kids.get(id)`, and a new empty container stored under `id` when there is none |
| `Catalog.ReserveOne` | python/stagger/model.py:118-122 | what a failed `put_branch` leaves is the repo it found or created |
| `Catalog.ReserveTwo` | python/stagger/model.py:139-149 | the tree `put_tag` holds once its repo and branch are in place |
| `Catalog.ReserveThree` | python/stagger/model.py:169-185 | the tree `put_artifact` holds once its repo, branch and tag are in place |
| `Catalog.ReserveBranch` | python/stagger/model.py:139-149 | the descent of `put_tag` leaves the tree of a failed put |
| `Catalog.GraftTag` | python/stagger/model.py:151-152 | the store of `put_tag` leaves the tree of a successful put |
| `Catalog.ReserveTag` | python/stagger/model.py:169-185 | the descent of `put_artifact` leaves the tree of a failed put |
| `Catalog.GraftArtifact` | python/stagger/model.py:187-188 | the store of `put_artifact` leaves the tree of a successful put |
| `Catalog.GraftOne` | python/stagger/model.py:124-125 | the tree after a successful `put_branch` |
| `Catalog.GraftTwo` | python/stagger/model.py:151-152 | the tree after a successful `put_tag` |
| `Catalog.GraftThree` | python/stagger/model.py:187-188 | the tree after a successful `put_artifact` |
| `Catalog.WalkBelow` | python/stagger/model.py:160-161 | a walk that finds the first id goes on in that object's children |
| `Catalog.WalkStops` | python/stagger/model.py:160-161 | a walk that does not find the first id raises `KeyError` for it |
| `Catalog.PruneBelow` | python/stagger/model.py:160-163 | a delete below a container is the pruned children stored back in it |
| `Catalog.PruneOne` | python/stagger/model.py:113-113 | a delete at the last level is the `del` |
| `Catalog.DataOfNext` | python/stagger/model.py:87-89 | the serialised repos grow by one entry per repo |
| `Catalog.Model.constructor` | python/stagger/model.py:32-43 | a new model has no repos, revision 0, and has fired no update |
| `Catalog.Model.RaiseRevision` | python/stagger/model.py:66-69 | `mark_modified` raises the revision by one and changes nothing else |
| `Catalog.Model.FireUpdates` | python/stagger/model.py:283-288 | the updates of the object and its ancestors are appended, in order |
| `Catalog.Model.MarkModified` | python/stagger/model.py:279-281 | an object's `mark_modified` fires those updates and then raises the revision by one |
| `Catalog.Model.PutRepo` | python/stagger/model.py:103-109 | the repo replaces any repo of that id and fires its update, or, if construction fails, nothing changes |
| `Catalog.Model.PutBranch` | python/stagger/model.py:116-129 | the branch is stored at its path and fires its updates; on failure only the created repo is left and the revision is kept |
| `Catalog.Model.PutTag` | python/stagger/model.py:137-156 | the tag is stored at its path and fires its updates; on failure only the created repo and branch are left |
| `Catalog.Model.PutArtifact` | python/stagger/model.py:167-192 | the artifact is stored at its path and fires its updates; on failure only the created containers are left |
| `Catalog.Model.DeleteRepo` | python/stagger/model.py:111-114 | `KeyError` for an unknown repo; otherwise only that repo goes and the revision rises, with no update fired |
| `Catalog.Model.DeleteBranch` | python/stagger/model.py:131-135 | `KeyError` for the first missing id; otherwise only that branch goes and the repo fires its update |
| `Catalog.Model.DeleteTag` | python/stagger/model.py:158-165 | `KeyError` for the first missing id; otherwise only that tag goes and the branch and repo fire their updates |
| `Catalog.Model.DeleteArtifact` | python/stagger/model.py:194-202 | `KeyError` for the first missing id; otherwise only that artifact goes and its ancestors fire their updates |
| `Catalog.Model.Data` | python/stagger/model.py:84-98 | `data()` is the configuration, every repo's `data()` under its id, and the revision |
| `Catalog.Model.Load` | python/stagger/model.py:45-61 | the new repos, revision and error are those of `LoadInto`: each repo of the document is built and stored in turn, the first failure stops the loop, and the revision is taken at the end |
| `Catalog.LoadInto` | python/stagger/model.py:45-61 | `load` on a decoded document; `LoadRestores`, `LoadIntoOk`, `LoadRequiresFields`, `LoadOfSequence` and `LoadValid` state its outcomes |
| `Catalog.SearchFailure` | python/stagger/model.py:52-55 | on a list or a string the assertions fail unless both words are found, and then `data["repos"]` raises `TypeError` |
| `Catalog.LoadOfSequence` | python/stagger/model.py:52-55 | a list or a string document fails an assertion exactly when `repos` or `revision` is not found by `in`, and nothing is loaded |
| `Amqp.LabelsAreCollections` | python/stagger/amqpserver.py:139-149 | the labels the parser expects are the collection names the model uses |
| `Amqp.ParseEventAddress` | python/stagger/amqpserver.py:131-153 | the parser fails if and only if the address starts with `/` or does not start with `events` |
| `Amqp.ScanClosedForm` | python/stagger/amqpserver.py:138-151 | the `try` block gives each id whose label is at its place, and `None` from the first piece that is missing on |
| `Amqp.ParseFields` | python/stagger/amqpserver.py:135-153 | what the parser returns for an accepted address, id by id |
| `Amqp.ScanPath` | python/stagger/amqpserver.py:138-151 | on the pieces of an event path the `try` block gives the ids, then `None` for the levels the path does not reach |
| `Amqp.EventsPrefix` | python/stagger/amqpserver.py:132-133 | an address made of `events` and more passes both assertions |
| `Amqp.ParseEventPath` | python/stagger/amqpserver.py:131-153 | the parser reads back the ids of every event path the model publishes |
| `Amqp.StripSlash` | python/stagger/amqpserver.py:76-77 | a leading `/` is removed and nothing else changes |
| `Amqp.Touch` | python/stagger/amqpserver.py:58-58 | a `defaultdict` lookup stores a table for the address |
| `Amqp.TouchTables` | python/stagger/amqpserver.py:123-123 | that lookup changes no table as read: a new address gets an empty one |
| `Amqp.TouchValid` | python/stagger/amqpserver.py:123-127 | the lookup keeps the subscription table valid |
| `Amqp.Spend` | python/stagger/amqpserver.py:125-125 | a `send` uses one credit and changes nothing else |
| `Amqp.Deliver` | python/stagger/amqpserver.py:123-129 | the fan-out loop keeps the table's length |
| `Amqp.SendsExactly` | python/stagger/amqpserver.py:123-129 | the senders of an address with credit get the message, once each, and nobody else does |
| `Amqp.DeliverAt` | python/stagger/amqpserver.py:123-125 | the loop only spends credit: the same names in the same order, each link as it was or with one credit less |
| `Amqp.DeliverKeys` | python/stagger/amqpserver.py:123-125 | the loop keeps every link under its name |
| `Amqp.DeliverUnique` | python/stagger/amqpserver.py:123-125 | the loop keeps the link names unique |
| `Amqp.AttachStores` | python/stagger/amqpserver.py:101-101 | after a link opens it is found under its address and name, and every other lookup is as before |
| `Amqp.DetachRemoves` | python/stagger/amqpserver.py:104-107 | closing fails with `KeyError` if and only if the link is not subscribed; afterwards it is not found, and every other lookup is as before |
| `Amqp.AttachThenDetach` | python/stagger/amqpserver.py:101-107 | closing a link right after opening it succeeds and leaves every other subscription as it was |
| `Amqp.Attach` | python/stagger/amqpserver.py:101-101 | `self.subscriptions[address][name] = link`; `AttachStores` states its effect |
| `Amqp.Detach` | python/stagger/amqpserver.py:106-107 | `del self.subscriptions[address][name]`; `DetachRemoves` states its effect |
| `Amqp.Sends` | python/stagger/amqpserver.py:123-129 | the sends of one fan-out loop in table order; `SendsExactly` states who receives |
| `Amqp.Fanned` | python/stagger/amqpserver.py:123-125 | the table after one fan-out loop; `DeliverAt` and `DeliverKeys` state what changed |
| `Amqp.Grant` | python/stagger/amqpserver.py:124-128 | the credit proton reads as `sender.credit` after the peer grants more with a flow frame; `GrantStores` states its effect |
| `Amqp.GrantStores` | python/stagger/amqpserver.py:124-128 | a grant sets the credit of that subscribed link only, and every other lookup is as before |
| `Amqp.GrantValid` | python/stagger/amqpserver.py:124-128 | a grant keeps the subscription table valid |
| `Amqp.GrantedSenderReceives` | python/stagger/amqpserver.py:123-125 | a subscribed sender given credit receives the next message for its address |
| `Amqp.Handler.constructor` | python/stagger/amqpserver.py:54-58 | no subscriptions and nothing sent |
| `Amqp.Handler.OnLinkOpening` | python/stagger/amqpserver.py:70-102 | a receiving link is ignored; a sender without an address fails the assertion; otherwise the link gets the address without its leading `/` and is subscribed under it |
| `Amqp.Handler.OnLinkClosing` | python/stagger/amqpserver.py:104-107 | a sender is removed from the table of its source address, or `KeyError`; nothing is sent |
| `Amqp.Handler.SendTo` | python/stagger/amqpserver.py:123-125 | one fan-out loop: every sender of the address with credit sends the message once, in table order |
| `Amqp.Handler.OnObjectUpdate` | python/stagger/amqpserver.py:109-129 | the message carries the type and the event path; it goes to the subscribers of that path, then to those of `events` |
| `Amqp.Handler.OnLinkFlow` | python/stagger/amqpserver.py:124-128 | a flow frame from the peer sets the stored sender's credit, and nothing is sent |
| `Brbn.ServerEtag` | python/brbn.py:80-80 | the server's ETag is the hook's text in double quotes (`"None"` when the hook returns nothing), so it is never `None` |
| `Brbn.Choose` | python/brbn.py:71-89 | each exception picks its response; without one, a matching `If-None-Match` gives "not modified", else `HEAD` gives an empty body, else the rendering |
| `Brbn.Response.constructor` | python/brbn.py:112-114 | a response with the given status, body and headers |
| `Brbn.Response.SetHeader` | python/brbn.py:91-92 | writing a header changes only that header |
| `Brbn.Call` | python/brbn.py:68-94 | the response for each case, with its status and body; every response past `process` gets the `ETag` header; a missing rendering fails the assertion |
| `Brbn.AsWrittenChoice` | python/brbn.py:72-78 | as written, every exception from `process` ends in `TypeError`, because its response is awaited instead of called; a normal return reaches the choice `Choose` makes |
| `Brbn.ExceptPathsAsWrittenRaise` | python/brbn.py:72-78 | on each exception path the code as written raises `TypeError`, where the corrected choice is the redirect, the bad-JSON or the server-error response |
| `Brbn.NotModifiedAnyMethod` | python/brbn.py:83-84 | the ETag test does not look at the method |
| `Brbn.ErrorsIgnoreRequest` | python/brbn.py:71-78 | an error in `process` decides the response, whatever the ETags and the method, and the response gets no `ETag` |
| `Brbn.ServerEtagInjective` | python/brbn.py:80-80 | two hook results give the same ETag only when they are equal |
| `Brbn.NoneEtagCollides` | python/brbn.py:99-100 | a hook that returns nothing and a hook that returns the text `None` give the same ETag |
| `Brbn.WeakNeverMatches` | python/brbn.py:81-83 | a weak validator never matches, not even for its own tag |
| `Brbn.StarNeverMatches` | python/brbn.py:81-83 | `If-None-Match: *` never matches |
| `Brbn.ListNeverMatches` | python/brbn.py:81-83 | a list of tags never matches, even when it holds the server's tag |
| `Client.Prop` | static/main.js:209-209 | a property read fails with `TypeError` if and only if the value is `null` or `undefined`; otherwise it reads an object's member, or an array's or a string's element or `length` |
| `Client.IndexBelow` | static/main.js:175-180 | a key denotes element `i` of an array or a string only when it is `i` in decimal digits, and then that `i` is below the length |
| `Client.Entries` | static/main.js:174-180 | walking with `Object.keys` throws if and only if the value is `null` or `undefined`; an object gives its members, an array or a string one entry per element, a number or a boolean none |
| `Client.IndexKey` | static/main.js:174-180 | the keys `Object.keys` gives an array or a string are the decimal indices, none of them `length` |
| `Client.EntriesReadBack` | static/main.js:174-180 | each key `Object.keys` gives reads back its own value with `v[key]`, for an array, a string, and an object with distinct member names |
| `Client.EntriesUnique` | static/main.js:174-180 | the keys of an array or a string are distinct |
| `Client.OptionalLink` | static/main.js:83-93 | a link if and only if `href` is truthy; a falsy text is shown as the placeholder |
| `Client.ShortId` | static/main.js:96-98 | an id longer than eight characters is cut to its first seven; a shorter one is kept; an array longer than eight, or an object whose `length` is a number above 8, throws at `substring` |
| `Client.CommitLinkText` | static/main.js:95-101 | a commit id is shown in full up to eight characters, and as its first seven beyond that |
| `Client.CrumbLinks` | static/main.js:130-133 | two nodes per link |
| `Client.CrumbLinksAt` | static/main.js:130-133 | each link of the breadcrumb is followed by the separator |
| `Client.CrumbsShape` | static/main.js:127-135 | a non-empty list gives `2n - 1` nodes, ending with the last title as text |
| `Client.Breadcrumb` | static/main.js:127-138 | the loop of `renderHeader` computes the breadcrumb |
| `Client.RouteOf` | static/main.js:118-122 | the tag view if and only if the path starts with `/tags/` |
| `Client.RouteExamples` | static/main.js:118-122 | `/`, `/nonexistent` and `/tags` show the catalog; `/tags/` shows a tag |
| `Client.TagParams` | static/main.js:206-206 | the three ids are the fields 2 to 4 of the split path, and missing ones are `undefined` |
| `Client.TagParamsOfHref` | static/main.js:183-183 | the tag page reads back the ids of the catalog link that leads to it |
| `Client.CollectStep` | static/main.js:174-200 | one more member of a loop adds its rows, unless the loop already failed |
| `Client.CollectErr` | static/main.js:174-200 | once a loop has failed the whole walk gives that error |
| `Client.CollectCover` | static/main.js:174-200 | every member's rows are among the rows of a walk that succeeds |
| `Client.CollectOnly` | static/main.js:174-200 | a walk that succeeds has no rows but its members' rows |
| `Client.CatalogCover` | static/main.js:174-197 | every tag of every branch of every repo gets its row |
| `Client.CatalogRowShape` | static/main.js:181-197 | every row is a tag's row: a link labelled `r/b/t` to `/tags/r/b/t`, and `-` as the update time |
| `Client.CollectOne` | static/main.js:174-198 | a loop over a single member gives exactly that member's rows |
| `Client.CatalogOfArray` | static/main.js:174-198 | repos held in an array are walked by index: `{"repos": [repo]}` renders the row `0/b/t` |
| `Client.CatalogOfString` | static/main.js:174-181 | a string under `repos` is walked by character, and the first character has no `branches`, so the catalog throws `TypeError` |
| `Client.ApiUrl` | static/main.js:213-215 | the API URL is the origin, then the server's `api_path` of the tag |
| `Client.EventUrl` | static/main.js:216-217 | the corrected event URL is `amqp://host:5672/`, then the server's `event_path` of the tag |
| `Client.EventPathAsWritten` | static/main.js:216-216 | the event path as written, `events/{repo}/{branch}/{tag}`; `SplitAsWritten` and `EventPathAsWrittenUnreached` state what it is |
| `Client.SplitAsWritten` | static/main.js:216-216 | the event path as written splits into four pieces |
| `Client.EventPathAsWrittenUnreached` | static/main.js:216-216 | the event path as written is never the event path of any object, and is not `events` |
| `Client.EventUrlParses` | static/main.js:216-217 | the corrected address parses back to the tag's ids on the server |
| `Client.TagViewOfTag` | static/main.js:205-242 | the page of a stored tag has its title, the breadcrumb back to the catalog, the tag's API and event URLs, its commit link and its data |
| `Client.TagViewOf` | static/main.js:205-242 | `renderTagView`: the tag page, or `TypeError` when the data has no such tag; `TagViewOfTag` states the page of a stored tag |
| `Client.TagViewOfArray` | static/main.js:209-209 | `/tags/0/b/t` finds a repo held at index 0 of an array `repos`, so the tag page renders |
| `Client.PathPart` | static/main.js:73-73 | `new URL(href).pathname` is a prefix of the link that ends where the query or fragment starts |
| `Client.Stagger.constructor` | static/main.js:27-34 | an empty request, no data, no view, and the history entry of the page |
| `Client.Stagger.Render` | static/main.js:111-125 | the view is replaced by the rendering, or kept when the rendering throws; nothing else changes |
| `Client.Stagger.RenderTagView` | static/main.js:205-258 | the tag page for the path |
| `Client.Stagger.RenderMainView` | static/main.js:157-203 | the catalog table, one row per tag |
| `Client.Stagger.Load` | static/main.js:40-52 | the path and query of the address become the request, stored with `replaceState`, and polling starts |
| `Client.Stagger.Click` | static/main.js:70-78 | the link's path becomes the request, an entry is pushed, and the page re-renders |
| `Client.Stagger.PopState` | static/main.js:54-57 | the stored request of the entry is restored, nothing is pushed, and the page re-renders |
| `Client.Stagger.Arrive` | static/main.js:60-65 | the fetched document replaces `data` and the page re-renders |
| `Client.WalkTags` | static/main.js:180-198 | the innermost loop computes the rows of a branch's tags |
| `Client.WalkBranches` | static/main.js:177-199 | the middle loop computes the rows of a repo's branches |
| `Client.WalkRepos` | static/main.js:174-200 | the outer loop computes the rows of all repos |
| `LegacyData.Params` | python/stagger/data.py:170-210 | every artifact class's parameters start with `type` and never include `tag` |
| `LegacyData.KindOf` | python/stagger/data.py:212-217 | the class lookup succeeds exactly for the four keys; an unknown key raises `KeyError`, a list or dictionary `TypeError` |
| `LegacyData.Bind` | python/stagger/data.py:180-210 | an artifact's attributes are exactly its parameters, in order |
| `LegacyData.TypeOf` | python/stagger/data.py:155-158 | the `type` is read if and only if the data is a mapping that has one |
| `LegacyData.NoTypeField` | python/stagger/data.py:155-156 | an artifact without a `type` raises `DataError` |
| `LegacyData.UnknownType` | python/stagger/data.py:158-158 | a `type` naming no class raises `KeyError` for it |
| `LegacyData.NewArtifactValid` | python/stagger/data.py:154-159 | a built artifact has its class's attributes and type, and no `tag` attribute |
| `LegacyData.ParamsUnique` | python/stagger/data.py:180-210 | no parameter name repeats |
| `LegacyData.MapData` | python/stagger/data.py:139-140 | a `data()` loop keeps ids and order, and holds each child's data |
| `LegacyData.BuildStep` | python/stagger/data.py:132-133 | one more turn of a construction loop |
| `LegacyData.BuildErr` | python/stagger/data.py:154-159 | once a construction loop has failed it stays failed |
| `LegacyData.BuildUnique` | python/stagger/data.py:132-133 | a built dictionary has one entry per id, each built from some entry |
| `LegacyData.MapDataKeys` | python/stagger/data.py:165-166 | the serialised entries keep the ids in order |
| `LegacyData.NewTagDefaults` | python/stagger/data.py:145-150 | missing `build_id` and `build_url` arguments give `None`, and missing artifacts give none |
| `LegacyData.NewTagValid` | python/stagger/data.py:144-159 | a constructed tag is valid: unique ids, every artifact as its class builds it |
| `LegacyData.NewRepoValid` | python/stagger/data.py:126-133 | a constructed repo is valid |
| `LegacyData.ArtifactRestores` | python/stagger/data.py:170-178 | an artifact is rebuilt from its own `data()` |
| `LegacyData.TagFields` | python/stagger/data.py:161-168 | a tag's data holds exactly `build_id`, `build_url` and `artifacts` |
| `LegacyData.ChildrenRestore` | python/stagger/data.py:132-140 | rebuilding every child from its data gives back the uniquely keyed children |
| `LegacyData.ArtifactsRestore` | python/stagger/data.py:154-166 | a tag's artifacts are rebuilt from their data |
| `LegacyData.TagRestores` | python/stagger/data.py:144-168 | a tag is rebuilt from its own `data()` |
| `LegacyData.RepoRestores` | python/stagger/data.py:126-142 | a repo is rebuilt from its own `data()` |
| `LegacyData.DataDropsParents` | python/stagger/data.py:161-178 | the data holds no back reference (`repo`, `tag`), and children keep their ids |
| `LegacyData.ReposOf` | python/stagger/data.py:47-47 | the assertion holds if and only if the document is a mapping with `repos` |
| `LegacyData.LoadFromRestores` | python/stagger/data.py:49-50 | the load loop over saved repos rebuilds them |
| `LegacyData.LoadRestores` | python/stagger/data.py:40-70 | loading what `data()` wrote into an empty store gives back the same repos |
| `LegacyData.LoadNeedsRepos` | python/stagger/data.py:47-47 | a document without `repos` fails the assertion and loads nothing |
| `LegacyData.Data.constructor` | python/stagger/data.py:30-33 | a new store has no repos |
| `LegacyData.Data.PutRepo` | python/stagger/data.py:75-79 | the built repo replaces whatever was stored under its id; a failed build changes nothing |
| `LegacyData.Data.DeleteRepo` | python/stagger/data.py:81-85 | `KeyError` for an unknown id; otherwise only that repo goes |
| `LegacyData.Data.PutTag` | python/stagger/data.py:87-97 | the tag is stored in its repo, which is created when missing; a failed build leaves only the created repo |
| `LegacyData.Data.DeleteTag` | python/stagger/data.py:99-103 | `KeyError` for an unknown repo or tag; otherwise only that tag goes |
| `LegacyData.Data.Load` | python/stagger/data.py:40-50 | each repo is built and stored in turn, and the first failure stops the loop |
| `LegacyData.LoadInto` | python/stagger/data.py:40-50 | `load` on a decoded document; `ReposOf`, `LoadRestores` and `LoadNeedsRepos` state its outcomes |
| `LegacyData.Data.Serialize` | python/stagger/data.py:62-70 | `data()` is every repo's data under its id |
| `LegacyData.OwnerValid` | python/stagger/data.py:89-93 | the repo `put_tag` stores under, found or created, is valid |
| `LegacyData.SerializeStep` | python/stagger/data.py:65-68 | one more turn of a `data()` loop appends the next entry |
| `LegacyData.MakeArtifacts` | python/stagger/data.py:154-159 | the artifact loop of `Tag.__init__` |
| `LegacyData.MakeTag` | python/stagger/data.py:145-159 | `Tag(repo, **tag_data)` |
| `LegacyData.MakeTags` | python/stagger/data.py:132-133 | the tag loop of `Repo.__init__` |
| `LegacyData.MakeRepo` | python/stagger/data.py:127-133 | `Repo(**repo_data)` |
| `LegacyData.SerializeTag` | python/stagger/data.py:161-168 | `Tag.data()` |
| `LegacyData.SerializeRepo` | python/stagger/data.py:135-142 | `Repo.data()` |
| `ServerData.FieldsOf` | server/data.py:133-145 | the declared fields of each class are distinct, and every artifact class declares `type` |
| `ServerData.KindOf` | server/data.py:147-152 | the class lookup succeeds exactly for the four keys; an unknown key raises `KeyError`, a list or dictionary `TypeError` |
| `ServerData.ArtifactKindOf` | server/data.py:118-121 | an artifact without `type` raises `DataError`; a class found is the one its `type` names |
| `ServerData.ProcessField` | server/data.py:110-126 | an undeclared name raises `DataError` naming it; a declared name other than a tag's `artifacts` keeps its value |
| `ServerData.Missing` | server/data.py:102-105 | no field is reported exactly when every declared field is a key; a reported field is declared and absent |
| `ServerData.MissingFirst` | server/data.py:102-105 | the field reported is the first declared one that is absent |
| `ServerData.FillStep` | server/data.py:90-92 | one more turn of the argument loop |
| `ServerData.FillErr` | server/data.py:90-92 | once the argument loop has failed it stays failed |
| `ServerData.ExtraField` | server/data.py:96-98 | the first undeclared argument raises `DataError` naming it |
| `ServerData.FillKeys` | server/data.py:90-92 | the keys filled in are the argument names, each declared and each once |
| `ServerData.FieldsExact` | server/data.py:89-105 | an object is built if and only if every argument is accepted and every declared field is then present; its keys are exactly the declared fields |
| `ServerData.MissingField` | server/data.py:102-105 | a declared field left out raises `DataError` naming the first such field |
| `ServerData.FillValues` | server/data.py:110-126 | every value is kept as given, except a tag's `artifacts` |
| `ServerData.TypeErrors` | server/data.py:118-121 | an artifact without `type` raises `DataError`, and a `type` naming no class raises `KeyError` |
| `ServerData.BuildArtifactsValid` | server/data.py:114-124 | the artifacts built are stored artifacts, uniquely keyed |
| `ServerData.NewObjectValid` | server/data.py:89-94 | every object built from decoded data is a valid record of its class |
| `ServerData.TagArtifactsValid` | server/data.py:114-124 | a tag's `artifacts` field, once filled, holds stored artifacts, uniquely keyed |
| `ServerData.FillRestores` | server/data.py:90-92 | filling from a record's own entries, each processed back to itself, gives the record back |
| `ServerData.RecordRestores` | server/data.py:89-94 | a record whose keys are its class's fields is rebuilt unchanged |
| `ServerData.ArtifactRestores` | server/data.py:121-122 | a stored artifact is rebuilt unchanged from its entries |
| `ServerData.ArtifactsRestore` | server/data.py:117-122 | the stored artifacts of a tag are rebuilt unchanged |
| `ServerData.ArtifactRestoresNext` | server/data.py:117-122 | one more stored artifact is rebuilt unchanged |
| `ServerData.BuildArtifactsStep` | server/data.py:117-122 | one more turn of the artifact loop stores the artifact under its name |
| `ServerData.TagRestores` | server/data.py:48-49 | rebuilding a valid tag, as `load` does with a saved one, gives it back unchanged |
| `ServerData.TagIdSplits` | server/data.py:128-130 | an id made of fields without `:` splits back into the repository, branch and name |
| `ServerData.TagIdInjective` | server/data.py:128-130 | tags whose fields contain no `:` share an id only when they share all three fields |
| `ServerData.TagIdCollides` | server/data.py:128-130 | a `:` inside a field lets two different tags share an id |
| `ServerData.TagIdOf` | server/data.py:128-130 | the id of a tag that holds the three fields as strings is `repository:branch:name` |
| `ServerData.TagId` | server/data.py:128-130 | `Tag.id`; `TagIdOf`, `TagIdSplits`, `TagIdInjective` and `TagIdCollides` state what it gives |
| `ServerData.TagsOf` | server/data.py:46-48 | the assertion holds if and only if the document is a mapping with `tags`; a mapping without it fails the assertion |
| `ServerData.SaveDoc` | server/data.py:56-58 | the saved document has one member, `tags`, holding every tag under its id in order |
| `ServerData.LoadFromRestores` | server/data.py:48-49 | the load loop over saved tags rebuilds them |
| `ServerData.LoadRestores` | server/data.py:39-58 | loading what `save` wrote into an empty store gives back the same tags under the same ids |
| `ServerData.PutValid` | server/data.py:67-69 | storing a valid tag keeps the store valid |
| `ServerData.Data.constructor` | server/data.py:29-32 | a new store has no tags |
| `ServerData.Data.PutTag` | server/data.py:67-71 | the tag is stored under its id, replacing any tag there; every other id is unchanged |
| `ServerData.Data.DeleteTag` | server/data.py:73-77 | `KeyError` for an unknown id; otherwise only that tag goes |
| `ServerData.Data.Load` | server/data.py:39-49 | each tag is built and stored under its saved id, and the first failure stops the loop |
| `ServerData.Construct` | server/data.py:89-94 | `_DataObject.__init__`: the argument loop, then `_check_fields` |
| `ServerData.CheckFields` | server/data.py:102-105 | the `_check_fields` loop |
| `ServerData.Process` | server/data.py:110-126 | `Tag._process_field` and `_DataObject._process_field` |
| `ServerData.MakeArtifacts` | server/data.py:117-122 | the artifact loop of `Tag._process_field` |
| `ServerData.ArtifactsErr` | server/data.py:117-122 | once the artifact loop has failed it stays failed |
| `Fortworth.NewBuildData` | python/fortworth.py:23-31 | a build record is made if and only if the repo and the branch are not empty; otherwise the assertion fails |
| `Fortworth.ServiceUrl` | python/fortworth.py:152-154 | a helper goes on if and only if its service URL is set and not empty |
| `Fortworth.BodegaBuildUrl` | python/fortworth.py:152-154 | `bodega_build_url`; `BuildUrlSegments` states its form |
| `Fortworth.RepoUrl` | python/fortworth.py:340-346 | the yum and maven repository URL, the build URL and `/repo`; `BuildUrlSegments` states its form |
| `Fortworth.TagUrl` | python/fortworth.py:81-102 | the tag URL of `stagger_get_tag` and `stagger_put_tag`; `UrlsMatchServer` and `DryRunQuery` state its form |
| `Fortworth.ArtifactUrl` | python/fortworth.py:104-125 | the artifact URL of `stagger_get_artifact` and `stagger_put_artifact`; `UrlsMatchServer` and `DryRunQuery` state its form |
| `Fortworth.BuildUrlSegments` | python/fortworth.py:340-346 | the build URL and the repository URL are the service URL followed by the repo, the branch, the build id (and `repo`) |
| `Fortworth.DataUrl` | python/fortworth.py:71-74 | the data URL is the service URL followed by `/api/data`, and needs a service URL |
| `Fortworth.UrlsMatchServer` | python/fortworth.py:81-84 | the helper asks for exactly the `api_path` the catalog server gives its tags and artifacts |
| `Fortworth.DryRunQuery` | python/fortworth.py:91-97 | a dry run only adds the query `dry-run=1` to the URL a real run uses |
| `Fortworth.StripGit` | python/fortworth.py:51-52 | a trailing `.git` is removed, and nothing else changes |
| `Fortworth.CommitUrlAsWritten` | python/fortworth.py:41-54 | `git_current_commit_url` as written; `CommitUrlAsWrittenFails` and `CommitUrlAgrees` state where it raises and where it agrees with `CommitUrl` |
| `Fortworth.CommitUrl` | python/fortworth.py:41-54 | the corrected commit link exists if and only if the URL is on GitHub and names a repo after the owner |
| `Fortworth.CommitUrlAsWrittenFails` | python/fortworth.py:45-49 | a GitHub URL without `/` after the owner makes the code as written raise `ValueError` |
| `Fortworth.CommitUrlAgrees` | python/fortworth.py:45-54 | on every other URL the code as written and the corrected link agree |
| `Fortworth.CommitUrlOfRepo` | python/fortworth.py:45-54 | `https://github.com/party/repo`, with or without `.git`, gives `https://github.com/party/repo/commit/{commit}` |
| `Fortworth.RpmConfigure` | python/fortworth.py:177-187 | the release is computed if and only if the spec file ends in `.in` and the source is a git checkout |
| `Fortworth.RpmRelease` | python/fortworth.py:181-185 | the release string; `RpmReleaseParts` states its pieces |
| `Fortworth.RpmReleaseParts` | python/fortworth.py:181-185 | the release splits into `0`, the build id (`0` for none) and at most eight characters that begin the commit id |
| `Fortworth.ReleaseVersionKept` | python/fortworth.py:250-253 | a version without `SNAPSHOT` is kept as it is |
| `Fortworth.MavenVersion` | python/fortworth.py:250-253 | the version `maven_build` sets; `ReleaseVersionKept` and `SnapshotReplaced` state what it gives |
| `Fortworth.SnapshotReplaced` | python/fortworth.py:250-253 | a version ending in its only `SNAPSHOT` gets the build id and the short commit instead |
| `Fortworth.Fields` | python/fortworth.py:221-221 | unpacking a record succeeds if and only if it has exactly three comma-separated pieces |
| `Fortworth.Entries` | python/fortworth.py:220-231 | what each record contributes, in record order |
| `Fortworth.CollectUnique` | python/fortworth.py:218-231 | the ids a successful record loop stores are unique |
| `Fortworth.CollectHas` | python/fortworth.py:220-231 | a successful loop met no error and stored every record's id |
| `Fortworth.CollectFrom` | python/fortworth.py:220-231 | every stored id is the id of some record |
| `Fortworth.CollectLastWins` | python/fortworth.py:231-231 | a later record with the same id overwrites an earlier one |
| `Fortworth.CollectNext` | python/fortworth.py:220-231 | one more record is stored, unless it is an error |
| `Fortworth.CollectErr` | python/fortworth.py:220-231 | once a record fails the loop's result stays that error |
| `Fortworth.RecordsWellFormed` | python/fortworth.py:216-231 | a successful record loop saw three pieces in every record and a repository URL, and its ids are unique |
| `Fortworth.RecordKeys` | python/fortworth.py:317-328 | the stored ids are exactly the records' ids |
| `Fortworth.RecordLastWins` | python/fortworth.py:317-328 | each id holds the artifact of its last record |
| `Fortworth.MakeArtifacts` | python/fortworth.py:220-231 | the record loop of `_rpm_make_tag_data` and `_maven_make_tag_data` |
| `Fortworth.MakeTagData` | python/fortworth.py:309-338 | the record loop, then the tag's fields |
| `Fortworth.TagData` | python/fortworth.py:216-241 | the tag data from the record output; `RecordsWellFormed`, `RecordKeys` and `RecordLastWins` state its artifacts |
| `Fortworth.RepoIdsDistinct` | python/fortworth.py:272-273 | no two repositories in the settings share an id |
| `Fortworth.MakeSettings` | python/fortworth.py:269-293 | the settings document has one repository entry per URL, in order, with distinct ids |
| `Fortworth.Settings` | python/fortworth.py:277-293 | the settings document; `MakeSettings` and `RepoIdsDistinct` state its entries |
| `Strings.Split` | python/stagger/amqpserver.py:136-136 | `str.split(sep)` gives at least one piece |
| `Strings.SplitInjective` | python/stagger/amqpserver.py:136-136 | two strings with the same pieces are the same string |
| `Strings.SplitOnce` | python/fortworth.py:47-47 | `split("/", 1)` gives one piece exactly when there is no separator, and otherwise the text before the first one and the rest |
| `Strings.Words` | python/fortworth.py:220-220 | `split()` gives non-empty runs without whitespace; `WordsSplitAt`, `WordsOfWord` and `WordsOfSpace` pin down which |
| `Strings.WordsSplitAt` | python/fortworth.py:220-220 | a whitespace character separates: the words of `x + [c] + y` are those of `x`, then those of `y` |
| `Strings.WordsOfWord` | python/fortworth.py:220-220 | a non-empty run without whitespace is one word, itself |
| `Strings.WordsOfSpace` | python/fortworth.py:220-220 | whitespace alone gives no words |
| `Strings.Strip` | python/fortworth.py:252-252 | `strip()` gives a slice of the input with only whitespace around it in the input, and no whitespace at either end of it |
| `Strings.NatToStringValue` | python/fortworth.py:273-273 | the digits of `str(i)` read back as `i` |
| `Strings.NatToStringInjective` | python/fortworth.py:273-273 | distinct numbers print differently |
| `Dicts.Get` | python/stagger/model.py:118-118 | `d.get(k)` finds a value if and only if `k` is a key, and the value is the one stored with it |
| `Dicts.PutFacts` | python/stagger/model.py:57-57 | `d[k] = v` leaves every other key's value and the key order alone, and keeps keys unique |
| `Dicts.PutPut` | python/stagger/model.py:57-57 | a second store under the same key overwrites the first |
| `Dicts.Remove` | python/stagger/model.py:113-113 | `del d[k]` removes `k`, leaves every other key's value alone, and keeps keys unique |

## Left out

- Files, threads and locks: `save`, the save threads, `_lock` and `_modified`. The JSON text encoding of `json.dump` and `JSON.stringify` is left out too; documents are decoded values.
- Digests and compression: `_save_computed_values`, `crc32` and `gzip`. They only cache a copy of `data()`.
- `Model.load` with no data file returns before reading. The model starts from the decoded document.
- `Catalog.Model.Load`, `LegacyData.Data.Load`, `ServerData.Data.Load`: each takes a decoded document, in which no object repeats a key, as `json.load` produces.
- `ServerData.Data.PutTag`: Python's `str()` of a list or a dictionary inside an f-string is not modelled. `ServerData.TagId` gives no id for such a field, and `ServerData.Data.PutTag` requires an id.
- `ServerData.Construct`: a `self` key in the data makes Python raise `TypeError` (two values for `self`). The model reports it as an extra field (`DataError`).
- `Catalog.LoadInto`: keeps the revision as an integer. A `revision` that is not a JSON integer gives `TypeError` and the old revision; Python stores any value there (`Catalog.Model.Load` inherits this, below).
- `Catalog.Model.Load`: the revision is kept as an integer. A `revision` that is not a JSON integer is refused with `TypeError`, and the old revision stays. Python stores any value there and fails only at the next `+= 1`. The repos built before stay stored in both.
- Numbers: JSON numbers are integers in this model. Floats and exponents are not represented.
- `Catalog.Model.PutRepo` and the other `put_*` methods: the definitions of `Repo`, `Branch` and `Tag` come from `python/stagger/model.py`. The model's HTTP layer (`python/stagger/httpserver.py`) is not part of this model.
- The tree work of each `put_*` is split into small module-level methods (`Catalog.ReserveBranch`, `Catalog.GraftTag`, `Catalog.ReserveTag`, `Catalog.GraftArtifact`). The tree is a value, so there is no aliasing between a container and the table that holds it.
- The messages fired to the AMQP server are logged in `Catalog.Model.updates` as `(type_name, event_path)` pairs. The object's JSON body is not kept.
- `Amqp.Handler.OnObjectUpdate`: proton's `send` is modelled as an entry in `sent` and one credit spent. Network delivery, settlement and `on_start`/`on_connection_opening` are left out.
- `Amqp.Handler.OnLinkFlow`: proton's live link object is not aliased. The table holds link values, whose credit changes only by the sends and by this method, which stands for the peer's flow frames.
- The commented-out lookup of the subscribed object in `on_link_opening` is not code and is not modelled.
- `Client`: `gesso`'s DOM calls are modelled as the nodes they create. `renderTime`, `console.log`, the footer, `hljs` highlighting, the link rewriting of the data block, and the timer of `fetchPeriodically` are left out.
- `Client.Stagger.RenderTagView`: the page shows the corrected event URL (see Findings), not the `events/{repo}/{branch}/{tag}` of `static/main.js:216`. `Render`, `Click`, `PopState` and `Arrive` show it through this method.
- `Client.TagViewOf`: builds the corrected event URL (see Findings), not the `events/{repo}/{branch}/{tag}` of `static/main.js:216`.
- `Client.TagViewOfTag`: states the corrected event URL, as `Client.TagViewOf` builds it (see Findings).
- `Client.PathPart`: `new URL(href).pathname` is the text before `?` or `#`. Percent-encoding and normalisation are left out.
- `Client.Entries`: for an object, JavaScript's order of integer-like keys (ascending, before the others) is left out; an object's keys come in document order.
- `Client.Prop`: inherited properties (`constructor`, `toString`, an array's or a string's methods) are not modelled; reading one gives `undefined`.
- `Client.ShortId`: lengths count characters, where JavaScript counts UTF-16 code units. A `length` member that is a string or an array is not converted to a number, and never counts as above 8.
- `Brbn.Call`: the `except` clauses send their responses, as evidently intended (see Findings). starlette's default status (200) and the redirect status (307) are constants, and its own default headers are left out. `render`'s response is passed in, since the hooks belong to the application.
- `Brbn.Response.SetHeader`: header names are compared case-sensitively. starlette's are not, so a rendered response that already carries `etag` would keep both entries here.
- `Brbn`: `NotFoundResponse`, `OkResponse` and the JSON and HTML responses are not used by `__call__` and are not modelled.
- `Fortworth`: the shell calls (`git`, `rpm`, `mvn`, `createrepo`, `call_for_stdout`), the HTTP requests and the file uploads are left out. Their outputs are parameters. The yum repo template is not modelled.
- `Fortworth.MakeSettings` stops before the temporary file is written.
- `Fortworth.TagData`: uses the corrected commit link (see Findings), where the code as written raises `ValueError` for a GitHub URL without `/` after the owner.
- `Fortworth.MakeTagData` uses the corrected commit link (see Findings).
- `ModelObjects.FillChildren` returns the first error rather than raising it. The object under construction is then dropped, as it is when the constructor raises.

## Findings

| source | as written | input that shows it | evidently intended | confidence | as-written member | corrected member |
|---|---|---|---|---|---|---|
| static/main.js:216 | the tag page's event URL is `events/{repo}/{branch}/{tag}`, without the collection labels | `events/r/b/t` for repo `r`, branch `b`, tag `t`; the server publishes that tag's updates under `events/repos/r/branches/b/tags/t`, so a listener on the shown address never gets one | the tag's `event_path`, as `python/stagger/model.py:250-252` builds it | not executed | `Client.EventPathAsWrittenUnreached` | `Client.EventUrlParses` |
| python/brbn.py:72-78 | each `except` clause awaits the response object (`await RedirectResponse(...)`) instead of calling it with `(receive, send)`, as line 94 does | any `Redirect` raised by `process`: a starlette response defines no `__await__`, so the `await` raises `TypeError` and nothing is sent | the 307, 400 and 500 responses sent to the client | not executed | `Brbn.ExceptPathsAsWrittenRaise` | `Brbn.Call` |
| python/fortworth.py:45-54 | a source URL without `/` after the owner is caught as `IndexError`, but unpacking one piece raises `ValueError`, which escapes | `https://github.com/party` | no commit link (`None`), as the `except` clause means | not executed | `Fortworth.CommitUrlAsWrittenFails` | `Fortworth.CommitUrlOfRepo` |

The rest of the model uses the corrected definitions: `Client.EventUrl`, `Brbn.Call` and `Fortworth.CommitUrl`.
