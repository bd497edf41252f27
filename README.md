# atlasclient core, modelled in Dafny

atlasclient is a Python client for the Apache Atlas REST API. Its core is a
small lazy-loading object layer over an injected HTTP collaborator:

- **Collections** hold models in order. A queryable collection is called to
  preload models or to set a query filter. It inflates itself on demand: a
  version gate, then a GET of its url with the filter as query parameters,
  then a load of the answer. A dependent collection only ever holds what
  its parent's response gave it. A bulk collection sends lists of
  data-class records in one request.
- **Models** resolve their own url, from a cached url, an href, or the
  parent collection's url plus the identifier. They inflate once, falling
  back to their local data when the request or the load raises. They merge
  responses into their data, and issue create, update, partial-update and
  delete requests. A model deleted on the server removes itself from its
  collection.
- **Events** form a process-wide publish/subscribe registry keyed by
  class, event and state. Resolution walks the class's ancestor chain.
  `evented` publishes STARTED, FAILED and FINISHED around a call.
  `keep_path_and_url` restores a url and a class path after a call.
- **Polling** (`PollableMixin.wait`) probes a long-running task until it
  fails, finishes or runs out of time.
- **Data classes**: `_to_dict`/`to_dict` turn a record into a dictionary.
  Falsy leaves are dropped when asked, and the result is wrapped under a
  data key. `is_active_relation` reads two status fields.

The modules follow the repository:

- `Base`: the collections and models of `base.py`.
- `Polling`: the wait loop.
- `Events`: `events.py`.
- `DataTypes`: `data_types.py`.
- `Resources`: the pure parts of loading a model and building request bodies.
- `Filters` and `Urls`: the query filter, the url and version helpers.
- `Http`: the collaborator.
- `Json`: the JSON values everything exchanges.

Objects the source updates in place are classes: `Base.Collection`,
`Base.Model`, `Events.Registry`, `Http.Client`, `Polling.Task` and
`Polling.Clock`. The methods on them state their new state in terms of the
pure functions, which carry the lemmas.

The HTTP collaborator is an oracle: `Http.Client.respond(n, request)` is the
answer to the n-th request, and `sent` records every request in order.
"Nothing was sent" is stated as `client.sent` being unchanged.

A few places where the docstrings and the code disagree are modelled as
the code behaves:

- `publish` prefers an ANY callback of a more specific class over an exact
  callback of an ancestor.
- A dependent collection called with several dictionaries, rather than
  one list of them, builds nothing.
- The number of polling rounds before a timeout is ceil(timeout /
  interval), not floor: the deadline is checked before each round, so a
  final partial interval still gets a round.

## Model

| member | source | states |
|---|---|---|
| Urls.JoinAll | atlasclient/base.py:238-248 | `'/'.join` of two or five pieces puts the separator exactly between consecutive pieces |
| Urls.ReplaceAbsentIsIdentity | atlasclient/base.py:595-596 | `str.replace` leaves a string without the pattern unchanged |
| Urls.ReplaceLeading | atlasclient/base.py:595-596 | a leading occurrence of the pattern is replaced and scanning resumes after it |
| Urls.ContainsIffOccurs | atlasclient/base.py:686-688 | `'href' in response` on a string answer is a substring test: true exactly when the pattern occurs at some index |
| Urls.FixHrefRewritesSegment | atlasclient/base.py:595-596 | a model's href has a `classifications/` segment rewritten to `classification/`, and the rest rewritten the same way |
| Urls.FixHrefKeepsPlain | atlasclient/base.py:595-596 | an href without a `classifications/` segment is kept as it is |
| Urls.ParentRewriteIsMisspelt | atlasclient/base.py:619-620 | the parent-url rewrite turns `classifications/` into the misspelt `classficiation/` |
| Urls.CollectionUrl | atlasclient/base.py:236-248 | the collection url is the admin root, the v2 root (no parent) or the parent's url, then `/` and the class path; a None path is a TypeError |
| Urls.TupleLessIrreflexive | atlasclient/base.py:334-335 | the version comparison is irreflexive |
| Urls.TupleLessTransitive | atlasclient/base.py:334-335 | the version comparison is transitive |
| Urls.TupleLessTotal | atlasclient/base.py:334-335 | any two version tuples are equal or ordered |
| Urls.CheckVersion | atlasclient/base.py:333-340 | a ClientError naming the url and both versions exactly when the minimum is above 1.7.0 and the server is older; otherwise nothing |
| Urls.DefaultMinimumNeverBlocks | atlasclient/base.py:30 | a class keeping the default minimum version is never blocked |
| Urls.RecentServerNeverBlocked | atlasclient/base.py:333-340 | a server at or above the minimum version is never blocked |
| Filters.FilterKeyInjective | atlasclient/base.py:222-225 | prefixing filter keys with `data_key/` never merges two keywords |
| Filters.FilterKeysInjective | atlasclient/base.py:222-225 | the same, for all pairs of keywords at once |
| Filters.EncodeFilterValue | atlasclient/base.py:226-228 | strings are kept; everything else becomes its JSON text |
| Filters.FilterOf | atlasclient/base.py:221-228 | one filter entry per keyword, under the prefixed key exactly when the class uses a prefix; a prefix of None is a TypeError |
| Filters.KeysImageSize | atlasclient/base.py:221-228 | the filter has exactly as many entries as there are keywords |
| Filters.EvalFilterValueCases | atlasclient/base.py:255-261 | an entry holding `[` is literal-evaluated and a SyntaxError keeps it; a malformed literal is a ValueError; a non-string holding `[` is a ValueError; a scalar is a TypeError |
| Filters.Evaluated | atlasclient/base.py:254-261 | evaluation keeps the filter's keys |
| Filters.EvaluateEach | atlasclient/base.py:254-261 | passes exactly when every entry evaluates cleanly, handing back `Evaluated` then; an error is some entry's evaluation error; every entry handed back is the original or its evaluation |
| Filters.PlainFilterIsStable | atlasclient/base.py:221-228 | a filter of strings without brackets, as a call builds it, comes through evaluation unchanged |
| Filters.EvaluationSettles | atlasclient/base.py:250-266 | once no entry holds a bracket, evaluating again changes nothing |
| DataTypes.ToDictFiltered | atlasclient/data_types.py:20-27 | the kept keys are exactly the nested dictionaries and, when filtering, the truthy values; dictionaries are recursed into, other values are copied |
| DataTypes.UnfilteredIsIdentity | atlasclient/data_types.py:20-27 | without filtering the dictionary comes back unchanged |
| DataTypes.FilteredHasNoFalsyLeaves | atlasclient/data_types.py:20-27 | with filtering no falsy non-dictionary value is left at any depth |
| DataTypes.FilteredInventsNoKeys | atlasclient/data_types.py:20-27 | every key at every depth of the result is a key of the input |
| DataTypes.FilteredKeepsTruthy | atlasclient/data_types.py:20-27 | every truthy value and every nested dictionary is kept at every depth |
| DataTypes.FilterIdempotent | atlasclient/data_types.py:20-27 | filtering twice is filtering once |
| DataTypes.ToDictUnfiltered | atlasclient/data_types.py:29-35 | without filtering the result is the record, wrapped under the data key exactly when that key is truthy |
| DataTypes.ToDictFilteredPayload | atlasclient/data_types.py:29-35 | with filtering the payload has no falsy leaves and sits alone under a truthy data key |
| DataTypes.BuildRecordFields | atlasclient/base.py:929 | `data_class(**kwargs)` succeeds exactly when every keyword is a declared field; the record holds every field, None where none was given |
| DataTypes.IsActiveRelation | atlasclient/data_types.py:105-107 | active exactly when both the entity status and the relationship status are ACTIVE |
| DataTypes.DeletedIsInactive | atlasclient/data_types.py:105-107 | a relation with either status DELETED is not active |
| Events.FirstWith | atlasclient/events.py:64-69 | the most specific class on the chain with an entry for the key, and none before it |
| Events.SelectedFromChain | atlasclient/events.py:58-74 | a publication fires nothing, or exactly the list subscribed for this event, under this state or ANY, by one class of the chain |
| Events.Invocations | atlasclient/events.py:76-77 | the callbacks are called on the object one by one, in list order |
| Events.Registry.constructor | atlasclient/events.py:19 | the registry starts empty |
| Events.Subscribed | atlasclient/events.py:96-99 | the callback is appended to the key's list, created when missing; every other list is untouched and no key is lost |
| Events.Registry.Subscribe | atlasclient/events.py:81-100 | the registry becomes `Subscribed` of the old one, under (class, event, state) with ANY when no state is given |
| Events.Registry.Resolve | atlasclient/events.py:58-74 | the walk of the ancestor chain selects `Selected`: the first ANY list met strictly before the first exact entry, else that exact list, else nothing |
| Events.Registry.Publish | atlasclient/events.py:38-78 | the selected callbacks are invoked in order and nothing else; with nothing subscribed nothing fires |
| Events.Registry.Evented | atlasclient/events.py:24-35 | STARTED, then FAILED only when the call raised, then FINISHED; the call's outcome passes through unchanged |
| Events.EmptyRegistryFiresNothing | atlasclient/events.py:50-52 | an empty registry fires nothing for any publication |
| Events.SubscriptionOrder | atlasclient/events.py:58-99 | after two subscriptions to a class's exact entry (and no ANY entry for that class), a publication from that class fires the first callback, then the second |
| Events.ExactWinsWithinOneClass | atlasclient/events.py:62-74 | when the first class with any entry has both an exact and an ANY entry, the exact list fires |
| Events.AnyBeforeExactWins | atlasclient/events.py:62-74 | an ANY entry strictly more specific than every exact entry fires instead of the exact one |
| Events.ExactWithoutAny | atlasclient/events.py:62-74 | with no ANY entry on the chain, the most specific exact entry fires |
| Events.SubclassAnyShadowsAncestorExact | atlasclient/events.py:38-74 | a subclass's ANY callback shadows an ancestor's exact callback, against the docstring's "exact match first" |
| Events.KeepPathAndUrl | atlasclient/events.py:103-137 | after a normal return the remembered truthy url (when settable) and class path are put back; after a raise nothing is put back; the result passes through |
| Http.Client.constructor | atlasclient/base.py:125-131 | the collaborator starts with no request sent |
| Http.Client.Send | atlasclient/base.py:263 | one request is recorded and answered by the collaborator |
| Resources.Initial | atlasclient/base.py:430-440 | a definition, used by the model constructor's and the collections' contracts: a new model keeps exactly the declared fields of its data, with the given href and an empty relationship cache |
| Resources.PreloadReplaces | atlasclient/base.py:690-696 | every relationship the response carries with a truthy value replaces its cache entry; other entries are kept |
| Resources.DataOf | atlasclient/base.py:430-433 | a definition, used by `CallDependent`'s contract: a None `data` builds a model from an empty dictionary; a dictionary from itself |
| Resources.UpdatePairsStopsAtFirstBad | atlasclient/base.py:689-698 | `dict.update` with a list stores its pairs in order up to the first element that is not a pair, raises that element's error and keeps the pairs before it |
| Resources.StoredPairsShift | atlasclient/base.py:689-698 | storing the first n pairs is storing the first pair, then the next n - 1 |
| Resources.UpdateWithMapping | atlasclient/base.py:689-698 | `dict.update` with a dictionary: its keys overwrite, the other keys are kept, nothing else is added, nothing is raised |
| Resources.UpdateKeepsKeys | atlasclient/base.py:689-698 | an update never drops a key, even when it raises part way |
| Resources.LoadMergesResponse | atlasclient/base.py:686-698 | loading a dictionary without the data key moves `href` out, overwrites with the response's keys and keeps the others |
| Resources.LoadMergesDataKey | atlasclient/base.py:686-696 | loading a dictionary with the data key merges that sub-dictionary into the data and preloads related collections |
| Resources.LoadSequenceResponse | atlasclient/base.py:686-698 | a list answer holding neither `'href'` nor the data key is merged as `dict.update` merges a list: its pairs stored in order up to the first element that is not a pair, whose error is raised; href and cache untouched |
| Resources.LoadListWithHrefFails | atlasclient/base.py:686-687 | a list answer holding the string `'href'` cannot pop it: a TypeError and no change |
| Resources.LoadStringWithHrefFails | atlasclient/base.py:686-687 | a string answer in which `href` occurs has no `pop`: an AttributeError and no change |
| Resources.LoadOnePairExample | atlasclient/base.py:686-698 | the answer `[['a', 1]]` stores `a: 1` and raises nothing |
| Resources.LoadRecordListExample | atlasclient/base.py:686-698 | a list of three-key dictionaries is a ValueError and leaves the state as it was |
| Resources.LoadStringExample | atlasclient/base.py:686-698 | the answer `'abc'` is a ValueError and leaves the state as it was |
| Resources.LoadV2Record | atlasclient/base.py:960-963 | a V2 dictionary answer moves `href` to the model and builds the record from the rest, exactly when every other key is a data-class field; a failure is a TypeError that keeps the old record |
| Resources.LoadV2NeedsMapping | atlasclient/base.py:960-963 | a V2 answer that is not a dictionary raises and changes nothing |
| Resources.AfterFetchCases | atlasclient/base.py:641-648 | inflation keeps a clean dictionary answer without falling back; with no answer, local data without `href` or the data key is kept as it is |
| Resources.FallbackKeepsLocalData | atlasclient/base.py:647-648 | falling back to local data changes nothing when neither `href` nor the data key is a field |
| Resources.FallbackPopsHrefField | atlasclient/base.py:647-648 | falling back to local data pops a stored `href` field out of the data and into the href |
| Resources.KnownIdentifier | atlasclient/base.py:77-87 | a generated identifier is its value as a string or "Unknown"; no primary key gives None; an ordinary key missing from the data means the model must inflate |
| Resources.DistributeSpreads | atlasclient/base.py:654-667 | the body loop only adds: declared fields under the data key, other keywords beside it |
| Resources.InputDictWithDataKey | atlasclient/base.py:654-667 | with a data key the body is the undeclared keywords at the top level and the declared ones under the data key, in any keyword order |
| Resources.InputDictV1Plain | atlasclient/base.py:654-670 | without a data key the body is the keywords as given; with one and no keywords it is the model's own data |
| Resources.InputDictV2 | atlasclient/base.py:927-929 | the V2 body exists exactly when every keyword is a data-class field |
| Resources.InputDictV2Payload | atlasclient/base.py:927-929 | every truthy keyword reaches the V2 body unchanged and nothing else does |
| Resources.KeyData | atlasclient/base.py:196-197 | a definition, used by `FromCallItem` and `Call`: the initial data of an identifier model is `{primary_key: identifier}`, empty when there is no primary key |
| Resources.Settled | atlasclient/base.py:209-210 | a definition, used by `FromCallItem` and `FromEntry`: a model is kept exactly when its load raises nothing, with the loaded state |
| Resources.BulkEntry | atlasclient/base.py:827-833 | a bulk item becomes a body entry exactly when it is a dictionary of declared fields; otherwise a TypeError |
| Resources.ListedModelKeepsRawHref | atlasclient/base.py:284-290 | a model built from a list answer ends with the item's raw href, the rewrite undone by the load |
| Resources.CalledModelKeepsRawHref | atlasclient/base.py:206-210 | the same for a dictionary passed to a collection call |
| Resources.FromCallItemFailures | atlasclient/base.py:202-216 | a called dictionary without `href` is a KeyError, with a non-string href an AttributeError; an identifier needs the collection url and must be a string; a string identifier builds a model at `url/identifier` holding only its primary key |
| Resources.CalledIdentifierIsKnown | atlasclient/base.py:210-215 | a model preloaded from an identifier knows that identifier without a request |
| Resources.EntryModelHasEmptyHref | atlasclient/base.py:278-282 | a model built from a dictionary answer has the href `''`, so its url can never fall back to the identifier |
| Resources.BulkEntryPayload | atlasclient/base.py:827-833 | a bulk entry keeps every truthy field and has no falsy leaves |
| Base.CallItems | atlasclient/base.py:190-198 | a call preloads the one list given, or all the arguments; a single non-list argument preloads nothing |
| Base.DependentItems | atlasclient/base.py:367-371 | a dependent call builds models only from a single list argument |
| Base.Select | atlasclient/base.py:160 | the kept models are exactly those whose identifier matches (or differs), in order |
| Base.KeywordOrder | atlasclient/base.py:223 | the keywords are visited each exactly once |
| Base.Collection.constructor | atlasclient/base.py:125-131 | a new collection is empty, not inflated and unfiltered |
| Base.Collection.Url | atlasclient/base.py:236-248 | the collection url as `Urls.CollectionUrl` gives it; a dependent collection has none |
| Base.Collection.FromEntries | atlasclient/base.py:278-282 | one fresh model per entry of a dictionary answer, up to the first that raises |
| Base.Collection.FromItems | atlasclient/base.py:284-290 | one fresh model per item of a list answer, in order, up to the first that raises |
| Base.Collection.Load | atlasclient/base.py:269-290 | the models are rebuilt from the answer as `Holds` describes; those before a raise stay |
| Base.Collection.EvaluateFilter | atlasclient/base.py:254-261 | succeeds exactly when every entry evaluates cleanly, and then the filter is `Filters.Evaluated` of the old one; after an error every entry is either as it was or evaluated |
| Base.Collection.Inflate | atlasclient/base.py:250-266 | once inflated nothing happens; otherwise `Fetched`: a closed version gate or a filter that does not evaluate raises before any request; else the filter is evaluated, an url error is raised with nothing sent, and exactly one GET of the url with the evaluated filter is sent; its transport error is raised with the models unchanged, its answer is `response` and the models hold it; inflated exactly when all passed |
| Base.Collection.FromCalled | atlasclient/base.py:202-216 | the preloaded models match `FromCallItem` item by item, up to the first that raises |
| Base.Collection.CalledModel | atlasclient/base.py:205-215 | the model one call item preloads has the state `FromCallItem` gives; otherwise that item's error |
| Base.Collection.Call | atlasclient/base.py:189-230 | a single non-list argument builds one model at `url/identifier` and leaves the collection alone; items preload and mark it inflated; otherwise the keywords become the filter and the collection resets |
| Base.Collection.Identify | atlasclient/base.py:160 | the identifiers of the models, in order, each now known to its model; when every model answers its identifier without a request, nothing is sent and no model changes, and the result is Ok exactly when every model's data holds its identifier, else the primary key's KeyError |
| Base.Collection.CallDependent | atlasclient/base.py:352-390 | a non-list argument returns the unique model with that identifier, None, or a ValueError, sending nothing and failing with the primary key's KeyError exactly when some model's data lacks its identifier; a single list rebuilds the models from its items, a None item building an empty model and any other non-dictionary raising on `items` |
| Base.Collection.Iter | atlasclient/base.py:133-136 | inflate (the state `Fetched` describes when not yet inflated), then the marker restarts at 0 |
| Base.Collection.Next | atlasclient/base.py:138-144 | inflate as `Fetched` describes; an inflation error is raised; else the model under the marker, which moves on by one, and past the end StopIteration |
| Base.Collection.Refresh | atlasclient/base.py:155-157 | forgets the inflation and inflates again: the state `Fetched` describes, not inflated after a failure |
| Base.Collection.Wait | atlasclient/base.py:325-331 | waiting inflates the collection, to the state `Fetched` describes |
| Base.Collection.Len | atlasclient/base.py:396-401 | a dependent collection marks itself inflated and counts its models |
| Base.Collection.ToDict | atlasclient/base.py:168-170 | one dictionary per model, in order, each the one that model exports; an inflation error is raised before any model is asked, in the state `Fetched` describes; after a fresh inflation the GET of the url with the evaluated filter was the first request sent and was answered; already inflated with every model exporting locally, the result is Ok and nothing is sent |
| Base.Collection.ExportAll | atlasclient/base.py:170 | the list comprehension: one dictionary per model, in order, each the one that model exports; the first error is raised, by a model that could not export beforehand, all before it having exported; when every model already exports, the result is Ok and nothing is sent |
| Base.Collection.Create | atlasclient/base.py:293-305 | an url error or a bad single argument raises with nothing sent; otherwise the model is built at the collection url (plus the one string argument, its primary key), the body is `InputDictV1` of the keywords without the primary key (V1) or `InputDictV2` of them (V2 with keywords), and `Posted` holds: a body that cannot be built raises its error, an empty url is a ClientError, and otherwise exactly one POST of the body goes to that url, its transport error is raised, and the result is the new model exactly when loading the answer over the built model raised nothing, else that error; a dependent model class is an AttributeError with nothing sent; a created model is appended |
| Base.Collection.CreateAt | atlasclient/base.py:299-305 | the body is `InputDictV1` (V1) or `InputDictV2` (V2 with keywords) of the keywords without the primary key; the model built at `href` is created on the server and appended only when that passed; `Posted` holds for the rewritten href |
| Base.Collection.Update | atlasclient/base.py:307-315 | every model is updated in turn and ends with the verb PUT |
| Base.Collection.Delete | atlasclient/base.py:317-323 | every model of the inflated list is deleted in turn; afterwards no model remains |
| Base.Collection.BulkBody | atlasclient/base.py:826-833 | the body has one entry per item, each `BulkEntry` of it; the first item that cannot become one raises |
| Base.Collection.SendBulk | atlasclient/base.py:815-882 | `BulkSent`: a non-list input is a BadRequest naming path and verb, an item that cannot become an entry is a TypeError, and in both cases nothing is sent; otherwise an url error is raised with nothing sent, or exactly one request with the verb, the collection url and the entries as body is sent; its transport error is raised with the models unchanged, and its answer is loaded into the models returned |
| Base.Collection.CreateBulk | atlasclient/base.py:815-836 | `BulkSent` with POST |
| Base.Collection.UpdateBulk | atlasclient/base.py:861-882 | `BulkSent` with PUT |
| Base.Collection.DeleteBulk | atlasclient/base.py:838-859 | `BulkSent` with DELETE, the entries as the body |
| Base.Collection.Identifiers | atlasclient/base.py:160 | both identifiers, each now known to its model; when both answer without a request, nothing is sent, neither changes, and the result is Ok exactly when both data hold their identifiers, else a KeyError |
| Base.Collection.CompareIdentifiers | atlasclient/base.py:160 | the identifier of every model and of the given one, each known afterwards; when all answer without a request, nothing is sent, no state changes, and the result is Ok exactly when every data holds its identifier, else a KeyError |
| Base.Collection.Remove | atlasclient/base.py:159-161 | exactly the models whose identifier differs from the given model's remain, in order; an error leaves the list alone; when all identifiers answer without a request, nothing is sent, no model changes, and the removal passes exactly when every data holds its identifier, else a KeyError |
| Base.Model.constructor | atlasclient/base.py:591-601 | a new model keeps its declared fields and the href with `classifications/` rewritten; not inflated, verb GET |
| Base.Model.Load | atlasclient/base.py:673-698 | the state becomes what `Resources.Load` makes of the response |
| Base.Model.ReloadLocal | atlasclient/base.py:647-648 | the state becomes `Resources.Fallback` of the old state |
| Base.Model.Url | atlasclient/base.py:603-627 | the cached url, else the href, else the parent's rewritten url, `/` and the identifier; an identifier that raises is raised, a falsy one is a ClientError, and a url built from it implies it was truthy; when `LocalUrl` resolves it without a request that is the answer, with nothing sent and nothing changed; a model already inflated or inflating whose url needs an identifier its data lacks raises; the url found is cached; at most one request is sent |
| Base.Model.Identifier | atlasclient/base.py:451-459 | when the identifier is answered locally nothing is sent or changed and the result is Ok exactly when the data holds it, else the primary key's KeyError; otherwise the model inflates with the request `Fetches` names, to `Resources.AfterFetch` of its state, and the result is `IdentifierAfter` that: its error, or the identifier, or a KeyError |
| Base.Model.Inflate | atlasclient/base.py:629-652 | once inflated nothing; re-entry is a ClientError; otherwise `Fetches`: one request with the current verb to the url resolved from local state (none when that needs the identifier), whose answer is `attempted`; then the state is `Resources.AfterFetch`, falling back to local data, and the model is inflated exactly when that raised nothing |
| Base.Model.Attempt | atlasclient/base.py:643-648 | the try block of `inflate`: the request `Fetches` names, at most one; the state `Resources.AfterFetch` of the old one, passing exactly when that raised nothing; the flags and the verb unchanged |
| Base.Model.Refresh | atlasclient/base.py:493-496 | forgets the inflation and inflates again with the request `Fetches` names, to `Resources.AfterFetch` of the state, whose error is raised; inflated exactly when that raised nothing |
| Base.Model.Wait | atlasclient/base.py:752-757 | a dependent model is just marked inflated with nothing sent; re-entry is a ClientError with nothing changed; otherwise waiting inflates with the request `Fetches` names, to `Resources.AfterFetch` of its state, whose error is raised; inflated exactly when that raised nothing |
| Base.Model.ToJsonDict | atlasclient/base.py:513-522 | `{primary_key: identifier}`; an inflated or dependent model whose data lacks the identifier is the primary key's KeyError with nothing sent; a model re-entered while inflating is a ClientError with nothing changed; otherwise after the inflation `Fetches` names, the pair of the key and `IdentifierAfter`, or its error |
| Base.Model.Attribute | atlasclient/base.py:461-491 | a relationship yields its cache entry; a field its value, inflating first when absent with the request `Fetches` names, to `Resources.AfterFetch` of the state, whose error is raised; an absent field on a model re-entered while inflating is a ClientError with nothing changed; any other name is an AttributeError; at most one request is sent |
| Base.Model.ToDict | atlasclient/base.py:920-925 | the data (V1, base.py:507-510) or the record as a dictionary (V2); an inflation it triggers sends the request `Fetches` names, leaves `Resources.AfterFetch` of the state and raises its error; a model re-entered while inflating (V1, or V2 without a record, which also clears the inflated flag) is a ClientError with nothing else changed; a V2 model still without a record is an AttributeError |
| Base.Model.GenerateInputDict | atlasclient/base.py:654-670 | the V1 body is `Resources.InputDictV1`; the V2 body is `Resources.InputDictV2`, or the model's dictionary when there are no keywords |
| Base.Model.SendAndLoad | atlasclient/base.py:712-714 | `Delivered`, whenever the url resolves locally: an url error is raised with nothing sent; otherwise exactly one request to that url, whose transport error is raised with the state unchanged, and whose answer is loaded over the old state, passing exactly when the load raised nothing, else with its error |
| Base.Model.Create | atlasclient/base.py:701-715 | verb POST, the primary key dropped and the body built; a body error is raised with nothing sent; otherwise `Delivered` with the POST of the body to the url, the answer loaded |
| Base.Model.Update | atlasclient/base.py:718-737 | V1: verb PUT and the body from the keywords; V2 (base.py:944-948): the model's dictionary with the keywords merged over it; a body error is raised with nothing sent; otherwise `Delivered` with the PUT of the body |
| Base.Model.PartialUpdate | atlasclient/base.py:951-957 | `Delivered` with the PUT of exactly the keywords, the answer loaded |
| Base.Model.Delete | atlasclient/base.py:740-749 | DELETE with the keywords as parameters; an url error is raised with nothing sent; otherwise exactly that request, its transport error raised with nothing changed, its answer loaded and a load error raised with the collection untouched; after a pass no model with this identifier is left in the collection |
| Polling.Clock.Sleep | atlasclient/base.py:71 | a negative length is a ValueError; otherwise the clock advances by the length |
| Polling.Task.Refresh | atlasclient/base.py:72 | one more refresh, answered as the server decides |
| Polling.Poll | atlasclient/base.py:57-74 | out of time is a Timeout; failed raises Failed before finished returns; otherwise publish, sleep, refresh and go on |
| Polling.Round | atlasclient/base.py:69-72 | one round publishes PROGRESS, sleeps the interval and refreshes; a negative interval or a refresh error ends the wait |
| Polling.Loop | atlasclient/base.py:63-74 | the loop ends as `Poll` says, with one PROGRESS per round, the clock advanced by `Elapsed(rounds, interval)` and one refresh per round |
| Polling.ElapsedIsProduct | atlasclient/base.py:71 | after k completed sleeps of `interval` seconds the clock has advanced by k times the interval |
| Polling.Wait | atlasclient/base.py:56-74 | None or 0 select 15 s and 3600 s; STARTED, the PROGRESS rounds, FAILED on a raise, FINISHED always |
| Polling.FinishedAtOnce | atlasclient/base.py:65-68 | a finished task with time left returns at once, without sleeping |
| Polling.FailureWins | atlasclient/base.py:65-66 | a task reporting both failed and finished raises Failed |
| Polling.TimeoutRounds | atlasclient/base.py:63-74 | a task that never ends, with refreshes that succeed, times out after ceil(timeout / interval) rounds |
| Polling.RoundsBounded | atlasclient/base.py:63-74 | whatever the task does, a wait runs at most ceil(timeout / interval) rounds |
| Polling.PassMeansFinished | atlasclient/base.py:63-68 | a wait that returns saw a finished, not failed, status before the deadline, and nothing finished or failed before it |

## Left out

- HTTP transport, authentication and the wire format: the collaborator is an oracle that answers the n-th request, and its errors surface verbatim.
- `json.dumps` and `ast.literal_eval` are opaque functions supplied with each collection.
- `datetime.utcnow()` and `time.sleep`: a clock in whole seconds that a sleep advances by exactly its length. Fractional intervals and sleeps that overrun are not modelled.
- `has_failed`, `is_finished` and `refresh` of a pollable task belong to subclasses outside this core. They are the task's status after the n-th refresh and the outcome of that refresh, both decided outside the client.
- `inspect.getmro`: a class's ancestor chain is given explicitly as a list of class names, most specific first.
- The class hierarchy of models and collections is a `kind` tag on one `Model` and one `Collection` class. There are no subclasses and no dynamic `__getattr__` dispatch.
- `entities_with_relationships`, `__dir__` and the V2 `__getattr__` are not modelled: they are introspection and a bulk fix-up pass outside the lazy-loading core.
- Logging is not modelled.
- The optional `searchParameters` attribute a model may carry into its inflation request is taken to be absent: the request has no parameters.
- The glossary modules and the packaging files are not part of this model.
- `@events.evented` on collection and model methods in `base.py` is modelled once, as `Events.Registry.Evented`, and around `Polling.Wait`. Other methods do not thread the registry through.
- Asynchronous `request` objects are never pending: `self.request` is always None, so the `wait` methods of collections and models only inflate.
- `load` pops `href` and the data key out of the dictionary it is given. When that dictionary is one the caller passed to a collection call (base.py:204-210), the caller's dictionary loses those keys; the model only loads a copy. Popping from the model's own `_data` (the fallback of `inflate`) is modelled.
- A related collection in the relationship cache is recorded by the data it was called with, not as a live collection object.
- A collection captures its parent model's url when it is built, rather than asking the parent each time.
- Dictionary iteration order is not modelled: where the source visits keys in insertion order, the model visits them in some order and states what holds for every order.
- `Json.Render` (Python's `str`) is exact for strings and non-negative integers; other values only render to some non-empty text.
- Pydantic-style coercion of data-class fields is not modelled: a record stores the given values as they are.
- Base.Collection.Update: states the verb every model ends with and that the list is not rebuilt once inflated; the request each model sends is stated by `Base.Model.Update` and is not gathered into one list here.
- Base.Collection.Delete: states that no model remains; the DELETE each model sends is stated by `Base.Model.Delete` and is not gathered into one list here.
- Base.Model.SendAndLoad: the request and its outcome are stated when the url resolves from local state (`LocalUrl`); when it needs an identifier the data lacks, the inflation that resolving it triggers, and the request after it, are only bounded (at most one request for the url, the answer loaded over the state after it).
- Base.Model.Create: the same gap as `SendAndLoad` for an url that needs inflating; a V2 model created without keywords builds its body from `to_dict`, whose inflation is not stated here.
- Base.Model.Update: the same gap as `SendAndLoad` for an url that needs inflating; a V2 model's body comes from `to_dict`, whose inflation is stated by `Base.Model.ToDict` and not repeated here, so the PUT is stated only once a record is present.
- Base.Model.PartialUpdate: the same gap as `SendAndLoad` for an url that needs inflating.
- Base.Model.Delete: the same gap as `SendAndLoad` for an url that needs inflating; after the DELETE's answer loads cleanly, whether the removal from the collection passes is stated by `Base.Collection.Remove`, not restated here.
- Base.Collection.Create: a V2 model class created without keywords takes its body from the new model's `to_dict`, whose inflation is not stated here, so neither the body nor the POST is stated in that case.
- Base.Collection.Identify: the outcome and the requests are stated only when every model answers its identifier locally; when one inflates to learn it, each inflation is stated by `Base.Model.Identifier`.
- Base.Collection.CallDependent: the same as `Identify`; a dependent collection's models always answer locally, so the gap only concerns a queryable model class.
- Base.Collection.Identifiers: the same as `Identify`, for the two models.
- Base.Collection.CompareIdentifiers: the same as `Identify`, for the models and the given one.
- Base.Collection.Remove: the same as `Identify`, for the models and the given one.
- Base.Collection.ExportAll: the error raised is the one the failing model's `to_dict` raised, which `Base.Model.ToDict` states; here only which model raised it is stated.
- Base.Collection.ToDict: after a fresh inflation the models it built are exported, and each may inflate in turn, so the GET and its answer are stated but the built models' states are not restated at the end.
- Resources.Update: a pair whose key is a number, None or a boolean is a TypeError here, where Python stores it under that key; data is keyed by strings.
- Resources.Update: a two-key dictionary used as a pair is a TypeError here, where Python stores its first key under its second; dictionary iteration order is not modelled.
- Resources.Preload: the related collection's call on the response value is not run, so loading never fails there; in the source that call can raise, for example a KeyError on an item without `href` (base.py:207).
- Events.Registry.Publish: callbacks never raise; in the source a raising callback stops the publication and propagates, which also cuts `evented` short (events.py:25-33, 76-77).
- Events.Registry.Evented: the STARTED, FAILED and FINISHED publications always complete, because callbacks never raise here.
- Base.Model.Url: a truthy href that is not a string is a TypeError here, where the source caches and returns it; urls are strings in this model.
- Polling.Clock.Sleep: advances the clock by exactly the requested length, where a real sleep may overrun.
