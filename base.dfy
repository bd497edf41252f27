/**
 * The lazy-loading resource objects: a model that resolves its url, inflates
 * itself from the server once (falling back to its local data), merges
 * responses and issues create/update/delete requests; and the collection
 * that holds models in order, can be called to preload or filter them, and
 * loads itself from the server on demand.
 */
module Base {
  import opened Json
  import opened Resources
  import Http
  import Urls
  import Filters
  import DataTypes

  /** What an attribute lookup on a model yields: a field's value, or the related collection's cache entry. */
  datatype Attr = FieldValue(v: Value) | Related(rel: Relation)

  /** Which collection class holds the models. */
  datatype CollectionKind = QueryableCollection | DependentCollection | BulkCollection

  /** What calling a collection returns: the collection itself, one model, or None. */
  datatype Called = Whole | One(model: Model) | NoMatch

  /** A call with one argument that is not a list names a single model by identifier. */
  predicate ById(args: seq<Value>)
  {
    |args| == 1 && !args[0].List?
  }

  /** The items a queryable collection's call preloads: the one list given, or all the arguments. */
  function CallItems(args: seq<Value>): (r: seq<Value>)
    ensures |args| != 1 ==> r == args
    ensures |args| == 1 && args[0].List? ==> r == args[0].items
    ensures ById(args) ==> r == []
  {
    if |args| == 1 then (if args[0].List? then args[0].items else []) else args
  }

  /** The items a dependent collection's call builds models from: only a single list argument counts. */
  function DependentItems(args: seq<Value>): (r: seq<Value>)
    ensures |args| == 1 && args[0].List? ==> r == args[0].items
    ensures !(|args| == 1 && args[0].List?) ==> r == []
  {
    if |args| == 1 && args[0].List? then args[0].items else []
  }

  /** The models of `ms` whose identifier (`ids`, position by position) equals `target` (when `equal`) or differs from it, in order. */
  function Select(ms: seq<Model>, ids: seq<Value>, target: Value, equal: bool): (r: seq<Model>)
    requires |ms| == |ids|
    ensures forall m :: m in r ==> exists k :: 0 <= k < |ms| && ms[k] == m && (ids[k] == target) == equal
    ensures |r| <= |ms|
    ensures forall k :: 0 <= k < |ms| && (ids[k] == target) == equal ==> ms[k] in r
  {
    if ms == [] then []
    else
      var n := |ms| - 1;
      Select(ms[..n], ids[..n], target, equal) + (if (ids[n] == target) == equal then [ms[n]] else [])
  }

  /** Some order of the keyword arguments: the order the caller passed them in is not part of the model. */
  method KeywordOrder(kwargs: map<string, Value>) returns (order: seq<string>)
    ensures IsOrderOf(order, kwargs)
  {
    var left := kwargs.Keys;
    order := [];
    while left != {}
      invariant left <= kwargs.Keys
      invariant forall k :: k in order <==> k in kwargs && k !in left
      invariant forall i, j :: 0 <= i < j < |order| ==> order[i] != order[j]
      decreases |left|
    {
      var k :| k in left;
      order := order + [k];
      left := left - {k};
    }
  }

  /** The keywords without the primary key, as a model's `create` deletes it. */
  function WithoutKey(cls: ModelClass, kwargs: map<string, Value>): map<string, Value>
  {
    if cls.primaryKey.Some? then kwargs - {cls.primaryKey.value} else kwargs
  }

  /** What `identifier` answers after its own inflation ended as `after`: the inflation's error, else the identifier now known, else a KeyError. */
  function IdentifierAfter(cls: ModelClass, after: Loaded): Result<Value>
  {
    if after.error.Some? then Err(after.error.value)
    else if KnownIdentifier(cls, after.state.data).None? then Err(KeyError(cls.primaryKey.value))
    else Ok(KnownIdentifier(cls, after.state.data).value)
  }

  class Collection {
    /** `model_class`. */
    const cls: ModelClass
    const kind: CollectionKind
    const client: Http.Client
    /** The url of the parent model, when the collection belongs to one. */
    const parentUrl: Option<string>
    /** `is_admin_api`. */
    const isAdminApi: bool
    const codec: Filters.Codec
    /** `_models`. */
    var models: seq<Model>
    /** `_iter_marker`. */
    var iterMarker: nat
    /** `_is_inflated`. */
    var isInflated: bool
    /** `_filter`. */
    var filter: map<string, Value>

    /** Every model the collection holds was created by it. */
    predicate Valid()
      reads this
    {
      forall m :: m in models ==> m.parent == this
    }

    constructor(cls: ModelClass, kind: CollectionKind, client: Http.Client, parentUrl: Option<string>, isAdminApi: bool, codec: Filters.Codec)
      ensures this.cls == cls && this.kind == kind && this.client == client
      ensures this.parentUrl == parentUrl && this.isAdminApi == isAdminApi && this.codec == codec
      ensures models == [] && iterMarker == 0 && !isInflated && filter == map[]
      ensures Valid()
    {
      this.cls := cls;
      this.kind := kind;
      this.client := client;
      this.parentUrl := parentUrl;
      this.isAdminApi := isAdminApi;
      this.codec := codec;
      models := [];
      iterMarker := 0;
      isInflated := false;
      filter := map[];
    }

    /** `url`: a dependent collection has none. */
    function Url(): (r: Result<string>)
      ensures kind == DependentCollection ==> r.Err? && r.error.AttributeError?
      ensures kind != DependentCollection ==> r == Urls.CollectionUrl(client.baseUrl, isAdminApi, parentUrl, cls.path)
    {
      if kind == DependentCollection then Err(AttributeError("url"))
      else Urls.CollectionUrl(client.baseUrl, isAdminApi, parentUrl, cls.path)
    }

    /**
     * `ms` holds what `load` makes of `response`, in order, up to the first
     * model whose construction or load raised (`keys` is the order the
     * entries of a dictionary answer were visited in).
     */
    ghost predicate Holds(ms: seq<Model>, response: Value, keys: seq<string>, r: Outcome)
      reads ms
    {
      match response
      case Map(fields) =>
        && |ms| == |keys|
        && (forall i, j :: 0 <= i < j < |keys| ==> keys[i] != keys[j])
        && (forall i :: 0 <= i < |keys| ==> keys[i] in fields && FromEntry(cls, fields[keys[i]]) == Ok(ms[i].State()))
        && (r.Pass? ==> forall k :: k in fields ==> k in keys)
        && (r.Fail? ==> exists k :: k in fields && k !in keys && FromEntry(cls, fields[k]) == Err(r.error))
      case List(items) =>
        && |ms| <= |items|
        && (forall i :: 0 <= i < |ms| ==> FromListItem(cls, items[i]) == Ok(ms[i].State()))
        && (r.Pass? <==> |ms| == |items|)
        && (r.Fail? ==> FromListItem(cls, items[|ms|]) == Err(r.error))
      case Str(s) => ms == [] && (r.Pass? <==> s == "") && (r.Fail? ==> r.error == AttributeError("get"))
      case _ => ms == [] && r.Fail? && r.error.TypeError?
    }

    /** A model of this collection built with `href` and loaded from `v`, and what the load raised. */
    method Build(href: Option<string>, v: Value) returns (m: Model, o: Outcome)
      ensures fresh(m) && m.Pristine() && m.parent == this
      ensures Settled(cls, Initial(cls, if href.Some? then Str(Urls.FixHref(href.value)) else Null, map[]), v)
        == if o.Pass? then Ok(m.State()) else Err(o.error)
    {
      m := new Model(this, href, map[]);
      o := m.Load(v);
    }

    /** The models of a dictionary answer, one per entry in some order, each built with an empty href. */
    method FromEntries(fields: map<string, Value>) returns (ms: seq<Model>, r: Outcome, ghost keys: seq<string>)
      ensures forall m :: m in ms ==> fresh(m) && m.Pristine() && m.parent == this
      ensures Holds(ms, Map(fields), keys, r)
    {
      ms, keys := [], [];
      var left := fields.Keys;
      while left != {}
        invariant left <= fields.Keys
        invariant forall m :: m in ms ==> fresh(m) && m.Pristine() && m.parent == this
        invariant |ms| == |keys|
        invariant forall i, j :: 0 <= i < j < |keys| ==> keys[i] != keys[j]
        invariant forall i :: 0 <= i < |keys| ==>
          keys[i] in fields && keys[i] !in left && FromEntry(cls, fields[keys[i]]) == Ok(ms[i].State())
        invariant forall k :: k in fields ==> k in left || k in keys
        decreases |left|
      {
        var k :| k in left;
        var m, o := Build(Some(""), fields[k]);
        if o.Fail? {
          return ms, o, keys;
        }
        ms := ms + [m];
        keys := keys + [k];
        left := left - {k};
      }
      r := Pass;
    }

    /** The models of a list answer, one per item in order, each built with the item's href. */
    method FromItems(items: seq<Value>) returns (ms: seq<Model>, r: Outcome)
      ensures forall m :: m in ms ==> fresh(m) && m.Pristine() && m.parent == this
      ensures Holds(ms, List(items), [], r)
    {
      ms := [];
      var i := 0;
      while i < |items|
        invariant 0 <= i <= |items| && |ms| == i
        invariant forall m :: m in ms ==> fresh(m) && m.Pristine() && m.parent == this
        invariant forall j :: 0 <= j < i ==> FromListItem(cls, items[j]) == Ok(ms[j].State())
      {
        var item := items[i];
        if !item.Map? {
          return ms, Fail(AttributeError("get"));
        }
        var h := Get(item.fields, "href");
        var href: Option<string> := None;
        if h.Str? {
          href := Some(h.s);
        } else if !h.Null? {
          return ms, Fail(AttributeError("replace"));
        }
        var m, o := Build(href, item);
        if o.Fail? {
          return ms, o;
        }
        ms := ms + [m];
        i := i + 1;
      }
      r := Pass;
    }

    /**
     * `load(response)`: the models are rebuilt from the answer, one per
     * entry of a dictionary or per item of a list, each loaded from its
     * entry; the models built before one that raised stay.
     */
    method Load(response: Value) returns (r: Outcome, ghost keys: seq<string>)
      modifies this`models
      ensures Valid()
      ensures forall m :: m in models ==> fresh(m) && m.Pristine()
      ensures Holds(models, response, keys, r)
    {
      keys := [];
      match response {
        case Map(fields) =>
          models, r, keys := FromEntries(fields);
        case List(items) =>
          models, r := FromItems(items);
        case Str(s) =>
          models := [];
          r := if s == "" then Pass else Fail(AttributeError("get"));
        case _ =>
          models := [];
          r := Fail(TypeError("object is not iterable"));
      }
    }

    /**
     * The filter pass of `inflate`: every entry holding a bracket is
     * evaluated in place, in some order; the first error is raised and
     * leaves the entries visited so far evaluated.
     */
    method EvaluateFilter() returns (r: Outcome)
      modifies this`filter
      ensures r.Pass? <==> Filters.EvaluatesCleanly(old(filter), codec.literalEval)
      ensures r.Pass? ==> filter == Filters.Evaluated(old(filter), codec.literalEval)
      ensures filter.Keys == old(filter).Keys
      ensures forall k :: k in filter ==> filter[k] == old(filter)[k] || Filters.EvalFilterValue(old(filter)[k], codec.literalEval) == Ok(filter[k])
    {
      var f;
      f, r := Filters.EvaluateEach(filter, codec.literalEval);
      filter := f;
    }

    /**
     * What an inflation that is not skipped leaves behind: a version gate
     * that closes raises and changes nothing; a filter that does not
     * evaluate raises before any request; otherwise the filter is evaluated,
     * one GET of the collection url with it as parameters is sent, and
     * `response` is its answer, which holds the models built from it. The
     * collection is inflated exactly when all of that passed.
     */
    twostate predicate Fetched(new r: Outcome, new response: Option<Value>, new keys: seq<string>)
      reads this, client, models
    {
      && (Urls.VersionBlocked(cls.minVersion, client.version) ==>
            && r == Urls.CheckVersion(cls.minVersion, client.version, Url())
            && !isInflated && models == old(models) && filter == old(filter) && client.sent == old(client.sent))
      && (!Urls.VersionBlocked(cls.minVersion, client.version) && !Filters.EvaluatesCleanly(old(filter), codec.literalEval) ==>
            r.Fail? && !isInflated && models == old(models) && client.sent == old(client.sent))
      && (!Urls.VersionBlocked(cls.minVersion, client.version) && Filters.EvaluatesCleanly(old(filter), codec.literalEval) ==>
            && filter == Filters.Evaluated(old(filter), codec.literalEval)
            && (Url().Err? ==> r == Fail(Url().error) && models == old(models) && client.sent == old(client.sent))
            && (Url().Ok? ==>
                  var req := Http.Request(Http.Get, Url().value, filter, Null);
                  && client.sent == old(client.sent) + [req]
                  && (response.Some? <==> client.respond(|old(client.sent)|, req).Ok?)
                  && (client.respond(|old(client.sent)|, req).Err? ==>
                        r == Fail(client.respond(|old(client.sent)|, req).error) && models == old(models))))
      && (r.Pass? ==>
            && isInflated && response.Some?
            && Filters.EvaluatesCleanly(old(filter), codec.literalEval)
            && filter == Filters.Evaluated(old(filter), codec.literalEval))
      && (r.Fail? ==> !isInflated)
      && (response.Some? ==>
            && Url().Ok?
            && client.sent == old(client.sent) + [Http.Request(Http.Get, Url().value, filter, Null)]
            && client.respond(|old(client.sent)|, Http.Request(Http.Get, Url().value, filter, Null)) == Ok(response.value)
            && Holds(models, response.value, keys, r)
            && (forall m :: m in models ==> fresh(m) && m.Pristine()))
    }

    /**
     * `inflate`: once inflated, nothing. Otherwise check the version, evaluate
     * the filter entries that hold a bracket (in place, in some order; the
     * first error is raised), GET the collection url with the filter as
     * query parameters, load the answer, and only then mark the collection
     * inflated. A dependent collection just marks itself inflated.
     */
    method Inflate() returns (r: Outcome, ghost response: Option<Value>, ghost keys: seq<string>)
      requires Valid()
      modifies this, client
      ensures Valid()
      ensures forall m :: m in models ==> m in old(models) || fresh(m)
      ensures old(isInflated) || kind == DependentCollection ==>
        && r == Pass && isInflated && models == old(models) && filter == old(filter)
        && iterMarker == old(iterMarker) && client.sent == old(client.sent)
      ensures iterMarker == old(iterMarker)
      ensures !old(isInflated) && kind != DependentCollection ==> Fetched(r, response, keys)
    {
      response, keys := None, [];
      if kind == DependentCollection || isInflated {
        isInflated := true;
        return Pass, response, keys;
      }
      var gate := Urls.CheckVersion(cls.minVersion, client.version, Url());
      if gate.Fail? {
        return gate, response, keys;
      }
      var evaluated := EvaluateFilter();
      if evaluated.Fail? {
        return evaluated, response, keys;
      }
      var u := Url();
      if u.Err? {
        return Fail(u.error), response, keys;
      }
      var resp := client.Send(Http.Request(Http.Get, u.value, filter, Null));
      if resp.Err? {
        return Fail(resp.error), response, keys;
      }
      response := Some(resp.value);
      r, keys := Load(resp.value);
      if r.Pass? {
        isInflated := true;
      }
    }

    /**
     * The models a queryable collection's call preloads from `items`, in
     * order: a dictionary is loaded from itself, anything else is an
     * identifier under the collection url.
     */
    method FromCalled(items: seq<Value>) returns (ms: seq<Model>, r: Outcome)
      ensures forall m :: m in ms ==> fresh(m) && m.Pristine() && m.parent == this
      ensures |ms| <= |items|
      ensures forall i :: 0 <= i < |ms| ==> FromCallItem(cls, items[i], Url()) == Ok(ms[i].State())
      ensures r.Pass? <==> |ms| == |items|
      ensures r.Fail? ==> FromCallItem(cls, items[|ms|], Url()) == Err(r.error)
    {
      ms := [];
      var i := 0;
      while i < |items|
        invariant 0 <= i <= |items| && |ms| == i
        invariant forall m :: m in ms ==> fresh(m) && m.Pristine() && m.parent == this
        invariant forall j :: 0 <= j < i ==> FromCallItem(cls, items[j], Url()) == Ok(ms[j].State())
      {
        var m, o := CalledModel(items[i]);
        if o.Fail? {
          return ms, o;
        }
        ms := ms + [m];
        i := i + 1;
      }
      r := Pass;
    }

    /** The model one item of a call preloads: a dictionary is loaded from itself, anything else is an identifier. */
    method CalledModel(item: Value) returns (m: Model?, r: Outcome)
      ensures r.Pass? ==>
        && m != null && fresh(m) && m.Pristine() && m.parent == this
        && FromCallItem(cls, item, Url()) == Ok(m.State())
      ensures r.Fail? ==> FromCallItem(cls, item, Url()) == Err(r.error)
    {
      if item.Map? {
        if "href" !in item.fields {
          return null, Fail(KeyError("href"));
        }
        var h := item.fields["href"];
        if !h.Str? {
          return null, Fail(AttributeError("replace"));
        }
        m := new Model(this, Some(Urls.FixHref(h.s)), map[]);
        r := m.Load(item);
      } else {
        var u := Url();
        if u.Err? {
          return null, Fail(u.error);
        }
        if !item.Str? {
          return null, Fail(TypeError("sequence item 1: expected str instance"));
        }
        m := new Model(this, Some(Urls.FixHref(u.value + "/" + item.s)), KeyData(cls, item));
        r := Pass;
      }
    }

    /**
     * `QueryableModelCollection.__call__`: one non-list argument builds a
     * model for that identifier (the collection is untouched); a list, or
     * several arguments, preload the collection with one model per item and
     * mark it inflated; no arguments reset the collection and make the
     * keywords its filter.
     */
    method Call(args: seq<Value>, kwargs: map<string, Value>) returns (r: Result<Called>)
      requires Valid() && kind != DependentCollection
      modifies this`models, this`isInflated, this`filter
      ensures Valid()
      ensures ById(args) ==>
        && models == old(models) && isInflated == old(isInflated) && filter == old(filter)
        && (r.Err? <==> Url().Err?)
        && (r.Err? ==> r.error == Url().error)
        && (r.Ok? ==>
              && r.value.One? && fresh(r.value.model) && r.value.model.parent == this && r.value.model.Pristine()
              && r.value.model.State() ==
                 Initial(cls, Str(Urls.FixHref(Url().value + "/" + Render(args[0]))), KeyData(cls, Str(Render(args[0])))))
      ensures !ById(args) && CallItems(args) != [] ==>
        && isInflated && filter == old(filter)
        && |models| <= |CallItems(args)|
        && (forall m :: m in models ==> fresh(m) && m.Pristine())
        && (forall i :: 0 <= i < |models| ==> FromCallItem(cls, CallItems(args)[i], Url()) == Ok(models[i].State()))
        && (r.Ok? <==> |models| == |CallItems(args)|)
        && (r.Ok? ==> r.value == Whole)
        && (r.Err? ==> FromCallItem(cls, CallItems(args)[|models|], Url()) == Err(r.error))
      ensures !ById(args) && CallItems(args) == [] ==>
        && !isInflated && models == []
        && var f := Filters.FilterOf(kwargs, cls.useKeyPrefix, cls.dataKey, codec.dumps);
          && (f.Ok? ==> r == Ok(Whole) && filter == f.value)
          && (f.Err? ==> r == Err(f.error) && filter == map[])
    {
      if ById(args) {
        var u := Url();
        if u.Err? {
          return Err(u.error);
        }
        var identifier := Str(Render(args[0]));
        var m := new Model(this, Some(u.value + "/" + identifier.s), KeyData(cls, identifier));
        return Ok(One(m));
      }
      var items := CallItems(args);
      if items != [] {
        isInflated := true;
        var ms, o := FromCalled(items);
        models := ms;
        if o.Fail? {
          return Err(o.error);
        }
        return Ok(Whole);
      }
      isInflated := false;
      filter := map[];
      models := [];
      var f := Filters.FilterOf(kwargs, cls.useKeyPrefix, cls.dataKey, codec.dumps);
      if f.Err? {
        return Err(f.error);
      }
      filter := f.value;
      r := Ok(Whole);
    }

    /** Every model of `ms` answers its identifier without a request. */
    ghost predicate AllLocal(ms: seq<Model>)
      reads ms
    {
      forall k :: 0 <= k < |ms| ==> ms[k].IdLocal()
    }

    /** `_data` holds the identifier of every model of `ms`. */
    ghost predicate AllKnown(ms: seq<Model>)
      reads ms
    {
      forall k :: 0 <= k < |ms| ==> ms[k].KnownId().Some?
    }

    /** The identifiers of `ms`, in order; the first error is raised. */
    method Identify(ms: seq<Model>) returns (r: Result<seq<Value>>)
      requires forall m :: m in ms ==> m.parent == this
      modifies ms, client
      ensures r.Ok? ==> |r.value| == |ms| && forall k :: 0 <= k < |ms| ==> ms[k].KnownId() == Some(r.value[k])
      ensures old(AllLocal(ms)) ==>
        && client.sent == old(client.sent)
        && (forall k :: 0 <= k < |ms| ==> ms[k].State() == old(ms[k].State()))
        && (r.Ok? <==> old(AllKnown(ms)))
        && (r.Err? ==> cls.primaryKey.Some? && r.error == KeyError(cls.primaryKey.value))
    {
      var ids: seq<Value> := [];
      var i := 0;
      while i < |ms|
        invariant 0 <= i <= |ms| && |ids| == i
        invariant forall k :: 0 <= k < i ==> ms[k].KnownId() == Some(ids[k])
        invariant old(AllLocal(ms)) ==>
          && client.sent == old(client.sent)
          && forall k :: 0 <= k < |ms| ==> ms[k].IdLocal() && ms[k].State() == old(ms[k].State())
      {
        label before:
        var a, _ := ms[i].Identifier();
        if a.Err? {
          assert old(AllLocal(ms)) ==> old(ms[i].KnownId()).None?;
          return Err(a.error);
        }
        forall k | 0 <= k < i
          ensures ms[k].KnownId() == Some(ids[k])
        {
          assert old@before(ms[k].KnownId()) == Some(ids[k]);
        }
        ids := ids + [a.value];
        i := i + 1;
      }
      assert old(AllLocal(ms)) ==> old(AllKnown(ms));
      r := Ok(ids);
    }

    /**
     * `DependentModelCollection.__call__`: one non-list argument looks the
     * model up by identifier (the unique match, None, or a ValueError for
     * several); a single list rebuilds the models from its dictionaries
     * (a None item building an empty model, anything else failing on `items`);
     * any other call leaves the collection as it is.
     */
    method CallDependent(args: seq<Value>) returns (r: Result<Called>, ghost ids: Option<seq<Value>>)
      requires Valid() && kind == DependentCollection
      modifies this`models, models, client
      ensures Valid()
      ensures ById(args) ==> models == old(models)
      ensures ById(args) && ids.None? ==> r.Err?
      ensures ById(args) && (cls.kind == Dependent || old(AllLocal(models))) ==>
        && client.sent == old(client.sent)
        && (ids.Some? <==> old(AllKnown(models)))
        && (ids.None? ==> cls.primaryKey.Some? && r == Err(KeyError(cls.primaryKey.value)))
      ensures ById(args) && ids.Some? ==>
        && |ids.value| == |models|
        && (forall k :: 0 <= k < |models| ==> models[k].KnownId() == Some(ids.value[k]))
        && var matches := Select(models, ids.value, args[0], true);
          && (|matches| == 0 ==> r == Ok(NoMatch))
          && (|matches| == 1 ==> r == Ok(One(matches[0])))
          && (|matches| > 1 ==> r.Err? && r.error.ValueError?)
      ensures !ById(args) && DependentItems(args) != [] ==>
        && |models| <= |DependentItems(args)|
        && (forall i :: 0 <= i < |models| ==>
              && fresh(models[i]) && models[i].Pristine()
              && DataArg(DependentItems(args)[i])
              && models[i].State() == Initial(cls, Null, DataOf(DependentItems(args)[i])))
        && (r.Ok? <==> |models| == |DependentItems(args)|)
        && (r.Ok? ==> r.value == Whole)
        && (r.Err? ==> !DataArg(DependentItems(args)[|models|]) && r.error == AttributeError("items"))
      ensures !ById(args) && DependentItems(args) == [] ==> models == old(models) && r == Ok(Whole)
    {
      ids := None;
      if ById(args) {
        assert cls.kind == Dependent ==> AllLocal(models);
        var found := Identify(models);
        if found.Err? {
          return Err(found.error), ids;
        }
        ids := Some(found.value);
        var matches := Select(models, found.value, args[0], true);
        if |matches| == 1 {
          return Ok(One(matches[0])), ids;
        } else if |matches| > 1 {
          return Err(ValueError("More than one model with that identifier found in collection")), ids;
        }
        return Ok(NoMatch), ids;
      }
      var items := DependentItems(args);
      if |items| > 0 {
        models := [];
        var i := 0;
        while i < |items|
          invariant 0 <= i <= |items| && |models| == i
          invariant Valid()
          invariant forall j :: 0 <= j < i ==>
            fresh(models[j]) && models[j].Pristine() && DataArg(items[j]) && models[j].State() == Initial(cls, Null, DataOf(items[j]))
        {
          if !DataArg(items[i]) {
            return Err(AttributeError("items")), ids;
          }
          var m := new Model(this, None, DataOf(items[i]));
          models := models + [m];
          i := i + 1;
        }
      }
      r := Ok(Whole);
    }

    /** `__iter__`: inflate, then start over from the first model. */
    method Iter() returns (r: Outcome, ghost response: Option<Value>, ghost keys: seq<string>)
      requires Valid()
      modifies this, client
      ensures Valid()
      ensures forall m :: m in models ==> m in old(models) || fresh(m)
      ensures r.Pass? ==> iterMarker == 0
      ensures r.Fail? ==> iterMarker == old(iterMarker)
      ensures old(isInflated) || kind == DependentCollection ==> r == Pass && models == old(models) && client.sent == old(client.sent)
      ensures !old(isInflated) && kind != DependentCollection ==> Fetched(r, response, keys)
    {
      r, response, keys := Inflate();
      if r.Pass? {
        iterMarker := 0;
      }
    }

    /**
     * `next`: inflate, then hand out the model under the marker and move the
     * marker on; past the end it is StopIteration.
     */
    method Next() returns (r: Result<Model>, ghost inflated: Outcome, ghost response: Option<Value>, ghost keys: seq<string>)
      requires Valid()
      modifies this, client
      ensures Valid()
      ensures forall m :: m in models ==> m in old(models) || fresh(m)
      ensures inflated.Fail? ==> r == Err(inflated.error)
      ensures inflated.Pass? ==> (r.Ok? <==> old(iterMarker) < |models|) && (r.Err? ==> r.error == StopIteration)
      ensures !old(isInflated) && kind != DependentCollection ==> Fetched(inflated, response, keys)
      ensures r.Ok? ==> old(iterMarker) < |models| && r.value == models[old(iterMarker)] && iterMarker == old(iterMarker) + 1
      ensures r.Err? ==> iterMarker == old(iterMarker)
      ensures old(isInflated) || kind == DependentCollection ==>
        && models == old(models) && client.sent == old(client.sent)
        && (r.Ok? <==> old(iterMarker) < |models|)
        && (r.Err? ==> r.error == StopIteration)
    {
      var o;
      o, response, keys := Inflate();
      inflated := o;
      if o.Fail? {
        return Err(o.error), inflated, response, keys;
      }
      if iterMarker >= |models| {
        return Err(StopIteration), inflated, response, keys;
      }
      r := Ok(models[iterMarker]);
      iterMarker := iterMarker + 1;
    }

    /** `refresh`: forget the collection was inflated and inflate it again. */
    method Refresh() returns (r: Outcome, ghost response: Option<Value>, ghost keys: seq<string>)
      requires Valid()
      modifies this, client
      ensures Valid()
      ensures forall m :: m in models ==> m in old(models) || fresh(m)
      ensures iterMarker == old(iterMarker)
      ensures kind == DependentCollection ==> r == Pass && isInflated && models == old(models)
      ensures kind != DependentCollection ==> Fetched(r, response, keys)
    {
      isInflated := false;
      r, response, keys := Inflate();
    }

    /** `wait` (no asynchronous request is ever pending here): inflate. */
    method Wait() returns (r: Outcome, ghost response: Option<Value>, ghost keys: seq<string>)
      requires Valid()
      modifies this, client
      ensures Valid()
      ensures forall m :: m in models ==> m in old(models) || fresh(m)
      ensures iterMarker == old(iterMarker)
      ensures old(isInflated) || kind == DependentCollection ==> r == Pass && isInflated && models == old(models) && client.sent == old(client.sent)
      ensures !old(isInflated) && kind != DependentCollection ==> Fetched(r, response, keys)
    {
      r, response, keys := Inflate();
    }

    /** `__len__` of a dependent collection: it inflates (a flag) and counts its models. */
    method Len() returns (n: nat)
      requires kind == DependentCollection
      modifies this`isInflated
      ensures isInflated && n == |models|
    {
      isInflated := true;
      n := |models|;
    }

    /** Every model of `ms` hands out its dictionary without inflating. */
    ghost predicate AllExported(ms: seq<Model>)
      reads ms
    {
      forall k :: 0 <= k < |ms| ==> ms[k].Exported().Some?
    }

    /**
     * `to_dict`: inflate, then every model's dictionary, in order; each
     * model ends up exporting exactly the dictionary returned for it. An
     * inflation error is raised before any model is asked.
     */
    method ToDict() returns (r: Result<seq<map<string, Value>>>, ghost inflated: Outcome, ghost response: Option<Value>, ghost keys: seq<string>)
      requires Valid()
      modifies this, client, models
      ensures Valid()
      ensures r.Ok? ==> |r.value| == |models| && forall i :: 0 <= i < |models| ==> models[i].Exported() == Some(r.value[i])
      ensures inflated.Fail? ==> r == Err(inflated.error)
      ensures inflated.Pass? ==> isInflated
      ensures old(isInflated) || kind == DependentCollection ==> inflated == Pass && models == old(models)
      ensures (old(isInflated) || kind == DependentCollection) && old(AllExported(models)) ==>
        r.Ok? && client.sent == old(client.sent)
      ensures !old(isInflated) && kind != DependentCollection && inflated.Fail? ==> Fetched(inflated, response, keys)
      ensures !old(isInflated) && kind != DependentCollection && inflated.Pass? ==>
        && Url().Ok? && response.Some?
        && Filters.EvaluatesCleanly(old(filter), codec.literalEval)
        && filter == Filters.Evaluated(old(filter), codec.literalEval)
        && var req := Http.Request(Http.Get, Url().value, filter, Null);
          && old(client.sent) + [req] <= client.sent
          && client.respond(|old(client.sent)|, req) == Ok(response.value)
    {
      var o;
      o, response, keys := Inflate();
      inflated := o;
      if o.Fail? {
        return Err(o.error), inflated, response, keys;
      }
      ghost var at;
      r, at := ExportAll();
    }

    /** The loop of `to_dict`: each model's dictionary, in order; the first error is raised. */
    method ExportAll() returns (r: Result<seq<map<string, Value>>>, ghost at: nat)
      requires Valid()
      modifies client, set m | m in models
      ensures r.Ok? ==> |r.value| == |models| && forall i :: 0 <= i < |models| ==> models[i].Exported() == Some(r.value[i])
      ensures r.Err? ==>
        && at < |models| && old(models[at].Exported()).None?
        && forall k :: 0 <= k < at ==> models[k].Exported().Some?
      ensures old(AllExported(models)) ==> r.Ok? && client.sent == old(client.sent)
      ensures old(client.sent) <= client.sent
    {
      var ms := models;
      var out: seq<map<string, Value>> := [];
      at := 0;
      var i := 0;
      while i < |ms|
        invariant 0 <= i <= |ms| && |out| == i
        invariant forall k :: 0 <= k < i ==> ms[k].Exported() == Some(out[k])
        invariant forall k :: 0 <= k < |ms| && old(ms[k].Exported()).Some? ==> ms[k].Exported() == old(ms[k].Exported())
        invariant old(AllExported(ms)) ==> client.sent == old(client.sent)
        invariant old(client.sent) <= client.sent
      {
        label before:
        var d, _ := ms[i].ToDict();
        if d.Err? {
          return Err(d.error), i;
        }
        forall k | 0 <= k < i
          ensures ms[k].Exported() == Some(out[k])
        {
          assert old@before(ms[k].Exported()) == Some(out[k]);
        }
        out := out + [d.value];
        i := i + 1;
      }
      r := Ok(out);
    }

    /** The href `create` builds: the collection url, followed by the one argument when there is one. */
    function CreateHref(url: string, args: seq<Value>): string
    {
      if |args| == 1 && args[0].Str? then url + "/" + args[0].s else url
    }

    /** The keywords `create` builds the model from: the one argument becomes the primary key. */
    function CreateKeywords(args: seq<Value>, kwargs: map<string, Value>): map<string, Value>
    {
      if |args| == 1 && cls.primaryKey.Some? then kwargs[cls.primaryKey.value := args[0]] else kwargs
    }

    /**
     * `create`: build a model at the collection url (the one argument, a
     * string, becoming its primary key and last path segment), create it on
     * the server, and append it to the collection.
     */
    method Create(args: seq<Value>, kwargs: map<string, Value>) returns (r: Result<Model>, body: Result<map<string, Value>>, ghost response: Option<Value>)
      requires Valid() && kind == QueryableCollection
      modifies this`models, client
      ensures Valid()
      ensures r.Err? ==> models == old(models)
      ensures Url().Err? ==> r == Err(Url().error) && client.sent == old(client.sent)
      ensures |args| == 1 && (!args[0].Str? || cls.primaryKey.None?) ==> r.Err? && r.error.TypeError? && client.sent == old(client.sent)
      ensures r.Ok? ==>
        && fresh(r.value) && models == old(models) + [r.value]
        && r.value.verb == Http.Post && Url().Ok? && body.Ok?
        && response.Some?
        && r.value.LastAnswered(Http.Request(Http.Post, r.value.cachedUrl, map[], Map(body.value)), response.value)
      ensures r.Ok? && (cls.kind == Queryable || |WithoutKey(cls, CreateKeywords(args, kwargs))| > 0) ==>
        r.value.cachedUrl == Urls.FixHref(Urls.FixHref(CreateHref(Url().value, args)))
      ensures Url().Ok? && (|args| == 1 ==> args[0].Str? && cls.primaryKey.Some?) && cls.kind == Queryable ==>
        var kw := CreateKeywords(args, kwargs);
        exists order :: IsOrderOf(order, WithoutKey(cls, kw)) && body == InputDictV1(cls, Restrict(kw, cls.fields), WithoutKey(cls, kw), order)
      ensures Url().Ok? && (|args| == 1 ==> args[0].Str? && cls.primaryKey.Some?)
              && cls.kind == QueryableV2 && |WithoutKey(cls, CreateKeywords(args, kwargs))| > 0 ==>
        body == InputDictV2(cls, WithoutKey(cls, CreateKeywords(args, kwargs)))
      ensures Url().Ok? && (|args| == 1 ==> args[0].Str? && cls.primaryKey.Some?) && cls.kind == Dependent ==>
        r == Err(AttributeError("create")) && client.sent == old(client.sent)
      ensures (Url().Ok? && (|args| == 1 ==> args[0].Str? && cls.primaryKey.Some?) && cls.kind != Dependent
               && (cls.kind == Queryable || |WithoutKey(cls, CreateKeywords(args, kwargs))| > 0)) ==>
        Posted(Urls.FixHref(Urls.FixHref(CreateHref(Url().value, args))), CreateKeywords(args, kwargs), r, body, response)
    {
      body, response := Err(Failed), None;
      var u := Url();
      if u.Err? {
        return Err(u.error), body, response;
      }
      var href := u.value;
      if |args| == 1 {
        if !args[0].Str? {
          return Err(TypeError("sequence item 1: expected str instance")), body, response;
        }
        if cls.primaryKey.None? {
          return Err(TypeError("keywords must be strings")), body, response;
        }
        href := href + "/" + args[0].s;
      }
      r, body, response := CreateAt(href, CreateKeywords(args, kwargs));
    }

    /**
     * What creating a model at `url` from the keywords `kw` sends and
     * returns: no request when the body cannot be built or the url is
     * empty; otherwise one POST of the body to `url`, whose transport error
     * is raised and whose answer is loaded into the model as built.
     */
    twostate predicate Posted(url: string, kw: map<string, Value>, new r: Result<Model>, new body: Result<map<string, Value>>, new response: Option<Value>)
      reads client
    {
      var req := Http.Request(Http.Post, url, map[], if body.Ok? then Map(body.value) else Null);
      var answer := client.respond(|old(client.sent)|, req);
      && (body.Err? ==> r == Err(body.error) && client.sent == old(client.sent))
      && (body.Ok? && url == "" ==> r == Err(ClientError("Not able to determine object URL")) && client.sent == old(client.sent))
      && (body.Ok? && url != "" ==> client.sent == old(client.sent) + [req] && (response.Some? <==> answer.Ok?))
      && (body.Ok? && url != "" && answer.Err? ==> r == Err(answer.error))
      && (body.Ok? && url != "" && answer.Ok? ==>
            var l := Resources.Load(cls, Initial(cls, Str(url), kw), answer.value, false);
            && (r.Ok? <==> l.error.None?)
            && (r.Err? ==> r.error == l.error.value))
    }

    /** The second half of `create`: the model at `href` built from `kw`, created on the server and appended. */
    method CreateAt(href: string, kw: map<string, Value>) returns (r: Result<Model>, body: Result<map<string, Value>>, ghost response: Option<Value>)
      requires Valid()
      modifies this`models, client
      ensures Valid()
      ensures r.Err? ==> models == old(models)
      ensures r.Ok? ==>
        && fresh(r.value) && models == old(models) + [r.value]
        && r.value.verb == Http.Post && body.Ok?
        && response.Some?
        && r.value.LastAnswered(Http.Request(Http.Post, r.value.cachedUrl, map[], Map(body.value)), response.value)
      ensures r.Ok? && (cls.kind == Queryable || |WithoutKey(cls, kw)| > 0) ==>
        r.value.cachedUrl == Urls.FixHref(Urls.FixHref(href))
      ensures cls.kind == Queryable ==>
        exists order :: IsOrderOf(order, WithoutKey(cls, kw)) && body == InputDictV1(cls, Restrict(kw, cls.fields), WithoutKey(cls, kw), order)
      ensures cls.kind == QueryableV2 && |WithoutKey(cls, kw)| > 0 ==> body == InputDictV2(cls, WithoutKey(cls, kw))
      ensures cls.kind == Dependent ==> r == Err(AttributeError("create")) && client.sent == old(client.sent)
      ensures cls.kind != Dependent && (cls.kind == Queryable || |WithoutKey(cls, kw)| > 0) ==>
        Posted(Urls.FixHref(Urls.FixHref(href)), kw, r, body, response)
    {
      var model := new Model(this, Some(Urls.FixHref(href)), kw);
      var o;
      o, body, response := model.Create(kw);
      if o.Fail? {
        return Err(o.error), body, response;
      }
      models := models + [model];
      r := Ok(model);
    }

    /** `update`: inflate, then update every model in turn; each ends with the verb PUT. */
    method Update(kwargs: map<string, Value>) returns (r: Outcome)
      requires Valid() && kind == QueryableCollection
      modifies this, client, models
      ensures Valid()
      ensures forall m :: m in models ==> m in old(models) || fresh(m)
      ensures old(isInflated) ==> models == old(models)
      ensures r.Pass? ==> forall m :: m in models ==> m.verb == Http.Put
    {
      ghost var response, keys;
      r, response, keys := Inflate();
      if r.Fail? {
        return;
      }
      var ms := models;
      var i := 0;
      while i < |ms|
        invariant 0 <= i <= |ms|
        invariant models == ms && Valid()
        invariant forall m :: m in ms ==> m in old(models) || fresh(m)
        invariant forall k :: 0 <= k < i ==> ms[k].verb == Http.Put
      {
        assert ms[i] in old(models) || fresh(ms[i]);
        assert ms[i].parent.client == client;
        var o;
        ghost var body, answer;
        o, body, answer := ms[i].Update(kwargs);
        if o.Fail? {
          return o;
        }
        i := i + 1;
      }
      r := Pass;
    }

    /**
     * `delete`: inflate, then delete every model of that list in turn (each
     * removing itself and its namesakes); once all are deleted the
     * collection is empty.
     */
    method Delete(kwargs: map<string, Value>) returns (r: Outcome)
      requires Valid() && kind == QueryableCollection
      modifies this, client, set m | m in models
      ensures Valid()
      ensures forall m :: m in models ==> m in old(models) || fresh(m)
      ensures r.Pass? ==> forall m: Model :: m !in models
    {
      ghost var response, keys;
      r, response, keys := Inflate();
      if r.Fail? {
        return;
      }
      var ms := models;
      var i := 0;
      while i < |ms|
        invariant 0 <= i <= |ms|
        invariant Valid()
        invariant forall m :: m in ms ==> (m in old(models) || fresh(m)) && m.parent == this
        invariant forall m :: m in models ==> exists j :: i <= j < |ms| && ms[j] == m
      {
        assert forall m :: m in models ==> m in old(models) || fresh(m);
        assert forall m :: m in ms[i].parent.models ==> m in old(models) || fresh(m);
        var o;
        ghost var answer, at;
        o, answer, at := ms[i].Delete(kwargs);
        if o.Fail? {
          return o;
        }
        forall m | m in models
          ensures exists j :: i + 1 <= j < |ms| && ms[j] == m
        {
          var j :| i <= j < |ms| && ms[j] == m;
          assert j != i;
        }
        i := i + 1;
      }
      r := Pass;
    }

    /** The body of a bulk request: one entry per item, in order; the first item that cannot become one raises. */
    method BulkBody(items: seq<Value>) returns (r: Result<seq<Value>>)
      ensures r.Ok? <==> forall i :: 0 <= i < |items| ==> BulkEntry(cls, items[i]).Ok?
      ensures r.Ok? ==> |r.value| == |items| && forall i :: 0 <= i < |items| ==> BulkEntry(cls, items[i]) == Ok(r.value[i])
      ensures r.Err? ==> exists i :: 0 <= i < |items| && BulkEntry(cls, items[i]) == Err(r.error)
    {
      var out: seq<Value> := [];
      var i := 0;
      while i < |items|
        invariant 0 <= i <= |items| && |out| == i
        invariant forall j :: 0 <= j < i ==> BulkEntry(cls, items[j]) == Ok(out[j])
      {
        var e := BulkEntry(cls, items[i]);
        if e.Err? {
          return Err(e.error);
        }
        out := out + [e.value];
        i := i + 1;
      }
      r := Ok(out);
    }

    /**
     * What a bulk request leaves behind: a non-list input is a BadRequest
     * naming the path and the HTTP method; an item that cannot become a body
     * entry raises; in both cases nothing is sent. Otherwise the entries are
     * the body of one request with verb `v` to the collection url (an url
     * error raises first), a transport error is raised, and `response` is
     * the answer, which holds the models the collection loaded from it.
     */
    twostate predicate BulkSent(v: Http.Verb, methodName: string, data: Value, new r: Result<seq<Model>>, new body: seq<Value>, new response: Option<Value>, new keys: seq<string>)
      reads this, client, models
    {
      && (!data.List? ==>
            && r == Err(BadRequest(cls.path, methodName, "Data should be a list of data class instances"))
            && models == old(models) && client.sent == old(client.sent))
      && (data.List? && (exists i :: 0 <= i < |data.items| && BulkEntry(cls, data.items[i]).Err?) ==>
            r.Err? && r.error.TypeError? && models == old(models) && client.sent == old(client.sent))
      && (data.List? && (forall i :: 0 <= i < |data.items| ==> BulkEntry(cls, data.items[i]).Ok?) ==>
            && |body| == |data.items|
            && (forall i :: 0 <= i < |data.items| ==> BulkEntry(cls, data.items[i]) == Ok(body[i]))
            && (Url().Err? ==> r == Err(Url().error) && models == old(models) && client.sent == old(client.sent))
            && (Url().Ok? ==>
                  var req := Http.Request(v, Url().value, map[], List(body));
                  && client.sent == old(client.sent) + [req]
                  && (response.Some? <==> client.respond(|old(client.sent)|, req).Ok?)
                  && (client.respond(|old(client.sent)|, req).Err? ==>
                        r == Err(client.respond(|old(client.sent)|, req).error) && models == old(models))))
      && (response.Some? ==>
            && data.List? && Url().Ok? && |body| == |data.items|
            && client.respond(|old(client.sent)|, Http.Request(v, Url().value, map[], List(body))) == Ok(response.value)
            && Holds(models, response.value, keys, if r.Ok? then Pass else Fail(r.error))
            && (forall m :: m in models ==> fresh(m) && m.Pristine()))
      && (r.Ok? ==> response.Some? && r.value == models)
    }

    /**
     * The bulk `create`, `update` and `delete`: the input must be a list;
     * its items become the body of one request to the collection url, whose
     * answer the collection loads and returns.
     */
    method SendBulk(v: Http.Verb, methodName: string, data: Value) returns (r: Result<seq<Model>>, ghost body: seq<Value>, ghost response: Option<Value>, ghost keys: seq<string>)
      requires Valid() && kind == BulkCollection
      modifies this`models, client
      ensures Valid()
      ensures BulkSent(v, methodName, data, r, body, response, keys)
    {
      body, response, keys := [], None, [];
      if !data.List? {
        return Err(BadRequest(cls.path, methodName, "Data should be a list of data class instances")), body, response, keys;
      }
      var entries := BulkBody(data.items);
      if entries.Err? {
        return Err(entries.error), body, response, keys;
      }
      body := entries.value;
      var u := Url();
      if u.Err? {
        return Err(u.error), body, response, keys;
      }
      var resp := client.Send(Http.Request(v, u.value, map[], List(entries.value)));
      if resp.Err? {
        return Err(resp.error), body, response, keys;
      }
      response := Some(resp.value);
      var o;
      o, keys := Load(resp.value);
      if o.Fail? {
        return Err(o.error), body, response, keys;
      }
      r := Ok(models);
    }

    /** The bulk `create`: POST the entries. */
    method CreateBulk(data: Value) returns (r: Result<seq<Model>>, ghost body: seq<Value>, ghost response: Option<Value>, ghost keys: seq<string>)
      requires Valid() && kind == BulkCollection
      modifies this`models, client
      ensures Valid()
      ensures BulkSent(Http.Post, "POST", data, r, body, response, keys)
    {
      r, body, response, keys := SendBulk(Http.Post, "POST", data);
    }

    /** The bulk `update`: PUT the entries. */
    method UpdateBulk(data: Value) returns (r: Result<seq<Model>>, ghost body: seq<Value>, ghost response: Option<Value>, ghost keys: seq<string>)
      requires Valid() && kind == BulkCollection
      modifies this`models, client
      ensures Valid()
      ensures BulkSent(Http.Put, "PUT", data, r, body, response, keys)
    {
      r, body, response, keys := SendBulk(Http.Put, "PUT", data);
    }

    /** The bulk `delete`: DELETE with the entries as the body. */
    method DeleteBulk(data: Value) returns (r: Result<seq<Model>>, ghost body: seq<Value>, ghost response: Option<Value>, ghost keys: seq<string>)
      requires Valid() && kind == BulkCollection
      modifies this`models, client
      ensures Valid()
      ensures BulkSent(Http.Delete, "DELETE", data, r, body, response, keys)
    {
      r, body, response, keys := SendBulk(Http.Delete, "DELETE", data);
    }

    /** `x.identifier` then `model.identifier`, as `remove` compares them. */
    method Identifiers(x: Model, model: Model) returns (r: Result<(Value, Value)>)
      requires x.parent == this
      modifies x, model, client, model.parent.client
      ensures r.Ok? ==> x.KnownId() == Some(r.value.0) && model.KnownId() == Some(r.value.1)
      ensures old(x.KnownId()).Some? ==> x.KnownId() == old(x.KnownId())
      ensures old(model.KnownId()).Some? ==> model.KnownId() == old(model.KnownId())
      ensures model.verb == old(model.verb)
      ensures old(model.cachedUrl) != "" ==> model.cachedUrl == old(model.cachedUrl)
      ensures old(client.sent) <= client.sent
      ensures old(x.IdLocal()) && old(model.IdLocal()) ==>
        && client.sent == old(client.sent) && model.parent.client.sent == old(model.parent.client.sent)
        && x.IdLocal() && model.IdLocal() && x.State() == old(x.State()) && model.State() == old(model.State())
        && (r.Ok? <==> old(x.KnownId()).Some? && old(model.KnownId()).Some?)
        && (r.Err? ==> r.error.KeyError?)
    {
      var a, _ := x.Identifier();
      if a.Err? {
        return Err(a.error);
      }
      var b, _ := model.Identifier();
      if b.Err? {
        return Err(b.error);
      }
      r := Ok((a.value, b.value));
    }

    /**
     * The identifiers `remove` compares, element by element: each model's
     * identifier and then the given model's (either may inflate). The first
     * error is raised.
     */
    method CompareIdentifiers(ms: seq<Model>, model: Model) returns (r: Result<(seq<Value>, Value)>)
      requires forall m :: m in ms ==> m.parent == this
      modifies ms, model, client, model.parent.client
      ensures r.Ok? ==>
        && |r.value.0| == |ms|
        && (forall k :: 0 <= k < |ms| ==> ms[k].KnownId() == Some(r.value.0[k]))
        && (|ms| > 0 ==> model.KnownId() == Some(r.value.1))
      ensures model.verb == old(model.verb)
      ensures old(model.cachedUrl) != "" ==> model.cachedUrl == old(model.cachedUrl)
      ensures old(client.sent) <= client.sent
      ensures old(AllLocal(ms)) && (|ms| > 0 ==> old(model.IdLocal())) ==>
        && client.sent == old(client.sent) && model.parent.client.sent == old(model.parent.client.sent)
        && (r.Ok? <==> old(AllKnown(ms)) && (|ms| > 0 ==> old(model.KnownId()).Some?))
        && (r.Err? ==> r.error.KeyError?)
        && (forall k :: 0 <= k < |ms| ==> ms[k].State() == old(ms[k].State()))
        && model.State() == old(model.State())
    {
      ghost var local := AllLocal(ms) && (|ms| > 0 ==> model.IdLocal());
      var ids: seq<Value> := [];
      var target := Null;
      var i := 0;
      while i < |ms|
        invariant 0 <= i <= |ms| && |ids| == i
        invariant forall k :: 0 <= k < i ==> ms[k].KnownId() == Some(ids[k])
        invariant i > 0 ==> model.KnownId() == Some(target)
        invariant model.verb == old(model.verb)
        invariant old(model.cachedUrl) != "" ==> model.cachedUrl == old(model.cachedUrl)
        invariant old(client.sent) <= client.sent
        invariant local ==>
          && client.sent == old(client.sent) && model.parent.client.sent == old(model.parent.client.sent)
          && AllLocal(ms) && (forall k :: 0 <= k < |ms| ==> ms[k].State() == old(ms[k].State()))
          && (|ms| > 0 ==> model.IdLocal()) && model.State() == old(model.State())
      {
        var x := ms[i];
        label before:
        var pair := Identifiers(x, model);
        if pair.Err? {
          assert local ==> old(x.KnownId()).None? || old(model.KnownId()).None?;
          return Err(pair.error);
        }

        forall k | 0 <= k < i
          ensures ms[k].KnownId() == Some(ids[k])
        {
          assert old@before(ms[k].KnownId()) == Some(ids[k]);
        }
        target := pair.value.1;
        ids := ids + [pair.value.0];
        i := i + 1;
      }
      assert local ==> old(AllKnown(ms)) && (|ms| > 0 ==> old(model.KnownId()).Some?);
      r := Ok((ids, target));
    }

    /**
     * `remove`: keep the models whose identifier differs from the given
     * model's, in order; an error computing an identifier leaves the list
     * as it was.
     */
    method Remove(model: Model) returns (r: Outcome, ghost ids: seq<Value>, ghost target: Value)
      requires Valid()
      modifies this`models, models, model, client, model.parent.client
      ensures Valid()
      ensures r.Pass? ==>
        && |ids| == |old(models)|
        && (forall k :: 0 <= k < |ids| ==> old(models)[k].KnownId() == Some(ids[k]))
        && (|ids| > 0 ==> model.KnownId() == Some(target))
        && models == Select(old(models), ids, target, false)
      ensures r.Pass? ==> forall m :: m in models ==> m.KnownId().Some? && m.KnownId() != model.KnownId()
      ensures r.Fail? ==> models == old(models)
      ensures forall m :: m in models ==> m in old(models)
      ensures model.verb == old(model.verb)
      ensures old(model.cachedUrl) != "" ==> model.cachedUrl == old(model.cachedUrl)
      ensures old(client.sent) <= client.sent
      ensures old(AllLocal(models)) && (|old(models)| > 0 ==> old(model.IdLocal())) ==>
        && client.sent == old(client.sent) && model.parent.client.sent == old(model.parent.client.sent)
        && (r.Pass? <==> old(AllKnown(models)) && (|old(models)| > 0 ==> old(model.KnownId()).Some?))
        && (r.Fail? ==> r.error.KeyError?)
        && (forall k :: 0 <= k < |old(models)| ==> old(models)[k].State() == old(models[k].State()))
    {
      ids, target := [], Null;
      var compared := CompareIdentifiers(models, model);
      if compared.Err? {
        return Fail(compared.error), ids, target;
      }
      var (identifiers, given) := compared.value;
      ids, target := identifiers, given;
      var kept := Select(models, identifiers, given, false);
      forall m | m in kept
        ensures m in models && m.KnownId().Some? && m.KnownId() != model.KnownId()
      {
        var k :| 0 <= k < |models| && models[k] == m && ids[k] != target;
      }
      models := kept;
      r := Pass;
    }
  }

  class Model {
    /** The collection the model was created by; the client is the collection's. */
    const parent: Collection
    /** `primary_key_value`: the primary key's entry of the data the model was built with. */
    const primaryKeyValue: Value
    /** `_data`. */
    var data: map<string, Value>
    /** `_href`, Null standing for None. */
    var href: Value
    /** `_url`, "" standing for None. */
    var cachedUrl: string
    /** `_is_inflated`. */
    var isInflated: bool
    /** `_is_inflating`. */
    var isInflating: bool
    /** `method`: the verb inflation repeats. */
    var verb: Http.Verb
    /** `_relationship_cache`. */
    var cache: map<string, Relation>
    /** `data_class_data`. */
    var record: Option<map<string, Value>>

    function Cls(): ModelClass
    {
      parent.cls
    }

    function State(): ModelState
      reads this
    {
      ModelState(data, href, cache, record)
    }

    /** 1 while an inflation may still happen, 0 once the model is inflated or inflating. */
    function Rank(): nat
      reads this
    {
      if isInflated || isInflating then 0 else 1
    }

    /** The identifier as far as `_data` answers it. */
    function KnownId(): Option<Value>
      reads this
    {
      KnownIdentifier(Cls(), data)
    }

    /** `identifier` answers without a request: `_data` holds it, or the model is inflated or dependent and will not fetch. */
    predicate IdLocal()
      reads this
    {
      KnownId().Some? || isInflated || Cls().kind == Dependent
    }

    /** Freshly built: no url cached, neither inflated nor inflating, and the verb is GET. */
    predicate Pristine()
      reads this
    {
      cachedUrl == "" && !isInflated && !isInflating && verb == Http.Get
    }

    /**
     * `model_class(collection, href=..., data=...)`: keep the declared fields
     * of `data` and the href with `classifications/` rewritten.
     */
    constructor(parent: Collection, href: Option<string>, data: map<string, Value>)
      ensures this.parent == parent
      ensures State() == Initial(parent.cls, if href.Some? then Str(Urls.FixHref(href.value)) else Null, data)
      ensures cachedUrl == "" && !isInflated && !isInflating && verb == Http.Get
      ensures primaryKeyValue == (if parent.cls.primaryKey.Some? then Get(data, parent.cls.primaryKey.value) else Null)
    {
      this.parent := parent;
      primaryKeyValue := if parent.cls.primaryKey.Some? then Get(data, parent.cls.primaryKey.value) else Null;
      this.data := Restrict(data, parent.cls.fields);
      this.href := if href.Some? then Str(Urls.FixHref(href.value)) else Null;
      cachedUrl := "";
      isInflated := false;
      isInflating := false;
      verb := Http.Get;
      cache := map[];
      record := None;
    }

    /** `load(response)`: the state becomes what the class's load makes of it. */
    method Load(response: Value) returns (r: Outcome)
      modifies this
      ensures var l := Resources.Load(Cls(), old(State()), response, false);
        && State() == l.state
        && (r.Pass? <==> l.error.None?)
        && (r.Fail? ==> r.error == l.error.value)
      ensures cachedUrl == old(cachedUrl) && isInflated == old(isInflated) && isInflating == old(isInflating) && verb == old(verb)
    {
      var l := Resources.Load(Cls(), State(), response, false);
      data, href, cache, record := l.state.data, l.state.href, l.state.cache, l.state.record;
      r := if l.error.None? then Pass else Fail(l.error.value);
    }

    /** `load(self._data)`: the fallback, loading the model's own data as the response. */
    method ReloadLocal() returns (r: Outcome)
      modifies this
      ensures var l := Fallback(Cls(), old(State()));
        && State() == l.state
        && (r.Pass? <==> l.error.None?)
        && (r.Fail? ==> r.error == l.error.value)
      ensures cachedUrl == old(cachedUrl) && isInflated == old(isInflated) && isInflating == old(isInflating) && verb == old(verb)
    {
      var l := Fallback(Cls(), State());
      data, href, cache, record := l.state.data, l.state.href, l.state.cache, l.state.record;
      r := if l.error.None? then Pass else Fail(l.error.value);
    }

    /**
     * What `url` answers without a request: the cached url; else the href
     * (a falsy one is a ClientError); else, when `_data` holds the
     * identifier, the parent url and the identifier (a falsy identifier is a
     * ClientError). None when finding the identifier needs an inflation.
     */
    function LocalUrl(): Option<Result<string>>
      reads this
    {
      if cachedUrl != "" then Some(Ok(cachedUrl))
      else if href != Null then
        Some(if !Truthy(href) then Err(ClientError("Not able to determine object URL"))
             else if href.Str? then Ok(href.s)
             else Err(TypeError("url is not a string")))
      else if KnownId().None? then None
      else
        var id := KnownId().value;
        Some(if !Truthy(id) || !id.Str? then Err(ClientError("Not able to determine object URL"))
             else if parent.Url().Err? then Err(parent.Url().error)
             else Ok(Urls.FixParentUrl(parent.Url().value) + "/" + id.s))
    }

    /** The url `inflate(url)` requests: the one given, else the one `url` answers without a request. */
    function FetchUrl(explicitUrl: string): Option<string>
      reads this
    {
      if explicitUrl != "" then Some(explicitUrl)
      else if LocalUrl().Some? && LocalUrl().value.Ok? then Some(LocalUrl().value.value)
      else None
    }

    /**
     * The request of an inflation that runs, from a model whose inflation
     * url is `url` and whose verb is `v`, with `sentBefore` sent so far: one
     * request with that verb to that url when there is one, `attempted`
     * being its answer unless the transport failed; nothing sent when there
     * is none.
     */
    predicate Fetches(url: Option<string>, v: Http.Verb, sentBefore: seq<Http.Request>, attempted: Option<Value>)
      reads parent.client
    {
      && (url.None? ==> attempted.None? && parent.client.sent == sentBefore)
      && (url.Some? ==>
            var req := Http.Request(v, url.value, map[], Null);
            var answer := parent.client.respond(|sentBefore|, req);
            && parent.client.sent == sentBefore + [req]
            && attempted == (if answer.Ok? then Some(answer.value) else None))
    }

    /**
     * What `self.load(self.client.<v>(self.url, ...))` leaves when the url
     * answered `url` without an inflation, from a model in state `before`
     * with `sentBefore` sent so far: a url error is raised and nothing is
     * sent; otherwise exactly one request goes out, a transport error is
     * raised as it is and changes nothing, and an answer is what `response`
     * holds and is loaded over `before`.
     */
    predicate Delivered(url: Result<string>, before: ModelState, sentBefore: seq<Http.Request>,
                        v: Http.Verb, params: map<string, Value>, body: Value, r: Outcome, response: Option<Value>)
      reads this, parent.client
    {
      && (url.Err? ==>
            r == Fail(url.error) && response.None? && State() == before && parent.client.sent == sentBefore)
      && (url.Ok? ==>
            var req := Http.Request(v, url.value, params, body);
            var answer := parent.client.respond(|sentBefore|, req);
            && parent.client.sent == sentBefore + [req]
            && (answer.Err? ==> r == Fail(answer.error) && response.None? && State() == before)
            && (answer.Ok? ==>
                  && response == Some(answer.value)
                  && var l := Resources.Load(Cls(), before, answer.value, false);
                    State() == l.state && (r.Pass? <==> l.error.None?) && (r.Fail? ==> r.error == l.error.value)))
    }

    /**
     * `url`: the cached url; else the href (which must be truthy); else the
     * parent collection's url with the misspelt `classficiation/` rewrite,
     * a slash and the identifier (which must be truthy). A url found is
     * cached.
     */
    method Url() returns (r: Result<string>, ghost ident: Option<Result<Value>>)
      modifies this, parent.client
      decreases Rank(), 2
      ensures old(LocalUrl()).Some? ==>
        && r == old(LocalUrl()).value
        && State() == old(State()) && isInflated == old(isInflated) && isInflating == old(isInflating)
        && parent.client.sent == old(parent.client.sent)
      ensures old(LocalUrl()).None? && old(Rank()) == 0 ==> r.Err?
      ensures verb == old(verb)
      ensures (old(cachedUrl) == "" && old(href) == Null) <==> ident.Some?
      ensures ident.Some? && ident.value.Err? ==> r == Err(ident.value.error)
      ensures ident.Some? && ident.value.Ok? && !Truthy(ident.value.value) ==> r == Err(ClientError("Not able to determine object URL"))
      ensures ident.Some? && r.Ok? ==> ident.value.Ok? && Truthy(ident.value.value) && KnownId() == Some(ident.value.value)
      ensures |parent.client.sent| <= |old(parent.client.sent)| + 1
      ensures old(cachedUrl) != "" ==> cachedUrl == old(cachedUrl)
      ensures old(parent.client.sent) <= parent.client.sent
      ensures old(cachedUrl) != "" ==> r == Ok(old(cachedUrl)) && unchanged(this, parent.client)
      ensures old(cachedUrl) == "" && old(href) != Null ==>
        && State() == old(State())
        && isInflated == old(isInflated) && isInflating == old(isInflating) && verb == old(verb)
        && parent.client.sent == old(parent.client.sent)
        && (old(href).Str? && old(href).s != "" ==> r == Ok(old(href).s))
        && (!Truthy(old(href)) ==> r == Err(ClientError("Not able to determine object URL")))
      ensures old(Rank()) == 0 && Cls().kind != Dependent ==>
        && State() == old(State())
        && isInflated == old(isInflated) && isInflating == old(isInflating) && verb == old(verb)
        && parent.client.sent == old(parent.client.sent)
      ensures r.Ok? ==> r.value != "" && cachedUrl == r.value
      ensures r.Ok? && old(cachedUrl) == "" && old(href) == Null ==>
        && parent.Url().Ok?
        && KnownId().Some? && KnownId().value.Str?
        && r.value == Urls.FixParentUrl(parent.Url().value) + "/" + KnownId().value.s
      ensures Rank() <= old(Rank())
    {
      ident := None;
      if cachedUrl != "" {
        return Ok(cachedUrl), ident;
      }
      var u: Value := Null;
      if href != Null {
        u := href;
      } else {
        var id, _ := Identifier();
        ident := Some(id);
        if id.Err? {
          return Err(id.error), ident;
        }
        if Truthy(id.value) {
          var pu := parent.Url();
          if pu.Err? {
            return Err(pu.error), ident;
          }
          var again, _ := Identifier();
          assert again == id && id.value.Str?;
          u := Str(Urls.FixParentUrl(pu.value) + "/" + again.value.s);
        }
      }
      if !Truthy(u) {
        return Err(ClientError("Not able to determine object URL")), ident;
      }
      if !u.Str? {
        return Err(TypeError("url is not a string")), ident;
      }
      cachedUrl := u.s;
      r := Ok(u.s);
    }

    /**
     * `identifier`: answered from `_data` when it can be; otherwise the model
     * inflates first, and a primary key still missing is a KeyError.
     */
    method Identifier() returns (r: Result<Value>, ghost attempted: Option<Value>)
      modifies this, parent.client
      decreases Rank(), 1
      ensures verb == old(verb)
      ensures |parent.client.sent| <= |old(parent.client.sent)| + 1
      ensures old(KnownId()).None? && Cls().kind == Dependent ==>
        && r == Err(KeyError(Cls().primaryKey.value)) && isInflated && State() == old(State())
        && parent.client.sent == old(parent.client.sent)
      ensures old(KnownId()).None? && !old(isInflated) && !old(isInflating) && Cls().kind != Dependent ==>
        var after := AfterFetch(Cls(), old(State()), attempted);
        && Fetches(old(FetchUrl("")), old(verb), old(parent.client.sent), attempted)
        && State() == after.state && isInflated == after.error.None?
        && r == IdentifierAfter(Cls(), after)
      ensures old(cachedUrl) != "" ==> cachedUrl == old(cachedUrl)
      ensures old(parent.client.sent) <= parent.client.sent
      ensures old(KnownId()).Some? ==> r == Ok(old(KnownId()).value) && unchanged(this, parent.client)
      ensures old(IdLocal()) ==>
        && IdLocal() && State() == old(State()) && parent.client.sent == old(parent.client.sent)
        && (r.Ok? <==> old(KnownId()).Some?)
        && (r.Err? ==> Cls().primaryKey.Some? && r.error == KeyError(Cls().primaryKey.value))
      ensures r.Ok? ==> KnownId() == Some(r.value)
      ensures old(KnownId()).None? && old(isInflating) && !old(isInflated) && Cls().kind != Dependent ==>
        r.Err? && r.error.ClientError? && unchanged(this, parent.client)
      ensures old(KnownId()).None? && old(isInflated) ==> r == Err(KeyError(Cls().primaryKey.value)) && unchanged(this, parent.client)
      ensures old(Rank()) == 0 && Cls().kind != Dependent ==>
        && State() == old(State())
        && isInflated == old(isInflated) && isInflating == old(isInflating) && verb == old(verb)
        && parent.client.sent == old(parent.client.sent)
      ensures Rank() <= old(Rank())
    {
      attempted := None;
      var known := KnownId();
      if known.Some? {
        return Ok(known.value), attempted;
      }
      var o;
      o, attempted := Inflate("");
      if o.Fail? {
        return Err(o.error), attempted;
      }
      known := KnownId();
      if known.None? {
        return Err(KeyError(Cls().primaryKey.value)), attempted;
      }
      r := Ok(known.value);
    }

    /**
     * `inflate(url)`: nothing once inflated; a ClientError when re-entered
     * while inflating; otherwise request the url (the given one, else the
     * model's) with the current verb and load the answer, falling back to
     * the local data when the request or the load raises, and only then
     * mark the model inflated. A dependent model just marks itself inflated.
     */
    method Inflate(explicitUrl: string) returns (r: Outcome, ghost attempted: Option<Value>)
      modifies this, parent.client
      decreases Rank(), 0
      ensures verb == old(verb)
      ensures old(cachedUrl) != "" ==> cachedUrl == old(cachedUrl)
      ensures old(parent.client.sent) <= parent.client.sent
      ensures Cls().kind == Dependent ==>
        r == Pass && isInflated && State() == old(State()) && isInflating == old(isInflating)
        && cachedUrl == old(cachedUrl) && verb == old(verb) && parent.client.sent == old(parent.client.sent)
      ensures old(isInflated) ==> r == Pass && unchanged(this, parent.client)
      ensures Cls().kind != Dependent && !old(isInflated) && old(isInflating) ==>
        r.Fail? && r.error.ClientError? && unchanged(this, parent.client)
      ensures Cls().kind != Dependent && !old(isInflated) && !old(isInflating) ==>
        var after := AfterFetch(Cls(), old(State()), attempted);
        && State() == after.state
        && (r.Pass? <==> after.error.None?)
        && (r.Fail? ==> r.error == after.error.value)
        && isInflated == r.Pass? && isInflating == r.Fail?
        && verb == old(verb)
        && Fetches(old(FetchUrl(explicitUrl)), old(verb), old(parent.client.sent), attempted)
      ensures attempted.Some? ==>
        && |parent.client.sent| == |old(parent.client.sent)| + 1
        && parent.client.sent[..|old(parent.client.sent)|] == old(parent.client.sent)
        && var req := parent.client.sent[|old(parent.client.sent)|];
          req.verb == old(verb) && req.params == map[] && req.body == Null
          && (explicitUrl != "" ==> req.url == explicitUrl)
          && parent.client.respond(|old(parent.client.sent)|, req) == Ok(attempted.value)
      ensures |parent.client.sent| <= |old(parent.client.sent)| + 1
      ensures Rank() <= old(Rank())
    {
      attempted := None;
      if Cls().kind == Dependent {
        isInflated := true;
        return Pass, None;
      }
      if isInflated {
        return Pass, None;
      }
      if isInflating {
        return Fail(ClientError("There is not enough data to inflate this object.  Need either an href or a primary key")), None;
      }
      isInflating := true;
      assert FetchUrl(explicitUrl) == old(FetchUrl(explicitUrl)) && State() == old(State());
      r, attempted := Attempt(explicitUrl);
      if r.Pass? {
        isInflated := true;
        isInflating := false;
      }
    }

    /**
     * The `try`/`except` of `inflate`: resolve the url (the given one, else
     * the model's), request it with the current verb and load the answer;
     * when any of that raises, load the model's own data instead.
     */
    method Attempt(explicitUrl: string) returns (o: Outcome, ghost attempted: Option<Value>)
      requires isInflating && !isInflated && Cls().kind != Dependent
      modifies this, parent.client
      decreases Rank(), 3
      ensures Fetches(old(FetchUrl(explicitUrl)), old(verb), old(parent.client.sent), attempted)
      ensures attempted.Some? ==>
        && |parent.client.sent| == |old(parent.client.sent)| + 1
        && parent.client.sent[..|old(parent.client.sent)|] == old(parent.client.sent)
        && var req := parent.client.sent[|old(parent.client.sent)|];
          req.verb == old(verb) && req.params == map[] && req.body == Null
          && (explicitUrl != "" ==> req.url == explicitUrl)
          && parent.client.respond(|old(parent.client.sent)|, req) == Ok(attempted.value)
      ensures |parent.client.sent| <= |old(parent.client.sent)| + 1
      ensures var after := AfterFetch(Cls(), old(State()), attempted);
        && State() == after.state
        && (o.Pass? <==> after.error.None?)
        && (o.Fail? ==> o.error == after.error.value)
      ensures isInflated == old(isInflated) && isInflating == old(isInflating) && verb == old(verb)
      ensures old(cachedUrl) != "" ==> cachedUrl == old(cachedUrl)
    {
      attempted := None;
      var u: Result<string>;
      if explicitUrl != "" {
        u := Ok(explicitUrl);
      } else {
        var got, _ := Url();
        u := got;
      }
      o := Fail(Failed);
      if u.Ok? {
        var resp := parent.client.Send(Http.Request(verb, u.value, map[], Null));
        if resp.Ok? {
          attempted := Some(resp.value);
          o := Load(resp.value);
        }
      }
      if o.Fail? {
        o := ReloadLocal();
      }
    }

    /** The last request sent was `req` and the collaborator answered it with `response`. */
    predicate LastAnswered(req: Http.Request, response: Value)
      reads parent.client
    {
      var sent := parent.client.sent;
      |sent| > 0 && sent[|sent| - 1] == req && parent.client.respond(|sent| - 1, req) == Ok(response)
    }

    /** The url is answered without inflating: it is cached or there is an href. */
    predicate UrlKnown()
      reads this
    {
      cachedUrl != "" || href != Null
    }

    /** What `to_dict` hands out without inflating: the record of a V2 model, the data of an inflated one. */
    function Exported(): Option<map<string, Value>>
      reads this
    {
      if Cls().kind == QueryableV2 then record
      else if isInflated then Some(data)
      else None
    }

    /** `refresh`: forget the model was inflated and inflate it again. */
    method Refresh() returns (r: Outcome, ghost attempted: Option<Value>)
      modifies this, parent.client
      ensures Cls().kind == Dependent ==> r == Pass && isInflated && State() == old(State())
      ensures Cls().kind != Dependent && !old(isInflating) ==>
        var after := AfterFetch(Cls(), old(State()), attempted);
        && Fetches(old(FetchUrl("")), old(verb), old(parent.client.sent), attempted)
        && State() == after.state
        && (r.Pass? <==> after.error.None?)
        && (r.Fail? ==> r.error == after.error.value)
        && isInflated == r.Pass?
      ensures Cls().kind != Dependent && old(isInflating) ==> r.Fail? && r.error.ClientError? && State() == old(State())
    {
      isInflated := false;
      r, attempted := Inflate("");
    }

    /** `wait` (no asynchronous request is ever pending here): inflate. */
    method Wait() returns (r: Outcome, ghost attempted: Option<Value>)
      modifies this, parent.client
      ensures old(isInflated) ==> r == Pass && unchanged(this, parent.client)
      ensures Cls().kind == Dependent ==> r == Pass && isInflated && State() == old(State()) && parent.client.sent == old(parent.client.sent)
      ensures Cls().kind != Dependent && !old(isInflated) && old(isInflating) ==>
        r.Fail? && r.error.ClientError? && unchanged(this, parent.client)
      ensures Cls().kind != Dependent && !old(isInflated) && !old(isInflating) ==>
        var after := AfterFetch(Cls(), old(State()), attempted);
        && Fetches(old(FetchUrl("")), old(verb), old(parent.client.sent), attempted)
        && State() == after.state
        && (r.Pass? <==> after.error.None?)
        && (r.Fail? ==> r.error == after.error.value)
        && isInflated == r.Pass?
    {
      r, attempted := Inflate("");
    }

    /** `to_json_dict`: the primary key (None as absent) mapped to the identifier. */
    method ToJsonDict() returns (r: Result<(Option<string>, Value)>, ghost attempted: Option<Value>)
      modifies this, parent.client
      ensures r.Ok? ==> KnownId().Some? && r.value == (Cls().primaryKey, KnownId().value)
      ensures old(KnownId()).Some? ==> r == Ok((Cls().primaryKey, old(KnownId()).value)) && unchanged(this, parent.client)
      ensures old(KnownId()).None? && (old(isInflated) || Cls().kind == Dependent) ==>
        r == Err(KeyError(Cls().primaryKey.value)) && State() == old(State()) && parent.client.sent == old(parent.client.sent)
      ensures old(KnownId()).None? && !old(isInflated) && old(isInflating) && Cls().kind != Dependent ==>
        r.Err? && r.error.ClientError? && unchanged(this, parent.client)
      ensures old(KnownId()).None? && !old(isInflated) && !old(isInflating) && Cls().kind != Dependent ==>
        var after := AfterFetch(Cls(), old(State()), attempted);
        var id := IdentifierAfter(Cls(), after);
        && Fetches(old(FetchUrl("")), old(verb), old(parent.client.sent), attempted)
        && State() == after.state
        && r == (if id.Ok? then Ok((Cls().primaryKey, id.value)) else Err(id.error))
    {
      var id;
      id, attempted := Identifier();
      if id.Err? {
        return Err(id.error), attempted;
      }
      r := Ok((Cls().primaryKey, id.value));
    }

    /**
     * `__getattr__`: a relationship name yields its cache entry, created on
     * first access; a declared field yields its value (None when absent),
     * inflating first when `_data` lacks it; any other name is an
     * AttributeError.
     */
    method Attribute(name: string) returns (r: Result<Attr>, ghost attempted: Option<Value>)
      modifies this, parent.client
      ensures old(parent.client.sent) <= parent.client.sent
      ensures |parent.client.sent| <= |old(parent.client.sent)| + 1
      ensures name !in Cls().relationships && name in Cls().fields && name !in old(data) && Cls().kind == Dependent ==>
        r == Ok(FieldValue(Null)) && isInflated && State() == old(State()) && parent.client.sent == old(parent.client.sent)
      ensures name !in Cls().relationships && name in Cls().fields && name !in old(data) &&
              !old(isInflated) && !old(isInflating) && Cls().kind != Dependent ==>
        var after := AfterFetch(Cls(), old(State()), attempted);
        && Fetches(old(FetchUrl("")), old(verb), old(parent.client.sent), attempted)
        && State() == after.state && isInflated == after.error.None?
        && (after.error.Some? ==> r == Err(after.error.value))
        && (after.error.None? ==> r == Ok(FieldValue(Get(after.state.data, name))))
      ensures name !in Cls().relationships && name in Cls().fields && name !in old(data) &&
              !old(isInflated) && old(isInflating) && Cls().kind != Dependent ==>
        r.Err? && r.error.ClientError? && unchanged(this, parent.client)
      ensures name in Cls().relationships ==>
        && cache == (if name in old(cache) then old(cache) else old(cache)[name := Lazy])
        && r == Ok(Related(cache[name]))
        && data == old(data) && href == old(href) && record == old(record)
        && isInflated == old(isInflated) && isInflating == old(isInflating)
        && parent.client.sent == old(parent.client.sent)
      ensures name !in Cls().relationships && name in Cls().fields && name in old(data) ==>
        r == Ok(FieldValue(old(data)[name])) && unchanged(this, parent.client)
      ensures name !in Cls().relationships && name in Cls().fields && r.Ok? ==> r == Ok(FieldValue(Get(data, name)))
      ensures name !in Cls().relationships && name in Cls().fields && name !in old(data) && old(isInflated) ==>
        r == Ok(FieldValue(Null)) && unchanged(this, parent.client)
      ensures name !in Cls().relationships && name !in Cls().fields ==>
        r == Err(AttributeError(name)) && unchanged(this, parent.client)
    {
      attempted := None;
      if name in Cls().relationships {
        if name !in cache {
          cache := cache[name := Lazy];
        }
        return Ok(Related(cache[name])), attempted;
      }
      if name in Cls().fields {
        if name !in data {
          var o;
          o, attempted := Inflate("");
          if o.Fail? {
            return Err(o.error), attempted;
          }
        }
        return Ok(FieldValue(Get(data, name))), attempted;
      }
      r := Err(AttributeError(name));
    }

    /**
     * `to_dict`: the data once inflated; for a V2 model, the record as a
     * dictionary, re-inflating first when there is no record yet (still none
     * afterwards is an AttributeError on None).
     */
    method ToDict() returns (r: Result<map<string, Value>>, ghost attempted: Option<Value>)
      modifies this, parent.client
      ensures verb == old(verb)
      ensures old(parent.client.sent) <= parent.client.sent
      ensures |parent.client.sent| <= |old(parent.client.sent)| + 1
      ensures Cls().kind == Dependent && !old(isInflated) ==>
        r == Ok(old(data)) && isInflated && State() == old(State()) && parent.client.sent == old(parent.client.sent)
      ensures Cls().kind == Queryable && !old(isInflated) && !old(isInflating) ==>
        var after := AfterFetch(Cls(), old(State()), attempted);
        && Fetches(old(FetchUrl("")), old(verb), old(parent.client.sent), attempted)
        && State() == after.state && isInflated == after.error.None?
        && r == (if after.error.Some? then Err(after.error.value) else Ok(after.state.data))
      ensures Cls().kind == Queryable && !old(isInflated) && old(isInflating) ==>
        r.Err? && r.error.ClientError? && unchanged(this, parent.client)
      ensures Cls().kind == QueryableV2 && old(record).None? && !old(isInflating) ==>
        var after := AfterFetch(Cls(), old(State()), attempted);
        && Fetches(old(FetchUrl("")), old(verb), old(parent.client.sent), attempted)
        && State() == after.state && isInflated == after.error.None?
        && r == (if after.error.Some? then Err(after.error.value)
                 else if after.state.record.None? then Err(AttributeError("to_dict"))
                 else Ok(after.state.record.value))
      ensures Cls().kind == QueryableV2 && old(record).None? && old(isInflating) ==>
        && r.Err? && r.error.ClientError? && !isInflated && isInflating
        && State() == old(State()) && parent.client.sent == old(parent.client.sent)
      ensures old(Exported()).Some? ==> r == Ok(old(Exported()).value) && unchanged(this, parent.client)
      ensures r.Ok? ==> Exported() == Some(r.value)
      ensures Cls().kind != QueryableV2 && r.Ok? ==> r.value == data
      ensures Cls().kind == QueryableV2 && r.Ok? ==> record == Some(r.value)
      ensures Cls().kind == QueryableV2 && r.Err? && !old(isInflating) ==> record.None? || isInflating
    {
      attempted := None;
      if Cls().kind == QueryableV2 {
        if record.None? {
          isInflated := false;
          var o;
          o, attempted := Inflate("");
          if o.Fail? {
            return Err(o.error), attempted;
          }
        }
        if record.None? {
          return Err(AttributeError("to_dict")), attempted;
        }
        DataTypes.ToDictUnfiltered(record.value, None);
        return Ok(DataTypes.ToDict(record.value, None, false)), attempted;
      }
      if isInflated {
        return Ok(data), attempted;
      }
      var o;
      o, attempted := Inflate("");
      if o.Fail? {
        return Err(o.error), attempted;
      }
      r := Ok(data);
    }

    /**
     * `_generate_input_dict`: for a V1 model the body built from the data
     * and the keywords (in the order they were passed); for a V2 model the
     * filtered record of the keywords, or the model's own dictionary when
     * there are none.
     */
    method GenerateInputDict(kwargs: map<string, Value>) returns (r: Result<map<string, Value>>, ghost order: seq<string>)
      modifies this, parent.client
      ensures verb == old(verb)
      ensures Cls().kind != QueryableV2 ==>
        IsOrderOf(order, kwargs) && r == InputDictV1(Cls(), old(data), kwargs, order) && unchanged(this, parent.client)
      ensures Cls().kind == QueryableV2 && |kwargs| > 0 ==> r == InputDictV2(Cls(), kwargs) && unchanged(this, parent.client)
      ensures Cls().kind == QueryableV2 && |kwargs| == 0 && r.Ok? ==> record == Some(r.value)
      ensures Cls().kind == QueryableV2 && |kwargs| == 0 && old(record).Some? ==> r == Ok(old(record).value) && unchanged(this, parent.client)
    {
      order := [];
      if Cls().kind == QueryableV2 {
        if |kwargs| > 0 {
          return InputDictV2(Cls(), kwargs), order;
        }
        var d, _ := ToDict();
        r := d;
        return r, order;
      }
      var keywords := KeywordOrder(kwargs);
      order := keywords;
      r := InputDictV1(Cls(), data, kwargs, keywords);
    }

    /**
     * `self.load(self.client.<verb>(self.url, ...))`: resolve the url, send
     * one request and load its answer. `before` is the state the answer is
     * loaded over, which is the old state whenever the url was known.
     */
    method SendAndLoad(v: Http.Verb, params: map<string, Value>, body: Value) returns (r: Outcome, ghost response: Option<Value>, ghost before: ModelState)
      modifies this, parent.client
      ensures old(UrlKnown()) ==> before == old(State()) && |parent.client.sent| <= |old(parent.client.sent)| + 1
      ensures response.Some? ==>
        && cachedUrl != ""
        && LastAnswered(Http.Request(v, cachedUrl, params, body), response.value)
        && var l := Resources.Load(Cls(), before, response.value, false);
          State() == l.state && (r.Pass? <==> l.error.None?) && (r.Fail? ==> r.error == l.error.value)
      ensures response.None? ==> r.Fail?
      ensures old(UrlKnown()) && response.None? ==> State() == old(State())
      ensures verb == old(verb)
      ensures old(parent.client.sent) <= parent.client.sent
      ensures response.Some? ==> |old(parent.client.sent)| < |parent.client.sent|
      ensures response.Some? && old(cachedUrl) == "" && old(href).Str? ==> cachedUrl == old(href).s
      ensures old(LocalUrl()).Some? ==> Delivered(old(LocalUrl()).value, old(State()), old(parent.client.sent), v, params, body, r, response)
    {
      before := State();
      response := None;
      var u, _ := Url();
      if u.Err? {
        return Fail(u.error), response, before;
      }
      before := State();
      assert old(LocalUrl()).Some? ==> u == old(LocalUrl()).value && before == old(State()) && parent.client.sent == old(parent.client.sent);
      var req := Http.Request(v, u.value, params, body);
      var resp := parent.client.Send(req);
      if resp.Err? {
        return Fail(resp.error), response, before;
      }
      response := Some(resp.value);
      r := Load(resp.value);
    }

    /**
     * `create`: switch the verb to POST, drop the primary key from the
     * keywords, build the body and POST it to the model's url, loading the
     * answer. Dependent models have no `create`.
     */
    method Create(kwargs: map<string, Value>) returns (r: Outcome, body: Result<map<string, Value>>, ghost response: Option<Value>)
      modifies this, parent.client
      ensures Cls().kind == Dependent ==> r.Fail? && r.error == AttributeError("create") && unchanged(this, parent.client)
      ensures Cls().kind != Dependent ==> verb == Http.Post
      ensures Cls().kind == Queryable ==> exists order :: IsOrderOf(order, WithoutKey(Cls(), kwargs)) && body == InputDictV1(Cls(), old(data), WithoutKey(Cls(), kwargs), order)
      ensures Cls().kind == QueryableV2 && |WithoutKey(Cls(), kwargs)| > 0 ==> body == InputDictV2(Cls(), WithoutKey(Cls(), kwargs))
      ensures r.Pass? ==> body.Ok? && response.Some? && LastAnswered(Http.Request(Http.Post, cachedUrl, map[], Map(body.value)), response.value)
      ensures r.Pass? && old(UrlKnown()) && (Cls().kind == Queryable || |WithoutKey(Cls(), kwargs)| > 0) ==>
        State() == Resources.Load(Cls(), old(State()), response.value, false).state
      ensures r.Pass? && old(cachedUrl) == "" && old(href).Str? && (Cls().kind == Queryable || |WithoutKey(Cls(), kwargs)| > 0) ==>
        cachedUrl == old(href).s
      ensures Cls().kind != Dependent && (Cls().kind == Queryable || |WithoutKey(Cls(), kwargs)| > 0) ==>
        && (body.Err? ==> r == Fail(body.error) && State() == old(State()) && parent.client.sent == old(parent.client.sent))
        && (body.Ok? && old(LocalUrl()).Some? ==> Delivered(old(LocalUrl()).value, old(State()), old(parent.client.sent), Http.Post, map[], Map(body.value), r, response))
    {
      body := Err(Failed);
      response := None;
      if Cls().kind == Dependent {
        return Fail(AttributeError("create")), body, response;
      }
      verb := Http.Post;
      var input := WithoutKey(Cls(), kwargs);
      ghost var order;
      body, order := GenerateInputDict(input);
      if body.Err? {
        return Fail(body.error), body, response;
      }
      assert Cls().kind == Queryable || |input| > 0 ==>
        LocalUrl() == old(LocalUrl()) && State() == old(State()) && parent.client.sent == old(parent.client.sent);
      ghost var before;
      r, response, before := SendAndLoad(Http.Post, map[], Map(body.value));
    }

    /**
     * `update`: for a V1 model switch the verb to PUT and PUT the body built
     * from the keywords; for a V2 model PUT the model's dictionary with the
     * keywords merged over it (read before the verb changes). Dependent
     * models have no `update`.
     */
    method Update(kwargs: map<string, Value>) returns (r: Outcome, body: Result<map<string, Value>>, ghost response: Option<Value>)
      modifies this, parent.client
      ensures Cls().kind == Dependent ==> r.Fail? && r.error == AttributeError("update") && unchanged(this, parent.client)
      ensures Cls().kind != Dependent && (r.Pass? || body.Ok?) ==> verb == Http.Put
      ensures Cls().kind == Queryable ==> exists order :: IsOrderOf(order, kwargs) && body == InputDictV1(Cls(), old(data), kwargs, order)
      ensures Cls().kind == QueryableV2 && old(record).Some? ==> body == Ok(old(record).value + kwargs)
      ensures r.Pass? ==> body.Ok? && response.Some? && LastAnswered(Http.Request(Http.Put, cachedUrl, map[], Map(body.value)), response.value)
      ensures r.Pass? && old(UrlKnown()) && (Cls().kind == Queryable || old(record).Some?) ==>
        State() == Resources.Load(Cls(), old(State()), response.value, false).state
      ensures Cls().kind == Queryable || (Cls().kind == QueryableV2 && old(record).Some?) ==>
        && (body.Err? ==> r == Fail(body.error) && State() == old(State()) && parent.client.sent == old(parent.client.sent))
        && (body.Ok? && old(LocalUrl()).Some? ==> Delivered(old(LocalUrl()).value, old(State()), old(parent.client.sent), Http.Put, map[], Map(body.value), r, response))
    {
      body := Err(Failed);
      response := None;
      if Cls().kind == Dependent {
        return Fail(AttributeError("update")), body, response;
      }
      if Cls().kind == QueryableV2 {
        var current, _ := ToDict();
        if current.Err? {
          return Fail(current.error), body, response;
        }
        body := Ok(current.value + kwargs);
        verb := Http.Put;
      } else {
        verb := Http.Put;
        ghost var order;
        body, order := GenerateInputDict(kwargs);
        if body.Err? {
          return Fail(body.error), body, response;
        }
      }
      assert Cls().kind == Queryable || old(record).Some? ==>
        LocalUrl() == old(LocalUrl()) && State() == old(State()) && parent.client.sent == old(parent.client.sent);
      ghost var before;
      r, response, before := SendAndLoad(Http.Put, map[], Map(body.value));
    }

    /** `partial_update` (V2 models only): PUT exactly the keywords and load the answer. */
    method PartialUpdate(kwargs: map<string, Value>) returns (r: Outcome, ghost response: Option<Value>)
      modifies this, parent.client
      ensures Cls().kind != QueryableV2 ==> r.Fail? && r.error == AttributeError("partial_update") && unchanged(this, parent.client)
      ensures Cls().kind == QueryableV2 ==> verb == Http.Put
      ensures r.Pass? ==> response.Some? && LastAnswered(Http.Request(Http.Put, cachedUrl, map[], Map(kwargs)), response.value)
      ensures r.Pass? && old(UrlKnown()) ==> State() == Resources.Load(Cls(), old(State()), response.value, false).state
      ensures Cls().kind == QueryableV2 && old(LocalUrl()).Some? ==> Delivered(old(LocalUrl()).value, old(State()), old(parent.client.sent), Http.Put, map[], Map(kwargs), r, response)
    {
      response := None;
      if Cls().kind != QueryableV2 {
        return Fail(AttributeError("partial_update")), response;
      }
      verb := Http.Put;
      ghost var before;
      r, response, before := SendAndLoad(Http.Put, map[], Map(kwargs));
    }

    /**
     * `delete`: switch the verb to DELETE, send it with the keywords as
     * query parameters, load the answer and remove the model from its
     * collection, which then holds no model with the same identifier.
     */
    method Delete(kwargs: map<string, Value>) returns (r: Outcome, ghost response: Option<Value>, ghost at: nat)
      requires parent.Valid()
      modifies this, parent.client, parent`models, parent.models
      ensures parent.Valid()
      ensures forall m :: m in parent.models ==> m in old(parent.models)
      ensures Cls().kind == Dependent ==> r.Fail? && r.error == AttributeError("delete") && unchanged(this, parent.client) && parent.models == old(parent.models)
      ensures Cls().kind != Dependent ==> verb == Http.Delete
      ensures r.Pass? ==>
        && response.Some? && |old(parent.client.sent)| <= at < |parent.client.sent|
        && parent.client.sent[at] == Http.Request(Http.Delete, cachedUrl, kwargs, Null)
        && parent.client.respond(at, parent.client.sent[at]) == Ok(response.value)
      ensures r.Pass? ==> this !in parent.models
      ensures r.Pass? ==> forall m :: m in parent.models ==> m.KnownId().Some? && m.KnownId() != KnownId()
      ensures Cls().kind != Dependent && old(LocalUrl()).Some? ==>
        var url := old(LocalUrl()).value;
        var req := Http.Request(Http.Delete, if url.Ok? then url.value else "", kwargs, Null);
        var answer := parent.client.respond(|old(parent.client.sent)|, req);
        && (url.Err? ==>
              && r == Fail(url.error) && State() == old(State())
              && parent.client.sent == old(parent.client.sent) && parent.models == old(parent.models))
        && (url.Ok? ==> |old(parent.client.sent)| < |parent.client.sent| && parent.client.sent[|old(parent.client.sent)|] == req)
        && (url.Ok? && answer.Err? ==>
              && r == Fail(answer.error) && State() == old(State())
              && parent.client.sent == old(parent.client.sent) + [req] && parent.models == old(parent.models))
        && (url.Ok? && answer.Ok? ==> response == Some(answer.value))
        && (url.Ok? && answer.Ok? && Resources.Load(Cls(), old(State()), answer.value, false).error.Some? ==>
              r == Fail(Resources.Load(Cls(), old(State()), answer.value, false).error.value) && parent.models == old(parent.models))
    {
      response := None;
      at := 0;
      if Cls().kind == Dependent {
        return Fail(AttributeError("delete")), response, at;
      }
      verb := Http.Delete;
      assert LocalUrl() == old(LocalUrl()) && State() == old(State());
      ghost var before;
      r, response, before := SendAndLoad(Http.Delete, kwargs, Null);
      if r.Fail? {
        return r, response, at;
      }
      at := |parent.client.sent| - 1;
      ghost var request := parent.client.sent[at];
      ghost var url := cachedUrl;
      assert request == Http.Request(Http.Delete, url, kwargs, Null);
      ghost var ids, target;
      r, ids, target := parent.Remove(this);
      assert parent.client.sent[at] == request && cachedUrl == url;
    }
  }
}
