/**
 * The per-model state of a resource as a value, and what loading a
 * response, falling back to local data, deriving the identifier and
 * building a request body do to it.
 */
module Resources {
  import opened Json
  import DataTypes
  import Urls

  /** Which kind of model a class is: dependent (no url), queryable, or queryable backed by a data class. */
  datatype Kind = Dependent | Queryable | QueryableV2

  /**
   * The class-level attributes of a model class: `fields`, `primary_key`,
   * whether it mixes in the generated identifier, the names in
   * `relationships`, `path`, `data_key`, `use_key_prefix`, `min_version`
   * and the field names of its `data_class`.
   */
  datatype ModelClass = ModelClass(
    name: string,
    kind: Kind,
    fields: set<string>,
    primaryKey: Option<string>,
    generatedIdentifier: bool,
    relationships: set<string>,
    path: Option<string>,
    dataKey: Option<string>,
    useKeyPrefix: bool,
    minVersion: seq<int>,
    dataClassFields: set<string>)

  /**
   * An entry of the relationship cache: a collection created on first access
   * and not yet loaded, or one preloaded by calling it with the related data
   * found in a response.
   */
  datatype Relation = Lazy | Preloaded(items: Value)

  /** The loaded part of a model: `_data`, `_href` (None as Null), `_relationship_cache` and `data_class_data`. */
  datatype ModelState = ModelState(
    data: map<string, Value>,
    href: Value,
    cache: map<string, Relation>,
    record: Option<map<string, Value>>)

  /** What a load leaves behind: the new state and, when it raised, the error (the effects before the raise stay). */
  datatype Loaded = Loaded(state: ModelState, error: Option<Error>)

  /** A freshly constructed model: only the declared fields of `data` are kept. */
  function Initial(cls: ModelClass, href: Value, data: map<string, Value>): (r: ModelState)
    ensures r.data.Keys == data.Keys * cls.fields
    ensures forall k :: k in r.data ==> r.data[k] == data[k]
    ensures r.href == href && r.cache == map[] && r.record.None?
  {
    ModelState(Restrict(data, cls.fields), href, map[], None)
  }

  /** A value the model constructor accepts as `data`: a dictionary, or None for an empty one. */
  predicate DataArg(v: Value)
  {
    v.Map? || v.Null?
  }

  /** The dictionary a model is constructed from when given `v` as `data`. */
  function DataOf(v: Value): (r: map<string, Value>)
    requires DataArg(v)
    ensures v.Null? ==> r == map[]
    ensures v.Map? ==> r == v.fields
  {
    if v.Null? then map[] else v.fields
  }

  /** What `self._data.update(value)` leaves behind: the dictionary and, when it raised, the error. */
  datatype Merged = Merged(data: map<string, Value>, error: Option<Error>)

  /**
   * One element of a sequence given to `dict.update`, read as the key/value
   * pair it must be: a two-item list whose key is a string, or a
   * two-character string (its characters). Another length is a ValueError,
   * a scalar a TypeError, and a list or dictionary key is unhashable.
   */
  function AsPair(e: Value): (r: Result<(string, Value)>)
  {
    match e
    case List(xs) =>
      if |xs| != 2 then Err(ValueError("dictionary update sequence element has the wrong length; 2 is required"))
      else
        (match xs[0]
         case Str(k) => Ok((k, xs[1]))
         case List(_) => Err(TypeError("unhashable type: 'list'"))
         case Map(_) => Err(TypeError("unhashable type: 'dict'"))
         case _ => Err(TypeError("a key that is not a string")))
    case Str(c) =>
      if |c| != 2 then Err(ValueError("dictionary update sequence element has the wrong length; 2 is required"))
      else Ok(([c[0]], Str([c[1]])))
    case Map(f) =>
      if |f| != 2 then Err(ValueError("dictionary update sequence element has the wrong length; 2 is required"))
      else Err(TypeError("a pair made of two dictionary keys"))
    case _ => Err(TypeError("cannot convert dictionary update sequence element to a sequence"))
  }

  /** `dict.update` over a sequence: the pairs are stored one after the other; the first bad element raises and the pairs before it stay stored. */
  function UpdatePairs(data: map<string, Value>, items: seq<Value>): Merged
    decreases |items|
  {
    if items == [] then Merged(data, None)
    else
      match AsPair(items[0])
      case Err(e) => Merged(data, Some(e))
      case Ok(p) => UpdatePairs(data[p.0 := p.1], items[1..])
  }

  /**
   * `self._data.update(value)`: a dictionary is merged with its entries
   * winning; a list is a sequence of pairs; a string is a sequence of
   * one-character strings, so only the empty one passes; anything else is
   * not iterable.
   */
  function Update(data: map<string, Value>, value: Value): Merged
  {
    match value
    case Map(fields) => Merged(data + fields, None)
    case List(items) => UpdatePairs(data, items)
    case Str(s) =>
      if s == "" then Merged(data, None)
      else Merged(data, Some(ValueError("dictionary update sequence element has length 1; 2 is required")))
    case _ => Merged(data, Some(TypeError("object is not iterable")))
  }

  /** The dictionary after storing the first `n` pairs of `items`, in order. */
  function StoredPairs(data: map<string, Value>, items: seq<Value>, n: nat): map<string, Value>
    requires n <= |items|
    requires forall j :: 0 <= j < n ==> AsPair(items[j]).Ok?
    decreases n
  {
    if n == 0 then data
    else
      var p := AsPair(items[n - 1]).value;
      StoredPairs(data, items, n - 1)[p.0 := p.1]
  }

  /**
   * Updating with a sequence stores every pair, in order, up to the first
   * element that is not a pair; that element's error is raised and the pairs
   * before it stay stored. A sequence of pairs only raises nothing.
   */
  lemma {:induction false} UpdatePairsStopsAtFirstBad(data: map<string, Value>, items: seq<Value>, n: nat)
    requires n <= |items|
    requires forall j :: 0 <= j < n ==> AsPair(items[j]).Ok?
    requires n < |items| ==> AsPair(items[n]).Err?
    ensures UpdatePairs(data, items) ==
      Merged(StoredPairs(data, items, n), if n < |items| then Some(AsPair(items[n]).error) else None)
    decreases n
  {
    if n > 0 {
      var p := AsPair(items[0]).value;
      UpdatePairsStopsAtFirstBad(data[p.0 := p.1], items[1..], n - 1);
      StoredPairsShift(data, items, n);
    }
  }

  /** Storing the first `n` pairs is storing the first one, then the next `n - 1`. */
  lemma {:induction false} StoredPairsShift(data: map<string, Value>, items: seq<Value>, n: nat)
    requires 0 < n <= |items|
    requires forall j :: 0 <= j < n ==> AsPair(items[j]).Ok?
    ensures var p := AsPair(items[0]).value;
      StoredPairs(data[p.0 := p.1], items[1..], n - 1) == StoredPairs(data, items, n)
    decreases n
  {
    if n > 1 {
      StoredPairsShift(data, items, n - 1);
    }
  }

  /** Merging a dictionary: its keys overwrite, the other keys are kept, and nothing else is added. */
  lemma UpdateWithMapping(data: map<string, Value>, fields: map<string, Value>)
    ensures var r := Update(data, Map(fields));
      && r.error.None?
      && r.data.Keys == data.Keys + fields.Keys
      && (forall k :: k in fields ==> r.data[k] == fields[k])
      && (forall k :: k in data && k !in fields ==> r.data[k] == data[k])
  {
  }

  /** An update never drops a key, even when it raises part way. */
  lemma UpdateKeepsKeys(data: map<string, Value>, value: Value)
    ensures data.Keys <= Update(data, value).data.Keys
  {
    if value.List? {
      UpdatePairsKeepsKeys(data, value.items);
    }
  }

  lemma {:induction false} UpdatePairsKeepsKeys(data: map<string, Value>, items: seq<Value>)
    ensures data.Keys <= UpdatePairs(data, items).data.Keys
    decreases |items|
  {
    if items != [] && AsPair(items[0]).Ok? {
      var p := AsPair(items[0]).value;
      UpdatePairsKeepsKeys(data[p.0 := p.1], items[1..]);
    }
  }

  /**
   * The related collections preloaded from a response: every relationship
   * name the response holds with a truthy value replaces its cache entry.
   */
  function Preload(cache: map<string, Relation>, relationships: set<string>, source: map<string, Value>): map<string, Relation>
  {
    map x | x in cache.Keys + (set y | y in relationships && y in source && Truthy(source[y])) ::
      if x in relationships && x in source && Truthy(source[x]) then Preloaded(source[x]) else cache[x]
  }

  /** Preloading adds or replaces exactly the relationships carried with a truthy value. */
  lemma PreloadReplaces(cache: map<string, Relation>, relationships: set<string>, source: map<string, Value>)
    ensures var r := Preload(cache, relationships, source);
      && r.Keys == cache.Keys + (set x | x in relationships && x in source && Truthy(source[x]))
      && (forall x :: x in relationships && x in source && Truthy(source[x]) ==> r[x] == Preloaded(source[x]))
      && (forall x :: x in cache && !(x in relationships && x in source && Truthy(source[x])) ==> r[x] == cache[x])
  {
  }

  /**
   * `QueryableModel.load`: move `href` out of a dictionary response, then
   * merge either the `data_key` sub-dictionary (preloading the related
   * collections the response carries) or the whole response into `_data`.
   * When `aliased`, the response is `_data` itself, so popping from the
   * response pops from `_data` too.
   */
  function LoadV1(cls: ModelClass, st: ModelState, response: Value, aliased: bool): (r: Loaded)
  {
    match response
    case Map(resp) =>
      var hasHref := "href" in resp;
      var href := if hasHref then resp["href"] else st.href;
      var resp1 := resp - {"href"};
      var data1 := if aliased then st.data - {"href"} else st.data;
      if KeyTruthy(cls.dataKey) && cls.dataKey.value in resp1 then
        var dk := cls.dataKey.value;
        var resp2 := resp1 - {dk};
        var data2 := if aliased then data1 - {dk} else data1;
        var merged := Update(data2, resp1[dk]);
        if merged.error.Some? then Loaded(st.(data := merged.data, href := href), merged.error)
        else
          var source := if aliased then merged.data else resp2;
          Loaded(st.(data := merged.data, href := href, cache := Preload(st.cache, cls.relationships, source)), None)
      else
        Loaded(st.(data := data1 + resp1, href := href), None)
    case List(items) =>
      // membership is element membership, and a list cannot pop a string
      if Str("href") in items || (KeyTruthy(cls.dataKey) && Str(cls.dataKey.value) in items) then
        Loaded(st, Some(TypeError("'str' object cannot be interpreted as an integer")))
      else
        var merged := Update(st.data, response);
        Loaded(st.(data := merged.data), merged.error)
    case Str(s) =>
      // membership is a substring test, and a string has no pop
      if Urls.Contains(s, "href") || (KeyTruthy(cls.dataKey) && Urls.Contains(s, cls.dataKey.value)) then
        Loaded(st, Some(AttributeError("pop")))
      else
        var merged := Update(st.data, response);
        Loaded(st.(data := merged.data), merged.error)
    case _ => Loaded(st, Some(TypeError("argument of type is not iterable")))
  }

  /**
   * `QueryableModelV2.load`: move `href` out of a dictionary response and
   * build the data-class record from the rest; an undeclared key, or a
   * response that is not a dictionary, is a TypeError.
   */
  function LoadV2(cls: ModelClass, st: ModelState, response: Value, aliased: bool): (r: Loaded)
  {
    match response
    case Map(resp) =>
      var href := if "href" in resp then resp["href"] else st.href;
      var resp1 := resp - {"href"};
      var data1 := if aliased then st.data - {"href"} else st.data;
      var st1 := st.(data := data1, href := href);
      (match DataTypes.BuildRecord(cls.dataClassFields, resp1)
       case Ok(record) => Loaded(st1.(record := Some(record)), None)
       case Err(e) => Loaded(st1, Some(e)))
    case Str(s) =>
      if Urls.Contains(s, "href") then Loaded(st, Some(AttributeError("pop")))
      else Loaded(st, Some(TypeError("argument after ** must be a mapping")))
    case List(items) =>
      if Str("href") in items then Loaded(st, Some(TypeError("'str' object cannot be interpreted as an integer")))
      else Loaded(st, Some(TypeError("argument after ** must be a mapping")))
    case _ => Loaded(st, Some(TypeError("argument of type is not iterable")))
  }

  /** `load` as the class defines it; dependent models have none. */
  function Load(cls: ModelClass, st: ModelState, response: Value, aliased: bool): Loaded
  {
    match cls.kind
    case Dependent => Loaded(st, Some(AttributeError("load")))
    case Queryable => LoadV1(cls, st, response, aliased)
    case QueryableV2 => LoadV2(cls, st, response, aliased)
  }

  /** The fallback of `inflate` once the request failed: `self.load(self._data)`. */
  function Fallback(cls: ModelClass, st: ModelState): Loaded
  {
    Load(cls, st, Map(st.data), true)
  }

  /**
   * Where `inflate` ends up: loading the response when the request returned
   * one (`attempted`), and falling back to local data when there was none
   * or loading it raised.
   */
  function AfterFetch(cls: ModelClass, st: ModelState, attempted: Option<Value>): Loaded
  {
    if attempted.None? then Fallback(cls, st)
    else
      var l := Load(cls, st, attempted.value, false);
      if l.error.None? then l else Fallback(cls, l.state)
  }

  /**
   * Loading a dictionary response without the data key: `href` moves to the
   * model, response keys overwrite, keys the response lacks are kept, and
   * nothing else is added.
   */
  lemma LoadMergesResponse(cls: ModelClass, st: ModelState, resp: map<string, Value>)
    requires cls.kind == Queryable
    requires !(KeyTruthy(cls.dataKey) && cls.dataKey.value in resp)
    ensures var r := Load(cls, st, Map(resp), false);
      && r.error.None?
      && r.state.href == (if "href" in resp then resp["href"] else st.href)
      && r.state.data.Keys == st.data.Keys + (resp.Keys - {"href"})
      && (forall k :: k in resp && k != "href" ==> r.state.data[k] == resp[k])
      && (forall k :: k in st.data && k !in resp ==> r.state.data[k] == st.data[k])
      && r.state.cache == st.cache
  {
  }

  /**
   * Loading a dictionary response that carries the data key: its
   * dictionary is merged into `_data` the same way, the rest of the response
   * only preloads relationships, and `href` moves to the model.
   */
  lemma LoadMergesDataKey(cls: ModelClass, st: ModelState, resp: map<string, Value>, sub: map<string, Value>)
    requires cls.kind == Queryable
    requires KeyTruthy(cls.dataKey) && cls.dataKey.value in resp && resp[cls.dataKey.value] == Map(sub)
    requires cls.dataKey.value != "href"
    ensures var r := Load(cls, st, Map(resp), false);
      && r.error.None?
      && r.state.href == (if "href" in resp then resp["href"] else st.href)
      && r.state.data.Keys == st.data.Keys + sub.Keys
      && (forall k :: k in sub ==> r.state.data[k] == sub[k])
      && (forall k :: k in st.data && k !in sub ==> r.state.data[k] == st.data[k])
      && (forall x :: x in cls.relationships && x in resp && x != "href" && x != cls.dataKey.value && Truthy(resp[x]) ==>
            r.state.cache[x] == Preloaded(resp[x]))
  {
    assert (resp - {"href"})[cls.dataKey.value] == Map(sub);
  }
  /**
   * A list response with neither `'href'` nor the data key among its
   * elements is stored pair by pair, up to the first element that is not a
   * pair, which raises; the href and the related collections are untouched.
   */
  lemma LoadSequenceResponse(cls: ModelClass, st: ModelState, items: seq<Value>, n: nat)
    requires cls.kind == Queryable
    requires Str("href") !in items && !(KeyTruthy(cls.dataKey) && Str(cls.dataKey.value) in items)
    requires n <= |items|
    requires forall j :: 0 <= j < n ==> AsPair(items[j]).Ok?
    requires n < |items| ==> AsPair(items[n]).Err?
    ensures var r := Load(cls, st, List(items), false);
      && r.state == st.(data := StoredPairs(st.data, items, n))
      && r.error == (if n < |items| then Some(AsPair(items[n]).error) else None)
  {
    UpdatePairsStopsAtFirstBad(st.data, items, n);
  }

  /** A list holding the string `'href'` cannot pop it: a TypeError, and nothing changes. */
  lemma LoadListWithHrefFails(cls: ModelClass, st: ModelState, items: seq<Value>)
    requires cls.kind == Queryable
    requires Str("href") in items
    ensures Load(cls, st, List(items), false) == Loaded(st, Some(TypeError("'str' object cannot be interpreted as an integer")))
  {
  }

  /** A string in which `href` occurs has no `pop`: an AttributeError, and nothing changes. */
  lemma LoadStringWithHrefFails(cls: ModelClass, st: ModelState, s: string, i: int)
    requires cls.kind == Queryable
    requires Urls.OccursAt(s, "href", i)
    ensures Load(cls, st, Str(s), false) == Loaded(st, Some(AttributeError("pop")))
  {
    Urls.ContainsIffOccurs(s, "href");
  }

  /** `[['a', 1]]` is one pair: `a` is stored and nothing is raised. */
  lemma LoadOnePairExample(cls: ModelClass, st: ModelState)
    requires cls.kind == Queryable
    ensures Load(cls, st, List([List([Str("a"), Int(1)])]), false) == Loaded(st.(data := st.data["a" := Int(1)]), None)
  {
    var items := [List([Str("a"), Int(1)])];
    LoadSequenceResponse(cls, st, items, 1);
  }

  /** A list of three-key records is not a sequence of pairs: a ValueError, and the data stays as it was. */
  lemma LoadRecordListExample(cls: ModelClass, st: ModelState, rec: map<string, Value>)
    requires cls.kind == Queryable
    requires |rec| == 3
    ensures var r := Load(cls, st, List([Map(rec)]), false);
      r.state == st && r.error.Some? && r.error.value.ValueError?
  {
    LoadSequenceResponse(cls, st, [Map(rec)], 0);
  }

  /** `'abc'` is a sequence of one-character strings, none of them a pair: a ValueError. */
  lemma LoadStringExample(cls: ModelClass, st: ModelState)
    requires cls.kind == Queryable && cls.dataKey.None?
    ensures var r := Load(cls, st, Str("abc"), false);
      r.state == st && r.error.Some? && r.error.value.ValueError?
  {
    assert !Urls.Contains("abc", "href");
  }
  /**
   * A V2 model loading a dictionary: `href` moves to the model and the
   * record is built from the rest, which succeeds exactly when every other
   * key is a data-class field; `_data` and the relationship cache are left
   * alone, and a failed build keeps the old record.
   */
  lemma LoadV2Record(cls: ModelClass, st: ModelState, resp: map<string, Value>)
    requires cls.kind == QueryableV2
    ensures var r := Load(cls, st, Map(resp), false);
      && r.state.href == (if "href" in resp then resp["href"] else st.href)
      && r.state.data == st.data && r.state.cache == st.cache
      && (r.error.None? <==> (resp - {"href"}).Keys <= cls.dataClassFields)
      && (r.error.None? ==> r.state.record == Some(DataTypes.BuildRecord(cls.dataClassFields, resp - {"href"}).value))
      && (r.error.Some? ==> r.state.record == st.record && r.error.value.TypeError?)
  {
  }

  /** A V2 model loading anything but a dictionary raises and changes nothing. */
  lemma LoadV2NeedsMapping(cls: ModelClass, st: ModelState, response: Value)
    requires cls.kind == QueryableV2 && !response.Map?
    ensures var r := Load(cls, st, response, false);
      r.state == st && r.error.Some? && (r.error.value.TypeError? || r.error.value.AttributeError?)
  {
  }

  /**
   * Inflation keeps a clean answer: a dictionary answer without the data key
   * is merged and never falls back. With no answer, local data holding
   * neither `href` nor the data key is kept as it is.
   */
  lemma AfterFetchCases(cls: ModelClass, st: ModelState, attempted: Option<Value>)
    requires cls.kind == Queryable
    ensures attempted.Some? && attempted.value.Map? && !(KeyTruthy(cls.dataKey) && cls.dataKey.value in attempted.value.fields) ==>
      AfterFetch(cls, st, attempted) == Load(cls, st, attempted.value, false) && AfterFetch(cls, st, attempted).error.None?
    ensures attempted.None? && "href" !in st.data && !(KeyTruthy(cls.dataKey) && cls.dataKey.value in st.data) ==>
      AfterFetch(cls, st, attempted) == Loaded(st, None)
  {
    if attempted.Some? && attempted.value.Map? && !(KeyTruthy(cls.dataKey) && cls.dataKey.value in attempted.value.fields) {
      LoadMergesResponse(cls, st, attempted.value.fields);
    }
    if attempted.None? && "href" !in st.data && !(KeyTruthy(cls.dataKey) && cls.dataKey.value in st.data) {
      FallbackKeepsLocalData(cls, st);
    }
  }



  /**
   * A failed request on a model whose declared fields include neither
   * `href` nor the data key: falling back to local data raises nothing and
   * changes nothing.
   */
  lemma FallbackKeepsLocalData(cls: ModelClass, st: ModelState)
    requires cls.kind == Queryable
    requires "href" !in st.data
    requires !(KeyTruthy(cls.dataKey) && cls.dataKey.value in st.data)
    ensures Fallback(cls, st) == Loaded(st, None)
  {
    assert st.data - {"href"} == st.data;
    assert st.data + st.data == st.data;
  }

  /**
   * When `href` is a declared field holding the model's own link, falling
   * back to local data pops it out of `_data`: the record loses the field.
   */
  lemma FallbackPopsHrefField(cls: ModelClass, st: ModelState)
    requires cls.kind == Queryable && "href" in st.data
    requires !(KeyTruthy(cls.dataKey) && cls.dataKey.value in st.data)
    ensures "href" !in Fallback(cls, st).state.data
    ensures Fallback(cls, st).state.href == st.data["href"]
  {
  }

  /**
   * `GeneratedIdentifierMixin.identifier` and `Model.identifier` as far as
   * they can be answered from `_data`: None when there is no primary key,
   * the stored value as a string, "Unknown" for a server-generated
   * identifier not yet known, and no answer (the model must inflate) when
   * an ordinary primary key is missing.
   */
  function KnownIdentifier(cls: ModelClass, data: map<string, Value>): (r: Option<Value>)
    ensures cls.generatedIdentifier ==> r.Some? && r.value.Str?
    ensures cls.generatedIdentifier && !(cls.primaryKey.Some? && cls.primaryKey.value in data) ==> r == Some(Str("Unknown"))
    ensures !cls.generatedIdentifier && cls.primaryKey.None? ==> r == Some(Null)
    ensures r.None? <==> !cls.generatedIdentifier && cls.primaryKey.Some? && cls.primaryKey.value !in data
    ensures cls.primaryKey.Some? && cls.primaryKey.value in data ==> r == Some(Str(Render(data[cls.primaryKey.value])))
  {
    if cls.generatedIdentifier then
      if cls.primaryKey.Some? && cls.primaryKey.value in data then
        Some(Str(Render(data[cls.primaryKey.value])))
      else Some(Str("Unknown"))
    else if cls.primaryKey.None? then Some(Null)
    else if cls.primaryKey.value in data then Some(Str(Render(data[cls.primaryKey.value])))
    else None
  }

  /** The keyword arguments that are declared fields, and those that are not. */
  function FieldPart(fields: set<string>, kwargs: map<string, Value>): map<string, Value>
  {
    map k | k in kwargs && k in fields :: kwargs[k]
  }

  function OtherPart(fields: set<string>, kwargs: map<string, Value>): map<string, Value>
  {
    map k | k in kwargs && k !in fields :: kwargs[k]
  }

  /** `order` lists every keyword exactly once, as a call passes them. */
  ghost predicate IsOrderOf(order: seq<string>, kwargs: map<string, Value>)
  {
    && (forall k :: k in order <==> k in kwargs)
    && (forall i, j :: 0 <= i < j < |order| ==> order[i] != order[j])
  }

  /**
   * The loop of `_generate_input_dict` after `data = {data_key: {}}`: a
   * declared field goes into the dictionary under the data key, any other
   * keyword is set at the top level (a keyword named like the data key
   * replaces that dictionary, after which a field cannot be stored in a
   * non-dictionary).
   */
  function Distribute(dk: string, fields: set<string>, kwargs: map<string, Value>, order: seq<string>, acc: map<string, Value>): (r: Result<map<string, Value>>)
    requires forall k :: k in order ==> k in kwargs
    decreases |order|
  {
    if order == [] then Ok(acc)
    else
      var k := order[0];
      if k in fields then
        if dk in acc && acc[dk].Map? then
          Distribute(dk, fields, kwargs, order[1..], acc[dk := Map(acc[dk].fields[k := kwargs[k]])])
        else Err(TypeError("object does not support item assignment"))
      else Distribute(dk, fields, kwargs, order[1..], acc[k := kwargs[k]])
  }

  /**
   * `QueryableModel._generate_input_dict`: the local data when there is a
   * data key and no keyword; the keywords spread under and beside the data
   * key when there is one; the keywords themselves otherwise.
   */
  function InputDictV1(cls: ModelClass, data: map<string, Value>, kwargs: map<string, Value>, order: seq<string>): Result<map<string, Value>>
    requires IsOrderOf(order, kwargs)
  {
    if KeyTruthy(cls.dataKey) then
      if |kwargs| == 0 then Ok(data)
      else Distribute(cls.dataKey.value, cls.fields, kwargs, order, map[cls.dataKey.value := Map(map[])])
    else Ok(kwargs)
  }

  /** The loop only ever adds to the dictionary under the data key and beside it. */
  lemma {:induction false} DistributeSpreads(dk: string, fields: set<string>, kwargs: map<string, Value>, order: seq<string>, acc: map<string, Value>)
    requires forall k :: k in order ==> k in kwargs
    requires forall i, j :: 0 <= i < j < |order| ==> order[i] != order[j]
    requires dk !in order || dk in fields
    requires dk in acc && acc[dk].Map?
    ensures var r := Distribute(dk, fields, kwargs, order, acc);
      && r.Ok?
      && r.value.Keys == acc.Keys + (set k | k in order && k !in fields)
      && (forall k :: k in order && k !in fields ==> r.value[k] == kwargs[k])
      && (forall k :: k in acc && k != dk && k !in order ==> r.value[k] == acc[k])
      && r.value[dk].Map?
      && r.value[dk].fields.Keys == acc[dk].fields.Keys + (set k | k in order && k in fields)
      && (forall k :: k in order && k in fields ==> r.value[dk].fields[k] == kwargs[k])
      && (forall k :: k in acc[dk].fields && k !in order ==> r.value[dk].fields[k] == acc[dk].fields[k])
    decreases |order|
  {
    if order != [] {
      var k := order[0];
      var rest := order[1..];
      var next := if k in fields then acc[dk := Map(acc[dk].fields[k := kwargs[k]])] else acc[k := kwargs[k]];
      forall i, j | 0 <= i < j < |rest| ensures rest[i] != rest[j] {
        assert rest[i] == order[i + 1] && rest[j] == order[j + 1];
      }
      assert k !in rest;
      assert forall x :: x in order <==> x == k || x in rest;
      DistributeSpreads(dk, fields, kwargs, rest, next);
    }
  }

  /**
   * With a data key and keywords none of which is an undeclared keyword
   * named like the data key, the body is the undeclared keywords at the top
   * level and the declared ones under the data key, whatever their order.
   */
  lemma InputDictWithDataKey(cls: ModelClass, data: map<string, Value>, kwargs: map<string, Value>, order: seq<string>)
    requires IsOrderOf(order, kwargs)
    requires KeyTruthy(cls.dataKey) && |kwargs| > 0
    requires cls.dataKey.value !in kwargs || cls.dataKey.value in cls.fields
    ensures InputDictV1(cls, data, kwargs, order) ==
      Ok(OtherPart(cls.fields, kwargs)[cls.dataKey.value := Map(FieldPart(cls.fields, kwargs))])
  {
    var dk := cls.dataKey.value;
    var acc := map[dk := Map(map[])];
    DistributeSpreads(dk, cls.fields, kwargs, order, acc);
    var r := Distribute(dk, cls.fields, kwargs, order, acc).value;
    var expected := OtherPart(cls.fields, kwargs)[dk := Map(FieldPart(cls.fields, kwargs))];
    assert r[dk].fields.Keys == FieldPart(cls.fields, kwargs).Keys;
    assert r[dk].fields == FieldPart(cls.fields, kwargs);
    assert r.Keys == expected.Keys;
    forall x | x in r ensures r[x] == expected[x] {
      if x != dk {
        assert x in order && x !in cls.fields;
      }
    }
    assert r == expected;
  }
  /** Without a data key the body is the keywords as given; with one and no keywords, the model's own data. */
  lemma InputDictV1Plain(cls: ModelClass, data: map<string, Value>, kwargs: map<string, Value>, order: seq<string>)
    requires IsOrderOf(order, kwargs)
    ensures !KeyTruthy(cls.dataKey) ==> InputDictV1(cls, data, kwargs, order) == Ok(kwargs)
    ensures KeyTruthy(cls.dataKey) && |kwargs| == 0 ==> InputDictV1(cls, data, kwargs, order) == Ok(data)
  {
  }


  /**
   * `QueryableModelV2._generate_input_dict` with keywords: the data-class
   * record of the keywords, without falsy leaves, under the data key when
   * there is one.
   */
  function InputDictV2(cls: ModelClass, kwargs: map<string, Value>): (r: Result<map<string, Value>>)
    requires |kwargs| > 0
    ensures r.Ok? <==> kwargs.Keys <= cls.dataClassFields
  {
    match DataTypes.BuildRecord(cls.dataClassFields, kwargs)
    case Ok(record) => Ok(DataTypes.ToDict(record, cls.dataKey, true))
    case Err(e) => Err(e)
  }

  /** Every truthy keyword reaches the V2 body unchanged; the None defaults of the other fields do not. */
  lemma InputDictV2Payload(cls: ModelClass, kwargs: map<string, Value>)
    requires |kwargs| > 0 && kwargs.Keys <= cls.dataClassFields
    ensures var r := InputDictV2(cls, kwargs).value;
      var payload := if KeyTruthy(cls.dataKey) then r[cls.dataKey.value].fields else r;
      && (KeyTruthy(cls.dataKey) ==> r.Keys == {cls.dataKey.value} && r[cls.dataKey.value].Map?)
      && (forall k :: k in kwargs && !kwargs[k].Map? && Truthy(kwargs[k]) ==> k in payload && payload[k] == kwargs[k])
      && (forall k :: k in payload ==> k in kwargs)
  {
    var record := DataTypes.BuildRecord(cls.dataClassFields, kwargs).value;
    var items := DataTypes.ToDictFiltered(record, true);
  }
  /** `{primary_key: v}` as initial model data; a None key is never a declared field, so it is dropped. */
  function KeyData(cls: ModelClass, v: Value): (r: map<string, Value>)
    ensures cls.primaryKey.Some? ==> r == map[cls.primaryKey.value := v]
    ensures cls.primaryKey.None? ==> r == map[]
  {
    if cls.primaryKey.Some? then map[cls.primaryKey.value := v] else map[]
  }

  /** A freshly built model loaded from `response`: its state, or what the load raised. */
  function Settled(cls: ModelClass, st: ModelState, response: Value): (r: Result<ModelState>)
    ensures r.Ok? <==> Load(cls, st, response, false).error.None?
    ensures r.Ok? ==> r.value == Load(cls, st, response, false).state
    ensures r.Err? ==> r.error == Load(cls, st, response, false).error.value
  {
    var l := Load(cls, st, response, false);
    if l.error.None? then Ok(l.state) else Err(l.error.value)
  }

  /** A model of a collection answer that is a dictionary: built with an empty href and loaded from the entry. */
  function FromEntry(cls: ModelClass, v: Value): Result<ModelState>
  {
    Settled(cls, Initial(cls, Str(Urls.FixHref("")), map[]), v)
  }

  /**
   * A model of a collection answer that is a list: built with the item's
   * `href` (None when it has none) and loaded from the item; an item that
   * is not a dictionary has no `get`, an href that is not a string no
   * `replace`.
   */
  function FromListItem(cls: ModelClass, item: Value): Result<ModelState>
  {
    if !item.Map? then Err(AttributeError("get"))
    else
      var h := Get(item.fields, "href");
      if h.Null? then Settled(cls, Initial(cls, Null, map[]), item)
      else if h.Str? then Settled(cls, Initial(cls, Str(Urls.FixHref(h.s)), map[]), item)
      else Err(AttributeError("replace"))
  }

  /**
   * A model preloaded by calling a queryable collection with items: a
   * dictionary must carry a string `href` and is loaded as it is; anything
   * else is an identifier joined to the collection url, kept as the primary
   * key. The href is rewritten by the call and again by the constructor.
   */
  function FromCallItem(cls: ModelClass, item: Value, url: Result<string>): Result<ModelState>
  {
    match item
    case Map(fields) =>
      if "href" !in fields then Err(KeyError("href"))
      else if !fields["href"].Str? then Err(AttributeError("replace"))
      else Settled(cls, Initial(cls, Str(Urls.FixHref(Urls.FixHref(fields["href"].s))), map[]), item)
    case _ =>
      if url.Err? then Err(url.error)
      else if !item.Str? then Err(TypeError("sequence item 1: expected str instance"))
      else Ok(Initial(cls, Str(Urls.FixHref(Urls.FixHref(url.value + "/" + item.s))), KeyData(cls, item)))
  }

  /** One entry of a bulk request: `data_class(**item).to_dict(data_key, ignore_falsy=True)`. */
  function BulkEntry(cls: ModelClass, item: Value): (r: Result<Value>)
    ensures r.Ok? <==> item.Map? && item.fields.Keys <= cls.dataClassFields
    ensures r.Err? ==> r.error.TypeError?
  {
    if !item.Map? then Err(TypeError("argument after ** must be a mapping"))
    else
      match DataTypes.BuildRecord(cls.dataClassFields, item.fields)
      case Ok(record) => Ok(Map(DataTypes.ToDict(record, cls.dataKey, true)))
      case Err(e) => Err(e)
  }

  /**
   * A dictionary answered by the server in a list carries its own link:
   * the constructor's rewritten href is replaced by the raw one the load
   * pops out of the item.
   */
  lemma ListedModelKeepsRawHref(cls: ModelClass, item: map<string, Value>)
    requires cls.kind == Queryable && "href" in item && item["href"].Str?
    ensures !(KeyTruthy(cls.dataKey) && cls.dataKey.value in item) ==> FromListItem(cls, Map(item)).Ok?
    ensures FromListItem(cls, Map(item)).Ok? ==> FromListItem(cls, Map(item)).value.href == item["href"]
  {
  }

  /**
   * The same holds for a dictionary passed to a queryable collection's call:
   * the double `classifications/` rewrite never survives the load.
   */
  lemma CalledModelKeepsRawHref(cls: ModelClass, item: map<string, Value>, url: Result<string>)
    requires cls.kind == Queryable && "href" in item && item["href"].Str?
    ensures !(KeyTruthy(cls.dataKey) && cls.dataKey.value in item) ==> FromCallItem(cls, Map(item), url).Ok?
    ensures FromCallItem(cls, Map(item), url).Ok? ==> FromCallItem(cls, Map(item), url).value.href == item["href"]
  {
  }

  /**
   * A model called by identifier answers that identifier from its data,
   * without inflating, when the primary key is a declared field.
   */
  lemma CalledIdentifierIsKnown(cls: ModelClass, id: string, url: string)
    requires cls.primaryKey.Some? && cls.primaryKey.value in cls.fields
    ensures FromCallItem(cls, Str(id), Ok(url)).Ok?
    ensures KnownIdentifier(cls, FromCallItem(cls, Str(id), Ok(url)).value.data) == Some(Str(id))
  {
  }

  /**
   * How a call item can fail: a dictionary without `href` is a KeyError, one
   * whose href is not a string has no `replace`; an identifier needs the
   * collection url, and one that is not a string cannot be joined to it.
   */
  lemma FromCallItemFailures(cls: ModelClass, item: Value, url: Result<string>)
    ensures item.Map? && "href" !in item.fields ==> FromCallItem(cls, item, url) == Err(KeyError("href"))
    ensures item.Map? && "href" in item.fields && !item.fields["href"].Str? ==> FromCallItem(cls, item, url) == Err(AttributeError("replace"))
    ensures !item.Map? && url.Err? ==> FromCallItem(cls, item, url) == Err(url.error)
    ensures !item.Map? && url.Ok? && !item.Str? ==> FromCallItem(cls, item, url).Err? && FromCallItem(cls, item, url).error.TypeError?
    ensures !item.Map? && url.Ok? && item.Str? ==>
      FromCallItem(cls, item, url) == Ok(Initial(cls, Str(Urls.FixHref(Urls.FixHref(url.value + "/" + item.s))), KeyData(cls, item)))
  {
  }

  /**
   * A model of a dictionary answer whose entry has no `href` keeps the empty
   * href it was built with, so it can never derive a url of its own.
   */
  lemma EntryModelHasEmptyHref(cls: ModelClass, entry: map<string, Value>)
    requires cls.kind == Queryable && "href" !in entry
    ensures !(KeyTruthy(cls.dataKey) && cls.dataKey.value in entry) ==> FromEntry(cls, Map(entry)).Ok?
    ensures FromEntry(cls, Map(entry)).Ok? ==> FromEntry(cls, Map(entry)).value.href == Str("")
  {
    assert Urls.FixHref("") == "";
  }

  /**
   * A bulk entry is the record of the item, wrapped under the data key when
   * it is truthy, with no falsy leaf: every truthy non-dictionary value of
   * the item reaches it unchanged.
   */
  lemma BulkEntryPayload(cls: ModelClass, item: map<string, Value>)
    requires item.Keys <= cls.dataClassFields
    ensures var e := BulkEntry(cls, Map(item));
      && e.Ok? && e.value.Map?
      && var payload := if KeyTruthy(cls.dataKey) then e.value.fields[cls.dataKey.value].fields else e.value.fields;
      && (KeyTruthy(cls.dataKey) ==> e.value.fields.Keys == {cls.dataKey.value} && e.value.fields[cls.dataKey.value].Map?)
      && DataTypes.NoFalsyLeaves(payload)
      && (forall k :: k in item && !item[k].Map? && Truthy(item[k]) ==> k in payload && payload[k] == item[k])
  {
    var record := DataTypes.BuildRecord(cls.dataClassFields, item).value;
    DataTypes.ToDictFilteredPayload(record, cls.dataKey);
    DataTypes.FilteredKeepsTruthy(record);
  }
}
