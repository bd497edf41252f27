/**
 * The query filter of a queryable collection: how keyword arguments become
 * filter entries when the collection is called, and how entries that look
 * like lists are evaluated again before the collection is fetched.
 */
module Filters {
  import opened Json

  /** What `ast.literal_eval` does with a string: a value, a SyntaxError, or a malformed-node ValueError. */
  datatype Eval = Parsed(v: Value) | SyntaxError | Malformed

  /** The two foreign codecs the collection relies on, as opaque functions: `json.dumps` and `ast.literal_eval`. */
  datatype Codec = Codec(dumps: Value -> string, literalEval: string -> Eval)

  /** The filter key of keyword `key`: `'/'.join([prefix, key])` when a prefix is used, the keyword itself otherwise. */
  function FilterKey(key: string, prefix: Option<string>): string
  {
    if prefix.Some? then prefix.value + "/" + key else key
  }

  lemma FilterKeyInjective(prefix: Option<string>, a: string, b: string)
    requires FilterKey(a, prefix) == FilterKey(b, prefix)
    ensures a == b
  {
    if prefix.Some? {
      var n := |prefix.value + "/"|;
      assert a == FilterKey(a, prefix)[n..];
      assert b == FilterKey(b, prefix)[n..];
    }
  }

  lemma FilterKeysInjective(prefix: Option<string>)
    ensures forall a, b :: FilterKey(a, prefix) == FilterKey(b, prefix) ==> a == b
  {
    forall a, b | FilterKey(a, prefix) == FilterKey(b, prefix)
      ensures a == b
    {
      FilterKeyInjective(prefix, a, b);
    }
  }

  /** A filter value: strings are kept as they are, everything else is JSON-encoded. */
  function EncodeFilterValue(v: Value, dumps: Value -> string): (r: Value)
    ensures r.Str?
    ensures v.Str? ==> r == v
    ensures !v.Str? ==> r == Str(dumps(v))
  {
    if v.Str? then v else Str(dumps(v))
  }

  /**
   * The filter built from keyword arguments: one entry per keyword, keyed by
   * `data_key + '/' + keyword` exactly when the class uses a key prefix. A
   * prefix of None cannot be joined, so a prefixed class without a data key
   * fails with a TypeError on the first keyword.
   */
  function FilterOf(kwargs: map<string, Value>, useKeyPrefix: bool, dataKey: Option<string>, dumps: Value -> string): (r: Result<map<string, Value>>)
    ensures r.Err? <==> useKeyPrefix && dataKey.None? && |kwargs| > 0
    ensures r.Err? ==> r.error.TypeError?
    ensures r.Ok? ==> |r.value| == |kwargs|
    ensures r.Ok? ==> forall k :: k in kwargs ==>
      var key := FilterKey(k, if useKeyPrefix then dataKey else None);
      key in r.value && r.value[key] == EncodeFilterValue(kwargs[k], dumps)
    ensures r.Ok? ==> forall key :: key in r.value ==>
      exists k :: k in kwargs && key == FilterKey(k, if useKeyPrefix then dataKey else None)
  {
    if useKeyPrefix && dataKey.None? && |kwargs| > 0 then
      Err(TypeError("sequence item 0: expected str instance, NoneType found"))
    else
      var prefix := if useKeyPrefix then dataKey else None;
      FilterKeysInjective(prefix);
      var r := map k | k in kwargs :: FilterKey(k, prefix) := EncodeFilterValue(kwargs[k], dumps);
      assert |r| == |kwargs| by {
        KeysImageSize(kwargs.Keys, prefix);
        assert r.Keys == set k | k in kwargs :: FilterKey(k, prefix);
      }
      Ok(r)
  }

  /** The image of a key set under an injective `FilterKey` has the key set's size. */
  lemma {:induction false} KeysImageSize(keys: set<string>, prefix: Option<string>)
    ensures |set k | k in keys :: FilterKey(k, prefix)| == |keys|
    decreases |keys|
  {
    if keys != {} {
      var k :| k in keys;
      var rest := keys - {k};
      KeysImageSize(rest, prefix);
      var image := set x | x in keys :: FilterKey(x, prefix);
      var restImage := set x | x in rest :: FilterKey(x, prefix);
      assert image == restImage + {FilterKey(k, prefix)};
      if FilterKey(k, prefix) in restImage {
        var x :| x in rest && FilterKey(x, prefix) == FilterKey(k, prefix);
        FilterKeyInjective(prefix, x, k);
      }
    }
  }

  /** `'[' in v` and what follows it for one entry of the filter. */
  function EvalFilterValue(v: Value, literalEval: string -> Eval): Result<Value>
  {
    match v
    case Str(s) =>
      if '[' in s then
        match literalEval(s)
        case Parsed(x) => Ok(x)
        case SyntaxError => Ok(v)
        case Malformed => Err(ValueError("malformed node or string"))
      else Ok(v)
    case List(items) =>
      if Str("[") in items then Err(ValueError("malformed node or string")) else Ok(v)
    case Map(fields) =>
      if "[" in fields then Err(ValueError("malformed node or string")) else Ok(v)
    case _ => Err(TypeError("argument is not iterable"))
  }

  /** What evaluating one filter entry does, case by case. */
  lemma EvalFilterValueCases(v: Value, literalEval: string -> Eval)
    // a string without a bracket, or a list or dict without a "[" member, is kept
    ensures v.Str? && '[' !in v.s ==> EvalFilterValue(v, literalEval) == Ok(v)
    ensures v.List? && Str("[") !in v.items ==> EvalFilterValue(v, literalEval) == Ok(v)
    ensures v.Map? && "[" !in v.fields ==> EvalFilterValue(v, literalEval) == Ok(v)
    // a string with a bracket is evaluated; a SyntaxError keeps it, a malformed literal is raised
    ensures v.Str? && '[' in v.s ==>
      match literalEval(v.s)
      case Parsed(x) => EvalFilterValue(v, literalEval) == Ok(x)
      case SyntaxError => EvalFilterValue(v, literalEval) == Ok(v)
      case Malformed => EvalFilterValue(v, literalEval).Err? && EvalFilterValue(v, literalEval).error.ValueError?
    // a list or dict holding "[" is not a string, so evaluating it is a ValueError
    ensures (v.List? && Str("[") in v.items) || (v.Map? && "[" in v.fields) ==> EvalFilterValue(v, literalEval).Err? && EvalFilterValue(v, literalEval).error.ValueError?
    // membership on a scalar is a TypeError
    ensures v.Null? || v.Bool? || v.Int? ==> EvalFilterValue(v, literalEval).Err? && EvalFilterValue(v, literalEval).error.TypeError?
  {
  }

  /** Every entry of the filter evaluates without raising. */
  predicate EvaluatesCleanly(filter: map<string, Value>, literalEval: string -> Eval)
  {
    forall k :: k in filter ==> EvalFilterValue(filter[k], literalEval).Ok?
  }

  /** The filter once every entry has been evaluated. */
  function Evaluated(filter: map<string, Value>, literalEval: string -> Eval): (r: map<string, Value>)
    requires EvaluatesCleanly(filter, literalEval)
    ensures r.Keys == filter.Keys
  {
    map k | k in filter :: EvalFilterValue(filter[k], literalEval).value
  }

  /**
   * The loop of `inflate` over the filter: the entries are evaluated one at
   * a time, in some order, and the first error is raised. The filter handed
   * back keeps the entries already evaluated, so on an error it is partly
   * evaluated; on success it is `Evaluated`.
   */
  method EvaluateEach(filter: map<string, Value>, literalEval: string -> Eval) returns (f: map<string, Value>, r: Outcome)
    ensures r.Pass? <==> EvaluatesCleanly(filter, literalEval)
    ensures r.Pass? ==> f == Evaluated(filter, literalEval)
    ensures r.Fail? ==> r.error in set k | k in filter && EvalFilterValue(filter[k], literalEval).Err? :: EvalFilterValue(filter[k], literalEval).error
    ensures f.Keys == filter.Keys
    ensures forall k :: k in f ==> f[k] == filter[k] || EvalFilterValue(filter[k], literalEval) == Ok(f[k])
  {
    f := filter;
    var left := f.Keys;
    while left != {}
      invariant left <= filter.Keys && f.Keys == filter.Keys
      invariant forall k :: k in filter && k !in left ==> EvalFilterValue(filter[k], literalEval) == Ok(f[k])
      invariant forall k :: k in left ==> f[k] == filter[k]
      decreases |left|
    {
      var k :| k in left;
      var e := EvalFilterValue(f[k], literalEval);
      if e.Err? {
        assert k in filter && f[k] == filter[k];
        return f, Fail(e.error);
      }
      f := f[k := e.value];
      left := left - {k};
    }
    r := Pass;
  }

  /** A filter built by a call whose string values hold no bracket comes through evaluation unchanged. */
  lemma PlainFilterIsStable(filter: map<string, Value>, literalEval: string -> Eval)
    requires forall k :: k in filter ==> filter[k].Str? && '[' !in filter[k].s
    ensures EvaluatesCleanly(filter, literalEval)
    ensures Evaluated(filter, literalEval) == filter
  {
  }

  /**
   * Evaluating twice is evaluating once when the evaluator only keeps or
   * parses into values with no bracket left to evaluate.
   */
  lemma EvaluationSettles(filter: map<string, Value>, literalEval: string -> Eval)
    requires EvaluatesCleanly(filter, literalEval)
    requires forall k :: k in filter ==>
      var x := Evaluated(filter, literalEval)[k];
      (x.Str? && '[' !in x.s) || (x.List? && Str("[") !in x.items) || (x.Map? && "[" !in x.fields)
    ensures EvaluatesCleanly(Evaluated(filter, literalEval), literalEval)
    ensures Evaluated(Evaluated(filter, literalEval), literalEval) == Evaluated(filter, literalEval)
  {
  }
}
