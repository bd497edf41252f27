/**
 * The schema records' dictionary conversion: the recursive copy that can
 * drop falsy leaves, its optional wrapping under a data key, building a
 * record from keyword arguments, and the relation status predicate.
 */
module DataTypes {
  import opened Json

  const ACTIVE := "ACTIVE"
  const DELETED := "DELETED"

  /** Whether the copy keeps the entry: nested maps always, leaves unless filtered out as falsy. */
  predicate Kept(v: Value, ignoreFalsy: bool)
  {
    v.Map? || !ignoreFalsy || Truthy(v)
  }

  /**
   * `_to_dict`: copies a dictionary, recursing into nested dictionaries and,
   * when `ignoreFalsy` holds, leaving out every falsy non-dictionary value.
   */
  function ToDictFiltered(m: map<string, Value>, ignoreFalsy: bool): (r: map<string, Value>)
    ensures r.Keys == set k | k in m && Kept(m[k], ignoreFalsy)
    ensures forall k :: k in r ==> (r[k].Map? <==> m[k].Map?)
    ensures forall k :: k in r && !m[k].Map? ==> r[k] == m[k]
    decreases Map(m)
  {
    map k | k in m && Kept(m[k], ignoreFalsy) ::
      if m[k].Map? then Map(ToDictFiltered(m[k].fields, ignoreFalsy)) else m[k]
  }

  /** `to_dict`: the (optionally filtered) copy, wrapped as `{dataKey: copy}` when the key is truthy. */
  function ToDict(fields: map<string, Value>, dataKey: Option<string>, ignoreFalsy: bool): map<string, Value>
  {
    var items := ToDictFiltered(fields, ignoreFalsy);
    if KeyTruthy(dataKey) then map[dataKey.value := Map(items)] else items
  }

  /** No non-dictionary value at any depth is falsy. */
  ghost predicate NoFalsyLeaves(m: map<string, Value>)
    decreases Map(m)
  {
    forall k :: k in m ==> if m[k].Map? then NoFalsyLeaves(m[k].fields) else Truthy(m[k])
  }

  /** Every key of `r`, at every depth, is a key of `m` at the same place. */
  ghost predicate NoInventedKeys(r: map<string, Value>, m: map<string, Value>)
    decreases Map(r)
  {
    forall k :: k in r ==>
      k in m && (r[k].Map? ==> m[k].Map? && NoInventedKeys(r[k].fields, m[k].fields))
  }

  /**
   * Every truthy leaf of `m` is in `r` unchanged, and every nested dictionary
   * of `m` is in `r` (as a dictionary), recursively.
   */
  ghost predicate KeepsTruthy(m: map<string, Value>, r: map<string, Value>)
    decreases Map(m)
  {
    forall k :: k in m ==>
      && (m[k].Map? ==> k in r && r[k].Map? && KeepsTruthy(m[k].fields, r[k].fields))
      && (!m[k].Map? && Truthy(m[k]) ==> k in r && r[k] == m[k])
  }

  /** Without filtering, the copy has exactly the input's keys and equal values at every depth. */
  lemma {:induction false} UnfilteredIsIdentity(m: map<string, Value>)
    ensures ToDictFiltered(m, false) == m
    decreases Map(m)
  {
    var r := ToDictFiltered(m, false);
    forall k | k in m && m[k].Map?
      ensures r[k] == m[k]
    {
      UnfilteredIsIdentity(m[k].fields);
    }
    assert r.Keys == m.Keys;
  }

  /** With filtering, no falsy leaf survives at any depth. */
  lemma {:induction false} FilteredHasNoFalsyLeaves(m: map<string, Value>)
    ensures NoFalsyLeaves(ToDictFiltered(m, true))
    decreases Map(m)
  {
    var r := ToDictFiltered(m, true);
    forall k | k in r && r[k].Map?
      ensures NoFalsyLeaves(r[k].fields)
    {
      FilteredHasNoFalsyLeaves(m[k].fields);
    }
  }

  /** The copy never invents a key, at any depth, whether or not it filters. */
  lemma {:induction false} FilteredInventsNoKeys(m: map<string, Value>, ignoreFalsy: bool)
    ensures NoInventedKeys(ToDictFiltered(m, ignoreFalsy), m)
    decreases Map(m)
  {
    var r := ToDictFiltered(m, ignoreFalsy);
    forall k | k in r && r[k].Map?
      ensures NoInventedKeys(r[k].fields, m[k].fields)
    {
      FilteredInventsNoKeys(m[k].fields, ignoreFalsy);
    }
  }

  /** Filtering keeps every truthy leaf and every nested dictionary, even one that ends up empty. */
  lemma {:induction false} FilteredKeepsTruthy(m: map<string, Value>)
    ensures KeepsTruthy(m, ToDictFiltered(m, true))
    decreases Map(m)
  {
    var r := ToDictFiltered(m, true);
    forall k | k in m && m[k].Map?
      ensures KeepsTruthy(m[k].fields, r[k].fields)
    {
      FilteredKeepsTruthy(m[k].fields);
    }
  }

  /** Filtering twice is filtering once. */
  lemma {:induction false} FilterIdempotent(m: map<string, Value>)
    ensures ToDictFiltered(ToDictFiltered(m, true), true) == ToDictFiltered(m, true)
    decreases Map(m)
  {
    var once := ToDictFiltered(m, true);
    var twice := ToDictFiltered(once, true);
    forall k | k in once && once[k].Map?
      ensures twice[k] == once[k]
    {
      FilterIdempotent(m[k].fields);
    }
    assert twice.Keys == once.Keys;
  }

  /** Without filtering, `to_dict` is the record's fields themselves, wrapped under a truthy data key. */
  lemma ToDictUnfiltered(fields: map<string, Value>, dataKey: Option<string>)
    ensures KeyTruthy(dataKey) ==> ToDict(fields, dataKey, false) == map[dataKey.value := Map(fields)]
    ensures !KeyTruthy(dataKey) ==> ToDict(fields, dataKey, false) == fields
  {
    UnfilteredIsIdentity(fields);
  }

  /** With filtering, the payload of `to_dict` (under the data key or bare) has no falsy leaf. */
  lemma ToDictFilteredPayload(fields: map<string, Value>, dataKey: Option<string>)
    ensures KeyTruthy(dataKey) ==>
      var r := ToDict(fields, dataKey, true);
      r.Keys == {dataKey.value} && r[dataKey.value].Map? && NoFalsyLeaves(r[dataKey.value].fields)
    ensures !KeyTruthy(dataKey) ==> NoFalsyLeaves(ToDict(fields, dataKey, true))
  {
    FilteredHasNoFalsyLeaves(fields);
  }

  /**
   * `data_class(**kwargs)`: a record with every declared field, unset ones
   * defaulting to None; an undeclared keyword is a TypeError.
   */
  function BuildRecord(declared: set<string>, kwargs: map<string, Value>): Result<map<string, Value>>
  {
    if kwargs.Keys <= declared then Ok(map f | f in declared :: Get(kwargs, f))
    else Err(TypeError("unexpected keyword argument"))
  }

  /** The record holds every declared field: the keyword's value where one was given, None elsewhere. */
  lemma BuildRecordFields(declared: set<string>, kwargs: map<string, Value>)
    ensures var r := BuildRecord(declared, kwargs);
      && (r.Ok? <==> kwargs.Keys <= declared)
      && (r.Ok? ==> r.value.Keys == declared)
      && (r.Ok? ==> forall f :: f in kwargs ==> r.value[f] == kwargs[f])
      && (r.Ok? ==> forall f :: f in declared && f !in kwargs ==> r.value[f] == Null)
  {
  }

  /** `is_active_relation`: both the entity and the relationship are ACTIVE. */
  predicate IsActiveRelation(record: map<string, Value>)
    ensures IsActiveRelation(record) ==> "entityStatus" in record && "relationshipStatus" in record
    ensures IsActiveRelation(record) ==> record["entityStatus"] == record["relationshipStatus"] == Str(ACTIVE)
  {
    Get(record, "entityStatus") == Str(ACTIVE) && Get(record, "relationshipStatus") == Str(ACTIVE)
  }

  /** A deleted entity or a deleted relationship is never an active relation. */
  lemma DeletedIsInactive(record: map<string, Value>)
    requires Get(record, "entityStatus") == Str(DELETED) || Get(record, "relationshipStatus") == Str(DELETED)
    ensures !IsActiveRelation(record)
  {
  }
}
