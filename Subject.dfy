/**
 * The subject filter: its six fields, the query entries it stands for, and
 * what those entries hold.  Subject types go under the key `types` here.
 */
module SubjectFilters {
  import opened Wrappers
  import opened Text
  import opened Query
  import opened WaniKani
  import opened Client

  /** Filter parameters for subjects, in the order the record declares them. */
  datatype SubjectFilter = SubjectFilter(
    ids: Option<seq<Id>>,
    types: Option<seq<SubjectType>>,
    slugs: Option<seq<string>>,
    levels: Option<seq<U32>>,
    hidden: Option<bool>,
    updatedAfter: Option<Timestamp>)

  const DefaultSubjectFilter: SubjectFilter :=
    SubjectFilter(None, None, None, None, None, None)

  /** The query keys, in the order `apply_filters` appends them. */
  const SubjectFilterKeys: seq<string> := [
    "ids", "types", "slugs", "levels", "hidden", "updated_after"]

  /** What each field contributes, position by position with the keys. */
  function SubjectFilterValues(f: SubjectFilter, rfc3339: Timestamp -> string): (vs: seq<Param>)
    ensures |vs| == |SubjectFilterKeys|
  {
    [ IdListParam(f.ids),
      SubjectTypesParam(f.types),
      StringListParam(f.slugs),
      U32ListParam(f.levels),
      TriStateParam(f.hidden),
      FormattedParam(f.updatedAfter, rfc3339) ]
  }

  /** The query entries a subject filter appends. */
  function SubjectQuery(f: SubjectFilter, rfc3339: Timestamp -> string): seq<QueryPair>
  {
    EncodeParams(SubjectFilterKeys, SubjectFilterValues(f, rfc3339))
  }

  /** Appending the parameters one by one, in key order, gives the filter's query. */
  lemma SubjectQueryInSteps(q: seq<QueryPair>, f: SubjectFilter, rfc3339: Timestamp -> string)
    ensures EncodeUpTo(q, SubjectFilterKeys, SubjectFilterValues(f, rfc3339), 6) == q + SubjectQuery(f, rfc3339)
  {
    EncodeUpToAll(q, SubjectFilterKeys, SubjectFilterValues(f, rfc3339));
  }

  /** No key is used by two fields. */
  lemma SubjectKeysDistinct()
    ensures Distinct(SubjectFilterKeys)
  {
  }

  /** The default filter adds nothing to the query. */
  lemma SubjectFilterDefaultEmpty(rfc3339: Timestamp -> string)
    ensures SubjectQuery(DefaultSubjectFilter, rfc3339) == []
  {
    EncodeAllUnset(SubjectFilterKeys, SubjectFilterValues(DefaultSubjectFilter, rfc3339));
  }

  /** Under each of the filter's keys, the query holds what that key's field contributes. */
  lemma SubjectQueryPositions(f: SubjectFilter, rfc3339: Timestamp -> string)
    ensures forall i :: 0 <= i < |SubjectFilterKeys| ==>
      Lookup(SubjectQuery(f, rfc3339), SubjectFilterKeys[i]) == Emitted(SubjectFilterValues(f, rfc3339)[i])
  {
    SubjectKeysDistinct();
    forall i | 0 <= i < |SubjectFilterKeys|
      ensures Lookup(SubjectQuery(f, rfc3339), SubjectFilterKeys[i]) == Emitted(SubjectFilterValues(f, rfc3339)[i])
    {
      EncodeLookup(SubjectFilterKeys, SubjectFilterValues(f, rfc3339), i);
    }
  }

  /** Ids and levels in decimal, types by display name under `types`, and slugs as they are, each joined by commas into one entry. */
  lemma SubjectQueryLists(f: SubjectFilter, rfc3339: Timestamp -> string)
    ensures var q := SubjectQuery(f, rfc3339);
      && Lookup(q, "ids") == (if f.ids.Some? then Some(Some(DecimalList(f.ids.value))) else None)
      && Lookup(q, "types") == (if f.types.Some? then Some(Some(SubjectTypeList(f.types.value))) else None)
      && Lookup(q, "slugs") == (if f.slugs.Some? then Some(Some(Join(f.slugs.value, ','))) else None)
      && Lookup(q, "levels") == (if f.levels.Some? then Some(Some(DecimalList(f.levels.value))) else None)
  {
    SubjectQueryPositions(f, rfc3339);
    var keys := SubjectFilterKeys;
    assert keys[0] == "ids" && keys[1] == "types" && keys[2] == "slugs" && keys[3] == "levels";
  }

  /** `hidden` is "true" or "false" when set, `updated_after` the RFC 3339 text when set; each absent otherwise. */
  lemma SubjectQueryScalars(f: SubjectFilter, rfc3339: Timestamp -> string)
    ensures var q := SubjectQuery(f, rfc3339);
      && Lookup(q, "hidden") == (if f.hidden.Some? then Some(Some(BoolToString(f.hidden.value))) else None)
      && Lookup(q, "updated_after") == (if f.updatedAfter.Some? then Some(Some(rfc3339(f.updatedAfter.value))) else None)
  {
    SubjectQueryPositions(f, rfc3339);
    var keys := SubjectFilterKeys;
    assert keys[4] == "hidden" && keys[5] == "updated_after";
  }

  /**
   * Keys come in the order ids, types, slugs, levels, hidden, updated_after,
   * none twice and none other; one entry per field that is Some.
   */
  lemma SubjectQueryShape(f: SubjectFilter, rfc3339: Timestamp -> string)
    ensures var q := SubjectQuery(f, rfc3339);
      && IsSubsequence(Keys(q), SubjectFilterKeys)
      && Distinct(Keys(q))
      && (forall k :: k !in SubjectFilterKeys ==> Lookup(q, k) == None)
      && |q| == (if f.ids.Some? then 1 else 0)
              + (if f.types.Some? then 1 else 0)
              + (if f.slugs.Some? then 1 else 0)
              + (if f.levels.Some? then 1 else 0)
              + (if f.hidden.Some? then 1 else 0)
              + (if f.updatedAfter.Some? then 1 else 0)
  {
    var keys, vals := SubjectFilterKeys, SubjectFilterValues(f, rfc3339);
    SubjectKeysDistinct();
    EncodeKeysInOrder(keys, vals);
    EncodeDistinctKeys(keys, vals);
    EncodeLength(keys, vals);
    assert vals == vals[0..];
    CountFrom(vals, 0);
    CountFrom(vals, 1);
    CountFrom(vals, 2);
    CountFrom(vals, 3);
    CountFrom(vals, 4);
    CountFrom(vals, 5);
    assert vals[6..] == [];
    forall k | k !in keys ensures Lookup(EncodeParams(keys, vals), k) == None {
      EncodeLookupAbsent(keys, vals, k);
    }
  }

  /**
   * Slugs are joined verbatim, so the server can split them back only when
   * none of them contains a comma: then the `slugs` entry splits into
   * exactly the filter's slugs.
   */
  lemma SubjectQuerySlugsRoundTrip(f: SubjectFilter, rfc3339: Timestamp -> string)
    requires f.slugs.Some? && |f.slugs.value| > 0
    requires forall i :: 0 <= i < |f.slugs.value| ==> ',' !in f.slugs.value[i]
    ensures var v := Lookup(SubjectQuery(f, rfc3339), "slugs");
      v.Some? && v.value.Some? && Split(v.value.value, ',') == f.slugs.value
  {
    SubjectQueryLists(f, rfc3339);
    SplitJoin(f.slugs.value, ',');
  }
}

/**
 * The subjects endpoints: `apply_filters` on a URL, and the paths of the
 * collection and of a specific subject.
 */
module Subject {
  import opened Wrappers
  import opened Text
  import opened Query
  import opened WaniKani
  import opened Client
  import opened SubjectFilters

  const SubjectPath: string := "subjects"

  /**
   * `SubjectFilter::apply_filters`: appends, field by field in key
   * order, what each field contributes to the URL's query.
   */
  method ApplySubjectFilter(f: SubjectFilter, rfc3339: Timestamp -> string, url: Url)
    modifies url
    ensures url.query == old(url.query) + SubjectQuery(f, rfc3339)
    ensures url.path == old(url.path)
  {
    var query := url.query;
    ghost var q0 := query;
    var keys, vals := SubjectFilterKeys, SubjectFilterValues(f, rfc3339);
    assert EncodeUpTo(q0, keys, vals, 0) == q0;
    query := AppendParam(query, keys, vals, 0, q0);  // ids
    query := AppendParam(query, keys, vals, 1, q0);  // types
    query := AppendParam(query, keys, vals, 2, q0);  // slugs
    query := AppendParam(query, keys, vals, 3, q0);  // levels
    query := AppendParam(query, keys, vals, 4, q0);  // hidden
    query := AppendParam(query, keys, vals, 5, q0);  // updated_after
    SubjectQueryInSteps(q0, f, rfc3339);
    url.SetQuery(query);
  }

  /** `get_subjects`, before sending: `/v2/subjects` with the filter's query. */
  method SubjectsUrl(client: WKClient, f: SubjectFilter, rfc3339: Timestamp -> string) returns (url: Url)
    requires client.Valid()
    ensures fresh(url)
    ensures url.path == BasePath + [SubjectPath] && url.query == SubjectQuery(f, rfc3339)
  {
    url := client.baseUrl.Clone();
    url.Push(SubjectPath);
    ApplySubjectFilter(f, rfc3339, url);
    assert [] + SubjectQuery(f, rfc3339) == SubjectQuery(f, rfc3339);
  }

  /** `get_specific_subject`, before sending: `/v2/subjects/{id}` with no query. */
  method SpecificSubjectUrl(client: WKClient, id: Id) returns (url: Url)
    requires client.Valid()
    ensures fresh(url)
    ensures url.path == BasePath + [SubjectPath, NatToString(id)] && url.query == []
    ensures DigitsValue(url.path[2]) == id
  {
    url := client.baseUrl.Clone();
    url.Push(SubjectPath);
    url.Push(NatToString(id));
    NatToStringValue(id);
  }
}
