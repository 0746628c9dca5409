/**
 * The study-material filter: its five fields, the query entries it stands
 * for, and what those entries hold.  The entries do not follow the order
 * in which the record declares its fields.
 */
module StudyMaterialFilters {
  import opened Wrappers
  import opened Text
  import opened Query
  import opened WaniKani
  import opened Client

  /** Filter parameters for study materials, in the order the record declares them. */
  datatype StudyMaterialFilter = StudyMaterialFilter(
    hidden: Option<bool>,
    ids: Option<seq<Id>>,
    subjectIds: Option<seq<Id>>,
    subjectTypes: Option<seq<SubjectType>>,
    updatedAfter: Option<Timestamp>)

  const DefaultStudyMaterialFilter: StudyMaterialFilter :=
    StudyMaterialFilter(None, None, None, None, None)

  /** The query keys, in the order `apply_filters` appends them. */
  const StudyMaterialFilterKeys: seq<string> := [
    "ids", "subject_ids", "subject_types", "hidden", "updated_after"]

  /** What each field contributes, position by position with the keys. */
  function StudyMaterialFilterValues(f: StudyMaterialFilter, rfc3339: Timestamp -> string): (vs: seq<Param>)
    ensures |vs| == |StudyMaterialFilterKeys|
  {
    [ IdListParam(f.ids),
      IdListParam(f.subjectIds),
      SubjectTypesParam(f.subjectTypes),
      TriStateParam(f.hidden),
      FormattedParam(f.updatedAfter, rfc3339) ]
  }

  /** The query entries a study-material filter appends. */
  function StudyMaterialQuery(f: StudyMaterialFilter, rfc3339: Timestamp -> string): seq<QueryPair>
  {
    EncodeParams(StudyMaterialFilterKeys, StudyMaterialFilterValues(f, rfc3339))
  }

  /** Appending the parameters one by one, in key order, gives the filter's query. */
  lemma StudyMaterialQueryInSteps(q: seq<QueryPair>, f: StudyMaterialFilter, rfc3339: Timestamp -> string)
    ensures EncodeUpTo(q, StudyMaterialFilterKeys, StudyMaterialFilterValues(f, rfc3339), 5) == q + StudyMaterialQuery(f, rfc3339)
  {
    EncodeUpToAll(q, StudyMaterialFilterKeys, StudyMaterialFilterValues(f, rfc3339));
  }

  /** No key is used by two fields. */
  lemma StudyMaterialKeysDistinct()
    ensures Distinct(StudyMaterialFilterKeys)
  {
  }

  /** The default filter adds nothing to the query. */
  lemma StudyMaterialFilterDefaultEmpty(rfc3339: Timestamp -> string)
    ensures StudyMaterialQuery(DefaultStudyMaterialFilter, rfc3339) == []
  {
    EncodeAllUnset(StudyMaterialFilterKeys, StudyMaterialFilterValues(DefaultStudyMaterialFilter, rfc3339));
  }

  /** Under each of the filter's keys, the query holds what that key's field contributes. */
  lemma StudyMaterialQueryPositions(f: StudyMaterialFilter, rfc3339: Timestamp -> string)
    ensures forall i :: 0 <= i < |StudyMaterialFilterKeys| ==>
      Lookup(StudyMaterialQuery(f, rfc3339), StudyMaterialFilterKeys[i]) == Emitted(StudyMaterialFilterValues(f, rfc3339)[i])
  {
    StudyMaterialKeysDistinct();
    forall i | 0 <= i < |StudyMaterialFilterKeys|
      ensures Lookup(StudyMaterialQuery(f, rfc3339), StudyMaterialFilterKeys[i]) == Emitted(StudyMaterialFilterValues(f, rfc3339)[i])
    {
      EncodeLookup(StudyMaterialFilterKeys, StudyMaterialFilterValues(f, rfc3339), i);
    }
  }

  /** Ids and subject ids in decimal and subject types by display name, each joined by commas into one entry. */
  lemma StudyMaterialQueryLists(f: StudyMaterialFilter, rfc3339: Timestamp -> string)
    ensures var q := StudyMaterialQuery(f, rfc3339);
      && Lookup(q, "ids") == (if f.ids.Some? then Some(Some(DecimalList(f.ids.value))) else None)
      && Lookup(q, "subject_ids") == (if f.subjectIds.Some? then Some(Some(DecimalList(f.subjectIds.value))) else None)
      && Lookup(q, "subject_types") == (if f.subjectTypes.Some? then Some(Some(SubjectTypeList(f.subjectTypes.value))) else None)
  {
    StudyMaterialQueryPositions(f, rfc3339);
    var keys := StudyMaterialFilterKeys;
    assert keys[0] == "ids" && keys[1] == "subject_ids" && keys[2] == "subject_types";
  }

  /** `hidden` is "true" or "false" when set, `updated_after` the RFC 3339 text when set; each absent otherwise. */
  lemma StudyMaterialQueryScalars(f: StudyMaterialFilter, rfc3339: Timestamp -> string)
    ensures var q := StudyMaterialQuery(f, rfc3339);
      && Lookup(q, "hidden") == (if f.hidden.Some? then Some(Some(BoolToString(f.hidden.value))) else None)
      && Lookup(q, "updated_after") == (if f.updatedAfter.Some? then Some(Some(rfc3339(f.updatedAfter.value))) else None)
  {
    StudyMaterialQueryPositions(f, rfc3339);
    var keys := StudyMaterialFilterKeys;
    assert keys[3] == "hidden" && keys[4] == "updated_after";
  }

  /**
   * Keys come in the order ids, subject_ids, subject_types, hidden,
   * updated_after (not the declaration order), none twice and none other;
   * one entry per field that is Some.
   */
  lemma StudyMaterialQueryShape(f: StudyMaterialFilter, rfc3339: Timestamp -> string)
    ensures var q := StudyMaterialQuery(f, rfc3339);
      && IsSubsequence(Keys(q), StudyMaterialFilterKeys)
      && Distinct(Keys(q))
      && (forall k :: k !in StudyMaterialFilterKeys ==> Lookup(q, k) == None)
      && |q| == (if f.ids.Some? then 1 else 0)
              + (if f.subjectIds.Some? then 1 else 0)
              + (if f.subjectTypes.Some? then 1 else 0)
              + (if f.hidden.Some? then 1 else 0)
              + (if f.updatedAfter.Some? then 1 else 0)
  {
    var keys, vals := StudyMaterialFilterKeys, StudyMaterialFilterValues(f, rfc3339);
    StudyMaterialKeysDistinct();
    EncodeKeysInOrder(keys, vals);
    EncodeDistinctKeys(keys, vals);
    EncodeLength(keys, vals);
    assert vals == vals[0..];
    CountFrom(vals, 0);
    CountFrom(vals, 1);
    CountFrom(vals, 2);
    CountFrom(vals, 3);
    CountFrom(vals, 4);
    assert vals[5..] == [];
    forall k | k !in keys ensures Lookup(EncodeParams(keys, vals), k) == None {
      EncodeLookupAbsent(keys, vals, k);
    }
  }
}

/**
 * The study-materials endpoints: `apply_filters` on a URL, and the paths
 * used to list, fetch, create and update study materials.
 */
module StudyMaterial {
  import opened Wrappers
  import opened Text
  import opened Query
  import opened WaniKani
  import opened Client
  import opened StudyMaterialFilters

  const StudyMaterialPath: string := "study_materials"

  /**
   * `StudyMaterialFilter::apply_filters`: appends, field by field in key
   * order, what each field contributes to the URL's query.
   */
  method ApplyStudyMaterialFilter(f: StudyMaterialFilter, rfc3339: Timestamp -> string, url: Url)
    modifies url
    ensures url.query == old(url.query) + StudyMaterialQuery(f, rfc3339)
    ensures url.path == old(url.path)
  {
    var query := url.query;
    ghost var q0 := query;
    var keys, vals := StudyMaterialFilterKeys, StudyMaterialFilterValues(f, rfc3339);
    assert EncodeUpTo(q0, keys, vals, 0) == q0;
    query := AppendParam(query, keys, vals, 0, q0);  // ids
    query := AppendParam(query, keys, vals, 1, q0);  // subject_ids
    query := AppendParam(query, keys, vals, 2, q0);  // subject_types
    query := AppendParam(query, keys, vals, 3, q0);  // hidden
    query := AppendParam(query, keys, vals, 4, q0);  // updated_after
    StudyMaterialQueryInSteps(q0, f, rfc3339);
    url.SetQuery(query);
  }

  /** `get_study_materials`, before sending: `/v2/study_materials` with the filter's query. */
  method StudyMaterialsUrl(client: WKClient, f: StudyMaterialFilter, rfc3339: Timestamp -> string) returns (url: Url)
    requires client.Valid()
    ensures fresh(url)
    ensures url.path == BasePath + [StudyMaterialPath] && url.query == StudyMaterialQuery(f, rfc3339)
  {
    url := client.baseUrl.Clone();
    url.Push(StudyMaterialPath);
    ApplyStudyMaterialFilter(f, rfc3339, url);
    assert [] + StudyMaterialQuery(f, rfc3339) == StudyMaterialQuery(f, rfc3339);
  }

  /** `create_study_material`, before sending: `/v2/study_materials` with no query. */
  method CreateStudyMaterialUrl(client: WKClient) returns (url: Url)
    requires client.Valid()
    ensures fresh(url)
    ensures url.path == BasePath + [StudyMaterialPath] && url.query == []
  {
    url := client.baseUrl.Clone();
    url.Push(StudyMaterialPath);
  }

  /** `update_study_material` and `get_specific_study_material`, before sending: `/v2/study_materials/{id}`. */
  method StudyMaterialUrl(client: WKClient, id: Id) returns (url: Url)
    requires client.Valid()
    ensures fresh(url)
    ensures url.path == BasePath + [StudyMaterialPath, NatToString(id)] && url.query == []
    ensures DigitsValue(url.path[2]) == id
  {
    url := client.baseUrl.Clone();
    url.Push(StudyMaterialPath);
    url.Push(NatToString(id));
    NatToStringValue(id);
  }
}
