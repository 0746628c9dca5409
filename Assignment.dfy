/**
 * The assignment filter: its 15 fields, the query entries it stands for,
 * and what those entries hold.
 */
module AssignmentFilters {
  import opened Wrappers
  import opened Text
  import opened Query
  import opened WaniKani
  import opened Client

  /** Filter parameters for assignments, in the order the record declares them. */
  datatype AssignmentFilter = AssignmentFilter(
    availableAfter: Option<Timestamp>,
    availableBefore: Option<Timestamp>,
    burned: Option<bool>,
    hidden: Option<bool>,
    ids: Option<seq<Id>>,
    immediatelyAvailableForLessons: bool,
    immediatelyAvailableForReview: bool,
    inReview: bool,
    levels: Option<seq<U32>>,
    srsStages: Option<seq<U32>>,
    started: Option<bool>,
    subjectIds: Option<seq<Id>>,
    subjectTypes: Option<seq<SubjectType>>,
    unlocked: Option<bool>,
    updatedAfter: Option<Timestamp>)

  const DefaultAssignmentFilter: AssignmentFilter :=
    AssignmentFilter(None, None, None, None, None, false, false, false, None, None, None, None, None, None, None)

  /** The query keys, in the order `apply_filters` appends them. */
  const AssignmentFilterKeys: seq<string> := [
    "available_after", "available_before", "burned", "hidden", "ids",
    "immediately_available_for_lessons", "immediately_available_for_review", "in_review", "levels",
    "srs_stages", "started", "subject_ids", "subject_types", "unlocked", "updated_after"]

  /** What each field contributes, position by position with the keys. */
  function AssignmentFilterValues(f: AssignmentFilter, rfc3339: Timestamp -> string): (vs: seq<Param>)
    ensures |vs| == |AssignmentFilterKeys|
  {
    [ FormattedParam(f.availableAfter, rfc3339),
      FormattedParam(f.availableBefore, rfc3339),
      TriStateParam(f.burned),
      TriStateParam(f.hidden),
      IdListParam(f.ids),
      FlagParam(f.immediatelyAvailableForLessons),
      FlagParam(f.immediatelyAvailableForReview),
      FlagParam(f.inReview),
      U32ListParam(f.levels),
      U32ListParam(f.srsStages),
      TriStateParam(f.started),
      IdListParam(f.subjectIds),
      SubjectTypesParam(f.subjectTypes),
      TriStateParam(f.unlocked),
      FormattedParam(f.updatedAfter, rfc3339) ]
  }

  /** The query entries an assignment filter appends. */
  function AssignmentQuery(f: AssignmentFilter, rfc3339: Timestamp -> string): seq<QueryPair>
  {
    EncodeParams(AssignmentFilterKeys, AssignmentFilterValues(f, rfc3339))
  }

  /** Appending the parameters one by one, in key order, gives the filter's query. */
  lemma AssignmentQueryInSteps(q: seq<QueryPair>, f: AssignmentFilter, rfc3339: Timestamp -> string)
    ensures EncodeUpTo(q, AssignmentFilterKeys, AssignmentFilterValues(f, rfc3339), 15) == q + AssignmentQuery(f, rfc3339)
  {
    EncodeUpToAll(q, AssignmentFilterKeys, AssignmentFilterValues(f, rfc3339));
  }

  /** No key is used by two fields. */
  lemma AssignmentKeysDistinct()
    ensures Distinct(AssignmentFilterKeys)
  {
  }

  /** The default filter adds nothing to the query. */
  lemma AssignmentFilterDefaultEmpty(rfc3339: Timestamp -> string)
    ensures AssignmentQuery(DefaultAssignmentFilter, rfc3339) == []
  {
    EncodeAllUnset(AssignmentFilterKeys, AssignmentFilterValues(DefaultAssignmentFilter, rfc3339));
  }

  /** Under each of the filter's keys, the query holds what that key's field contributes. */
  lemma AssignmentQueryPositions(f: AssignmentFilter, rfc3339: Timestamp -> string)
    ensures forall i :: 0 <= i < |AssignmentFilterKeys| ==>
      Lookup(AssignmentQuery(f, rfc3339), AssignmentFilterKeys[i]) == Emitted(AssignmentFilterValues(f, rfc3339)[i])
  {
    AssignmentKeysDistinct();
    forall i | 0 <= i < |AssignmentFilterKeys|
      ensures Lookup(AssignmentQuery(f, rfc3339), AssignmentFilterKeys[i]) == Emitted(AssignmentFilterValues(f, rfc3339)[i])
    {
      EncodeLookup(AssignmentFilterKeys, AssignmentFilterValues(f, rfc3339), i);
    }
  }

  /** Each set list field is one entry: the ids, levels or stages in decimal, or the type names, joined by commas. */
  lemma AssignmentQueryLists(f: AssignmentFilter, rfc3339: Timestamp -> string)
    ensures var q := AssignmentQuery(f, rfc3339);
      && Lookup(q, "ids") == (if f.ids.Some? then Some(Some(DecimalList(f.ids.value))) else None)
      && Lookup(q, "levels") == (if f.levels.Some? then Some(Some(DecimalList(f.levels.value))) else None)
      && Lookup(q, "srs_stages") == (if f.srsStages.Some? then Some(Some(DecimalList(f.srsStages.value))) else None)
      && Lookup(q, "subject_ids") == (if f.subjectIds.Some? then Some(Some(DecimalList(f.subjectIds.value))) else None)
      && Lookup(q, "subject_types") == (if f.subjectTypes.Some? then Some(Some(SubjectTypeList(f.subjectTypes.value))) else None)
  {
    AssignmentQueryPositions(f, rfc3339);
    var keys := AssignmentFilterKeys;
    assert keys[4] == "ids" && keys[8] == "levels" && keys[9] == "srs_stages" && keys[11] == "subject_ids" && keys[12] == "subject_types";
  }

  /** Each flag is a bare key when true and absent when false. */
  lemma AssignmentQueryFlags(f: AssignmentFilter, rfc3339: Timestamp -> string)
    ensures var q := AssignmentQuery(f, rfc3339);
      && Lookup(q, "immediately_available_for_lessons") == (if f.immediatelyAvailableForLessons then Some(None) else None)
      && Lookup(q, "immediately_available_for_review") == (if f.immediatelyAvailableForReview then Some(None) else None)
      && Lookup(q, "in_review") == (if f.inReview then Some(None) else None)
  {
    AssignmentQueryPositions(f, rfc3339);
    var keys := AssignmentFilterKeys;
    assert keys[5] == "immediately_available_for_lessons" && keys[6] == "immediately_available_for_review" && keys[7] == "in_review";
  }

  /** Each tri-state is "true" or "false" when set and absent when not. */
  lemma AssignmentQueryTriStates(f: AssignmentFilter, rfc3339: Timestamp -> string)
    ensures var q := AssignmentQuery(f, rfc3339);
      && Lookup(q, "burned") == (if f.burned.Some? then Some(Some(BoolToString(f.burned.value))) else None)
      && Lookup(q, "hidden") == (if f.hidden.Some? then Some(Some(BoolToString(f.hidden.value))) else None)
      && Lookup(q, "started") == (if f.started.Some? then Some(Some(BoolToString(f.started.value))) else None)
      && Lookup(q, "unlocked") == (if f.unlocked.Some? then Some(Some(BoolToString(f.unlocked.value))) else None)
  {
    AssignmentQueryPositions(f, rfc3339);
    var keys := AssignmentFilterKeys;
    assert keys[2] == "burned" && keys[3] == "hidden" && keys[10] == "started" && keys[13] == "unlocked";
  }

  /** Each set timestamp is one entry holding its RFC 3339 text. */
  lemma AssignmentQueryTimestamps(f: AssignmentFilter, rfc3339: Timestamp -> string)
    ensures var q := AssignmentQuery(f, rfc3339);
      && Lookup(q, "available_after") == (if f.availableAfter.Some? then Some(Some(rfc3339(f.availableAfter.value))) else None)
      && Lookup(q, "available_before") == (if f.availableBefore.Some? then Some(Some(rfc3339(f.availableBefore.value))) else None)
      && Lookup(q, "updated_after") == (if f.updatedAfter.Some? then Some(Some(rfc3339(f.updatedAfter.value))) else None)
  {
    AssignmentQueryPositions(f, rfc3339);
    var keys := AssignmentFilterKeys;
    assert keys[0] == "available_after" && keys[1] == "available_before" && keys[14] == "updated_after";
  }

  /**
   * Keys come in the fixed order, none twice and none outside the filter's
   * keys; so there is one entry per key that is present, and by the lemmas
   * above a key is present exactly when its field is Some or true.
   */
  lemma AssignmentQueryShape(f: AssignmentFilter, rfc3339: Timestamp -> string)
    ensures var q := AssignmentQuery(f, rfc3339);
      && IsSubsequence(Keys(q), AssignmentFilterKeys)
      && Distinct(Keys(q))
      && (forall k :: k !in AssignmentFilterKeys ==> Lookup(q, k) == None)
      && |q| == |Present(q, AssignmentFilterKeys)|
  {
    var keys, vals := AssignmentFilterKeys, AssignmentFilterValues(f, rfc3339);
    AssignmentKeysDistinct();
    EncodeKeysInOrder(keys, vals);
    EncodeDistinctKeys(keys, vals);
    EncodeCountPresent(keys, vals);
    forall k | k !in keys ensures Lookup(EncodeParams(keys, vals), k) == None {
      EncodeLookupAbsent(keys, vals, k);
    }
  }
}

/**
 * The assignments endpoints: `apply_filters` on a URL, and the paths of the
 * collection, of a specific assignment and of starting one.
 */
module Assignment {
  import opened Wrappers
  import opened Text
  import opened Query
  import opened WaniKani
  import opened Client
  import opened AssignmentFilters

  const AssignmentPath: string := "assignments"

  /**
   * `AssignmentFilter::apply_filters`: appends, field by field in key
   * order, what each field contributes to the URL's query.
   */
  method ApplyAssignmentFilter(f: AssignmentFilter, rfc3339: Timestamp -> string, url: Url)
    modifies url
    ensures url.query == old(url.query) + AssignmentQuery(f, rfc3339)
    ensures url.path == old(url.path)
  {
    var query := url.query;
    ghost var q0 := query;
    var keys, vals := AssignmentFilterKeys, AssignmentFilterValues(f, rfc3339);
    assert EncodeUpTo(q0, keys, vals, 0) == q0;
    query := AppendParam(query, keys, vals, 0, q0);  // available_after
    query := AppendParam(query, keys, vals, 1, q0);  // available_before
    query := AppendParam(query, keys, vals, 2, q0);  // burned
    query := AppendParam(query, keys, vals, 3, q0);  // hidden
    query := AppendParam(query, keys, vals, 4, q0);  // ids
    query := AppendParam(query, keys, vals, 5, q0);  // immediately_available_for_lessons
    query := AppendParam(query, keys, vals, 6, q0);  // immediately_available_for_review
    query := AppendParam(query, keys, vals, 7, q0);  // in_review
    query := AppendParam(query, keys, vals, 8, q0);  // levels
    query := AppendParam(query, keys, vals, 9, q0);  // srs_stages
    query := AppendParam(query, keys, vals, 10, q0); // started
    query := AppendParam(query, keys, vals, 11, q0); // subject_ids
    query := AppendParam(query, keys, vals, 12, q0); // subject_types
    query := AppendParam(query, keys, vals, 13, q0); // unlocked
    query := AppendParam(query, keys, vals, 14, q0); // updated_after
    AssignmentQueryInSteps(q0, f, rfc3339);
    url.SetQuery(query);
  }

  /** `get_assignments`, before sending: `/v2/assignments` with the filter's query. */
  method AssignmentsUrl(client: WKClient, f: AssignmentFilter, rfc3339: Timestamp -> string) returns (url: Url)
    requires client.Valid()
    ensures fresh(url)
    ensures url.path == BasePath + [AssignmentPath] && url.query == AssignmentQuery(f, rfc3339)
  {
    url := client.baseUrl.Clone();
    url.Push(AssignmentPath);
    ApplyAssignmentFilter(f, rfc3339, url);
    assert [] + AssignmentQuery(f, rfc3339) == AssignmentQuery(f, rfc3339);
  }

  /** `get_specific_assignment`, before sending: `/v2/assignments/{id}`. */
  method SpecificAssignmentUrl(client: WKClient, id: Id) returns (url: Url)
    requires client.Valid()
    ensures fresh(url)
    ensures url.path == BasePath + [AssignmentPath, NatToString(id)] && url.query == []
    ensures DigitsValue(url.path[2]) == id
  {
    url := client.baseUrl.Clone();
    url.Push(AssignmentPath);
    url.Push(NatToString(id));
    NatToStringValue(id);
  }

  /** `start_assignment`, before sending: `/v2/assignments/{id}/start`. */
  method StartAssignmentUrl(client: WKClient, id: Id) returns (url: Url)
    requires client.Valid()
    ensures fresh(url)
    ensures url.path == BasePath + [AssignmentPath, NatToString(id), "start"] && url.query == []
    ensures DigitsValue(url.path[2]) == id
  {
    url := client.baseUrl.Clone();
    url.Push(AssignmentPath);
    url.Push(NatToString(id));
    url.Push("start");
    NatToStringValue(id);
  }
}
