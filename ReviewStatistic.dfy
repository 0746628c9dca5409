/**
 * The review-statistic filter: its seven fields, including the two
 * percentage bounds, the query entries it stands for, and what those
 * entries hold.
 */
module ReviewStatisticFilters {
  import opened Wrappers
  import opened Text
  import opened Query
  import opened WaniKani
  import opened Client

  /** Filter parameters for review statistics, in the order the record declares them. */
  datatype ReviewStatisticFilter = ReviewStatisticFilter(
    hidden: Option<bool>,
    ids: Option<seq<Id>>,
    percentagesGreaterThan: Option<U32>,
    percentagesLessThan: Option<U32>,
    subjectIds: Option<seq<Id>>,
    subjectTypes: Option<seq<SubjectType>>,
    updatedAfter: Option<Timestamp>)

  const DefaultReviewStatisticFilter: ReviewStatisticFilter :=
    ReviewStatisticFilter(None, None, None, None, None, None, None)

  /** The query keys, in the order `apply_filters` appends them. */
  const ReviewStatisticFilterKeys: seq<string> := [
    "ids", "subject_ids", "subject_types", "hidden", "updated_after", "percentages_greater_than",
    "percentages_less_than"]

  /** What each field contributes, position by position with the keys. */
  function ReviewStatisticFilterValues(f: ReviewStatisticFilter, rfc3339: Timestamp -> string): (vs: seq<Param>)
    ensures |vs| == |ReviewStatisticFilterKeys|
  {
    [ IdListParam(f.ids),
      IdListParam(f.subjectIds),
      SubjectTypesParam(f.subjectTypes),
      TriStateParam(f.hidden),
      FormattedParam(f.updatedAfter, rfc3339),
      U32Param(f.percentagesGreaterThan),
      U32Param(f.percentagesLessThan) ]
  }

  /** The query entries a review-statistic filter appends. */
  function ReviewStatisticQuery(f: ReviewStatisticFilter, rfc3339: Timestamp -> string): seq<QueryPair>
  {
    EncodeParams(ReviewStatisticFilterKeys, ReviewStatisticFilterValues(f, rfc3339))
  }

  /** Appending the parameters one by one, in key order, gives the filter's query. */
  lemma ReviewStatisticQueryInSteps(q: seq<QueryPair>, f: ReviewStatisticFilter, rfc3339: Timestamp -> string)
    ensures EncodeUpTo(q, ReviewStatisticFilterKeys, ReviewStatisticFilterValues(f, rfc3339), 7) == q + ReviewStatisticQuery(f, rfc3339)
  {
    EncodeUpToAll(q, ReviewStatisticFilterKeys, ReviewStatisticFilterValues(f, rfc3339));
  }

  /** No key is used by two fields. */
  lemma ReviewStatisticKeysDistinct()
    ensures Distinct(ReviewStatisticFilterKeys)
  {
  }

  /** The default filter adds nothing to the query. */
  lemma ReviewStatisticFilterDefaultEmpty(rfc3339: Timestamp -> string)
    ensures ReviewStatisticQuery(DefaultReviewStatisticFilter, rfc3339) == []
  {
    EncodeAllUnset(ReviewStatisticFilterKeys, ReviewStatisticFilterValues(DefaultReviewStatisticFilter, rfc3339));
  }

  /** Under each of the filter's keys, the query holds what that key's field contributes. */
  lemma ReviewStatisticQueryPositions(f: ReviewStatisticFilter, rfc3339: Timestamp -> string)
    ensures forall i :: 0 <= i < |ReviewStatisticFilterKeys| ==>
      Lookup(ReviewStatisticQuery(f, rfc3339), ReviewStatisticFilterKeys[i]) == Emitted(ReviewStatisticFilterValues(f, rfc3339)[i])
  {
    ReviewStatisticKeysDistinct();
    forall i | 0 <= i < |ReviewStatisticFilterKeys|
      ensures Lookup(ReviewStatisticQuery(f, rfc3339), ReviewStatisticFilterKeys[i]) == Emitted(ReviewStatisticFilterValues(f, rfc3339)[i])
    {
      EncodeLookup(ReviewStatisticFilterKeys, ReviewStatisticFilterValues(f, rfc3339), i);
    }
  }

  /** Ids and subject ids in decimal and subject types by display name, each joined by commas into one entry. */
  lemma ReviewStatisticQueryLists(f: ReviewStatisticFilter, rfc3339: Timestamp -> string)
    ensures var q := ReviewStatisticQuery(f, rfc3339);
      && Lookup(q, "ids") == (if f.ids.Some? then Some(Some(DecimalList(f.ids.value))) else None)
      && Lookup(q, "subject_ids") == (if f.subjectIds.Some? then Some(Some(DecimalList(f.subjectIds.value))) else None)
      && Lookup(q, "subject_types") == (if f.subjectTypes.Some? then Some(Some(SubjectTypeList(f.subjectTypes.value))) else None)
  {
    ReviewStatisticQueryPositions(f, rfc3339);
    var keys := ReviewStatisticFilterKeys;
    assert keys[0] == "ids" && keys[1] == "subject_ids" && keys[2] == "subject_types";
  }

  /** `hidden` is "true" or "false" and each percentage bound its u32 in decimal, when set; `updated_after` the RFC 3339 text when set; each absent otherwise. */
  lemma ReviewStatisticQueryScalars(f: ReviewStatisticFilter, rfc3339: Timestamp -> string)
    ensures var q := ReviewStatisticQuery(f, rfc3339);
      && Lookup(q, "hidden") == (if f.hidden.Some? then Some(Some(BoolToString(f.hidden.value))) else None)
      && Lookup(q, "updated_after") == (if f.updatedAfter.Some? then Some(Some(rfc3339(f.updatedAfter.value))) else None)
      && Lookup(q, "percentages_greater_than") == (if f.percentagesGreaterThan.Some? then Some(Some(NatToString(f.percentagesGreaterThan.value))) else None)
      && Lookup(q, "percentages_less_than") == (if f.percentagesLessThan.Some? then Some(Some(NatToString(f.percentagesLessThan.value))) else None)
  {
    ReviewStatisticQueryPositions(f, rfc3339);
    var keys := ReviewStatisticFilterKeys;
    assert keys[3] == "hidden" && keys[4] == "updated_after" && keys[5] == "percentages_greater_than" && keys[6] == "percentages_less_than";
  }

  /**
   * Keys come in the order ids, subject_ids, subject_types, hidden,
   * updated_after, percentages_greater_than, percentages_less_than, none
   * twice and none other; one entry per field that is Some.
   */
  lemma ReviewStatisticQueryShape(f: ReviewStatisticFilter, rfc3339: Timestamp -> string)
    ensures var q := ReviewStatisticQuery(f, rfc3339);
      && IsSubsequence(Keys(q), ReviewStatisticFilterKeys)
      && Distinct(Keys(q))
      && (forall k :: k !in ReviewStatisticFilterKeys ==> Lookup(q, k) == None)
      && |q| == (if f.ids.Some? then 1 else 0)
              + (if f.subjectIds.Some? then 1 else 0)
              + (if f.subjectTypes.Some? then 1 else 0)
              + (if f.hidden.Some? then 1 else 0)
              + (if f.updatedAfter.Some? then 1 else 0)
              + (if f.percentagesGreaterThan.Some? then 1 else 0)
              + (if f.percentagesLessThan.Some? then 1 else 0)
  {
    var keys, vals := ReviewStatisticFilterKeys, ReviewStatisticFilterValues(f, rfc3339);
    ReviewStatisticKeysDistinct();
    EncodeKeysInOrder(keys, vals);
    EncodeDistinctKeys(keys, vals);
    EncodeLength(keys, vals);
    assert vals == vals[0..];
    CountFrom(vals, 0);
    CountFrom(vals, 1);
    CountFrom(vals, 2);
    CountFrom(vals, 3);
    CountFrom(vals, 4);
    CountFrom(vals, 5);
    CountFrom(vals, 6);
    assert vals[7..] == [];
    forall k | k !in keys ensures Lookup(EncodeParams(keys, vals), k) == None {
      EncodeLookupAbsent(keys, vals, k);
    }
  }
}

/**
 * The review-statistics endpoints: `apply_filters` on a URL, and the paths
 * of the collection and of a specific review statistic.
 */
module ReviewStatistic {
  import opened Wrappers
  import opened Text
  import opened Query
  import opened WaniKani
  import opened Client
  import opened ReviewStatisticFilters

  const ReviewStatisticPath: string := "review_statistics"

  /**
   * `ReviewStatisticFilter::apply_filters`: appends, field by field in key
   * order, what each field contributes to the URL's query.
   */
  method ApplyReviewStatisticFilter(f: ReviewStatisticFilter, rfc3339: Timestamp -> string, url: Url)
    modifies url
    ensures url.query == old(url.query) + ReviewStatisticQuery(f, rfc3339)
    ensures url.path == old(url.path)
  {
    var query := url.query;
    ghost var q0 := query;
    var keys, vals := ReviewStatisticFilterKeys, ReviewStatisticFilterValues(f, rfc3339);
    assert EncodeUpTo(q0, keys, vals, 0) == q0;
    query := AppendParam(query, keys, vals, 0, q0);  // ids
    query := AppendParam(query, keys, vals, 1, q0);  // subject_ids
    query := AppendParam(query, keys, vals, 2, q0);  // subject_types
    query := AppendParam(query, keys, vals, 3, q0);  // hidden
    query := AppendParam(query, keys, vals, 4, q0);  // updated_after
    query := AppendParam(query, keys, vals, 5, q0);  // percentages_greater_than
    query := AppendParam(query, keys, vals, 6, q0);  // percentages_less_than
    ReviewStatisticQueryInSteps(q0, f, rfc3339);
    url.SetQuery(query);
  }

  /** `get_review_statistics`, before sending: `/v2/review_statistics` with the filter's query. */
  method ReviewStatisticsUrl(client: WKClient, f: ReviewStatisticFilter, rfc3339: Timestamp -> string) returns (url: Url)
    requires client.Valid()
    ensures fresh(url)
    ensures url.path == BasePath + [ReviewStatisticPath] && url.query == ReviewStatisticQuery(f, rfc3339)
  {
    url := client.baseUrl.Clone();
    url.Push(ReviewStatisticPath);
    ApplyReviewStatisticFilter(f, rfc3339, url);
    assert [] + ReviewStatisticQuery(f, rfc3339) == ReviewStatisticQuery(f, rfc3339);
  }

  /** `get_specific_review_statistic`, before sending: `/v2/review_statistics/{id}`. */
  method SpecificReviewStatisticUrl(client: WKClient, id: Id) returns (url: Url)
    requires client.Valid()
    ensures fresh(url)
    ensures url.path == BasePath + [ReviewStatisticPath, NatToString(id)] && url.query == []
    ensures DigitsValue(url.path[2]) == id
  {
    url := client.baseUrl.Clone();
    url.Push(ReviewStatisticPath);
    url.Push(NatToString(id));
    NatToStringValue(id);
  }
}
