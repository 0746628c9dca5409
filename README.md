# WaniKani API client — a Dafny model of its core

`wanikani-api` is a Rust client for the WaniKani v2 API.
This project models the parts of it whose behaviour can be stated without a network.

- **Query-filter encoding.** Each filter record (`IdFilter`, `AssignmentFilter`, `SubjectFilter`, `StudyMaterialFilter`, `ReviewStatisticFilter`) appends query entries to a URL, one field at a time, in a fixed key order. The model gives each filter:
  - a record datatype;
  - a specification function: the list of `(key, Option<value>)` entries it stands for;
  - an imperative `apply_filters` method that updates a `Url` object step by step. Its contract is proved against that function.

  Lemmas state what each key holds, that the default filter adds nothing, that keys come in order and never twice, and how many entries there are.
- **Request paths.** Each endpoint clones the client's base URL (`/v2`, revision `20170710`) and pushes its path segments. Id segments are proved to read back as the id.
- **Response classification.** `do_request` dispatches on the status. `handle_error` tells a rate-limit response from an API error and from an undecodable body. `rate_limit_reset` reads the `Ratelimit-Reset` header: an absent or non-numeric header gives 0, and `n` gives `n * 1000` milliseconds.
- **Value conversions.**
  - `SubjectType` display names and the `SubjectType`/`ResourceType` conversions.
  - The `WanikaniError` display text.
  - The lesson-order comparator. The random draws are parameters.
  - `Preferences` to `UpdatePreferences`.
  - The private/public study-material conversions and wrappers.
- **JSON.** A small JSON value type carries the rule that fields which are `None` are left out, and the request bodies built on it. Round trips are proved for:
  - `UpdatePreferences`;
  - the study-material bodies;
  - `update_prefs`.

The source declares `LessonPresentationOrder` twice, with the same variants, default and serde names: `cross_feature::LessonPresentationOrder` (`lib.rs:540-551`) is the one `order_subjects` reads, and `user::LessonPresentationOrder` (`user.rs:84-95`) is the one the preferences hold. The model has one type, `WaniKani.LessonPresentationOrder`, for both. Its default is `AscendingLevelThenSubject` (`WaniKani.DefaultLessonPresentationOrder`).

serde_json reads a derived struct from two JSON forms. An object is read by field name. Members with other names are skipped, a field that appears twice is an error, and an `Option` field that is missing or `null` is `None`. An array is read by position. It must hold exactly one element per field, and an `Option` element is `None` exactly when it is `null`. Every deserializer in the model takes both forms and rejects every other JSON value. JSON numbers in the model are integers only. Fractional and exponent numbers such as `241.0`, which serde_json rejects for a `u32` or `u64` field, cannot be written in it.

Timestamps are whole milliseconds since the epoch. The RFC 3339 formatter is passed to every filter function as a parameter `rfc3339`.

## Model

| member | source | states |
|---|---|---|
| Client.IdFilterQueryContents | wanikani-api/src/client/mod.rs:27-44 | `ids` holds the comma-joined decimal ids exactly when set, and `updated_after` holds the formatted time exactly when set. No other key appears, keys keep that order without repeats, and the entry count is the number of set fields |
| Client.IdFilterDefaultEmpty | wanikani-api/src/client/mod.rs:18-25 | the default `IdFilter` adds no query entries |
| Client.ApplyIdFilter | wanikani-api/src/client/mod.rs:27-44 | the URL's query becomes the old query followed by the filter's entries; the path is unchanged |
| Client.WKClient.constructor | wanikani-api/src/client/mod.rs:97-105 | the new client has base path `/v2` with no query, the given token and revision `20170710` |
| Client.WKClient.RequiredHeaders | wanikani-api/src/client/mod.rs:107-110 | two headers: `Authorization` is `Bearer ` followed by the token, then the revision header carries the client's version |
| Query.Url.constructor | wanikani-api/src/client/mod.rs:98 | a URL value holds exactly the given path segments and query entries |
| Query.Url.Clone | wanikani-api/src/client/summary.rs:10 | `clone()` gives a new URL, distinct from the original, with the same path and query |
| Query.Url.Push | wanikani-api/src/client/summary.rs:11-13 | `path_segments_mut().push(s)` adds `s` as the last path segment and leaves the query alone |
| Query.Url.SetQuery | wanikani-api/src/client/mod.rs:29 | what the `query_pairs_mut()` serializer writes back: the query becomes the given entries and the path is unchanged |
| Client.ResetSeconds | wanikani-api/src/client/mod.rs:115-128 | the seconds read from the header always lie within i64 |
| Client.RateLimitReset | wanikani-api/src/client/mod.rs:112-133 | absent header gives 0, a non-integer header gives 0, and an integer `n` gives `n * 1000` milliseconds |
| Client.RateLimitResetDecimal | wanikani-api/src/client/mod.rs:119-132 | a header holding the decimal text of `n` is accepted and gives `n * 1000` |
| Client.RateLimitResetNotANumber | wanikani-api/src/client/mod.rs:119-122 | a header that starts with a character other than a digit or sign gives the epoch |
| Client.HandleError | wanikani-api/src/client/mod.rs:135-152 | `RateLimit` with the same error and the computed reset time exactly when the status is 429 and the body decodes; `WaniKaniError` with the body exactly when another status has a decodable body; `Client` with the decode failure exactly when the body does not decode |
| Client.DoRequest | wanikani-api/src/client/mod.rs:189-206 | success exactly when the send succeeds, the status is 200 and the body decodes, and it yields that value. A send failure or an undecodable 200 body is a `Client` error. Any other status is the `HandleError` result |
| Client.OnlyStatusOkSucceeds | wanikani-api/src/client/mod.rs:201-204 | every status other than 200, other 2xx codes included, is an error, classified as rate limit or API error by the status |
| Endpoints.SummaryUrl | wanikani-api/src/client/summary.rs:9-18 | path `/v2/summary`, no query, on a fresh URL |
| Endpoints.UserUrl | wanikani-api/src/client/user.rs:12-29 | path `/v2/user`, no query, for both reading and updating the user |
| Endpoints.VoiceActorsUrl | wanikani-api/src/client/voice_actor.rs:10-22 | path `/v2/voice_actors` with exactly the `IdFilter` query |
| Endpoints.SpecificVoiceActorUrl | wanikani-api/src/client/voice_actor.rs:25-35 | path `/v2/voice_actors/{id}`, no query, and the id segment reads back as the id |
| AssignmentFilters.AssignmentQueryInSteps | wanikani-api/src/client/assignment.rs:122-209 | appending the fifteen parameters one by one in key order gives the old query followed by the filter's query |
| AssignmentFilters.AssignmentKeysDistinct | wanikani-api/src/client/assignment.rs:125-208 | the fifteen keys are pairwise different |
| AssignmentFilters.AssignmentFilterDefaultEmpty | wanikani-api/src/client/assignment.rs:76-120 | the default filter, with everything `None` or `false`, adds no entries |
| AssignmentFilters.AssignmentQueryPositions | wanikani-api/src/client/assignment.rs:122-209 | under every key the query holds exactly what that key's field contributes |
| AssignmentFilters.AssignmentQueryLists | wanikani-api/src/client/assignment.rs:137-202 | `ids`, `levels`, `srs_stages` and `subject_ids` hold decimals, and `subject_types` holds display names. Each is joined by commas in input order, exactly when the field is set |
| AssignmentFilters.AssignmentQueryFlags | wanikani-api/src/client/assignment.rs:147-155 | the three flags appear as value-less keys exactly when true |
| AssignmentFilters.AssignmentQueryTriStates | wanikani-api/src/client/assignment.rs:131-205 | `burned`, `hidden`, `started` and `unlocked` hold `"true"` or `"false"` exactly when set |
| AssignmentFilters.AssignmentQueryTimestamps | wanikani-api/src/client/assignment.rs:125-208 | `available_after`, `available_before` and `updated_after` hold the formatted time exactly when set |
| AssignmentFilters.AssignmentQueryShape | wanikani-api/src/client/assignment.rs:122-209 | keys appear in the fixed order, none twice and none outside the fifteen; one entry per present key |
| Assignment.ApplyAssignmentFilter | wanikani-api/src/client/assignment.rs:122-209 | the URL's query becomes the old query followed by the filter's entries; the path is unchanged |
| Assignment.AssignmentsUrl | wanikani-api/src/client/assignment.rs:16-30 | path `/v2/assignments` with exactly the filter's query |
| Assignment.SpecificAssignmentUrl | wanikani-api/src/client/assignment.rs:33-44 | path `/v2/assignments/{id}`, no query, and the id segment reads back as the id |
| Assignment.StartAssignmentUrl | wanikani-api/src/client/assignment.rs:58-73 | path `/v2/assignments/{id}/start`, no query, and the id segment reads back as the id |
| SubjectFilters.SubjectQueryInSteps | wanikani-api/src/client/subject.rs:70-113 | appending the six parameters one by one gives the old query followed by the filter's query |
| SubjectFilters.SubjectKeysDistinct | wanikani-api/src/client/subject.rs:72-112 | the six keys are pairwise different |
| SubjectFilters.SubjectFilterDefaultEmpty | wanikani-api/src/client/subject.rs:49-66 | the default filter adds no entries |
| SubjectFilters.SubjectQueryPositions | wanikani-api/src/client/subject.rs:70-113 | under every key the query holds exactly what that key's field contributes |
| SubjectFilters.SubjectQueryLists | wanikani-api/src/client/subject.rs:72-106 | `ids` and `levels` hold comma-joined decimals, and `types` (not `subject_types`) holds display names. `slugs` holds the slugs joined verbatim. Each appears exactly when set |
| SubjectFilters.SubjectQueryScalars | wanikani-api/src/client/subject.rs:107-112 | `hidden` holds `"true"`/`"false"`, and `updated_after` the formatted time, exactly when set |
| SubjectFilters.SubjectQueryShape | wanikani-api/src/client/subject.rs:70-113 | keys in the order ids, types, slugs, levels, hidden, updated_after; none twice, none other; as many entries as set fields |
| SubjectFilters.SubjectQuerySlugsRoundTrip | wanikani-api/src/client/subject.rs:93-95 | when no slug contains a comma, the `slugs` value splits back into exactly the slugs |
| Subject.ApplySubjectFilter | wanikani-api/src/client/subject.rs:70-113 | the URL's query becomes the old query followed by the filter's entries; the path is unchanged |
| Subject.SubjectsUrl | wanikani-api/src/client/subject.rs:15-30 | path `/v2/subjects` with exactly the filter's query |
| Subject.SpecificSubjectUrl | wanikani-api/src/client/subject.rs:33-45 | path `/v2/subjects/{id}`, no query, and the id segment reads back as the id |
| StudyMaterialFilters.StudyMaterialQueryInSteps | wanikani-api/src/client/study_material.rs:105-144 | appending the five parameters one by one gives the old query followed by the filter's query |
| StudyMaterialFilters.StudyMaterialKeysDistinct | wanikani-api/src/client/study_material.rs:107-143 | the five keys are pairwise different |
| StudyMaterialFilters.StudyMaterialFilterDefaultEmpty | wanikani-api/src/client/study_material.rs:84-101 | the default filter adds no entries |
| StudyMaterialFilters.StudyMaterialQueryPositions | wanikani-api/src/client/study_material.rs:105-144 | under every key the query holds exactly what that key's field contributes |
| StudyMaterialFilters.StudyMaterialQueryLists | wanikani-api/src/client/study_material.rs:107-137 | `ids` and `subject_ids` hold comma-joined decimals, and `subject_types` holds display names. Each appears exactly when set |
| StudyMaterialFilters.StudyMaterialQueryScalars | wanikani-api/src/client/study_material.rs:138-143 | `hidden` holds its boolean text, and `updated_after` the formatted time, exactly when set |
| StudyMaterialFilters.StudyMaterialQueryShape | wanikani-api/src/client/study_material.rs:105-144 | keys in the emitted order ids, subject_ids, subject_types, hidden, updated_after, which is not the declaration order. None appears twice or outside these keys, and there are as many entries as set fields |
| StudyMaterial.ApplyStudyMaterialFilter | wanikani-api/src/client/study_material.rs:105-144 | the URL's query becomes the old query followed by the filter's entries; the path is unchanged |
| StudyMaterial.StudyMaterialsUrl | wanikani-api/src/client/study_material.rs:15-29 | path `/v2/study_materials` with exactly the filter's query |
| StudyMaterial.CreateStudyMaterialUrl | wanikani-api/src/client/study_material.rs:51-63 | path `/v2/study_materials`, no query |
| StudyMaterial.StudyMaterialUrl | wanikani-api/src/client/study_material.rs:66-80 | path `/v2/study_materials/{id}`, no query, and the id segment reads back as the id |
| ReviewStatisticFilters.ReviewStatisticQueryInSteps | wanikani-api/src/client/review_statistic.rs:23-68 | appending the seven parameters one by one gives the old query followed by the filter's query |
| ReviewStatisticFilters.ReviewStatisticKeysDistinct | wanikani-api/src/client/review_statistic.rs:25-67 | the seven keys are pairwise different |
| ReviewStatisticFilters.ReviewStatisticFilterDefaultEmpty | wanikani-api/src/client/review_statistic.rs:10-20 | the default filter adds no entries |
| ReviewStatisticFilters.ReviewStatisticQueryPositions | wanikani-api/src/client/review_statistic.rs:23-68 | under every key the query holds exactly what that key's field contributes |
| ReviewStatisticFilters.ReviewStatisticQueryLists | wanikani-api/src/client/review_statistic.rs:25-55 | `ids` and `subject_ids` hold comma-joined decimals, and `subject_types` holds display names. Each appears exactly when set |
| ReviewStatisticFilters.ReviewStatisticQueryScalars | wanikani-api/src/client/review_statistic.rs:56-67 | `hidden` holds its boolean text, `updated_after` the formatted time, and each percentage bound its u32 in decimal, each exactly when set |
| ReviewStatisticFilters.ReviewStatisticQueryShape | wanikani-api/src/client/review_statistic.rs:23-68 | keys in the order ids, subject_ids, subject_types, hidden, updated_after, percentages_greater_than, percentages_less_than. None appears twice or outside these keys, and there are as many entries as set fields |
| ReviewStatistic.ApplyReviewStatisticFilter | wanikani-api/src/client/review_statistic.rs:23-68 | the URL's query becomes the old query followed by the filter's entries; the path is unchanged |
| ReviewStatistic.ReviewStatisticsUrl | wanikani-api/src/client/review_statistic.rs:74-86 | path `/v2/review_statistics` with exactly the filter's query |
| ReviewStatistic.SpecificReviewStatisticUrl | wanikani-api/src/client/review_statistic.rs:89-100 | path `/v2/review_statistics/{id}`, no query, and the id segment reads back as the id |
| Text.NatToString | wanikani-api/src/client/mod.rs:30-37 | the decimal rendering (`to_string`) is non-empty, all digits, and without a leading zero |
| Text.NatToStringValue | wanikani-api/src/client/mod.rs:30-37 | the decimal text reads back as the number |
| Text.NatToStringInjective | wanikani-api/src/client/mod.rs:30-37 | different numbers render differently |
| Text.DecimalListRoundTrip | wanikani-api/src/client/mod.rs:30-37 | a non-empty comma-joined list of decimals splits and parses back into the same numbers |
| Text.SplitJoin | wanikani-api/src/client/subject.rs:93-95 | joining comma-free parts with a separator and splitting on it gives the parts back |
| Text.BoolToString | wanikani-api/src/client/subject.rs:107-109 | a boolean renders as `"true"` exactly when it is true, otherwise `"false"` |
| Text.IntToString | wanikani-api/src/lib.rs:767-774 | the `i32` code renders with a minus sign exactly when negative, and the `i64` parser reads the text back as the code |
| Text.ParseI64 | wanikani-api/src/client/mod.rs:119-122 | an accepted header value lies within i64 |
| Text.ParseI64Rendered | wanikani-api/src/client/mod.rs:119-122 | decimal text, optionally signed, parses to its value when in range, and is rejected when above the i64 range |
| Text.ParseI64RejectsNonDigit | wanikani-api/src/client/mod.rs:119-122 | text with a non-digit anywhere after an optional leading sign does not parse |
| WaniKani.SubjectTypeName | wanikani-api/src/lib.rs:597-608 | every display name reads back as its subject type and contains no comma |
| WaniKani.SubjectTypeNames | wanikani-api/src/client/subject.rs:82-92 | the list of display names follows the subject types position by position |
| WaniKani.SubjectTypeListRoundTrip | wanikani-api/src/client/subject.rs:82-92 | a non-empty comma-joined subject-type list splits and reads back as the same types |
| WaniKani.SubjectTypeOf | wanikani-api/src/lib.rs:625-637 | a successful conversion is undone by `From<SubjectType>`, and a failure carries the resource type that was given |
| WaniKani.ResourceTypeOf | wanikani-api/src/lib.rs:639-648 | `From<SubjectType>` always lands on one of the four subject resource types |
| WaniKani.SubjectTypeResourceRoundTrip | wanikani-api/src/lib.rs:625-648 | converting a subject type to a resource type and back gives it back |
| WaniKani.SubjectTypeOfSucceedsExactly | wanikani-api/src/lib.rs:625-648 | the conversion succeeds exactly on resource types that some subject type converts to |
| WaniKani.ResourceTypeDebugName | wanikani-api/src/lib.rs:659-698 | `{:?}` of a resource type is its variant name, a non-empty capitalised identifier |
| WaniKani.ResourceTypeDebugNameInjective | wanikani-api/src/lib.rs:659-698 | no two resource types print the same variant name |
| WaniKani.ConversionErrorText | wanikani-api/src/lib.rs:615-620 | the message is the resource type's variant name followed by ` is not a subject type.` |
| WaniKani.ConversionErrorTextInjective | wanikani-api/src/lib.rs:615-620 | different resource types give different conversion-error messages |
| WaniKani.Cmp | wanikani-api/src/lib.rs:557-580 | `Ord::cmp` on integers: `Less`, `Equal` and `Greater` exactly when `<`, `==` and `>` |
| WaniKani.OrderSubjects | wanikani-api/src/lib.rs:557-580 | level first under both ascending orders, whatever the draws. `AscendingLevelThenSubject` is `Less` or `Equal` exactly by the lexicographic order on (level, lesson position). Ties under `AscendingLevelThenShuffled`, and everything under `Shuffled`, follow the draws |
| WaniKani.LevelThenSubjectAntisymmetric | wanikani-api/src/lib.rs:566-571 | swapping the two subjects reverses the comparison |
| WaniKani.LevelThenSubjectTransitive | wanikani-api/src/lib.rs:566-571 | the comparison is transitive, both for not-greater and for strictly less |
| WaniKani.WanikaniErrorText | wanikani-api/src/lib.rs:767-774 | the message itself when there is one; otherwise text framed by `Error code ` and ` received` |
| WaniKani.WanikaniErrorTextCode | wanikani-api/src/lib.rs:767-774 | without a message, the text between the frame is the code in decimal |
| WaniKani.WanikaniErrorTextDistinguishesCodes | wanikani-api/src/lib.rs:767-774 | two message-less errors with different codes display differently |
| User.Completed | wanikani-api/src/user.rs:124-151 | an update describes full preferences exactly when all seven fields are set |
| User.UpdatePreferencesFrom | wanikani-api/src/user.rs:153-171 | the update made from preferences (borrowed or owned) sets every field, each to that preference's value |
| User.CompletedFrom | wanikani-api/src/user.rs:153-165 | an update that sets every field is the one made from the preferences it describes |
| User.UpdatePreferencesFromInjective | wanikani-api/src/user.rs:153-171 | distinct preferences give distinct updates |
| User.SerializeUpdatePreferences | wanikani-api/src/user.rs:124-151 | the derived serializer writes an object with at most seven members, all named after the fields |
| User.DeserializeUpdatePreferences | wanikani-api/src/user.rs:124-151 | null, booleans, numbers and strings are errors, and so are an object that repeats a field and an array whose length is not seven; an empty object reads as the default update (every field `None`) |
| User.UpdatePreferencesArrayRoundTrip | wanikani-api/src/user.rs:124-151 | the seven fields given as an array by position, `null` for `None`, read back as the same update |
| User.UpdatePreferencesFieldsDistinct | wanikani-api/src/user.rs:124-151 | the seven field names are pairwise different |
| User.UpdatePreferencesPositions | wanikani-api/src/user.rs:124-151 | under each field name the serialized object holds that field's value, or nothing when the field is `None` |
| User.UpdatePreferencesSerializedNames | wanikani-api/src/user.rs:127-150 | the written field set is exactly the set of fields that are `Some`; no other name is written |
| User.DefaultUpdatePreferencesEmpty | wanikani-api/src/user.rs:124-151 | the default update serializes as an empty object |
| User.UpdatePreferencesFromWritesAll | wanikani-api/src/user.rs:153-165 | an update made from preferences writes all seven fields in declaration order |
| User.UpdatePreferencesReadBack | wanikani-api/src/user.rs:124-151 | any object that holds under each name what the update writes, and repeats no field, deserializes to that update |
| User.UpdatePreferencesRoundTrip | wanikani-api/src/user.rs:124-151 | deserializing the serialized update gives it back |
| User.OptionalOrderRoundTrip | wanikani-api/src/user.rs:84-95 | an optional presentation order, written under its snake_case name, reads back unchanged |
| SerdeHelpers.CreateToPublic | wanikani-api/src/serde_helpers.rs:16-25 | every field of the private create record is carried to the public field of the same name |
| SerdeHelpers.CreateFromPublic | wanikani-api/src/serde_helpers.rs:27-36 | every field of the public create record is carried to the private field of the same name |
| SerdeHelpers.CreateConversionsInverse | wanikani-api/src/serde_helpers.rs:16-36 | the private and public create records convert into each other without loss, both ways |
| SerdeHelpers.UnwrapCreate | wanikani-api/src/serde_helpers.rs:38-42 | unwrapping yields a public record with the wrapped body's fields |
| SerdeHelpers.WrapCreate | wanikani-api/src/serde_helpers.rs:44-50 | wrapping yields a wrapper whose body has the public record's fields |
| SerdeHelpers.WrapCreateInverse | wanikani-api/src/serde_helpers.rs:38-50 | wrapping and unwrapping a create body undo each other, both ways |
| SerdeHelpers.SerializeCreate | wanikani-api/src/serde_helpers.rs:5-14 | the body is an object whose first member is always `subject_id` with the id, and whose members are all create fields |
| SerdeHelpers.SerializeCreateWrapper | wanikani-api/src/serde_helpers.rs:52-55 | the request body is an object with the single member `study_material`, holding the serialized create body |
| SerdeHelpers.DeserializeCreate | wanikani-api/src/serde_helpers.rs:5-14 | null, booleans, numbers and strings are errors, and so are an object without `subject_id`, an object that repeats a field and an array whose length is not four. A body read successfully takes its id from `subject_id`, or from the array's first element |
| SerdeHelpers.DeserializeCreateWrapper | wanikani-api/src/serde_helpers.rs:52-55 | null, booleans, numbers and strings are errors, and so are an object without `study_material`, an object that repeats it and an array whose length is not one. Otherwise the result is exactly what that member (or the single element) reads as: a wrapped body, or an error when it does not read |
| SerdeHelpers.CreateBodyShape | wanikani-api/src/serde_helpers.rs:5-14 | each optional field of the create body is written exactly when it is `Some` |
| SerdeHelpers.CreateArrayRoundTrip | wanikani-api/src/serde_helpers.rs:5-14 | the four fields given as an array by position, `null` for `None`, read back as the same create body |
| SerdeHelpers.CreateRoundTrip | wanikani-api/src/serde_helpers.rs:5-14 | deserializing a serialized create body gives it back |
| SerdeHelpers.CreateWrapperRoundTrip | wanikani-api/src/serde_helpers.rs:52-55 | deserializing a serialized create request (under `study_material`) gives it back |
| SerdeHelpers.UpdateToPublic | wanikani-api/src/serde_helpers.rs:57-65 | every field of the private update record is carried to the public field of the same name |
| SerdeHelpers.UpdateFromPublic | wanikani-api/src/serde_helpers.rs:67-75 | every field of the public update record is carried to the private field of the same name |
| SerdeHelpers.UpdateConversionsInverse | wanikani-api/src/serde_helpers.rs:57-75 | the private and public update records convert into each other without loss, both ways |
| SerdeHelpers.UnwrapUpdate | wanikani-api/src/serde_helpers.rs:77-81 | unwrapping yields a public record with the wrapped body's fields |
| SerdeHelpers.WrapUpdate | wanikani-api/src/serde_helpers.rs:83-89 | wrapping yields a wrapper whose body has the public record's fields |
| SerdeHelpers.WrapUpdateInverse | wanikani-api/src/serde_helpers.rs:77-89 | wrapping and unwrapping an update body undo each other, both ways |
| SerdeHelpers.SerializeUpdate | wanikani-api/src/serde_helpers.rs:91-99 | the body is an object with at most three members, all named after update fields |
| SerdeHelpers.SerializeUpdateWrapper | wanikani-api/src/serde_helpers.rs:101-104 | the request body is an object with the single member `study_material`, holding the serialized update body |
| SerdeHelpers.DeserializeUpdate | wanikani-api/src/serde_helpers.rs:91-99 | null, booleans, numbers and strings are errors, and so are an object that repeats a field and an array whose length is not three; an empty object reads as the update that changes nothing |
| SerdeHelpers.DeserializeUpdateWrapper | wanikani-api/src/serde_helpers.rs:101-104 | null, booleans, numbers and strings are errors, and so are an object without `study_material`, an object that repeats it and an array whose length is not one. Otherwise the result is exactly what that member (or the single element) reads as: a wrapped body, or an error when it does not read |
| SerdeHelpers.UpdateBodyShape | wanikani-api/src/serde_helpers.rs:91-99 | each field of the update body is written exactly when it is `Some` |
| SerdeHelpers.EmptyUpdateBody | wanikani-api/src/serde_helpers.rs:91-104 | an all-`None` update is sent as an empty object under `study_material` |
| SerdeHelpers.UpdateArrayRoundTrip | wanikani-api/src/serde_helpers.rs:91-99 | the three fields given as an array by position, `null` for `None`, read back as the same update body |
| SerdeHelpers.UpdateRoundTrip | wanikani-api/src/serde_helpers.rs:91-99 | deserializing a serialized update body gives it back |
| SerdeHelpers.UpdateWrapperRoundTrip | wanikani-api/src/serde_helpers.rs:101-104 | deserializing a serialized update request gives it back |
| SerdeHelpers.SerializePrefs | wanikani-api/src/serde_helpers.rs:116-123 | a struct named `user` with exactly one field, `preferences`, holding the serialized update |
| SerdeHelpers.DeserializePrefs | wanikani-api/src/serde_helpers.rs:111-131 | null, booleans, numbers and strings are errors, and so are an object without `preferences`, an object that repeats it and an array whose length is not one. Otherwise the result is exactly what that member (or the single element) reads as an `UpdatePreferences` |
| SerdeHelpers.PrefsRoundTrip | wanikani-api/src/serde_helpers.rs:111-131 | deserializing what `update_prefs::serialize` wrote gives the same update |

## Left out

- Sending requests is not modelled, and neither are `async`, reading bodies or the reqwest client. A response is given as values: its status, the body decoded as the expected type or as the API's error record (or the decoding failure), and the `Ratelimit-Reset` header.
- URL encoding is not modelled. The host, percent-encoding and form-encoding done by the url crate are left out. Paths are sequences of segments and queries are sequences of `(key, Option<value>)` entries before encoding.
- The chrono library is not modelled. Timestamps are integer milliseconds, and `to_rfc3339` is the uninterpreted parameter `rfc3339`.
- Panics in `rate_limit_reset` are preconditions (`Client.ResetHeaderUsable`): a header that is not text, and a time outside chrono's range. An `i64` overflow of `reset * 1000` panics only with overflow checks on and wraps without them; it is excluded either way, since chrono's range lies inside `i64`.
- `str::parse::<i64>` is modelled by `Text.ParseI64` (an optional sign, then digits, within `i64`). The rendering of a resource type with `{:?}` is modelled by `WaniKani.ResourceTypeDebugName`.
- The random number generator in `order_subjects` is replaced by its two `u32` draws, which are passed in.
- Serde-derived records are not modelled: the response payloads (assignments, subjects, reviews and the rest), `UpdateUser` and the start-assignment body. The untagged subject variants are left out as well. The struct rules that the modelled deserializers rely on are modelled: skipping unknown members, rejecting repeated fields, and the array form.
- The thin endpoint modules in `client/` (`summary.rs`, `user.rs`, `voice_actor.rs`) are modelled only through the URL each builds (`Endpoints`); `reset.rs` and `level_progression.rs` build theirs the same way and are not modelled. The pagination loop is left out. The examples, logging and `Debug` impls are output formatting and are left out.
- Client-side throttling is not modelled; only the classification of a 429 response is.
- `client.rs` and `client/mod.rs` are two revisions of the same client. One model (`Client`) stands for both, and the table cites `client/mod.rs`; the endpoints follow the `client/` revision. `client.rs` holds the same `rate_limit_reset` at 50-71, `handle_error` at 73-90 and the `do_request` match at 134-137.
- `study_material.rs` at this revision declares only `StudyMaterial`, not the public `CreateStudyMaterial` and `UpdateStudyMaterial` records that `serde_helpers.rs` converts to and from. Their fields are taken from those conversions (`serde_helpers.rs:16-36`, `57-75`), and `StudyMaterialPayloads` defines them.
- User.UpdatePreferencesFrom: `From<Preferences>` and `From<&Preferences>` are one function, since Dafny values have no borrows. That the owned form delegates to the borrowed one therefore holds by construction.
- SubjectFilters.SubjectQueryLists: slugs that contain a comma are joined verbatim, and the server cannot split them back. The round trip (`SubjectQuerySlugsRoundTrip`) is stated only for comma-free slugs.
- AssignmentFilters.AssignmentQueryShape: the entry count is stated as the number of keys present, not as a sum over the fifteen fields. `AssignmentQueryLists`, `AssignmentQueryFlags`, `AssignmentQueryTriStates` and `AssignmentQueryTimestamps` say when each key is present.
