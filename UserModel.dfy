/**
 * The user's WaniKani preferences and the partial update the client sends:
 * the conversion from a full set of preferences to an update, and the
 * update's serialization, which leaves out every field that is `None`.
 */
module User {
  import opened Wrappers
  import opened Text
  import opened WaniKani
  import opened Json

  /** `Preferences`: every setting, all of them present. */
  datatype Preferences = Preferences(
    defaultVoiceActorId: U32,
    extraStudyAutoplayAudio: bool,
    lessonsAutoplayAudio: bool,
    lessonsBatchSize: U32,
    lessonsPresentationOrder: LessonPresentationOrder,
    reviewsAutoplayAudio: bool,
    reviewsDisplaySrsIndicator: bool)

  /** `UpdatePreferences`: the same settings, each one optional. */
  datatype UpdatePreferences = UpdatePreferences(
    defaultVoiceActorId: Option<U32>,
    extraStudyAutoplayAudio: Option<bool>,
    lessonsAutoplayAudio: Option<bool>,
    lessonsBatchSize: Option<U32>,
    lessonsPresentationOrder: Option<LessonPresentationOrder>,
    reviewsAutoplayAudio: Option<bool>,
    reviewsDisplaySrsIndicator: Option<bool>)

  /** The derived `Default`: nothing to update. */
  const DefaultUpdatePreferences: UpdatePreferences :=
    UpdatePreferences(None, None, None, None, None, None, None)

  /** The full preferences an update describes, when it sets every field. */
  function Completed(u: UpdatePreferences): (r: Option<Preferences>)
    ensures r.Some? <==>
      && u.defaultVoiceActorId.Some? && u.extraStudyAutoplayAudio.Some? && u.lessonsAutoplayAudio.Some?
      && u.lessonsBatchSize.Some? && u.lessonsPresentationOrder.Some? && u.reviewsAutoplayAudio.Some?
      && u.reviewsDisplaySrsIndicator.Some?
  {
    match u
    case UpdatePreferences(Some(a), Some(b), Some(c), Some(d), Some(e), Some(f), Some(g)) =>
      Some(Preferences(a, b, c, d, e, f, g))
    case _ => None
  }

  /**
   * `From<&Preferences> for UpdatePreferences` (and `From<Preferences>`,
   * which delegates to it): every field is set, to exactly p's setting.
   */
  function UpdatePreferencesFrom(p: Preferences): (u: UpdatePreferences)
    ensures Completed(u) == Some(p)
  {
    UpdatePreferences(
      Some(p.defaultVoiceActorId), Some(p.extraStudyAutoplayAudio), Some(p.lessonsAutoplayAudio),
      Some(p.lessonsBatchSize), Some(p.lessonsPresentationOrder), Some(p.reviewsAutoplayAudio),
      Some(p.reviewsDisplaySrsIndicator))
  }

  /** Conversely, an update that sets every field is the one made from what it describes. */
  lemma CompletedFrom(u: UpdatePreferences)
    requires Completed(u).Some?
    ensures UpdatePreferencesFrom(Completed(u).value) == u
  {
  }

  /** The conversion loses nothing: distinct preferences give distinct updates. */
  lemma UpdatePreferencesFromInjective(p: Preferences, q: Preferences)
    ensures UpdatePreferencesFrom(p) == UpdatePreferencesFrom(q) ==> p == q
  {
    if UpdatePreferencesFrom(p) == UpdatePreferencesFrom(q) {
      assert Some(p) == Completed(UpdatePreferencesFrom(q));
    }
  }

  // ---------------------------------------------------------------- serialization

  /** `rename_all = "snake_case"` on LessonPresentationOrder. */
  function OrderJson(o: LessonPresentationOrder): Json
  {
    match o
    case AscendingLevelThenSubject => Str("ascending_level_then_subject")
    case Shuffled => Str("shuffled")
    case AscendingLevelThenShuffled => Str("ascending_level_then_shuffled")
  }

  function DeOrder(j: Json): Result<LessonPresentationOrder, string>
  {
    if j == Str("ascending_level_then_subject") then Ok(AscendingLevelThenSubject)
    else if j == Str("shuffled") then Ok(Shuffled)
    else if j == Str("ascending_level_then_shuffled") then Ok(AscendingLevelThenShuffled)
    else Err("unknown variant")
  }

  /** An optional presentation order reads back as written. */
  lemma OptionalOrderRoundTrip(ms: seq<Member>, name: string, x: Option<LessonPresentationOrder>)
    requires Get(ms, name) == Skippable(x, OrderJson)
    ensures OptionalField(ms, name, DeOrder) == Ok(x)
  {
    OptionalFieldRoundTrip(ms, name, x, OrderJson, DeOrder);
  }

  /** The field names, in declaration order. */
  const UpdatePreferencesFields: seq<string> := [
    "default_voice_actor_id", "extra_study_autoplay_audio", "lessons_autoplay_audio", "lessons_batch_size",
    "lessons_presentation_order", "reviews_autoplay_audio", "reviews_display_srs_indicator"]

  /** What each field writes, position by position with the names; None is skipped. */
  function UpdatePreferencesValues(u: UpdatePreferences): (vs: seq<Option<Json>>)
    ensures |vs| == |UpdatePreferencesFields|
  {
    [ Skippable(u.defaultVoiceActorId, U32Json),
      Skippable(u.extraStudyAutoplayAudio, BoolJson),
      Skippable(u.lessonsAutoplayAudio, BoolJson),
      Skippable(u.lessonsBatchSize, U32Json),
      Skippable(u.lessonsPresentationOrder, OrderJson),
      Skippable(u.reviewsAutoplayAudio, BoolJson),
      Skippable(u.reviewsDisplaySrsIndicator, BoolJson) ]
  }

  /**
   * The derived `Serialize` with `skip_serializing_if = "Option::is_none"` on
   * every field: an object whose members are among the seven fields.
   */
  function SerializeUpdatePreferences(u: UpdatePreferences): (j: Json)
    ensures j.Object? && |j.members| <= |UpdatePreferencesFields|
    ensures forall n :: n in Names(j.members) ==> n in UpdatePreferencesFields
  {
    MembersNamesAmong(UpdatePreferencesFields, UpdatePreferencesValues(u));
    Object(Members(UpdatePreferencesFields, UpdatePreferencesValues(u)))
  }

  /**
   * The derived `Deserialize`.  An object is read by field name, each field
   * optional, missing or null meaning None, so an empty object is the
   * default update; no field may appear twice.  An array is read by position and must hold exactly
   * the seven fields.  Any other value is an error.
   */
  function DeserializeUpdatePreferences(j: Json): (r: Result<UpdatePreferences, string>)
    ensures j.Null? || j.Bool? || j.Number? || j.Str? ==> r.Err?
    ensures j.Object? && !NoDuplicateField(j.members, UpdatePreferencesFields) ==> r.Err?
    ensures j.Array? && |j.items| != |UpdatePreferencesFields| ==> r.Err?
    ensures j == Object([]) ==> r == Ok(DefaultUpdatePreferences)
  {
    if j.Object? then
      if NoDuplicateField(j.members, UpdatePreferencesFields) then UpdatePreferencesFromMembers(j.members)
      else Err("duplicate field")
    else if j.Array? then
      if |j.items| == |UpdatePreferencesFields| then UpdatePreferencesFromItems(j.items)
      else Err("invalid length: expected struct UpdatePreferences with 7 elements")
    else Err("invalid type: expected struct UpdatePreferences")
  }

  /** The object form: each field looked up by name. */
  function UpdatePreferencesFromMembers(ms: seq<Member>): Result<UpdatePreferences, string>
  {
    var a :- OptionalField(ms, "default_voice_actor_id", DeU32);
    var b :- OptionalField(ms, "extra_study_autoplay_audio", DeBool);
    var c :- OptionalField(ms, "lessons_autoplay_audio", DeBool);
    var d :- OptionalField(ms, "lessons_batch_size", DeU32);
    var e :- OptionalField(ms, "lessons_presentation_order", DeOrder);
    var f :- OptionalField(ms, "reviews_autoplay_audio", DeBool);
    var g :- OptionalField(ms, "reviews_display_srs_indicator", DeBool);
    Ok(UpdatePreferences(a, b, c, d, e, f, g))
  }

  /** The array form: each field taken by position. */
  function UpdatePreferencesFromItems(items: seq<Json>): Result<UpdatePreferences, string>
    requires |items| == |UpdatePreferencesFields|
  {
    var a :- OptionalValue(items[0], DeU32);
    var b :- OptionalValue(items[1], DeBool);
    var c :- OptionalValue(items[2], DeBool);
    var d :- OptionalValue(items[3], DeU32);
    var e :- OptionalValue(items[4], DeOrder);
    var f :- OptionalValue(items[5], DeBool);
    var g :- OptionalValue(items[6], DeBool);
    Ok(UpdatePreferences(a, b, c, d, e, f, g))
  }

  /** The update in serde's array form: the fields by position, `null` for None. */
  function UpdatePreferencesItems(u: UpdatePreferences): (items: seq<Json>)
    ensures |items| == |UpdatePreferencesFields|
  {
    [ Nullable(u.defaultVoiceActorId, U32Json),
      Nullable(u.extraStudyAutoplayAudio, BoolJson),
      Nullable(u.lessonsAutoplayAudio, BoolJson),
      Nullable(u.lessonsBatchSize, U32Json),
      Nullable(u.lessonsPresentationOrder, OrderJson),
      Nullable(u.reviewsAutoplayAudio, BoolJson),
      Nullable(u.reviewsDisplaySrsIndicator, BoolJson) ]
  }

  /** An optional presentation order, in the array form, reads back as written. */
  lemma NullableOrderRoundTrip(x: Option<LessonPresentationOrder>)
    ensures OptionalValue(Nullable(x, OrderJson), DeOrder) == Ok(x)
  {
    OptionalValueRoundTrip(x, OrderJson, DeOrder);
  }

  /** An update given in the array form reads back as the same update. */
  lemma UpdatePreferencesArrayRoundTrip(u: UpdatePreferences)
    ensures DeserializeUpdatePreferences(Array(UpdatePreferencesItems(u))) == Ok(u)
  {
    NullableU32RoundTrip(u.defaultVoiceActorId);
    NullableBoolRoundTrip(u.extraStudyAutoplayAudio);
    NullableBoolRoundTrip(u.lessonsAutoplayAudio);
    NullableU32RoundTrip(u.lessonsBatchSize);
    NullableOrderRoundTrip(u.lessonsPresentationOrder);
    NullableBoolRoundTrip(u.reviewsAutoplayAudio);
    NullableBoolRoundTrip(u.reviewsDisplaySrsIndicator);
  }

  lemma UpdatePreferencesFieldsDistinct()
    ensures Distinct(UpdatePreferencesFields)
  {
  }

  /** Each field name is written with the field's value, or not at all when the field is None. */
  lemma UpdatePreferencesPositions(u: UpdatePreferences)
    ensures forall i :: 0 <= i < |UpdatePreferencesFields| ==>
      Get(SerializeUpdatePreferences(u).members, UpdatePreferencesFields[i]) == UpdatePreferencesValues(u)[i]
  {
    UpdatePreferencesFieldsDistinct();
    forall i | 0 <= i < |UpdatePreferencesFields|
      ensures Get(SerializeUpdatePreferences(u).members, UpdatePreferencesFields[i]) == UpdatePreferencesValues(u)[i]
    {
      MembersGet(UpdatePreferencesFields, UpdatePreferencesValues(u), i);
    }
  }

  /**
   * The written field set is exactly the set of fields that are Some: a None
   * field is absent rather than null, and nothing else is written.
   */
  lemma UpdatePreferencesSerializedNames(u: UpdatePreferences)
    ensures var ns := Names(SerializeUpdatePreferences(u).members);
      && ("default_voice_actor_id" in ns <==> u.defaultVoiceActorId.Some?)
      && ("extra_study_autoplay_audio" in ns <==> u.extraStudyAutoplayAudio.Some?)
      && ("lessons_autoplay_audio" in ns <==> u.lessonsAutoplayAudio.Some?)
      && ("lessons_batch_size" in ns <==> u.lessonsBatchSize.Some?)
      && ("lessons_presentation_order" in ns <==> u.lessonsPresentationOrder.Some?)
      && ("reviews_autoplay_audio" in ns <==> u.reviewsAutoplayAudio.Some?)
      && ("reviews_display_srs_indicator" in ns <==> u.reviewsDisplaySrsIndicator.Some?)
      && (forall n :: n in ns ==> n in UpdatePreferencesFields)
  {
    UpdatePreferencesPositions(u);
    MembersNamesAmong(UpdatePreferencesFields, UpdatePreferencesValues(u));
    var names := UpdatePreferencesFields;
    assert names[0] == "default_voice_actor_id" && names[1] == "extra_study_autoplay_audio"
      && names[2] == "lessons_autoplay_audio" && names[3] == "lessons_batch_size"
      && names[4] == "lessons_presentation_order" && names[5] == "reviews_autoplay_audio"
      && names[6] == "reviews_display_srs_indicator";
  }

  /** The default update writes an empty object. */
  lemma DefaultUpdatePreferencesEmpty()
    ensures SerializeUpdatePreferences(DefaultUpdatePreferences) == Object([])
  {
    MembersAllAbsent(UpdatePreferencesFields, UpdatePreferencesValues(DefaultUpdatePreferences));
  }

  /** An update made from full preferences writes all seven fields. */
  lemma UpdatePreferencesFromWritesAll(p: Preferences)
    ensures Names(SerializeUpdatePreferences(UpdatePreferencesFrom(p)).members) == UpdatePreferencesFields
  {
    MembersAllPresent(UpdatePreferencesFields, UpdatePreferencesValues(UpdatePreferencesFrom(p)));
  }

  /**
   * Any members holding, under each field name, what that field of u
   * writes, read by name as u.
   */
  lemma UpdatePreferencesFromMembersReadBack(ms: seq<Member>, u: UpdatePreferences)
    requires forall i :: 0 <= i < |UpdatePreferencesFields| ==>
      Get(ms, UpdatePreferencesFields[i]) == UpdatePreferencesValues(u)[i]
    ensures UpdatePreferencesFromMembers(ms) == Ok(u)
  {
    var names, vals := UpdatePreferencesFields, UpdatePreferencesValues(u);
    assert Get(ms, names[0]) == vals[0];
    OptionalU32RoundTrip(ms, names[0], u.defaultVoiceActorId);
    assert Get(ms, names[1]) == vals[1];
    OptionalBoolRoundTrip(ms, names[1], u.extraStudyAutoplayAudio);
    assert Get(ms, names[2]) == vals[2];
    OptionalBoolRoundTrip(ms, names[2], u.lessonsAutoplayAudio);
    assert Get(ms, names[3]) == vals[3];
    OptionalU32RoundTrip(ms, names[3], u.lessonsBatchSize);
    assert Get(ms, names[4]) == vals[4];
    OptionalOrderRoundTrip(ms, names[4], u.lessonsPresentationOrder);
    assert Get(ms, names[5]) == vals[5];
    OptionalBoolRoundTrip(ms, names[5], u.reviewsAutoplayAudio);
    assert Get(ms, names[6]) == vals[6];
    OptionalBoolRoundTrip(ms, names[6], u.reviewsDisplaySrsIndicator);
  }

  /**
   * Any object whose members hold, under each field name, what that field
   * of u writes, and repeat no field, reads back as u.
   */
  lemma UpdatePreferencesReadBack(ms: seq<Member>, u: UpdatePreferences)
    requires NoDuplicateField(ms, UpdatePreferencesFields)
    requires forall i :: 0 <= i < |UpdatePreferencesFields| ==>
      Get(ms, UpdatePreferencesFields[i]) == UpdatePreferencesValues(u)[i]
    ensures DeserializeUpdatePreferences(Object(ms)) == Ok(u)
  {
    UpdatePreferencesFromMembersReadBack(ms, u);
  }

  /** Reading back what was written gives the same update. */
  lemma UpdatePreferencesRoundTrip(u: UpdatePreferences)
    ensures DeserializeUpdatePreferences(SerializeUpdatePreferences(u)) == Ok(u)
  {
    UpdatePreferencesPositions(u);
    UpdatePreferencesFieldsDistinct();
    MembersNoDuplicateField(UpdatePreferencesFields, UpdatePreferencesValues(u));
    UpdatePreferencesReadBack(SerializeUpdatePreferences(u).members, u);
  }
}
