/**
 * The public study-material payloads a caller builds to create or update a
 * study material.  Their field lists are the ones the conversions in the
 * serde helpers copy.
 */
module StudyMaterialPayloads {
  import opened Wrappers
  import opened WaniKani

  datatype CreateStudyMaterial = CreateStudyMaterial(
    subjectId: Id,
    meaningNote: Option<string>,
    meaningSynonyms: Option<seq<string>>,
    readingNote: Option<string>)

  datatype UpdateStudyMaterial = UpdateStudyMaterial(
    meaningNote: Option<string>,
    readingNote: Option<string>,
    meaningSynonyms: Option<seq<string>>)
}

/**
 * The serde helpers: private mirrors of the study-material payloads, which
 * carry the JSON layout (the body nested under `study_material`, `None`
 * fields left out), the conversions between private and public forms, and
 * `update_prefs`, which nests an UpdatePreferences under `preferences`.
 */
module SerdeHelpers {
  import opened Wrappers
  import opened Text
  import opened WaniKani
  import opened Json
  import opened User
  import Public = StudyMaterialPayloads

  // ---------------------------------------------------------------- create

  /** The private create body, its fields in the order it declares them. */
  datatype CreateStudyMaterial = CreateStudyMaterial(
    subjectId: Id,
    meaningNote: Option<string>,
    readingNote: Option<string>,
    meaningSynonyms: Option<seq<string>>)

  /** The request body: the create body nested under `study_material`. */
  datatype CreateStudyMaterialWrapper = CreateStudyMaterialWrapper(studyMaterial: CreateStudyMaterial)

  /**
   * A private and a public create record that agree field by field, each
   * field matched by its name: the two records declare them in different
   * orders.
   */
  predicate SameCreate(c: CreateStudyMaterial, p: Public.CreateStudyMaterial)
  {
    && c.subjectId == p.subjectId && c.meaningNote == p.meaningNote
    && c.readingNote == p.readingNote && c.meaningSynonyms == p.meaningSynonyms
  }

  /** `From<CreateStudyMaterial> for study_material::CreateStudyMaterial`: every field carried by name. */
  function CreateToPublic(c: CreateStudyMaterial): (p: Public.CreateStudyMaterial)
    ensures SameCreate(c, p)
  {
    Public.CreateStudyMaterial(c.subjectId, c.meaningNote, c.meaningSynonyms, c.readingNote)
  }

  /** `From<study_material::CreateStudyMaterial> for CreateStudyMaterial`: every field carried by name. */
  function CreateFromPublic(p: Public.CreateStudyMaterial): (c: CreateStudyMaterial)
    ensures SameCreate(c, p)
  {
    CreateStudyMaterial(p.subjectId, p.meaningNote, p.readingNote, p.meaningSynonyms)
  }

  /** The two conversions are inverse to each other: every field is carried across. */
  lemma CreateConversionsInverse(p: Public.CreateStudyMaterial, c: CreateStudyMaterial)
    ensures CreateToPublic(CreateFromPublic(p)) == p
    ensures CreateFromPublic(CreateToPublic(c)) == c
  {
  }

  /** `From<CreateStudyMaterialWrapper> for study_material::CreateStudyMaterial`: the wrapped body's fields. */
  function UnwrapCreate(w: CreateStudyMaterialWrapper): (p: Public.CreateStudyMaterial)
    ensures SameCreate(w.studyMaterial, p)
  {
    CreateToPublic(w.studyMaterial)
  }

  /** `From<study_material::CreateStudyMaterial> for CreateStudyMaterialWrapper`: the fields, wrapped. */
  function WrapCreate(p: Public.CreateStudyMaterial): (w: CreateStudyMaterialWrapper)
    ensures SameCreate(w.studyMaterial, p)
  {
    CreateStudyMaterialWrapper(CreateFromPublic(p))
  }

  /** Wrapping and unwrapping undo each other. */
  lemma WrapCreateInverse(p: Public.CreateStudyMaterial, w: CreateStudyMaterialWrapper)
    ensures UnwrapCreate(WrapCreate(p)) == p
    ensures WrapCreate(UnwrapCreate(w)) == w
  {
    CreateConversionsInverse(p, w.studyMaterial);
  }

  const CreateFields: seq<string> := ["subject_id", "meaning_note", "reading_note", "meaning_synonyms"]

  /** What each field writes: `subject_id` always, the others only when Some. */
  function CreateValues(c: CreateStudyMaterial): (vs: seq<Option<Json>>)
    ensures |vs| == |CreateFields|
  {
    [ Some(U64Json(c.subjectId)),
      Skippable(c.meaningNote, StrJson),
      Skippable(c.readingNote, StrJson),
      Skippable(c.meaningSynonyms, StringsJson) ]
  }

  /**
   * The derived `Serialize` of the create body: an object that starts with
   * `subject_id` and holds only the create fields.
   */
  function SerializeCreate(c: CreateStudyMaterial): (j: Json)
    ensures j.Object? && |j.members| > 0 && j.members[0] == ("subject_id", U64Json(c.subjectId))
    ensures forall n :: n in Names(j.members) ==> n in CreateFields
  {
    MembersNamesAmong(CreateFields, CreateValues(c));
    Object(Members(CreateFields, CreateValues(c)))
  }

  /** The derived `Serialize` of the wrapper: one member, `study_material`, holding the body. */
  function SerializeCreateWrapper(w: CreateStudyMaterialWrapper): (j: Json)
    ensures j.Object? && Names(j.members) == ["study_material"]
    ensures Get(j.members, "study_material") == Some(SerializeCreate(w.studyMaterial))
  {
    Object([("study_material", SerializeCreate(w.studyMaterial))])
  }

  /** The one field of both study-material wrappers. */
  const WrapperFields: seq<string> := ["study_material"]

  /**
   * The derived `Deserialize` of the create body.  An object is read by
   * field name: `subject_id` is required, the other fields may be missing,
   * and none may appear twice.
   * An array is read by position and must hold exactly the four fields.
   * Any other value is an error.  A body read successfully has its id from
   * `subject_id`, or from the first element.
   */
  function DeserializeCreate(j: Json): (r: Result<CreateStudyMaterial, string>)
    ensures j.Null? || j.Bool? || j.Number? || j.Str? ==> r.Err?
    ensures j.Object? && "subject_id" !in Names(j.members) ==> r.Err?
    ensures j.Object? && !NoDuplicateField(j.members, CreateFields) ==> r.Err?
    ensures j.Array? && |j.items| != |CreateFields| ==> r.Err?
    ensures r.Ok? && j.Object? ==> Get(j.members, "subject_id") == Some(U64Json(r.value.subjectId))
    ensures r.Ok? && j.Array? ==> |j.items| == |CreateFields| && j.items[0] == U64Json(r.value.subjectId)
  {
    if j.Object? then
      if NoDuplicateField(j.members, CreateFields) then CreateFromMembers(j.members)
      else Err("duplicate field")
    else if j.Array? then
      if |j.items| == |CreateFields| then CreateFromItems(j.items)
      else Err("invalid length: expected struct CreateStudyMaterial with 4 elements")
    else Err("invalid type: expected struct CreateStudyMaterial")
  }

  /** The object form: each field looked up by name. */
  function CreateFromMembers(ms: seq<Member>): (r: Result<CreateStudyMaterial, string>)
    ensures r.Ok? ==> Get(ms, "subject_id") == Some(U64Json(r.value.subjectId))
  {
    var subjectId :- Field(ms, "subject_id", DeU64);
    var meaningNote :- OptionalField(ms, "meaning_note", DeStr);
    var readingNote :- OptionalField(ms, "reading_note", DeStr);
    var meaningSynonyms :- OptionalField(ms, "meaning_synonyms", DeStrings);
    Ok(CreateStudyMaterial(subjectId, meaningNote, readingNote, meaningSynonyms))
  }

  /** The array form: each field taken by position. */
  function CreateFromItems(items: seq<Json>): (r: Result<CreateStudyMaterial, string>)
    requires |items| == |CreateFields|
    ensures r.Ok? ==> items[0] == U64Json(r.value.subjectId)
  {
    var subjectId :- DeU64(items[0]);
    var meaningNote :- OptionalValue(items[1], DeStr);
    var readingNote :- OptionalValue(items[2], DeStr);
    var meaningSynonyms :- OptionalValue(items[3], DeStrings);
    Ok(CreateStudyMaterial(subjectId, meaningNote, readingNote, meaningSynonyms))
  }

  /** The create body in serde's array form: the fields by position, `null` for None. */
  function CreateItems(c: CreateStudyMaterial): (items: seq<Json>)
    ensures |items| == |CreateFields|
  {
    [ U64Json(c.subjectId),
      Nullable(c.meaningNote, StrJson),
      Nullable(c.readingNote, StrJson),
      Nullable(c.meaningSynonyms, StringsJson) ]
  }

  /**
   * The derived `Deserialize` of the wrapper.  Its one field,
   * `study_material`, is required in the object form and is the single
   * element of the array form; the wrapper holds exactly what that value
   * reads as, and reading fails exactly when the value does not read.
   */
  function DeserializeCreateWrapper(j: Json): (r: Result<CreateStudyMaterialWrapper, string>)
    ensures j.Null? || j.Bool? || j.Number? || j.Str? ==> r.Err?
    ensures j.Object? && "study_material" !in Names(j.members) ==> r.Err?
    ensures j.Object? && !NoDuplicateField(j.members, WrapperFields) ==> r.Err?
    ensures j.Array? && |j.items| != 1 ==> r.Err?
    ensures j.Object? && "study_material" in Names(j.members) && NoDuplicateField(j.members, WrapperFields) ==>
      match DeserializeCreate(Get(j.members, "study_material").value)
      case Ok(body) => r == Ok(CreateStudyMaterialWrapper(body))
      case Err(_) => r.Err?
    ensures j.Array? && |j.items| == 1 ==>
      match DeserializeCreate(j.items[0])
      case Ok(body) => r == Ok(CreateStudyMaterialWrapper(body))
      case Err(_) => r.Err?
  {
    if j.Object? then
      if !NoDuplicateField(j.members, WrapperFields) then Err("duplicate field `study_material`")
      else
        var body :- Field(j.members, "study_material", DeserializeCreate);
        Ok(CreateStudyMaterialWrapper(body))
    else if j.Array? then
      if |j.items| != 1 then Err("invalid length: expected struct CreateStudyMaterialWrapper with 1 element")
      else
        var body :- DeserializeCreate(j.items[0]);
        Ok(CreateStudyMaterialWrapper(body))
    else Err("invalid type: expected struct CreateStudyMaterialWrapper")
  }

  /** The create body holds each optional field exactly when it is Some. */
  lemma CreateBodyShape(c: CreateStudyMaterial)
    ensures var ms := SerializeCreate(c).members;
      && ("meaning_note" in Names(ms) <==> c.meaningNote.Some?)
      && ("reading_note" in Names(ms) <==> c.readingNote.Some?)
      && ("meaning_synonyms" in Names(ms) <==> c.meaningSynonyms.Some?)
  {
    var names, vals := CreateFields, CreateValues(c);
    MembersGet(names, vals, 1);
    MembersGet(names, vals, 2);
    MembersGet(names, vals, 3);
  }

  /** Reading back a written create body gives the same body. */
  lemma CreateRoundTrip(c: CreateStudyMaterial)
    ensures DeserializeCreate(SerializeCreate(c)) == Ok(c)
  {
    var names, vals := CreateFields, CreateValues(c);
    var ms := SerializeCreate(c).members;
    MembersNoDuplicateField(names, vals);
    MembersGet(names, vals, 0);
    FieldRoundTrip(ms, names[0], c.subjectId, U64Json, DeU64);
    MembersGet(names, vals, 1);
    OptionalStrRoundTrip(ms, names[1], c.meaningNote);
    MembersGet(names, vals, 2);
    OptionalStrRoundTrip(ms, names[2], c.readingNote);
    MembersGet(names, vals, 3);
    OptionalStringsRoundTrip(ms, names[3], c.meaningSynonyms);
  }

  /** A create body given in the array form reads back as the same body. */
  lemma CreateArrayRoundTrip(c: CreateStudyMaterial)
    ensures DeserializeCreate(Array(CreateItems(c))) == Ok(c)
  {
    NullableStrRoundTrip(c.meaningNote);
    NullableStrRoundTrip(c.readingNote);
    NullableStringsRoundTrip(c.meaningSynonyms);
  }

  /** Reading back a written request body gives the same wrapper. */
  lemma CreateWrapperRoundTrip(w: CreateStudyMaterialWrapper)
    ensures DeserializeCreateWrapper(SerializeCreateWrapper(w)) == Ok(w)
  {
    CreateRoundTrip(w.studyMaterial);
    FieldRoundTrip(SerializeCreateWrapper(w).members, "study_material", w.studyMaterial,
                   SerializeCreate, DeserializeCreate);
  }

  // ---------------------------------------------------------------- update

  /** The private update body: three optional fields. */
  datatype UpdateStudyMaterial = UpdateStudyMaterial(
    meaningNote: Option<string>,
    readingNote: Option<string>,
    meaningSynonyms: Option<seq<string>>)

  /** The request body: the update body nested under `study_material`. */
  datatype UpdateStudyMaterialWrapper = UpdateStudyMaterialWrapper(studyMaterial: UpdateStudyMaterial)

  /** A private and a public update record that agree field by field. */
  predicate SameUpdate(u: UpdateStudyMaterial, p: Public.UpdateStudyMaterial)
  {
    u.meaningNote == p.meaningNote && u.readingNote == p.readingNote && u.meaningSynonyms == p.meaningSynonyms
  }

  /** `From<UpdateStudyMaterial> for study_material::UpdateStudyMaterial`: every field carried by name. */
  function UpdateToPublic(u: UpdateStudyMaterial): (p: Public.UpdateStudyMaterial)
    ensures SameUpdate(u, p)
  {
    Public.UpdateStudyMaterial(u.meaningNote, u.readingNote, u.meaningSynonyms)
  }

  /** `From<study_material::UpdateStudyMaterial> for UpdateStudyMaterial`: every field carried by name. */
  function UpdateFromPublic(p: Public.UpdateStudyMaterial): (u: UpdateStudyMaterial)
    ensures SameUpdate(u, p)
  {
    UpdateStudyMaterial(p.meaningNote, p.readingNote, p.meaningSynonyms)
  }

  /** The two conversions are inverse to each other. */
  lemma UpdateConversionsInverse(p: Public.UpdateStudyMaterial, u: UpdateStudyMaterial)
    ensures UpdateToPublic(UpdateFromPublic(p)) == p
    ensures UpdateFromPublic(UpdateToPublic(u)) == u
  {
  }

  /** `From<UpdateStudyMaterialWrapper> for study_material::UpdateStudyMaterial`: the wrapped body's fields. */
  function UnwrapUpdate(w: UpdateStudyMaterialWrapper): (p: Public.UpdateStudyMaterial)
    ensures SameUpdate(w.studyMaterial, p)
  {
    UpdateToPublic(w.studyMaterial)
  }

  /** `From<study_material::UpdateStudyMaterial> for UpdateStudyMaterialWrapper`: the fields, wrapped. */
  function WrapUpdate(p: Public.UpdateStudyMaterial): (w: UpdateStudyMaterialWrapper)
    ensures SameUpdate(w.studyMaterial, p)
  {
    UpdateStudyMaterialWrapper(UpdateFromPublic(p))
  }

  /** Wrapping and unwrapping undo each other. */
  lemma WrapUpdateInverse(p: Public.UpdateStudyMaterial, w: UpdateStudyMaterialWrapper)
    ensures UnwrapUpdate(WrapUpdate(p)) == p
    ensures WrapUpdate(UnwrapUpdate(w)) == w
  {
    UpdateConversionsInverse(p, w.studyMaterial);
  }

  const UpdateFields: seq<string> := ["meaning_note", "reading_note", "meaning_synonyms"]

  function UpdateValues(u: UpdateStudyMaterial): (vs: seq<Option<Json>>)
    ensures |vs| == |UpdateFields|
  {
    [ Skippable(u.meaningNote, StrJson),
      Skippable(u.readingNote, StrJson),
      Skippable(u.meaningSynonyms, StringsJson) ]
  }

  /** The derived `Serialize` of the update body: an object holding only the update fields. */
  function SerializeUpdate(u: UpdateStudyMaterial): (j: Json)
    ensures j.Object? && |j.members| <= |UpdateFields|
    ensures forall n :: n in Names(j.members) ==> n in UpdateFields
  {
    MembersNamesAmong(UpdateFields, UpdateValues(u));
    Object(Members(UpdateFields, UpdateValues(u)))
  }

  /** The derived `Serialize` of the wrapper: one member, `study_material`, holding the body. */
  function SerializeUpdateWrapper(w: UpdateStudyMaterialWrapper): (j: Json)
    ensures j.Object? && Names(j.members) == ["study_material"]
    ensures Get(j.members, "study_material") == Some(SerializeUpdate(w.studyMaterial))
  {
    Object([("study_material", SerializeUpdate(w.studyMaterial))])
  }

  /**
   * The derived `Deserialize` of the update body.  An object is read by
   * field name, every field optional, so an empty object is the update that
   * changes nothing; no field may appear twice.  An array is read by position and must hold exactly
   * the three fields.  Any other value is an error.
   */
  function DeserializeUpdate(j: Json): (r: Result<UpdateStudyMaterial, string>)
    ensures j.Null? || j.Bool? || j.Number? || j.Str? ==> r.Err?
    ensures j.Object? && !NoDuplicateField(j.members, UpdateFields) ==> r.Err?
    ensures j.Array? && |j.items| != |UpdateFields| ==> r.Err?
    ensures j == Object([]) ==> r == Ok(UpdateStudyMaterial(None, None, None))
  {
    if j.Object? then
      if NoDuplicateField(j.members, UpdateFields) then UpdateFromMembers(j.members)
      else Err("duplicate field")
    else if j.Array? then
      if |j.items| == |UpdateFields| then UpdateFromItems(j.items)
      else Err("invalid length: expected struct UpdateStudyMaterial with 3 elements")
    else Err("invalid type: expected struct UpdateStudyMaterial")
  }

  /** The object form: each field looked up by name. */
  function UpdateFromMembers(ms: seq<Member>): Result<UpdateStudyMaterial, string>
  {
    var meaningNote :- OptionalField(ms, "meaning_note", DeStr);
    var readingNote :- OptionalField(ms, "reading_note", DeStr);
    var meaningSynonyms :- OptionalField(ms, "meaning_synonyms", DeStrings);
    Ok(UpdateStudyMaterial(meaningNote, readingNote, meaningSynonyms))
  }

  /** The array form: each field taken by position. */
  function UpdateFromItems(items: seq<Json>): Result<UpdateStudyMaterial, string>
    requires |items| == |UpdateFields|
  {
    var meaningNote :- OptionalValue(items[0], DeStr);
    var readingNote :- OptionalValue(items[1], DeStr);
    var meaningSynonyms :- OptionalValue(items[2], DeStrings);
    Ok(UpdateStudyMaterial(meaningNote, readingNote, meaningSynonyms))
  }

  /** The update body in serde's array form: the fields by position, `null` for None. */
  function UpdateItems(u: UpdateStudyMaterial): (items: seq<Json>)
    ensures |items| == |UpdateFields|
  {
    [ Nullable(u.meaningNote, StrJson),
      Nullable(u.readingNote, StrJson),
      Nullable(u.meaningSynonyms, StringsJson) ]
  }

  /**
   * The derived `Deserialize` of the wrapper.  Its one field,
   * `study_material`, is required in the object form and is the single
   * element of the array form; the wrapper holds exactly what that value
   * reads as, and reading fails exactly when the value does not read.
   */
  function DeserializeUpdateWrapper(j: Json): (r: Result<UpdateStudyMaterialWrapper, string>)
    ensures j.Null? || j.Bool? || j.Number? || j.Str? ==> r.Err?
    ensures j.Object? && "study_material" !in Names(j.members) ==> r.Err?
    ensures j.Object? && !NoDuplicateField(j.members, WrapperFields) ==> r.Err?
    ensures j.Array? && |j.items| != 1 ==> r.Err?
    ensures j.Object? && "study_material" in Names(j.members) && NoDuplicateField(j.members, WrapperFields) ==>
      match DeserializeUpdate(Get(j.members, "study_material").value)
      case Ok(body) => r == Ok(UpdateStudyMaterialWrapper(body))
      case Err(_) => r.Err?
    ensures j.Array? && |j.items| == 1 ==>
      match DeserializeUpdate(j.items[0])
      case Ok(body) => r == Ok(UpdateStudyMaterialWrapper(body))
      case Err(_) => r.Err?
  {
    if j.Object? then
      if !NoDuplicateField(j.members, WrapperFields) then Err("duplicate field `study_material`")
      else
        var body :- Field(j.members, "study_material", DeserializeUpdate);
        Ok(UpdateStudyMaterialWrapper(body))
    else if j.Array? then
      if |j.items| != 1 then Err("invalid length: expected struct UpdateStudyMaterialWrapper with 1 element")
      else
        var body :- DeserializeUpdate(j.items[0]);
        Ok(UpdateStudyMaterialWrapper(body))
    else Err("invalid type: expected struct UpdateStudyMaterialWrapper")
  }

  /** The update body holds each field exactly when it is Some. */
  lemma UpdateBodyShape(u: UpdateStudyMaterial)
    ensures var ns := Names(SerializeUpdate(u).members);
      && ("meaning_note" in ns <==> u.meaningNote.Some?)
      && ("reading_note" in ns <==> u.readingNote.Some?)
      && ("meaning_synonyms" in ns <==> u.meaningSynonyms.Some?)
  {
    var names, vals := UpdateFields, UpdateValues(u);
    MembersGet(names, vals, 0);
    MembersGet(names, vals, 1);
    MembersGet(names, vals, 2);
  }

  /** An update that changes nothing is sent as an empty object under `study_material`. */
  lemma EmptyUpdateBody()
    ensures SerializeUpdateWrapper(WrapUpdate(Public.UpdateStudyMaterial(None, None, None)))
      == Object([("study_material", Object([]))])
  {
    var u := UpdateFromPublic(Public.UpdateStudyMaterial(None, None, None));
    MembersAllAbsent(UpdateFields, UpdateValues(u));
  }

  /** Reading back a written update body gives the same body. */
  lemma UpdateRoundTrip(u: UpdateStudyMaterial)
    ensures DeserializeUpdate(SerializeUpdate(u)) == Ok(u)
  {
    var names, vals := UpdateFields, UpdateValues(u);
    var ms := SerializeUpdate(u).members;
    MembersNoDuplicateField(names, vals);
    MembersGet(names, vals, 0);
    OptionalStrRoundTrip(ms, names[0], u.meaningNote);
    MembersGet(names, vals, 1);
    OptionalStrRoundTrip(ms, names[1], u.readingNote);
    MembersGet(names, vals, 2);
    OptionalStringsRoundTrip(ms, names[2], u.meaningSynonyms);
  }

  /** An update body given in the array form reads back as the same body. */
  lemma UpdateArrayRoundTrip(u: UpdateStudyMaterial)
    ensures DeserializeUpdate(Array(UpdateItems(u))) == Ok(u)
  {
    NullableStrRoundTrip(u.meaningNote);
    NullableStrRoundTrip(u.readingNote);
    NullableStringsRoundTrip(u.meaningSynonyms);
  }

  /** Reading back a written request body gives the same wrapper. */
  lemma UpdateWrapperRoundTrip(w: UpdateStudyMaterialWrapper)
    ensures DeserializeUpdateWrapper(SerializeUpdateWrapper(w)) == Ok(w)
  {
    UpdateRoundTrip(w.studyMaterial);
    FieldRoundTrip(SerializeUpdateWrapper(w).members, "study_material", w.studyMaterial,
                   SerializeUpdate, DeserializeUpdate);
  }

  // ---------------------------------------------------------------- update_prefs

  /** What `serialize_struct` hands the serializer: a struct name and its fields in order. */
  datatype SerializedStruct = SerializedStruct(name: string, fields: seq<Member>)

  /** serde_json writes a struct as an object of its fields; the struct name is not written. */
  function StructJson(s: SerializedStruct): Json
  {
    Object(s.fields)
  }

  /** `update_prefs::serialize`: a struct `user` with the one field `preferences`. */
  function SerializePrefs(u: UpdatePreferences): (s: SerializedStruct)
    ensures s.name == "user" && |s.fields| == 1 && Names(s.fields) == ["preferences"]
    ensures Get(s.fields, "preferences") == Some(SerializeUpdatePreferences(u))
  {
    SerializedStruct("user", [("preferences", SerializeUpdatePreferences(u))])
  }

  /**
   * `update_prefs::deserialize`: read the derived `Wrapper`, then take its
   * `preferences`.  That field is required, once, in the object form and is the
   * single element of the array form; the result is exactly what that
   * value reads as, and reading fails exactly when the value does not read.
   */
  function DeserializePrefs(j: Json): (r: Result<UpdatePreferences, string>)
    ensures j.Null? || j.Bool? || j.Number? || j.Str? ==> r.Err?
    ensures j.Object? && "preferences" !in Names(j.members) ==> r.Err?
    ensures j.Object? && !NoDuplicateField(j.members, ["preferences"]) ==> r.Err?
    ensures j.Array? && |j.items| != 1 ==> r.Err?
    ensures j.Object? && "preferences" in Names(j.members) && NoDuplicateField(j.members, ["preferences"]) ==>
      r == DeserializeUpdatePreferences(Get(j.members, "preferences").value)
    ensures j.Array? && |j.items| == 1 ==> r == DeserializeUpdatePreferences(j.items[0])
  {
    if j.Object? then
      if !NoDuplicateField(j.members, ["preferences"]) then Err("duplicate field `preferences`")
      else
        var prefs :- Field(j.members, "preferences", DeserializeUpdatePreferences);
        Ok(prefs)
    else if j.Array? then
      if |j.items| != 1 then Err("invalid length: expected struct Wrapper with 1 element")
      else
        var prefs :- DeserializeUpdatePreferences(j.items[0]);
        Ok(prefs)
    else Err("invalid type: expected struct Wrapper")
  }

  /** Deserializing what `update_prefs::serialize` wrote gives back the same update. */
  lemma PrefsRoundTrip(u: UpdatePreferences)
    ensures DeserializePrefs(StructJson(SerializePrefs(u))) == Ok(u)
  {
    UpdatePreferencesRoundTrip(u);
    FieldRoundTrip(SerializePrefs(u).fields, "preferences", u,
                   SerializeUpdatePreferences, DeserializeUpdatePreferences);
  }
}
