/**
 * The crate root: identifiers and timestamps, the subject and resource type
 * tags and the conversions between them, the lesson presentation order and
 * its comparator, the API's own error record, and the client-side error
 * taxonomy.
 */
module WaniKani {
  import opened Wrappers
  import opened Text

  /** A UTC instant, kept as whole milliseconds since the Unix epoch. */
  type Timestamp = int

  /** Resource identifiers are `u64`. */
  type Id = U64

  /** The API revision sent with every request. */
  const ApiVersion: string := "20170710"

  /** The path of the API's base URL `https://api.wanikani.com/v2`; the origin is not modelled. */
  const BasePath: seq<string> := ["v2"]

  // ---------------------------------------------------------------- subject types

  datatype SubjectType = Radical | Kanji | Vocabulary | KanaVocabulary

  /**
   * `Display for SubjectType`: the snake_case name the API uses in query
   * values.  Every name reads back as its subject type, and none contains a
   * comma, so a comma-joined list of them can be split again.
   */
  function SubjectTypeName(t: SubjectType): (s: string)
    ensures SubjectTypeFromName(s) == Some(t)
    ensures ',' !in s
  {
    match t
    case KanaVocabulary => "kana_vocabulary"
    case Kanji => "kanji"
    case Radical => "radical"
    case Vocabulary => "vocabulary"
  }

  /** The inverse of SubjectTypeName, the way the server reads a type name. */
  function SubjectTypeFromName(s: string): Option<SubjectType>
  {
    if s == "radical" then Some(Radical)
    else if s == "kanji" then Some(Kanji)
    else if s == "vocabulary" then Some(Vocabulary)
    else if s == "kana_vocabulary" then Some(KanaVocabulary)
    else None
  }

  /** The display names of a list of subject types, in order. */
  function SubjectTypeNames(ts: seq<SubjectType>): (r: seq<string>)
    ensures |r| == |ts| && forall i :: 0 <= i < |ts| ==> r[i] == SubjectTypeName(ts[i])
  {
    if ts == [] then [] else [SubjectTypeName(ts[0])] + SubjectTypeNames(ts[1..])
  }

  /** The comma-joined display names, as the filters send a subject-type list. */
  function SubjectTypeList(ts: seq<SubjectType>): string
  {
    Join(SubjectTypeNames(ts), ',')
  }

  function SubjectTypesFromNames(parts: seq<string>): Option<seq<SubjectType>>
  {
    if parts == [] then Some([])
    else match (SubjectTypeFromName(parts[0]), SubjectTypesFromNames(parts[1..]))
      case (Some(t), Some(rest)) => Some([t] + rest)
      case _ => None
  }

  function ParseSubjectTypeList(s: string): Option<seq<SubjectType>>
  {
    SubjectTypesFromNames(Split(s, ','))
  }

  lemma {:induction false} SubjectTypesFromTheirNames(ts: seq<SubjectType>)
    ensures SubjectTypesFromNames(SubjectTypeNames(ts)) == Some(ts)
  {
    if ts != [] {
      SubjectTypesFromTheirNames(ts[1..]);
      assert SubjectTypeNames(ts)[1..] == SubjectTypeNames(ts[1..]);
      assert [ts[0]] + ts[1..] == ts;
    }
  }

  /** A non-empty subject-type list survives the comma join. */
  lemma SubjectTypeListRoundTrip(ts: seq<SubjectType>)
    requires |ts| > 0
    ensures ParseSubjectTypeList(SubjectTypeList(ts)) == Some(ts)
  {
    var names := SubjectTypeNames(ts);
    SplitJoin(names, ',');
    SubjectTypesFromTheirNames(ts);
  }

  // ---------------------------------------------------------------- resource types

  datatype ResourceType =
    | Collection | LevelProgression | Reset | ReviewStatistic | StudyMaterial
    | RadicalResource | KanjiResource | VocabularyResource | KanaVocabularyResource
    | Report | UserResource | VoiceActor

  /** The variant name `{:?}` prints for a resource type: a capitalised identifier. */
  function ResourceTypeDebugName(r: ResourceType): (s: string)
    ensures |s| > 0 && 'A' <= s[0] <= 'Z'
  {
    match r
    case Collection => "Collection"
    case LevelProgression => "LevelProgression"
    case Reset => "Reset"
    case ReviewStatistic => "ReviewStatistic"
    case StudyMaterial => "StudyMaterial"
    case RadicalResource => "Radical"
    case KanjiResource => "Kanji"
    case VocabularyResource => "Vocabulary"
    case KanaVocabularyResource => "KanaVocabulary"
    case Report => "Report"
    case UserResource => "User"
    case VoiceActor => "VoiceActor"
  }

  /** No two resource types print the same name. */
  lemma ResourceTypeDebugNameInjective(a: ResourceType, b: ResourceType)
    ensures ResourceTypeDebugName(a) == ResourceTypeDebugName(b) ==> a == b
  {
  }

  /** The error of a failed resource-to-subject conversion: the resource type that is not a subject. */
  datatype ConversionError = ConversionError(resource: ResourceType)

  const ConversionErrorSuffix: string := " is not a subject type."

  /** `Display for ConversionError`: the resource type's name, then the fixed suffix. */
  function ConversionErrorText(e: ConversionError): (s: string)
    ensures |s| > |ConversionErrorSuffix|
    ensures s[..|s| - |ConversionErrorSuffix|] == ResourceTypeDebugName(e.resource)
    ensures s[|s| - |ConversionErrorSuffix|..] == ConversionErrorSuffix
  {
    ResourceTypeDebugName(e.resource) + ConversionErrorSuffix
  }

  /** The message names the resource type: different resource types give different messages. */
  lemma ConversionErrorTextInjective(e: ConversionError, f: ConversionError)
    ensures ConversionErrorText(e) == ConversionErrorText(f) ==> e == f
  {
    if ConversionErrorText(e) == ConversionErrorText(f) {
      var s := ConversionErrorText(e);
      ResourceTypeDebugNameInjective(e.resource, f.resource);
    }
  }

  /** `From<SubjectType> for ResourceType`: always one of the four subject resource types. */
  function ResourceTypeOf(t: SubjectType): (r: ResourceType)
    ensures r.RadicalResource? || r.KanjiResource? || r.VocabularyResource? || r.KanaVocabularyResource?
  {
    match t
    case KanaVocabulary => KanaVocabularyResource
    case Kanji => KanjiResource
    case Radical => RadicalResource
    case Vocabulary => VocabularyResource
  }

  /** `TryFrom<ResourceType> for SubjectType`. */
  function SubjectTypeOf(r: ResourceType): (res: Result<SubjectType, ConversionError>)
    ensures res.Ok? ==> ResourceTypeOf(res.value) == r
    ensures res.Err? ==> res.error == ConversionError(r)
  {
    match r
    case KanaVocabularyResource => Ok(KanaVocabulary)
    case KanjiResource => Ok(Kanji)
    case RadicalResource => Ok(Radical)
    case VocabularyResource => Ok(Vocabulary)
    case _ => Err(ConversionError(r))
  }

  /** Converting a subject type to a resource type and back gives it back. */
  lemma SubjectTypeResourceRoundTrip(t: SubjectType)
    ensures SubjectTypeOf(ResourceTypeOf(t)) == Ok(t)
  {
  }

  /** The conversion succeeds exactly on the four subject resource types. */
  lemma SubjectTypeOfSucceedsExactly(r: ResourceType)
    ensures SubjectTypeOf(r).Ok? <==> exists t :: ResourceTypeOf(t) == r
  {
    if SubjectTypeOf(r).Ok? {
      assert ResourceTypeOf(SubjectTypeOf(r).value) == r;
    }
  }

  // ---------------------------------------------------------------- lesson order

  datatype Ordering = Less | Equal | Greater

  function Cmp(x: int, y: int): (o: Ordering)
    ensures o == Less <==> x < y
    ensures o == Equal <==> x == y
    ensures o == Greater <==> x > y
  {
    if x < y then Less else if x == y then Equal else Greater
  }

  function Reverse(o: Ordering): Ordering
  {
    match o
    case Less => Greater
    case Equal => Equal
    case Greater => Less
  }

  /**
   * The lesson presentation order.  `cross_feature::LessonPresentationOrder`,
   * which `order_subjects` reads, and `user::LessonPresentationOrder`, which
   * the user's preferences hold, declare the same three variants with the
   * same default and serde names; both are this one type.
   */
  datatype LessonPresentationOrder = AscendingLevelThenSubject | Shuffled | AscendingLevelThenShuffled

  /** `#[default]` of LessonPresentationOrder. */
  const DefaultLessonPresentationOrder: LessonPresentationOrder := AscendingLevelThenSubject

  /** The two fields of `SubjectCommon` the comparator reads. */
  datatype SubjectCommon = SubjectCommon(level: U32, lessonPosition: U32)

  /**
   * `order_subjects`, with the two `u32` values the random generator would
   * produce next passed in as `draws`.
   */
  function OrderSubjects(order: LessonPresentationOrder, draws: (U32, U32), subject: SubjectCommon, other: SubjectCommon): (o: Ordering)
    ensures order != Shuffled && subject.level < other.level ==> o == Less
    ensures order != Shuffled && subject.level > other.level ==> o == Greater
    ensures order == AscendingLevelThenSubject ==>
      (o == Less <==> subject.level < other.level || (subject.level == other.level && subject.lessonPosition < other.lessonPosition))
    ensures order == AscendingLevelThenSubject ==>
      (o == Equal <==> subject.level == other.level && subject.lessonPosition == other.lessonPosition)
    ensures order == AscendingLevelThenShuffled && subject.level == other.level ==> o == Cmp(draws.0, draws.1)
    ensures order == Shuffled ==> o == Cmp(draws.0, draws.1)
  {
    match order
    case AscendingLevelThenSubject =>
      (match Cmp(subject.level, other.level)
       case Equal => Cmp(subject.lessonPosition, other.lessonPosition)
       case ord => ord)
    case AscendingLevelThenShuffled =>
      (match Cmp(subject.level, other.level)
       case Equal => Cmp(draws.0, draws.1)
       case ord => ord)
    case Shuffled => Cmp(draws.0, draws.1)
  }

  /** Swapping the subjects reverses the level-then-position comparison, whatever the draws. */
  lemma LevelThenSubjectAntisymmetric(a: SubjectCommon, b: SubjectCommon, d: (U32, U32), e: (U32, U32))
    ensures OrderSubjects(AscendingLevelThenSubject, d, a, b) == Reverse(OrderSubjects(AscendingLevelThenSubject, e, b, a))
  {
  }

  /** The level-then-position comparison is transitive, so `sort_by` sees a total order. */
  lemma LevelThenSubjectTransitive(a: SubjectCommon, b: SubjectCommon, c: SubjectCommon, d: (U32, U32))
    requires OrderSubjects(AscendingLevelThenSubject, d, a, b) != Greater
    requires OrderSubjects(AscendingLevelThenSubject, d, b, c) != Greater
    ensures OrderSubjects(AscendingLevelThenSubject, d, a, c) != Greater
    ensures OrderSubjects(AscendingLevelThenSubject, d, a, b) == Less || OrderSubjects(AscendingLevelThenSubject, d, b, c) == Less
      ==> OrderSubjects(AscendingLevelThenSubject, d, a, c) == Less
  {
  }

  // ---------------------------------------------------------------- errors

  /** The API's error body `{ "code": ..., "error": ... }`. */
  datatype WanikaniError = WanikaniError(code: I32, error: Option<string>)

  const ErrorCodePrefix: string := "Error code "
  const ErrorCodeSuffix: string := " received"

  /** `Display for WanikaniError`. */
  function WanikaniErrorText(e: WanikaniError): (s: string)
    ensures e.error.Some? ==> s == e.error.value
    ensures e.error.None? ==>
      (&& |s| > |ErrorCodePrefix| + |ErrorCodeSuffix|
       && s[..|ErrorCodePrefix|] == ErrorCodePrefix
       && s[|s| - |ErrorCodeSuffix|..] == ErrorCodeSuffix)
  {
    match e.error
    case None => ErrorCodePrefix + IntToString(e.code) + ErrorCodeSuffix
    case Some(message) => message
  }

  /** Without a message the text carries the code in decimal, so it can be read back. */
  lemma WanikaniErrorTextCode(e: WanikaniError)
    requires e.error.None?
    ensures var s := WanikaniErrorText(e);
      ParseI64(s[|ErrorCodePrefix|..|s| - |ErrorCodeSuffix|]) == Some(e.code as int)
  {
    var s := WanikaniErrorText(e);
    var digits := IntToString(e.code);
    assert s[|ErrorCodePrefix|..|s| - |ErrorCodeSuffix|] == digits;
  }

  /** Two message-less errors with different codes display differently. */
  lemma WanikaniErrorTextDistinguishesCodes(e: WanikaniError, f: WanikaniError)
    requires e.error.None? && f.error.None? && e.code != f.code
    ensures WanikaniErrorText(e) != WanikaniErrorText(f)
  {
    WanikaniErrorTextCode(e);
    WanikaniErrorTextCode(f);
  }

  /** The transport library's error (`reqwest::Error`), carried opaquely. */
  datatype ClientError = ClientError(description: string)

  /** The client's error taxonomy. */
  datatype Error =
    | WaniKaniError(error: WanikaniError)
    | Client(cause: ClientError)
    | RateLimit(error: WanikaniError, resetTime: Timestamp)
}
