/**
 * JSON values as serde_json writes and reads them, and the rules the
 * derived `Serialize`/`Deserialize` impls of the client's payload records
 * follow: a `skip_serializing_if = "Option::is_none"` field is left out of
 * the object when it is `None`; reading an object, an `Option` field that
 * is missing (or `null`) is `None`, a repeated field is an error and other
 * members are skipped; and a struct may also be read from an array, its
 * fields by position.
 */
module Json {
  import opened Wrappers
  import opened Text

  datatype Json =
    | Null
    | Bool(b: bool)
    | Number(n: int)
    | Str(s: string)
    | Array(items: seq<Json>)
    | Object(members: seq<Member>)

  /** One `"name": value` member of an object, in the order it is written. */
  type Member = (string, Json)

  /** The member names of an object, in order. */
  function Names(ms: seq<Member>): (ns: seq<string>)
    ensures |ns| == |ms| && forall i :: 0 <= i < |ms| ==> ns[i] == ms[i].0
  {
    if ms == [] then [] else [ms[0].0] + Names(ms[1..])
  }

  /** The value of the first member with the given name, as a deserializer finds it. */
  function Get(ms: seq<Member>, name: string): (r: Option<Json>)
    ensures r.Some? <==> name in Names(ms)
  {
    if ms == [] then None
    else if ms[0].0 == name then Some(ms[0].1)
    else Get(ms[1..], name)
  }

  /** A field's serialized value, or None when the field is `None` and so skipped. */
  function Skippable<T>(x: Option<T>, enc: T -> Json): Option<Json>
  {
    if x.Some? then Some(enc(x.value)) else None
  }

  /**
   * The members a derived `Serialize` writes for fields `names`, in
   * declaration order, each one left out when its value is None.
   */
  function Members(names: seq<string>, vals: seq<Option<Json>>): (ms: seq<Member>)
    requires |names| == |vals|
    ensures |ms| <= |names|
  {
    if names == [] then []
    else (if vals[0].Some? then [(names[0], vals[0].value)] else []) + Members(names[1..], vals[1..])
  }

  /** Appending members: a name found in the first part is found there. */
  lemma {:induction false} GetAppend(a: seq<Member>, b: seq<Member>, name: string)
    ensures Get(a + b, name) == if name in Names(a) then Get(a, name) else Get(b, name)
  {
    if a != [] {
      assert (a + b)[1..] == a[1..] + b;
      GetAppend(a[1..], b, name);
      assert name in Names(a) <==> a[0].0 == name || name in Names(a[1..]) by {
        assert Names(a) == [a[0].0] + Names(a[1..]);
      }
    } else {
      assert a + b == b;
    }
  }

  /** Every written member is one of the fields, in field order. */
  lemma {:induction false} MembersNamesAmong(names: seq<string>, vals: seq<Option<Json>>)
    requires |names| == |vals|
    ensures forall n :: n in Names(Members(names, vals)) ==> n in names
  {
    if names != [] {
      var head: seq<Member> := if vals[0].Some? then [(names[0], vals[0].value)] else [];
      MembersNamesAmong(names[1..], vals[1..]);
      assert Names(head + Members(names[1..], vals[1..])) == Names(head) + Names(Members(names[1..], vals[1..]));
    }
  }

  /** With distinct field names, the member under field i holds exactly field i's value. */
  lemma {:induction false} MembersGet(names: seq<string>, vals: seq<Option<Json>>, i: nat)
    requires |names| == |vals| && Distinct(names) && i < |names|
    ensures Get(Members(names, vals), names[i]) == vals[i]
  {
    var head: seq<Member> := if vals[0].Some? then [(names[0], vals[0].value)] else [];
    var rest := Members(names[1..], vals[1..]);
    GetAppend(head, rest, names[i]);
    if i > 0 {
      assert Distinct(names[1..]) by {
        forall a, b | 0 <= a < b < |names[1..]| ensures names[1..][a] != names[1..][b] {
          assert names[1..][a] == names[a + 1] && names[1..][b] == names[b + 1];
        }
      }
      MembersGet(names[1..], vals[1..], i - 1);
      assert names[i] != names[0];
    } else {
      MembersNamesAmong(names[1..], vals[1..]);
      assert names[0] !in names[1..] by {
        forall k | 0 <= k < |names[1..]| ensures names[1..][k] != names[0] {
          assert names[1..][k] == names[k + 1];
        }
      }
    }
  }

  /** When no field is None, every field is written, in order. */
  lemma {:induction false} MembersAllPresent(names: seq<string>, vals: seq<Option<Json>>)
    requires |names| == |vals| && forall i :: 0 <= i < |vals| ==> vals[i].Some?
    ensures Names(Members(names, vals)) == names
  {
    if names != [] {
      MembersAllPresent(names[1..], vals[1..]);
      var rest := Members(names[1..], vals[1..]);
      assert Members(names, vals) == [(names[0], vals[0].value)] + rest;
      assert Names([(names[0], vals[0].value)] + rest) == [names[0]] + Names(rest);
    }
  }

  /** When every field is None, nothing is written. */
  lemma {:induction false} MembersAllAbsent(names: seq<string>, vals: seq<Option<Json>>)
    requires |names| == |vals| && forall i :: 0 <= i < |vals| ==> vals[i] == None
    ensures Members(names, vals) == []
  {
    if names != [] {
      MembersAllAbsent(names[1..], vals[1..]);
    }
  }

  /** How many members carry the given name. */
  function Occurrences(ms: seq<Member>, name: string): (n: nat)
    ensures n == 0 <==> name !in Names(ms)
  {
    if ms == [] then 0 else (if ms[0].0 == name then 1 else 0) + Occurrences(ms[1..], name)
  }

  /**
   * No field of a struct appears twice among the members: a derived
   * `Deserialize` rejects a repeated field as a "duplicate field" error,
   * while members with other names are skipped however often they appear.
   */
  predicate NoDuplicateField(ms: seq<Member>, fields: seq<string>)
  {
    forall i :: 0 <= i < |fields| ==> Occurrences(ms, fields[i]) <= 1
  }

  lemma {:induction false} OccurrencesAppend(a: seq<Member>, b: seq<Member>, name: string)
    ensures Occurrences(a + b, name) == Occurrences(a, name) + Occurrences(b, name)
  {
    if a != [] {
      assert (a + b)[1..] == a[1..] + b;
      OccurrencesAppend(a[1..], b, name);
    } else {
      assert a + b == b;
    }
  }

  /** With distinct field names, a derived `Serialize` writes each name at most once. */
  lemma {:induction false} MembersOccurrences(names: seq<string>, vals: seq<Option<Json>>, name: string)
    requires |names| == |vals| && Distinct(names)
    ensures Occurrences(Members(names, vals), name) <= if name in names then 1 else 0
  {
    if names != [] {
      var head: seq<Member> := if vals[0].Some? then [(names[0], vals[0].value)] else [];
      OccurrencesAppend(head, Members(names[1..], vals[1..]), name);
      assert Distinct(names[1..]) by {
        forall a, b | 0 <= a < b < |names[1..]| ensures names[1..][a] != names[1..][b] {
          assert names[1..][a] == names[a + 1] && names[1..][b] == names[b + 1];
        }
      }
      MembersOccurrences(names[1..], vals[1..], name);
      if name == names[0] {
        assert name !in names[1..] by {
          forall k | 0 <= k < |names[1..]| ensures names[1..][k] != names[0] {
            assert names[1..][k] == names[k + 1];
          }
        }
      } else {
        assert name in names <==> name in names[1..] by {
          assert names == [names[0]] + names[1..];
        }
      }
    }
  }

  /** What a derived `Serialize` writes never repeats a field. */
  lemma MembersNoDuplicateField(names: seq<string>, vals: seq<Option<Json>>)
    requires |names| == |vals| && Distinct(names)
    ensures NoDuplicateField(Members(names, vals), names)
  {
    forall i | 0 <= i < |names| ensures Occurrences(Members(names, vals), names[i]) <= 1 {
      MembersOccurrences(names, vals, names[i]);
    }
  }

  // ---------------------------------------------------------------- reading fields

  /** A required field: a missing one is serde's "missing field" error. */
  function Field<T>(ms: seq<Member>, name: string, de: Json -> Result<T, string>): Result<T, string>
  {
    match Get(ms, name)
    case None => Err("missing field `" + name + "`")
    case Some(j) => de(j)
  }

  /** An `Option` value: `null` reads as None, anything else must decode. */
  function OptionalValue<T>(j: Json, de: Json -> Result<T, string>): Result<Option<T>, string>
  {
    if j.Null? then Ok(None)
    else
      match de(j)
      case Ok(v) => Ok(Some(v))
      case Err(e) => Err(e)
  }

  /** An `Option` field: missing or `null` reads as None, anything else must decode. */
  function OptionalField<T>(ms: seq<Member>, name: string, de: Json -> Result<T, string>): Result<Option<T>, string>
  {
    match Get(ms, name)
    case None => Ok(None)
    case Some(j) => OptionalValue(j, de)
  }

  /**
   * An optional field found as Skippable wrote it reads back as the original
   * value, provided its encoder writes something other than null that its
   * decoder reads back.
   */
  lemma OptionalFieldRoundTrip<T>(ms: seq<Member>, name: string, x: Option<T>,
                                  enc: T -> Json, de: Json -> Result<T, string>)
    requires Get(ms, name) == Skippable(x, enc)
    requires x.Some? ==> enc(x.value) != Null && de(enc(x.value)) == Ok(x.value)
    ensures OptionalField(ms, name, de) == Ok(x)
  {
  }

  /** A required field found as its encoder wrote it reads back as the original value. */
  lemma FieldRoundTrip<T>(ms: seq<Member>, name: string, x: T, enc: T -> Json, de: Json -> Result<T, string>)
    requires Get(ms, name) == Some(enc(x))
    requires de(enc(x)) == Ok(x)
    ensures Field(ms, name, de) == Ok(x)
  {
  }

  // ---------------------------------------------------------------- reading a struct from an array

  /*
   * serde_json reads a struct from an array too: the derived `visit_seq`
   * takes the elements as the fields in declaration order.  An element
   * missing is an "invalid length" error (no default is filled in, not even
   * for an `Option` field), and so is one left over, which serde_json
   * reports once the fields are read.  An `Option` element is None exactly
   * when it is `null`.
   */

  /** The element an `Option` field takes in the array form: `null` for None. */
  function Nullable<T>(x: Option<T>, enc: T -> Json): Json
  {
    if x.Some? then enc(x.value) else Null
  }

  /**
   * An optional element written as Nullable writes it reads back as the
   * original value, provided its encoder writes something other than null
   * that its decoder reads back.
   */
  lemma OptionalValueRoundTrip<T>(x: Option<T>, enc: T -> Json, de: Json -> Result<T, string>)
    requires x.Some? ==> enc(x.value) != Null && de(enc(x.value)) == Ok(x.value)
    ensures OptionalValue(Nullable(x, enc), de) == Ok(x)
  {
  }

  // ---------------------------------------------------------------- scalar encodings

  function BoolJson(b: bool): Json
  {
    Bool(b)
  }

  function DeBool(j: Json): Result<bool, string>
  {
    if j.Bool? then Ok(j.b) else Err("invalid type: expected a boolean")
  }

  function U32Json(n: U32): Json
  {
    Number(n)
  }

  /** A number outside `u32`'s range is an error, as serde reports it. */
  function DeU32(j: Json): Result<U32, string>
  {
    if j.Number? && 0 <= j.n < 0x1_0000_0000 then Ok(j.n) else Err("invalid value: expected u32")
  }

  function U64Json(n: U64): Json
  {
    Number(n)
  }

  function DeU64(j: Json): Result<U64, string>
  {
    if j.Number? && 0 <= j.n < 0x1_0000_0000_0000_0000 then Ok(j.n) else Err("invalid value: expected u64")
  }

  function StrJson(s: string): Json
  {
    Str(s)
  }

  function DeStr(j: Json): Result<string, string>
  {
    if j.Str? then Ok(j.s) else Err("invalid type: expected a string")
  }

  /** A `Vec<String>` is an array of strings. */
  function StringsJson(ss: seq<string>): Json
  {
    Array(StrItems(ss))
  }

  function StrItems(ss: seq<string>): (items: seq<Json>)
    ensures |items| == |ss| && forall i :: 0 <= i < |ss| ==> items[i] == Str(ss[i])
  {
    if ss == [] then [] else [Str(ss[0])] + StrItems(ss[1..])
  }

  function DeStrItems(items: seq<Json>): Result<seq<string>, string>
  {
    if items == [] then Ok([])
    else if !items[0].Str? then Err("invalid type: expected a string")
    else
      match DeStrItems(items[1..])
      case Ok(rest) => Ok([items[0].s] + rest)
      case Err(e) => Err(e)
  }

  function DeStrings(j: Json): Result<seq<string>, string>
  {
    if j.Array? then DeStrItems(j.items) else Err("invalid type: expected a sequence")
  }

  lemma {:induction false} DeStrItemsOfStrItems(ss: seq<string>)
    ensures DeStrItems(StrItems(ss)) == Ok(ss)
  {
    if ss != [] {
      DeStrItemsOfStrItems(ss[1..]);
      assert StrItems(ss) == [Str(ss[0])] + StrItems(ss[1..]);
      assert [ss[0]] + ss[1..] == ss;
    }
  }

  /** A list of strings reads back as itself. */
  lemma StringsRoundTrip(ss: seq<string>)
    ensures DeStrings(StringsJson(ss)) == Ok(ss)
  {
    DeStrItemsOfStrItems(ss);
  }

  /** Optional elements of the scalar kinds, in the array form, read back as written. */
  lemma NullableBoolRoundTrip(x: Option<bool>)
    ensures OptionalValue(Nullable(x, BoolJson), DeBool) == Ok(x)
  {
    OptionalValueRoundTrip(x, BoolJson, DeBool);
  }

  lemma NullableU32RoundTrip(x: Option<U32>)
    ensures OptionalValue(Nullable(x, U32Json), DeU32) == Ok(x)
  {
    OptionalValueRoundTrip(x, U32Json, DeU32);
  }

  lemma NullableStrRoundTrip(x: Option<string>)
    ensures OptionalValue(Nullable(x, StrJson), DeStr) == Ok(x)
  {
    OptionalValueRoundTrip(x, StrJson, DeStr);
  }

  lemma NullableStringsRoundTrip(x: Option<seq<string>>)
    ensures OptionalValue(Nullable(x, StringsJson), DeStrings) == Ok(x)
  {
    if x.Some? {
      StringsRoundTrip(x.value);
    }
    OptionalValueRoundTrip(x, StringsJson, DeStrings);
  }

  /** Optional fields of the scalar kinds read back as written. */
  lemma OptionalBoolRoundTrip(ms: seq<Member>, name: string, x: Option<bool>)
    requires Get(ms, name) == Skippable(x, BoolJson)
    ensures OptionalField(ms, name, DeBool) == Ok(x)
  {
    OptionalFieldRoundTrip(ms, name, x, BoolJson, DeBool);
  }

  lemma OptionalU32RoundTrip(ms: seq<Member>, name: string, x: Option<U32>)
    requires Get(ms, name) == Skippable(x, U32Json)
    ensures OptionalField(ms, name, DeU32) == Ok(x)
  {
    OptionalFieldRoundTrip(ms, name, x, U32Json, DeU32);
  }

  lemma OptionalStrRoundTrip(ms: seq<Member>, name: string, x: Option<string>)
    requires Get(ms, name) == Skippable(x, StrJson)
    ensures OptionalField(ms, name, DeStr) == Ok(x)
  {
    OptionalFieldRoundTrip(ms, name, x, StrJson, DeStr);
  }

  lemma OptionalStringsRoundTrip(ms: seq<Member>, name: string, x: Option<seq<string>>)
    requires Get(ms, name) == Skippable(x, StringsJson)
    ensures OptionalField(ms, name, DeStrings) == Ok(x)
  {
    if x.Some? {
      StringsRoundTrip(x.value);
    }
    OptionalFieldRoundTrip(ms, name, x, StringsJson, DeStrings);
  }
}
