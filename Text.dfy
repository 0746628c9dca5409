/**
 * Text helpers shared by the filter encoders and the response classifier:
 * the fixed-width integer ranges of the Rust code, decimal rendering as done
 * by `to_string`, Rust's `i64` parser, boolean rendering, and `join` on a
 * list of strings together with the split that undoes it.
 */
module Text {
  import opened Wrappers

  type U32 = x: int | 0 <= x < 0x1_0000_0000
  type U64 = x: int | 0 <= x < 0x1_0000_0000_0000_0000
  type I32 = x: int | -0x8000_0000 <= x < 0x8000_0000

  const I64Min: int := -0x8000_0000_0000_0000
  const I64Max: int := 0x7fff_ffff_ffff_ffff

  predicate IsDigit(c: char) {
    '0' <= c <= '9'
  }

  predicate AllDigits(s: string) {
    forall i :: 0 <= i < |s| ==> IsDigit(s[i])
  }

  function DigitChar(d: nat): (c: char)
    requires d < 10
    ensures IsDigit(c) && (c as int) - ('0' as int) == d
  {
    (('0' as int) + d) as char
  }

  /** The number written by a string of decimal digits (leading zeros allowed). */
  function DigitsValue(s: string): nat
    requires AllDigits(s)
  {
    if s == [] then 0
    else DigitsValue(s[..|s| - 1]) * 10 + ((s[|s| - 1] as int) - ('0' as int))
  }

  /** Decimal rendering of a natural number, as `to_string` on Rust's unsigned integers. */
  function NatToString(n: nat): (s: string)
    ensures |s| > 0 && AllDigits(s)
    ensures |s| > 1 ==> s[0] != '0'
  {
    if n < 10 then [DigitChar(n)] else NatToString(n / 10) + [DigitChar(n % 10)]
  }

  /** Reading back the rendered digits gives the number: the rendering loses nothing. */
  lemma {:induction false} NatToStringValue(n: nat)
    ensures DigitsValue(NatToString(n)) == n
  {
    var s := NatToString(n);
    if n >= 10 {
      NatToStringValue(n / 10);
      assert s[..|s| - 1] == NatToString(n / 10);
    }
  }

  /** Distinct numbers render as distinct strings. */
  lemma NatToStringInjective(m: nat, n: nat)
    requires NatToString(m) == NatToString(n)
    ensures m == n
  {
    NatToStringValue(m);
    NatToStringValue(n);
  }

  /**
   * Decimal rendering of a signed integer, as Rust's `Display` for `i32`:
   * a minus sign exactly for negative values, and text the `i64` parser
   * reads back as the value.
   */
  function IntToString(i: int): (s: string)
    ensures i < 0 <==> (|s| > 0 && s[0] == '-')
    ensures I64Min <= i <= I64Max ==> ParseI64(s) == Some(i)
  {
    if i < 0 then
      ParseI64Rendered(-i);
      "-" + NatToString(-i)
    else
      ParseI64Rendered(i);
      NatToString(i)
  }

  /** Rust's `bool::to_string`. */
  function BoolToString(b: bool): (s: string)
    ensures s == "true" || s == "false"
    ensures (s == "true") == b
  {
    if b then "true" else "false"
  }

  /**
   * Rust's `str::parse::<i64>`: an optional `+` or `-` sign followed by at
   * least one decimal digit and nothing else, whose value fits in 64 bits;
   * anything else is an error (here: None).
   */
  function ParseI64(s: string): (r: Option<int>)
    ensures r.Some? ==> I64Min <= r.value <= I64Max
  {
    if s == [] then None
    else
      var negative := s[0] == '-';
      var digits := if s[0] == '+' || s[0] == '-' then s[1..] else s;
      if digits == [] || !AllDigits(digits) then None
      else
        var magnitude: int := DigitsValue(digits);
        var v := if negative then -magnitude else magnitude;
        if I64Min <= v <= I64Max then Some(v) else None
  }

  /** The parser reads back every in-range rendering, with or without a sign. */
  lemma ParseI64Rendered(n: nat)
    ensures n <= I64Max ==> ParseI64(NatToString(n)) == Some(n)
    ensures n <= I64Max ==> ParseI64("+" + NatToString(n)) == Some(n)
    ensures n <= -I64Min ==> ParseI64("-" + NatToString(n)) == Some(-(n as int))
    ensures n > I64Max ==> ParseI64(NatToString(n)) == None
  {
    NatToStringValue(n);
    var s := NatToString(n);
    assert ("+" + s)[1..] == s;
    assert ("-" + s)[1..] == s;
  }

  /** A string with a character that is neither a digit nor a leading sign does not parse. */
  lemma ParseI64RejectsNonDigit(s: string, i: nat)
    requires i < |s| && !IsDigit(s[i])
    requires i > 0 || (s[0] != '+' && s[0] != '-')
    ensures ParseI64(s) == None
  {
    if s[0] == '+' || s[0] == '-' {
      assert s[1..][i - 1] == s[i];
    }
  }

  /** No element occurs twice. */
  predicate Distinct<T(==)>(s: seq<T>)
  {
    forall i, j | 0 <= i < j < |s| :: s[i] != s[j]
  }

  /** `parts.join(sep)`: the parts with one separator between neighbours. */
  function Join(parts: seq<string>, sep: char): string
  {
    if |parts| == 0 then ""
    else if |parts| == 1 then parts[0]
    else parts[0] + [sep] + Join(parts[1..], sep)
  }

  /** The pieces between separators; always at least one (possibly empty) piece. */
  function Split(s: string, sep: char): (parts: seq<string>)
    ensures |parts| > 0
  {
    if s == [] then [""]
    else
      var rest := Split(s[1..], sep);
      if s[0] == sep then [""] + rest
      else [[s[0]] + rest[0]] + rest[1..]
  }

  lemma {:induction false} SplitNoSeparator(w: string, sep: char)
    requires sep !in w
    ensures Split(w, sep) == [w]
  {
    if w != [] {
      SplitNoSeparator(w[1..], sep);
      assert [w[0]] + w[1..] == w;
    }
  }

  lemma {:induction false} SplitAfterWord(w: string, sep: char, t: string)
    requires sep !in w
    ensures Split(w + [sep] + t, sep) == [w] + Split(t, sep)
  {
    var s := w + [sep] + t;
    if w == [] {
      assert s[1..] == t;
    } else {
      SplitAfterWord(w[1..], sep, t);
      assert s[1..] == w[1..] + [sep] + t;
      assert [w[0]] + w[1..] == w;
    }
  }

  /** Splitting a join of separator-free parts gives the parts back. */
  lemma {:induction false} SplitJoin(parts: seq<string>, sep: char)
    requires |parts| > 0
    requires forall i :: 0 <= i < |parts| ==> sep !in parts[i]
    ensures Split(Join(parts, sep), sep) == parts
  {
    if |parts| == 1 {
      SplitNoSeparator(parts[0], sep);
    } else {
      SplitJoin(parts[1..], sep);
      SplitAfterWord(parts[0], sep, Join(parts[1..], sep));
      assert [parts[0]] + parts[1..] == parts;
    }
  }

  /** `xs.iter().map(ToString::to_string)` for unsigned integers. */
  function Decimals(xs: seq<nat>): (r: seq<string>)
    ensures |r| == |xs| && forall i :: 0 <= i < |xs| ==> r[i] == NatToString(xs[i])
  {
    if xs == [] then [] else [NatToString(xs[0])] + Decimals(xs[1..])
  }

  /** A comma-joined list of decimal numbers, as the filters put in one query value. */
  function DecimalList(xs: seq<nat>): string
  {
    Join(Decimals(xs), ',')
  }

  /** Reading a comma-separated list of decimals; None if a piece is not a plain number. */
  function ParseDecimalList(s: string): Option<seq<nat>>
  {
    ParseDecimals(Split(s, ','))
  }

  function ParseDecimals(parts: seq<string>): Option<seq<nat>>
  {
    if parts == [] then Some([])
    else if parts[0] == [] || !AllDigits(parts[0]) then None
    else match ParseDecimals(parts[1..])
      case None => None
      case Some(rest) => Some([DigitsValue(parts[0])] + rest)
  }

  lemma {:induction false} ParseDecimalsOfDecimals(xs: seq<nat>)
    ensures ParseDecimals(Decimals(xs)) == Some(xs)
  {
    if xs != [] {
      ParseDecimalsOfDecimals(xs[1..]);
      NatToStringValue(xs[0]);
      assert Decimals(xs)[1..] == Decimals(xs[1..]);
      assert [xs[0]] + xs[1..] == xs;
    }
  }

  /** A non-empty id or level list survives the comma join: the server reads back the same numbers in the same order. */
  lemma DecimalListRoundTrip(xs: seq<nat>)
    requires |xs| > 0
    ensures ParseDecimalList(DecimalList(xs)) == Some(xs)
  {
    var parts := Decimals(xs);
    forall i | 0 <= i < |parts| ensures ',' !in parts[i] {
      assert AllDigits(parts[i]);
    }
    SplitJoin(parts, ',');
    ParseDecimalsOfDecimals(xs);
  }
}
