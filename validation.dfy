/**
 * The input checks the procedures declare with zod: the checks on one field
 * (`z.string().min(1)`, `z.number().int().min(lo).max(hi)`, `.uuid()`,
 * `z.enum([...])`, `.optional()`) and the way an object schema gathers the
 * issues of all of its fields.
 */
module Validation {
  import opened Wrappers

  /** An input field as the procedure receives it; `Undefined` is a key that is not present. */
  datatype Json = Undefined | Null | Bool(b: bool) | Number(n: real) | Str(s: string)

  /**
   * The issue codes zod reports for the checks the routers use: `invalid_type`
   * with the type it expected ("string", "number", "integer" for a failed
   * `.int()`, or the quoted enum options), `too_small`, `too_big`,
   * `invalid_string` with the failed validation ("uuid") and
   * `invalid_enum_value`.
   */
  datatype IssueCode = InvalidType(expected: string) | TooSmall | TooBig | InvalidString(validation: string) | InvalidEnumValue

  /** One reported issue: the field it is about and what failed. */
  datatype Issue = Issue(path: string, code: IssueCode)

  /** The result of checking one field: the accepted value, or every failed check in order. */
  type Parsed<T> = Result<T, seq<IssueCode>>

  predicate IsInteger(x: real) {
    x.Floor as real == x
  }

  predicate IsHexDigit(c: char) {
    '0' <= c <= '9' || 'a' <= c <= 'f' || 'A' <= c <= 'F'
  }

  predicate IsHexRun(t: string) {
    forall i :: 0 <= i < |t| ==> IsHexDigit(t[i])
  }

  /** The 8-4-4-4-12 hexadecimal shape of a UUID, letters in either case. */
  predicate IsUuid(s: string) {
    && |s| == 36
    && IsHexRun(s[..8]) && s[8] == '-'
    && IsHexRun(s[9..13]) && s[13] == '-'
    && IsHexRun(s[14..18]) && s[18] == '-'
    && IsHexRun(s[19..23]) && s[23] == '-'
    && IsHexRun(s[24..])
  }

  /** The acceptance conditions of each check, stated on their own. */
  predicate IsNonEmptyString(v: Json) {
    v.Str? && |v.s| >= 1
  }

  predicate IsIntBetween(v: Json, lo: int, hi: int) {
    v.Number? && IsInteger(v.n) && lo as real <= v.n <= hi as real
  }

  predicate IsOptionalRating(v: Json) {
    v.Undefined? || IsIntBetween(v, 1, 5)
  }

  predicate IsUuidString(v: Json) {
    v.Str? && IsUuid(v.s)
  }

  predicate IsOneOf(v: Json, options: seq<string>) {
    v.Str? && v.s in options
  }

  /** `z.string().min(1)`: the string is kept exactly as given; nothing is trimmed. */
  function NonEmptyString(v: Json): (r: Parsed<string>)
    ensures r.Success? <==> IsNonEmptyString(v)
    ensures r.Success? ==> r.value == v.s
    ensures r.Failure? ==> r.error == if v.Str? then [TooSmall] else [InvalidType("string")]
  {
    if !v.Str? then Failure([InvalidType("string")])
    else if |v.s| < 1 then Failure([TooSmall])
    else Success(v.s)
  }

  /**
   * `z.number().int().min(lo).max(hi)`: a non-number fails the type check alone;
   * for a number every refinement that fails is reported, in the order int,
   * min, max, a failed `.int()` as an `invalid_type` that expected "integer".
   */
  function IntBetween(v: Json, lo: int, hi: int): (r: Parsed<int>)
    ensures r.Success? <==> IsIntBetween(v, lo, hi)
    ensures r.Success? ==> r.value as real == v.n && lo <= r.value <= hi
    ensures r.Failure? ==> |r.error| > 0
    ensures r.Failure? && !v.Number? ==> r.error == [InvalidType("number")]
    ensures r.Failure? && v.Number? ==>
      && (InvalidType("integer") in r.error <==> !IsInteger(v.n))
      && (TooSmall in r.error <==> v.n < lo as real)
      && (TooBig in r.error <==> v.n > hi as real)
      && InvalidType("number") !in r.error
  {
    if !v.Number? then Failure([InvalidType("number")])
    else
      var issues := (if IsInteger(v.n) then [] else [InvalidType("integer")])
        + (if v.n < lo as real then [TooSmall] else [])
        + (if v.n > hi as real then [TooBig] else []);
      if issues == [] then Success(v.n.Floor) else Failure(issues)
  }

  /** `z.string().uuid()`. */
  function UuidString(v: Json): (r: Parsed<string>)
    ensures r.Success? <==> IsUuidString(v)
    ensures r.Success? ==> r.value == v.s
    ensures r.Failure? ==> r.error == if v.Str? then [InvalidString("uuid")] else [InvalidType("string")]
  {
    if !v.Str? then Failure([InvalidType("string")])
    else if !IsUuid(v.s) then Failure([InvalidString("uuid")])
    else Success(v.s)
  }

  /** The type an enum's `invalid_type` issue expects: the options quoted and joined by " | ". */
  function EnumExpected(options: seq<string>): string {
    if |options| == 0 then ""
    else if |options| == 1 then "'" + options[0] + "'"
    else "'" + options[0] + "' | " + EnumExpected(options[1..])
  }

  /** `z.enum(options)`: only one of the listed strings is accepted. */
  function Enum(v: Json, options: seq<string>): (r: Parsed<string>)
    ensures r.Success? <==> IsOneOf(v, options)
    ensures r.Success? ==> r.value == v.s && r.value in options
    ensures r.Failure? ==> r.error == if v.Str? then [InvalidEnumValue] else [InvalidType(EnumExpected(options))]
  {
    if !v.Str? then Failure([InvalidType(EnumExpected(options))])
    else if v.s !in options then Failure([InvalidEnumValue])
    else Success(v.s)
  }

  /** `.optional()`: a missing key is accepted as absent; any other value goes to the inner check. */
  function Optional<T>(v: Json, inner: Json -> Parsed<T>): (r: Parsed<Option<T>>)
    ensures v.Undefined? ==> r == Success(None)
    ensures !v.Undefined? ==> (r.Success? <==> inner(v).Success?)
    ensures !v.Undefined? && r.Success? ==> r.value == Some(inner(v).value)
    ensures !v.Undefined? && r.Failure? ==> r.error == inner(v).error
  {
    if v.Undefined? then Success(None)
    else match inner(v)
      case Success(x) => Success(Some(x))
      case Failure(e) => Failure(e)
  }

  /** The issues of one field of an object schema, each tagged with the field's name. */
  function At<T>(path: string, r: Parsed<T>): (issues: seq<Issue>)
    ensures r.Success? ==> issues == []
    ensures r.Failure? ==> |issues| == |r.error|
    ensures forall k :: 0 <= k < |issues| ==> issues[k] == Issue(path, r.error[k])
  {
    if r.Success? then [] else seq(|r.error|, k requires 0 <= k < |r.error| => Issue(path, r.error[k]))
  }

  /** Some issue of the list is about the field at `path`. */
  predicate Reports(issues: seq<Issue>, path: string) {
    exists k :: 0 <= k < |issues| && issues[k].path == path
  }

  /** A field's issues name that field, and only it, exactly when its check failed with some issue. */
  lemma {:induction false} ReportsAt<T>(path: string, r: Parsed<T>)
    ensures forall q :: Reports(At(path, r), q) <==> q == path && r.Failure? && |r.error| > 0
  {
    var issues := At(path, r);
    if r.Failure? && |r.error| > 0 {
      assert issues[0].path == path;
    }
  }

  /** An object schema's issue list names a field exactly when one of the lists joined into it does. */
  lemma {:induction false} ReportsConcat(a: seq<Issue>, b: seq<Issue>)
    ensures forall q :: Reports(a + b, q) <==> Reports(a, q) || Reports(b, q)
  {
    forall q
      ensures Reports(a + b, q) <==> Reports(a, q) || Reports(b, q)
    {
      if Reports(a + b, q) {
        var k :| 0 <= k < |a + b| && (a + b)[k].path == q;
        if k >= |a| {
          assert b[k - |a|] == (a + b)[k];
        }
      }
      if Reports(a, q) {
        var k :| 0 <= k < |a| && a[k].path == q;
        assert (a + b)[k] == a[k];
      }
      if Reports(b, q) {
        var k :| 0 <= k < |b| && b[k].path == q;
        assert (a + b)[|a| + k] == b[k];
      }
    }
  }

  /** `z.number().int().min(1).max(5).optional()`, the rating check of the company router. */
  function OptionalRating(v: Json): (r: Parsed<Option<int>>)
    ensures r.Success? <==> IsOptionalRating(v)
    ensures r.Success? ==> RatingDenotes(v, r.value)
    ensures r.Success? && r.value.Some? ==> 1 <= r.value.value <= 5
    ensures r.Failure? ==> |r.error| > 0
  {
    Optional(v, x => IntBetween(x, 1, 5))
  }

  /** `z.string().min(1).optional()`, the name check of the update schemas. */
  function OptionalName(v: Json): (r: Parsed<Option<string>>)
    ensures r.Success? <==> v.Undefined? || IsNonEmptyString(v)
    ensures r.Success? && v.Undefined? ==> r.value == None
    ensures r.Success? && !v.Undefined? ==> r.value == Some(v.s)
    ensures r.Failure? ==> |r.error| > 0
  {
    Optional(v, NonEmptyString)
  }

  /** A stored rating stands for its input: absent for a missing key, otherwise the same integer. */
  predicate RatingDenotes(v: Json, rating: Option<int>) {
    (v.Undefined? && rating.None?) || (v.Number? && rating.Some? && rating.value as real == v.n)
  }

  /** For every integer k, a rating k is accepted exactly when 1 <= k <= 5, and kept as k. */
  lemma RatingAcceptsExactlyOneToFive(k: int)
    ensures OptionalRating(Number(k as real)).Success? <==> 1 <= k <= 5
    ensures 1 <= k <= 5 ==> OptionalRating(Number(k as real)) == Success(Some(k))
  {
  }

  /** The boundary and off-type ratings: 0, 6 and 2.5 fail a refinement, "3" and null fail the number type. */
  lemma RatingRejections()
    ensures OptionalRating(Number(0.0)) == Failure([TooSmall])
    ensures OptionalRating(Number(6.0)) == Failure([TooBig])
    ensures OptionalRating(Number(2.5)) == Failure([InvalidType("integer")])
    ensures OptionalRating(Number(0.5)) == Failure([InvalidType("integer"), TooSmall])
    ensures OptionalRating(Str("3")) == Failure([InvalidType("number")])
    ensures OptionalRating(Null) == Failure([InvalidType("number")])
    ensures OptionalRating(Undefined) == Success(None)
  {
    assert !IsInteger(2.5) by { assert (2.5).Floor == 2; }
    assert !IsInteger(0.5) by { assert (0.5).Floor == 0; }
    var zero, six, half, twoAndHalf := Number(0.0), Number(6.0), Number(0.5), Number(2.5);
    assert IsInteger(zero.n) && zero.n < 1 as real;
    assert [] + [TooSmall] + [] == [TooSmall];
    assert IntBetween(zero, 1, 5) == Failure([TooSmall]);
    assert IsInteger(six.n) && six.n > 5 as real;
    assert [] + [] + [TooBig] == [TooBig];
    assert IntBetween(six, 1, 5) == Failure([TooBig]);
    var notInteger := InvalidType("integer");
    assert [notInteger] + [] + [] == [notInteger];
    assert IntBetween(twoAndHalf, 1, 5) == Failure([notInteger]);
    assert [notInteger] + [TooSmall] + [] == [notInteger, TooSmall];
    assert IntBetween(half, 1, 5) == Failure([notInteger, TooSmall]);
  }

  /** The name check does not trim: a whitespace-only name is accepted as is, the empty one is not. */
  lemma NameIsNotTrimmed()
    ensures NonEmptyString(Str(" ")) == Success(" ")
    ensures NonEmptyString(Str("")) == Failure([TooSmall])
    ensures NonEmptyString(Undefined) == Failure([InvalidType("string")])
  {
  }

  /**
   * Five runs of 8, 4, 4, 4 and 12 characters joined by dashes form a UUID
   * exactly when every run is hexadecimal.
   */
  lemma UuidFromRuns(a: string, b: string, c: string, d: string, e: string)
    requires |a| == 8 && |b| == 4 && |c| == 4 && |d| == 4 && |e| == 12
    ensures IsUuid(a + "-" + b + "-" + c + "-" + d + "-" + e) <==>
      IsHexRun(a) && IsHexRun(b) && IsHexRun(c) && IsHexRun(d) && IsHexRun(e)
  {
    var s := a + "-" + b + "-" + c + "-" + d + "-" + e;
    assert s[..8] == a;
    assert s[9..13] == b;
    assert s[14..18] == c;
    assert s[19..23] == d;
    assert s[24..] == e;
  }

  /** Strings of another length, with a misplaced dash or with a non-hex digit are not UUIDs. */
  lemma UuidRejections()
    ensures !IsUuid("123e4567-e89b-12d3-a456-42661417400")
    ensures !IsUuid("123e4567ee89b-12d3-a456-426614174000")
    ensures !IsUuid("g23e4567-e89b-12d3-a456-426614174000")
  {
    var t := "g23e4567-e89b-12d3-a456-426614174000";
    assert t[..8][0] == t[0] == 'g';
  }
}
