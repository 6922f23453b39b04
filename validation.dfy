/** The request-body checks FastAPI runs, through pydantic v1, before a route
    handler is entered: JSON values, the `str` and `List[str]` validators, and
    required, optional and defaulted fields. Fields a schema does not declare
    are ignored, as pydantic v1 does by default. */
module Validation {
  import opened Wrappers

  /** A JSON value as it arrives in a request body. */
  datatype Json =
    | JNull
    | JBool(b: bool)
    | JInt(i: int)
    | JStr(s: string)
    | JArr(items: seq<Json>)
    | JObj(fields: map<string, Json>)

  /** A request body: a JSON object. */
  type Body = map<string, Json>

  /** The fields that failed validation, in the schema's declaration order;
      FastAPI reports them with status 422. */
  datatype Invalid = Invalid(fields: seq<string>)

  /** A string made only of the decimal digits '0' to '9'. */
  predicate IsDigits(s: string)
  {
    forall k :: 0 <= k < |s| ==> '0' <= s[k] <= '9'
  }

  /** The number a digit string denotes, read left to right: each digit
      multiplies what was read so far by ten and adds itself. */
  function DecimalValue(s: string): int
  {
    if s == [] then 0 else DecimalValue(s[..|s| - 1]) * 10 + (s[|s| - 1] as int - '0' as int)
  }

  /** Decimal digits of a natural number, as Python's `str` writes them: no
      leading zero except for zero itself. */
  function DigitsOf(n: nat): (s: string)
    ensures |s| >= 1 && IsDigits(s)
    ensures n > 0 ==> s[0] != '0'
    ensures n == 0 ==> s == "0"
  {
    if n < 10 then [(n + '0' as int) as char]
    else DigitsOf(n / 10) + [((n % 10) + '0' as int) as char]
  }

  /** The digits of `n` denote `n`. */
  lemma {:induction false} DigitsOfValue(n: nat)
    ensures DecimalValue(DigitsOf(n)) == n
  {
    var s := DigitsOf(n);
    if n >= 10 {
      DigitsOfValue(n / 10);
      assert s[..|s| - 1] == DigitsOf(n / 10);
    }
  }

  /** Python's `str` of an integer. */
  function PyStrOfInt(i: int): string
  {
    if i < 0 then "-" + DigitsOf(-i) else DigitsOf(i)
  }

  /** pydantic v1's `str` validator: a string passes unchanged, an integer or
      a boolean is converted with Python's `str`, anything else is refused. */
  function StrField(j: Json): (r: Option<string>)
    ensures r.Some? <==> j.JStr? || j.JInt? || j.JBool?
    ensures j.JStr? ==> r == Some(j.s)
    ensures j.JBool? ==> r == Some(if j.b then "True" else "False")
    ensures j.JInt? && j.i >= 0 ==>
      && r.Some? && |r.value| >= 1 && IsDigits(r.value)
      && DecimalValue(r.value) == j.i
      && (r.value[0] != '0' || r.value == "0")
    ensures j.JInt? && j.i < 0 ==>
      && r.Some? && |r.value| >= 2 && r.value[0] == '-' && IsDigits(r.value[1..])
      && DecimalValue(r.value[1..]) == -j.i
      && r.value[1] != '0'
  {
    match j
    case JStr(s) => Some(s)
    case JInt(i) =>
      DigitsOfValue(if i < 0 then -i else i);
      assert i < 0 ==> PyStrOfInt(i)[1..] == DigitsOf(-i);
      Some(PyStrOfInt(i))
    case JBool(b) => Some(if b then "True" else "False")
    case _ => None
  }

  /** The `str` validator applied to every item of a list: one bad item fails
      the whole list. */
  function StrItems(items: seq<Json>): (r: Option<seq<string>>)
    ensures r.Some? <==> forall k :: 0 <= k < |items| ==> StrField(items[k]).Some?
    ensures r.Some? ==> |r.value| == |items|
    ensures r.Some? ==> forall k :: 0 <= k < |items| ==> StrField(items[k]) == Some(r.value[k])
  {
    if items == [] then Some([])
    else
      match (StrField(items[0]), StrItems(items[1..]))
      case (Some(x), Some(xs)) => Some([x] + xs)
      case _ => None
  }

  /** pydantic v1's `List[str]` validator on a JSON value: only an array is
      accepted, never a bare string. */
  function StrListField(j: Json): (r: Option<seq<string>>)
    ensures r.Some? ==> j.JArr? && |r.value| == |j.items|
    ensures j.JArr? ==> r == StrItems(j.items)
  {
    if j.JArr? then StrItems(j.items) else None
  }

  /** A list of strings as JSON, as a client serialises it. */
  function StrsToJson(xs: seq<string>): seq<Json>
  {
    seq(|xs|, k requires 0 <= k < |xs| => JStr(xs[k]))
  }

  /** An optional list of strings as JSON: `None` is `null`. */
  function OptStrsToJson(xs: Option<seq<string>>): Json
  {
    match xs
    case None => JNull
    case Some(v) => JArr(StrsToJson(v))
  }

  /** An optional string as JSON: `None` is `null`. */
  function OptStrToJson(x: Option<string>): Json
  {
    match x
    case None => JNull
    case Some(s) => JStr(s)
  }

  /** A list of strings survives serialisation and validation unchanged. */
  lemma {:induction false} StrListRoundTrip(xs: seq<string>)
    ensures StrListField(JArr(StrsToJson(xs))) == Some(xs)
  {
    var js := StrsToJson(xs);
    var r := StrItems(js);
    assert forall k :: 0 <= k < |js| ==> StrField(js[k]) == Some(xs[k]);
    assert r.Some?;
    assert r.value == xs;
  }

  /** A required `str` field; `None` means the field fails validation
      (missing, `null`, or of a type `str` refuses). */
  function RequiredStr(body: Body, key: string): Option<string>
  {
    if key in body then StrField(body[key]) else None
  }

  /** An `Optional[str]` field without a default; pydantic v1 gives it the
      default `None`, so a missing key and `null` both read as `None`. The
      outer `None` means the field fails validation. */
  function OptionalStr(body: Body, key: string): Option<Option<string>>
  {
    if key !in body || body[key] == JNull then Some(None)
    else
      match StrField(body[key])
      case Some(s) => Some(Some(s))
      case None => None
  }

  /** An `Optional[List[str]]` field with the given default for a missing
      key; `null` reads as `None`. The outer `None` means the field fails
      validation. */
  function OptionalStrList(body: Body, key: string, default: Option<seq<string>>): Option<Option<seq<string>>>
  {
    if key !in body then Some(default)
    else if body[key] == JNull then Some(None)
    else
      match StrListField(body[key])
      case Some(xs) => Some(Some(xs))
      case None => None
  }

  /** The field name, when its validation failed. */
  function FailedField<T>(name: string, check: Option<T>): seq<string>
  {
    if check.Some? then [] else [name]
  }
}
