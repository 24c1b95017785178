/** Values shared by the service and the handlers: optional values, results
    that stand for Python exceptions, JSON values and the decimal text that
    Python's str() gives an integer. */
module Base {

  datatype Option<+T> = None | Some(value: T)

  /** The value of a call, or the exception it raised, known by its str() text. */
  datatype Result<+T> = Ok(value: T) | Err(message: string)

  /** A backend call whose return value is not used: it returns or it raises. */
  datatype Outcome = Done | Raised(message: string)

  /** A JSON document as the request parser and the key-value store hand it over. */
  datatype Json =
    | JString(s: string)
    | JInt(i: int)
    | JBool(b: bool)
    | JNull
    | JArray(items: seq<Json>)
    | JObject(fields: map<string, Json>)

  /** A JSON object: an event, a store item, a request body. */
  type Object = map<string, Json>

  /** The wall clock as one step reads it: an ISO-8601 text and whole epoch
      seconds. The two fields are independent of each other, so they may
      come from two readings, as when a step reads the clock once for the
      timestamp and once more for the id. */
  datatype Instant = Instant(iso: string, epochSeconds: int)

  function Lookup(m: map<string, string>, key: string, default: string): (v: string)
    ensures key in m ==> v == m[key]
    ensures key !in m ==> v == default
  {
    if key in m then m[key] else default
  }

  // ---------------------------------------------------------------------------
  // Decimal text of integers

  predicate IsDigits(s: string) {
    forall i :: 0 <= i < |s| ==> '0' <= s[i] <= '9'
  }

  function Digit(d: nat): (c: char)
    requires d < 10
    ensures '0' <= c <= '9' && c as int - '0' as int == d
  {
    ('0' as int + d) as char
  }

  /** Python's str() of a non-negative int: no sign, no leading zero. */
  function NatToString(n: nat): (s: string)
    ensures 1 <= |s| && IsDigits(s)
    ensures (s[0] == '0') == (n == 0)
    decreases n
  {
    if n < 10 then [Digit(n)] else NatToString(n / 10) + [Digit(n % 10)]
  }

  /** The number a string of decimal digits denotes. */
  function DigitsValue(s: string): nat
    requires IsDigits(s)
  {
    if s == [] then 0 else DigitsValue(s[..|s| - 1]) * 10 + (s[|s| - 1] as int - '0' as int)
  }

  lemma {:induction false} NatToStringRoundTrip(n: nat)
    ensures DigitsValue(NatToString(n)) == n
  {
    if n >= 10 {
      NatToStringRoundTrip(n / 10);
      var s := NatToString(n);
      assert s[..|s| - 1] == NatToString(n / 10);
    }
  }

  /** Python's str() of an int. */
  function IntToString(i: int): (s: string)
    ensures 1 <= |s|
    ensures (s[0] == '-') == (i < 0)
  {
    if i < 0 then "-" + NatToString(-i) else NatToString(i)
  }

  /** Python's int() of a string: an optional sign and at least one digit. */
  function ParseInt(s: string): Option<int> {
    if |s| > 0 && (s[0] == '-' || s[0] == '+') then
      var digits := s[1..];
      if |digits| > 0 && IsDigits(digits) then
        var v: int := DigitsValue(digits);
        Some(if s[0] == '-' then -v else v)
      else None
    else if |s| > 0 && IsDigits(s) then Some(DigitsValue(s))
    else None
  }

  lemma IntToStringRoundTrip(i: int)
    ensures ParseInt(IntToString(i)) == Some(i)
  {
    if i < 0 {
      NatToStringRoundTrip(-i);
      ParseDigits(NatToString(-i));
      assert IntToString(i) == "-" + NatToString(-i);
    } else {
      NatToStringRoundTrip(i);
      ParseDigits(NatToString(i));
      assert IntToString(i) == NatToString(i);
    }
  }

  /** int() reads a string of digits, and the same with a minus sign. */
  lemma ParseDigits(d: string)
    requires |d| > 0 && IsDigits(d)
    ensures ParseInt(d) == Some(DigitsValue(d))
    ensures ParseInt("-" + d) == Some(-(DigitsValue(d) as int))
  {
    assert ("-" + d)[1..] == d;
  }

  /** Python's str() of a JSON value, as an f-string renders it. Lists and
      objects stand for their repr by a fixed marker. */
  function Render(v: Json): (s: string)
    ensures v.JString? ==> s == v.s
    ensures v.JInt? ==> ParseInt(s) == Some(v.i)
  {
    match v
    case JString(t) => t
    case JInt(i) => IntToStringRoundTrip(i); IntToString(i)
    case JBool(b) => if b then "True" else "False"
    case JNull => "None"
    case JArray(_) => "[...]"
    case JObject(_) => "{...}"
  }
}
