/** Decoded JSON values, as FastAPI's `request.json()` hands them to the webhook, and the few
    pieces of Python's semantics the handler relies on: truthiness, `dict.get`, the name of a
    value's type (which appears in exception messages) and `str()` (which f-strings apply). */
module Json {

  /** A decoded JSON value. Objects are dictionaries keyed by strings; the model keeps their
      keys but not their insertion order. Numbers are integers. */
  datatype Json =
    | JNull
    | JBool(b: bool)
    | JInt(n: int)
    | JStr(s: string)
    | JArr(items: seq<Json>)
    | JObj(fields: map<string, Json>)

  /** Python's `bool(v)`: None, False, 0, "", [] and {} are false; everything else is true. */
  predicate Truthy(j: Json) {
    match j
    case JNull => false
    case JBool(b) => b
    case JInt(n) => n != 0
    case JStr(s) => s != ""
    case JArr(items) => items != []
    case JObj(fields) => fields != map[]
  }

  /** Python's `d.get(key, default)`: the default is used only when the key is absent, so a
      key bound to null, "" or {} yields that value, not the default. */
  function Get(fields: map<string, Json>, key: string, default: Json): Json {
    if key in fields then fields[key] else default
  }

  /** `type(v).__name__` for the Python value a JSON value decodes to. */
  function TypeName(j: Json): string {
    match j
    case JNull => "NoneType"
    case JBool(_) => "bool"
    case JInt(_) => "int"
    case JStr(_) => "str"
    case JArr(_) => "list"
    case JObj(_) => "dict"
  }

  /** The message of the AttributeError raised by `v.get(...)` on a value that is not a dict. */
  function NoGetMessage(j: Json): string {
    "'" + TypeName(j) + "' object has no attribute 'get'"
  }

  predicate IsDigits(s: string) {
    forall i :: 0 <= i < |s| ==> '0' <= s[i] <= '9'
  }

  function DigitChar(d: nat): (c: char)
    requires d < 10
    ensures '0' <= c <= '9' && c as int - '0' as int == d
  {
    ('0' as int + d) as char
  }

  /** The decimal digits of a natural number, as `str(n)` prints them. */
  function Natural(n: nat): (r: string)
    ensures |r| > 0 && IsDigits(r)
    ensures r[0] == '0' ==> n == 0
    decreases n
  {
    if n < 10 then [DigitChar(n)] else Natural(n / 10) + [DigitChar(n % 10)]
  }

  /** The number a string of decimal digits denotes. */
  function ValueOf(s: string): nat
    requires IsDigits(s)
    decreases |s|
  {
    if s == [] then 0 else ValueOf(s[..|s| - 1]) * 10 + (s[|s| - 1] as int - '0' as int)
  }

  /** `Natural` loses nothing: reading its digits back gives the number. */
  lemma {:induction false} NaturalRoundTrip(n: nat)
    ensures ValueOf(Natural(n)) == n
    decreases n
  {
    if n >= 10 {
      var prefix := Natural(n / 10);
      var r := prefix + [DigitChar(n % 10)];
      assert r[..|r| - 1] == prefix;
      NaturalRoundTrip(n / 10);
    }
  }

  /** `str(n)` for an integer: a minus sign for negatives, then the digits of |n|. */
  function Decimal(n: int): (r: string)
    ensures |r| > 0
    ensures (r[0] == '-') <==> n < 0
    ensures n >= 0 ==> IsDigits(r) && ValueOf(r) == n
    ensures n < 0 ==> IsDigits(r[1..]) && ValueOf(r[1..]) == -n
    ensures r[0] == '0' ==> n == 0
    ensures n < 0 ==> |r| > 1 && r[1] != '0'
    ensures n == 0 ==> r == "0"
  {
    if n < 0 then
      NaturalRoundTrip(-n);
      var r := "-" + Natural(-n);
      assert r[1..] == Natural(-n);
      r
    else
      NaturalRoundTrip(n);
      Natural(n)
  }

  /** `str(v)`, as an f-string renders a value. Lists and dicts print their items in insertion
      order, which a `map` does not keep, so their text comes from `showContainer`. */
  function Str(j: Json, showContainer: Json -> string): (r: string)
    ensures j.JStr? ==> r == j.s
  {
    match j
    case JNull => "None"
    case JBool(b) => if b then "True" else "False"
    case JInt(n) => Decimal(n)
    case JStr(s) => s
    case JArr(_) => showContainer(j)
    case JObj(_) => showContainer(j)
  }
}
