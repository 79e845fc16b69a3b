/** JavaScript values as the import pipeline meets them: what JSON.parse returns,
    property reads that may be `undefined`, truthiness, strict equality and the
    string conversion used by template literals and object keys. */
module JsValues {

  datatype Option<+T> = None | Some(value: T)

  /** A value produced by JSON.parse. */
  datatype Json =
    | JNull
    | JBool(b: bool)
    | JNum(n: real)
    | JStr(s: string)
    | JArray(items: seq<Json>)
    | JObject(entries: seq<(string, Json)>)

  /** The result of a property read `obj[key]`: None stands for `undefined`. */
  type Value = Option<Json>

  /** One parsed input record: its own keys in `Object.keys` order and its properties. */
  datatype Record = Record(keys: seq<string>, fields: map<string, Json>)

  /** `json[key]`. */
  function Get(r: Record, key: string): (v: Value)
    ensures v.Some? <==> key in r.fields
    ensures v.Some? ==> v.value == r.fields[key]
  {
    if key in r.fields then Some(r.fields[key]) else None
  }

  /** JavaScript truthiness of a JSON value (`if (val)`). */
  predicate Truthy(v: Value) {
    match v
    case None => false
    case Some(JNull) => false
    case Some(JBool(b)) => b
    case Some(JNum(n)) => n != 0.0
    case Some(JStr(s)) => s != ""
    case Some(_) => true
  }

  /** `a === b`. Arrays and objects compare by reference, and two parses never
      return the same reference, so two compound values are never strictly equal. */
  predicate StrictEquals(a: Value, b: Value) {
    match (a, b)
    case (None, None) => true
    case (Some(JNull), Some(JNull)) => true
    case (Some(JBool(x)), Some(JBool(y))) => x == y
    case (Some(JNum(x)), Some(JNum(y))) => x == y
    case (Some(JStr(x)), Some(JStr(y))) => x == y
    case _ => false
  }

  /** `String(v)`, as used for object keys and in template literals. The text of a
      number comes from the engine's Number::toString, passed in as `numberText`.
      An object whose own `toString` key is not a function makes `String` throw;
      that case is not distinguished here. */
  function ToJsString(v: Value, numberText: real -> string): string {
    match v
    case None => "undefined"
    case Some(j) => JsonToString(j, numberText)
  }

  function JsonToString(j: Json, numberText: real -> string): string
    decreases j
  {
    match j
    case JNull => "null"
    case JBool(b) => if b then "true" else "false"
    case JNum(n) => numberText(n)
    case JStr(s) => s
    case JArray(items) =>
      // Array.prototype.toString joins the elements with "," and writes null as "".
      JoinWithComma(seq(|items|, i requires 0 <= i < |items| =>
        if items[i].JNull? then "" else JsonToString(items[i], numberText)))
    case JObject(_) => "[object Object]"
  }

  function JoinWithComma(parts: seq<string>): string {
    if |parts| == 0 then ""
    else if |parts| == 1 then parts[0]
    else JoinWithComma(parts[..|parts| - 1]) + "," + parts[|parts| - 1]
  }

  predicate IsDigits(s: string) {
    forall i :: 0 <= i < |s| ==> '0' <= s[i] <= '9'
  }

  function DigitChar(d: nat): (c: char)
    requires d < 10
    ensures '0' <= c <= '9'
  {
    (48 + d) as char
  }

  /** The number a string of decimal digits denotes. */
  function DigitsValue(s: string): nat
    requires IsDigits(s)
  {
    if s == [] then 0 else DigitsValue(s[..|s| - 1]) * 10 + (s[|s| - 1] as int - '0' as int)
  }

  /** The decimal text of a non-negative integer, as `${n}` writes it. */
  function NatToString(n: nat): (s: string)
    ensures |s| >= 1 && IsDigits(s)
    ensures DigitsValue(s) == n
    ensures |s| == 1 || s[0] != '0'
    ensures n < 10 <==> |s| == 1
  {
    if n < 10 then [DigitChar(n)] else NatToString(n / 10) + [DigitChar(n % 10)]
  }

  /** Different numbers have different decimal texts. */
  lemma {:induction false} NatToStringInjective(a: nat, b: nat)
    requires NatToString(a) == NatToString(b)
    ensures a == b
  {
    if a >= 10 {
      var sa, sb := NatToString(a), NatToString(b);
      assert b >= 10;
      assert sa[|sa| - 1] == DigitChar(a % 10) && sb[|sb| - 1] == DigitChar(b % 10);
      assert a % 10 == b % 10;
      assert NatToString(a / 10) == sa[..|sa| - 1] == sb[..|sb| - 1] == NatToString(b / 10);
      NatToStringInjective(a / 10, b / 10);
    }
  }

  /** The characters `String.prototype.trim` removes: white space and line terminators. */
  predicate IsJsWhitespace(c: char) {
    || c == ' ' || c == '\t' || c == '\n' || c == '\r'
    || c == '\U{000B}' || c == '\U{000C}' || c == '\U{00A0}' || c == '\U{1680}'
    || ('\U{2000}' <= c <= '\U{200A}')
    || c == '\U{2028}' || c == '\U{2029}' || c == '\U{202F}' || c == '\U{205F}'
    || c == '\U{3000}' || c == '\U{FEFF}'
  }

  /** `line.trim() === ''`. */
  predicate IsBlank(line: string) {
    forall i :: 0 <= i < |line| ==> IsJsWhitespace(line[i])
  }

  /** `p` without its trailing '/' characters. */
  function StripTrailingSlashes(p: string): string {
    if |p| > 0 && p[|p| - 1] == '/' then StripTrailingSlashes(p[..|p| - 1]) else p
  }

  /** The part of `p` after its last '/'. */
  function LastSegment(p: string): string {
    if p == [] || p[|p| - 1] == '/' then []
    else LastSegment(p[..|p| - 1]) + [p[|p| - 1]]
  }

  /** POSIX `path.basename(p)`: the last segment once trailing slashes are dropped. */
  function Basename(p: string): string {
    LastSegment(StripTrailingSlashes(p))
  }

  lemma {:induction false} StripTrailingSlashesShape(p: string)
    ensures var q := StripTrailingSlashes(p);
      q <= p && (q == [] || q[|q| - 1] != '/') && forall i :: |q| <= i < |p| ==> p[i] == '/'
  {
    if |p| > 0 && p[|p| - 1] == '/' {
      StripTrailingSlashesShape(p[..|p| - 1]);
    }
  }

  lemma {:induction false} LastSegmentShape(p: string)
    ensures var r := LastSegment(p);
      && '/' !in r
      && |r| <= |p| && r == p[|p| - |r|..]
      && (|r| < |p| ==> p[|p| - |r| - 1] == '/')
  {
    if p != [] && p[|p| - 1] != '/' {
      LastSegmentShape(p[..|p| - 1]);
    }
  }

  /** The base name holds no '/', and it is what follows the last '/' of the path
      once its trailing slashes are dropped: a suffix of that path, either all of
      it or preceded by a '/'. */
  lemma BasenameShape(p: string)
    ensures var q := StripTrailingSlashes(p);
      var r := Basename(p);
      && '/' !in r
      && q <= p && (forall i :: |q| <= i < |p| ==> p[i] == '/')
      && |r| <= |q| && r == q[|q| - |r|..]
      && (|r| < |q| ==> q[|q| - |r| - 1] == '/')
  {
    StripTrailingSlashesShape(p);
    LastSegmentShape(StripTrailingSlashes(p));
  }
}
