/** Values and string helpers shared by the browser client (JavaScript) and
    the Flask server (Python) models: optional values, JSON values with
    JavaScript truthiness, the two languages' whitespace trimming, ASCII case
    mapping and decimal rendering of numbers. */
module Common {

  datatype Option<T> = None | Some(value: T)

  /** The user record the client passes between its pages: `{ id, name, email }`. */
  datatype UserInfo = UserInfo(id: int, name: string, email: string)

  /** A JSON value as `JSON.parse` or `res.json()` hands it to the client.
      Numbers are integers in this model. */
  datatype Json =
    | JNull
    | JBool(b: bool)
    | JNum(n: int)
    | JStr(s: string)
    | JArr(items: seq<Json>)
    | JObj(fields: map<string, Json>)

  /** JavaScript truthiness of a JSON value. */
  predicate Truthy(v: Json) {
    match v
    case JNull => false
    case JBool(b) => b
    case JNum(n) => n != 0
    case JStr(s) => s != ""
    case JArr(_) => true
    case JObj(_) => true
  }

  /** Truthiness of a value that may be `undefined` (None). */
  predicate TruthyOpt(v: Option<Json>) {
    v.Some? && Truthy(v.value)
  }

  /** `data?.key`: the property of an object; `undefined` for a missing key
      and for anything that is not an object (null included). */
  function Prop(data: Json, key: string): (r: Option<Json>)
    ensures r.Some? <==> data.JObj? && key in data.fields
    ensures r.Some? ==> r.value == data.fields[key]
  {
    if data.JObj? && key in data.fields then Some(data.fields[key]) else None
  }

  /** `a?.key` where `a` itself may be `undefined`. */
  function PropOpt(data: Option<Json>, key: string): Option<Json> {
    if data.Some? then Prop(data.value, key) else None
  }

  /** Decimal digits of a natural number, as template literals render it. */
  function NatToString(n: nat): (r: string)
    ensures |r| >= 1
    ensures forall i :: 0 <= i < |r| ==> '0' <= r[i] <= '9'
  {
    if n < 10 then [DigitChar(n)] else NatToString(n / 10) + [DigitChar(n % 10)]
  }

  function DigitChar(d: nat): (c: char)
    requires d < 10
  {
    (d + '0' as int) as char
  }

  /** Decimal rendering of an integer, with a leading minus sign when negative. */
  function IntToString(n: int): string {
    if n < 0 then "-" + NatToString(-n) else NatToString(n)
  }

  /** `String(v)`: what a JSON value becomes when JavaScript needs a string,
      as `localStorage.setItem` and `new Error(msg)` do. */
  function JsString(v: Json): string {
    match v
    case JNull => "null"
    case JBool(b) => if b then "true" else "false"
    case JNum(n) => IntToString(n)
    case JStr(s) => s
    case JArr(items) =>
      JoinComma(seq(|items|, i requires 0 <= i < |items| =>
        if items[i].JNull? then "" else JsString(items[i])))
    case JObj(_) => "[object Object]"
  }

  /** `Array.prototype.join` with its default separator. */
  function JoinComma(parts: seq<string>): string {
    if |parts| == 0 then ""
    else if |parts| == 1 then parts[0]
    else parts[0] + "," + JoinComma(parts[1..])
  }

  /** The two runtimes whose whitespace trimming is modelled. */
  datatype Runtime = JavaScript | Python

  /** The characters `String.prototype.trim` (JavaScript) and `str.strip`
      (Python) remove. The sets differ: Python also strips U+001C..U+001F and
      U+0085, JavaScript also strips U+FEFF. */
  predicate IsSpace(rt: Runtime, c: char) {
    || c == '\t' || c == '\n' || c == '\U{B}' || c == '\U{C}' || c == '\r'
    || c == ' ' || c == '\U{A0}' || c == '\U{1680}'
    || ('\U{2000}' <= c <= '\U{200A}')
    || c == '\U{2028}' || c == '\U{2029}' || c == '\U{202F}' || c == '\U{205F}'
    || c == '\U{3000}'
    || (rt == JavaScript && c == '\U{FEFF}')
    || (rt == Python && (('\U{1C}' <= c <= '\U{1F}') || c == '\U{85}'))
  }

  predicate AllSpace(rt: Runtime, s: string) {
    forall i :: 0 <= i < |s| ==> IsSpace(rt, s[i])
  }

  /** `s` without its leading whitespace. */
  function TrimStart(rt: Runtime, s: string): string {
    if s != [] && IsSpace(rt, s[0]) then TrimStart(rt, s[1..]) else s
  }

  /** `s` without its trailing whitespace. */
  function TrimEnd(rt: Runtime, s: string): string {
    if s != [] && IsSpace(rt, s[|s| - 1]) then TrimEnd(rt, s[..|s| - 1]) else s
  }

  /** `TrimStart` cuts a whitespace prefix and stops at the first other
      character. */
  lemma {:induction false} TrimStartShape(rt: Runtime, s: string)
    ensures |TrimStart(rt, s)| <= |s| && TrimStart(rt, s) == s[|s| - |TrimStart(rt, s)|..]
    ensures AllSpace(rt, s[..|s| - |TrimStart(rt, s)|])
    ensures TrimStart(rt, s) != [] ==> !IsSpace(rt, TrimStart(rt, s)[0])
  {
    if s != [] && IsSpace(rt, s[0]) {
      TrimStartShape(rt, s[1..]);
      var r := TrimStart(rt, s);
      assert s[1..][..|s| - 1 - |r|] == s[1..|s| - |r|];
      assert forall k :: 1 <= k < |s| - |r| ==> s[k] == s[1..|s| - |r|][k - 1];
    }
  }

  /** `TrimEnd` cuts a whitespace suffix and stops at the last other
      character. */
  lemma {:induction false} TrimEndShape(rt: Runtime, s: string)
    ensures |TrimEnd(rt, s)| <= |s| && TrimEnd(rt, s) == s[..|TrimEnd(rt, s)|]
    ensures AllSpace(rt, s[|TrimEnd(rt, s)|..])
    ensures TrimEnd(rt, s) != [] ==> !IsSpace(rt, TrimEnd(rt, s)[|TrimEnd(rt, s)| - 1])
  {
    if s != [] && IsSpace(rt, s[|s| - 1]) {
      TrimEndShape(rt, s[..|s| - 1]);
      var r := TrimEnd(rt, s);
      assert s[..|s| - 1][|r|..] == s[|r|..|s| - 1];
      assert forall k :: |r| <= k < |s| - 1 ==> s[k] == s[|r|..|s| - 1][k - |r|];
    }
  }

  /** `r` is `s` with `i` whitespace characters cut from the front and only
      whitespace cut from the back, and `r` neither starts nor ends with
      whitespace. */
  predicate TrimmedAt(rt: Runtime, s: string, r: string, i: int) {
    && 0 <= i <= |s| - |r| && r == s[i..i + |r|]
    && AllSpace(rt, s[..i]) && AllSpace(rt, s[i + |r|..])
    && (r != [] ==> !IsSpace(rt, r[0]) && !IsSpace(rt, r[|r| - 1]))
  }

  /** `s.trim()` in JavaScript, `s.strip()` in Python. */
  function Trim(rt: Runtime, s: string): (r: string)
    ensures |r| <= |s|
  {
    TrimStartShape(rt, s);
    TrimEndShape(rt, TrimStart(rt, s));
    TrimEnd(rt, TrimStart(rt, s))
  }

  /** The trim of `s` is `s` without its leading and trailing whitespace:
      a slice of `s` with only whitespace around it, which neither starts
      nor ends with whitespace. */
  lemma {:induction false} TrimShape(rt: Runtime, s: string)
    ensures exists i :: TrimmedAt(rt, s, Trim(rt, s), i)
  {
    var a := TrimStart(rt, s);
    var r := TrimEnd(rt, a);
    TrimStartShape(rt, s);
    TrimEndShape(rt, a);
    var i := |s| - |a|;
    assert s[i..] == a;
    assert r == s[i..i + |r|];
    assert s[i + |r|..] == a[|r|..];
    assert r != [] ==> r[0] == a[0];
    assert r == Trim(rt, s);
    assert TrimmedAt(rt, s, Trim(rt, s), i);
  }

  /** A string trims to nothing exactly when it is all whitespace. */
  lemma {:induction false} TrimEmptyIff(rt: Runtime, s: string)
    ensures Trim(rt, s) == [] <==> AllSpace(rt, s)
  {
    TrimShape(rt, s);
    var r := Trim(rt, s);
    var i :| TrimmedAt(rt, s, r, i);
    if r == [] {
      forall k | 0 <= k < |s| ensures IsSpace(rt, s[k]) {
        if k < i { assert s[k] == s[..i][k]; } else { assert s[k] == s[i..][k - i]; }
      }
    } else {
      assert s[i] == r[0];
    }
  }

  /** A string that neither starts nor ends with whitespace is its own trim. */
  lemma {:induction false} TrimKeeps(rt: Runtime, s: string)
    requires s != [] && !IsSpace(rt, s[0]) && !IsSpace(rt, s[|s| - 1])
    ensures Trim(rt, s) == s
  {
    assert TrimStart(rt, s) == s;
    assert TrimEnd(rt, s) == s;
  }

  /** Trimming twice trims no more than trimming once. */
  lemma {:induction false} TrimIdempotent(rt: Runtime, s: string)
    ensures Trim(rt, Trim(rt, s)) == Trim(rt, s)
  {
    var r := Trim(rt, s);
    TrimShape(rt, s);
    var j :| TrimmedAt(rt, s, r, j);
    if r != [] {
      TrimKeeps(rt, r);
    }
  }

  function LowerChar(c: char): char {
    if 'A' <= c <= 'Z' then (c as int - 'A' as int + 'a' as int) as char else c
  }

  function UpperChar(c: char): char {
    if 'a' <= c <= 'z' then (c as int - 'a' as int + 'A' as int) as char else c
  }

  /** `s.lower()` restricted to ASCII letters. */
  function Lower(s: string): (r: string)
    ensures |r| == |s|
    ensures forall i :: 0 <= i < |s| ==> r[i] == LowerChar(s[i])
  {
    seq(|s|, i requires 0 <= i < |s| => LowerChar(s[i]))
  }
}
