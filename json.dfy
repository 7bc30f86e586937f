/** JSON values as the Python code sees them after `json.loads`, plus the few
    Python built-ins the core applies to them (truthiness, `int()`, UTF-8 length). */
module Json {
  import opened Wrappers

  /** A decoded JSON value. Objects are dictionaries keyed by string; numbers
      are integers only, so the inputs on which `int()` truncates a fraction
      (token counts, line counts, the state version, tool arguments) or a
      pydantic `int` field refuses one are not represented. */
  datatype Value =
    | JNull
    | JBool(b: bool)
    | JNum(n: int)
    | JStr(s: string)
    | JArr(items: seq<Value>)
    | JObj(fields: map<string, Value>)

  /** Python truthiness of a decoded value: `None`, `False`, `0`, `""`, `[]` and `{}` are falsy. */
  predicate Truthy(v: Value) {
    match v
    case JNull => false
    case JBool(b) => b
    case JNum(n) => n != 0
    case JStr(s) => s != ""
    case JArr(xs) => xs != []
    case JObj(m) => m != map[]
  }

  /** `d.get(k)` on a dictionary, with a JSON `null` and a missing key both read as `None`. */
  function Get(m: map<string, Value>, k: string): Option<Value> {
    if k in m && m[k] != JNull then Some(m[k]) else None
  }

  /** `d.get(k) == s` for a string `s`. */
  predicate HasStr(m: map<string, Value>, k: string, s: string) {
    k in m && m[k] == JStr(s)
  }

  function Obj1(k: string, v: Value): Value {
    JObj(map[k := v])
  }

  /** Python's `int(v)` on a decoded value: `None` when it would raise. Strings are
      read as optionally signed decimal digits surrounded by ASCII blanks. */
  function PyInt(v: Value): Option<int> {
    match v
    case JNum(n) => Some(n)
    case JBool(b) => Some(if b then 1 else 0)
    case JStr(s) => ParseDecimal(Strip(s))
    case _ => None
  }

  predicate IsBlank(c: char) {
    c == ' ' || c == '\t' || c == '\n' || c == '\r' || c as int == 0x0B || c as int == 0x0C
  }

  /** `str.strip()` with no argument, over ASCII whitespace. */
  function Strip(s: string): (r: string)
    ensures |r| <= |s|
    ensures r != [] ==> !IsBlank(r[0]) && !IsBlank(r[|r| - 1])
    decreases |s|
  {
    if s != [] && IsBlank(s[0]) then Strip(s[1..])
    else if s != [] && IsBlank(s[|s| - 1]) then Strip(s[..|s| - 1])
    else s
  }

  predicate IsDigit(c: char) { '0' <= c <= '9' }

  function DigitsValue(s: string): nat
    requires forall i :: 0 <= i < |s| ==> IsDigit(s[i])
  {
    if s == [] then 0
    else
      assert IsDigit(s[|s| - 1]);
      10 * DigitsValue(s[..|s| - 1]) + (s[|s| - 1] as int - '0' as int)
  }

  function ParseDecimal(s: string): (r: Option<int>)
    ensures r.Some? ==> s != []
  {
    if s != [] && (s[0] == '-' || s[0] == '+') then
      var body := s[1..];
      if body != [] && forall i :: 0 <= i < |body| ==> IsDigit(body[i]) then
        var n: int := DigitsValue(body);
        Some(if s[0] == '-' then -n else n)
      else None
    else if s != [] && forall i :: 0 <= i < |s| ==> IsDigit(s[i]) then Some(DigitsValue(s))
    else None
  }

  /** Number of bytes of the UTF-8 encoding of one Unicode scalar value. */
  function Utf8Width(c: char): nat {
    if c as int < 0x80 then 1
    else if c as int < 0x800 then 2
    else if c as int < 0x10000 then 3
    else 4
  }

  /** `len(s.encode("utf-8"))`. */
  function Utf8Len(s: string): (r: nat)
    ensures |s| <= r <= 4 * |s|
  {
    if s == [] then 0 else Utf8Len(s[..|s| - 1]) + Utf8Width(s[|s| - 1])
  }

  /** `json.loads` / `json.dumps` as a pair of functions supplied by the caller;
      `Lawful` says that decoding what was encoded gives the value back. */
  datatype Codec = Codec(decode: string -> Option<Value>, encode: Value -> string)

  ghost predicate Lawful(c: Codec) {
    forall v :: c.decode(c.encode(v)) == Some(v)
  }

  function DigitChar(d: nat): char
    requires d < 10
  {
    ('0' as int + d) as char
  }

  /** `str(n)` for a natural number. */
  function NatStr(n: nat): (r: string)
    ensures r != [] && forall i :: 0 <= i < |r| ==> IsDigit(r[i])
  {
    if n < 10 then [DigitChar(n)] else NatStr(n / 10) + [DigitChar(n % 10)]
  }

  /** `str(n)` for an integer. */
  function IntStr(n: int): string {
    if n < 0 then "-" + NatStr(-n) else NatStr(n)
  }

  lemma {:induction false} NatStrValue(n: nat)
    ensures DigitsValue(NatStr(n)) == n
  {
    if n >= 10 {
      NatStrValue(n / 10);
      var r := NatStr(n);
      assert r[..|r| - 1] == NatStr(n / 10);
    }
  }

  lemma NatStrStripped(n: nat)
    ensures Strip(NatStr(n)) == NatStr(n)
  {
    var r := NatStr(n);
    assert !IsBlank(r[0]) && !IsBlank(r[|r| - 1]);
  }

  /** `int(str(n)) == n`: the decimal form is read back by `PyInt`. */
  lemma IntStrRoundTrip(n: int)
    ensures PyInt(JStr(IntStr(n))) == Some(n)
  {
    if n < 0 {
      NatStrValue(-n);
      var s := IntStr(n);
      assert s[1..] == NatStr(-n);
      assert !IsBlank(s[0]) && !IsBlank(s[|s| - 1]);
    } else {
      NatStrValue(n);
      NatStrStripped(n);
      assert NatStr(n)[0] != '-' && NatStr(n)[0] != '+' by { assert IsDigit(NatStr(n)[0]); }
    }
  }

  /** `s[:n]`. */
  function Prefix(s: string, n: nat): (r: string)
    ensures |r| == if |s| <= n then |s| else n
    ensures r <= s
  {
    if |s| <= n then s else s[..n]
  }
  /** `str(v)`: containers are rendered by `repr`, which the caller supplies. */
  function PyStr(v: Value, repr: Value -> string): string {
    match v
    case JNull => "None"
    case JBool(b) => if b then "True" else "False"
    case JNum(n) => IntStr(n)
    case JStr(s) => s
    case _ => repr(v)
  }

  function LowerChar(c: char): char {
    if 'A' <= c <= 'Z' then (c as int + 32) as char else c
  }

  /** `str.lower()` over ASCII letters. */
  function Lower(s: string): (r: string)
    ensures |r| == |s| && forall i :: 0 <= i < |s| ==> r[i] == LowerChar(s[i])
  {
    seq(|s|, i requires 0 <= i < |s| => LowerChar(s[i]))
  }

  /** `k in s` for strings: `k` occurs in `s`. */
  predicate Contains(s: string, k: string) {
    exists i :: 0 <= i <= |s| && k <= s[i..]
  }

  /** A list of Python strings as the JSON array of those strings, in order. */
  function Strs(xs: seq<string>): (r: seq<Value>)
    ensures |r| == |xs| && forall i :: 0 <= i < |xs| ==> r[i] == JStr(xs[i])
  {
    seq(|xs|, i requires 0 <= i < |xs| => JStr(xs[i]))
  }
}
