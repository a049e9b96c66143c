/** JavaScript values and runtime behaviour that the rest of the model relies on:
    JSON values as `JSON.parse` yields them, property reads that may be `undefined`,
    truthiness, thrown values, `String(value)` and `String.prototype.trim`. */
module Js {

  datatype Option<+T> = None | Some(value: T)

  /** A JSON value. JSON numbers are modelled as integers. */
  datatype Json =
    | Null
    | Bool(b: bool)
    | Num(n: int)
    | Str(s: string)
    | Arr(items: seq<Json>)
    | Obj(fields: map<string, Json>)

  /** Reading one of the own data properties this program reads (`userInput`, `mode`, `teenId`,
      `error`, `wellbeingScore`, `therapistSummary`) of a non-null value; `None` stands for
      `undefined`. For these keys primitives, arrays and objects without the key all read as
      `undefined`; built-in properties such as `length` are not modelled. */
  function Get(v: Json, key: string): (r: Option<Json>)
    ensures r.Some? <==> v.Obj? && key in v.fields
    ensures r.Some? ==> r.value == v.fields[key]
  {
    if v.Obj? && key in v.fields then Some(v.fields[key]) else None
  }

  /** JavaScript truthiness of a possibly-undefined JSON value. */
  predicate Truthy(v: Option<Json>)
  {
    match v
    case None => false
    case Some(Null) => false
    case Some(Bool(b)) => b
    case Some(Num(n)) => n != 0
    case Some(Str(s)) => s != ""
    case Some(Arr(_)) => true
    case Some(Obj(_)) => true
  }

  /** A thrown value: an `Error` instance (anything with a `message`) or something else. */
  datatype Thrown = ErrorObject(message: string) | NonError

  /** The message of a `TypeError` raised by the engine itself (reading a property of
      `null`, destructuring `null`, assigning a property to a primitive in strict code). */
  const TypeErrorMessage: string := "TypeError"

  /** The completion of a step that may throw. */
  datatype Completion<+T> = Normal(value: T) | Throw(thrown: Thrown)

  /** The outcome of `req.json()` or `response.json()`. */
  datatype BodyRead = Parsed(value: Json) | Unparsable(message: string)

  /** An HTTP response as the handlers build it. */
  datatype Body = JsonBody(json: Json) | TextBody(text: string)
  datatype Response = Response(status: int, body: Body)

  // ---------------------------------------------------------------------------
  // Decimal rendering of integers, as template literals and String(n) do it.

  function DigitChar(d: nat): (c: char)
    requires d < 10
    ensures '0' <= c <= '9' && c as int - '0' as int == d
  {
    (d + '0' as int) as char
  }

  function NatToDecimal(n: nat): (s: string)
    ensures |s| >= 1
    ensures forall i :: 0 <= i < |s| ==> '0' <= s[i] <= '9'
    ensures DecimalValue(s) == n
    decreases n
  {
    if n < 10 then [DigitChar(n)] else NatToDecimal(n / 10) + [DigitChar(n % 10)]
  }

  /** The value of a string of decimal digits; the inverse of `NatToDecimal`. */
  function DecimalValue(s: string): nat
    requires forall i :: 0 <= i < |s| ==> '0' <= s[i] <= '9'
  {
    if s == [] then 0 else 10 * DecimalValue(s[..|s| - 1]) + (s[|s| - 1] as int - '0' as int)
  }

  function IntToDecimal(n: int): (s: string)
    ensures n >= 0 ==> s == NatToDecimal(n)
    ensures n < 0 ==> s == "-" + NatToDecimal(-n)
  {
    if n < 0 then "-" + NatToDecimal(-n) else NatToDecimal(n)
  }

  // ---------------------------------------------------------------------------
  // String(value), as `new Error(value)` applies it to a non-string message.

  function ToJsString(v: Json): string
    decreases v, 1
  {
    match v
    case Null => "null"
    case Bool(b) => if b then "true" else "false"
    case Num(n) => IntToDecimal(n)
    case Str(s) => s
    case Arr(items) => JoinFrom(v, 0)
    case Obj(_) => "[object Object]"
  }

  /** `Array.prototype.join(",")` from index `i` on: a null element contributes "". */
  function JoinFrom(v: Json, i: nat): string
    requires v.Arr?
    decreases v, 0, |v.items| - i
  {
    if i >= |v.items| then ""
    else
      var piece := if v.items[i].Null? then "" else ToJsString(v.items[i]);
      if i + 1 == |v.items| then piece else piece + "," + JoinFrom(v, i + 1)
  }

  // ---------------------------------------------------------------------------
  // String.prototype.trim: removes WhiteSpace and LineTerminator code points from both ends.

  predicate IsWhiteSpace(c: char)
  {
    var u := c as int;
    // WhiteSpace: TAB, VT, FF, SP, NBSP, ZWNBSP and the other Zs code points
    || u == 0x09 || u == 0x0B || u == 0x0C || u == 0x20 || u == 0xA0 || u == 0xFEFF
    || u == 0x1680 || (0x2000 <= u <= 0x200A) || u == 0x202F || u == 0x205F || u == 0x3000
    // LineTerminator: LF, CR, LS, PS
    || u == 0x0A || u == 0x0D || u == 0x2028 || u == 0x2029
  }

  /** The input without its leading whitespace: always a suffix of it. */
  function TrimStart(s: string): (r: string)
    ensures |r| <= |s| && r == s[|s| - |r|..]
  {
    if s != [] && IsWhiteSpace(s[0]) then TrimStart(s[1..]) else s
  }

  /** The input without its trailing whitespace: always a prefix of it. */
  function TrimEnd(s: string): (r: string)
    ensures |r| <= |s| && r == s[..|r|]
  {
    if s != [] && IsWhiteSpace(s[|s| - 1]) then TrimEnd(s[..|s| - 1]) else s
  }

  /** `TrimStart` removes exactly the leading whitespace: all it drops is whitespace, and what it
      keeps does not start with whitespace. */
  lemma {:induction false} TrimStartCutsWhiteSpace(s: string)
    ensures TrimStart(s) == [] || !IsWhiteSpace(TrimStart(s)[0])
    ensures forall i :: 0 <= i < |s| - |TrimStart(s)| ==> IsWhiteSpace(s[i])
  {
    if s != [] && IsWhiteSpace(s[0]) {
      TrimStartCutsWhiteSpace(s[1..]);
      forall i | 1 <= i < |s| - |TrimStart(s)| ensures IsWhiteSpace(s[i]) {
        assert s[i] == s[1..][i - 1];
      }
    }
  }

  /** `TrimEnd` removes exactly the trailing whitespace. */
  lemma {:induction false} TrimEndCutsWhiteSpace(s: string)
    ensures TrimEnd(s) == [] || !IsWhiteSpace(TrimEnd(s)[|TrimEnd(s)| - 1])
    ensures forall i :: |TrimEnd(s)| <= i < |s| ==> IsWhiteSpace(s[i])
  {
    if s != [] && IsWhiteSpace(s[|s| - 1]) {
      TrimEndCutsWhiteSpace(s[..|s| - 1]);
      forall i | |TrimEnd(s)| <= i < |s| - 1 ensures IsWhiteSpace(s[i]) {
        assert s[i] == s[..|s| - 1][i];
      }
    }
  }

  /** `String.prototype.trim`: never longer than its input, and a non-empty result neither starts
      nor ends with whitespace. */
  function Trim(s: string): (r: string)
    ensures |r| <= |s|
    ensures r == [] || (!IsWhiteSpace(r[0]) && !IsWhiteSpace(r[|r| - 1]))
  {
    var t := TrimStart(s);
    TrimStartCutsWhiteSpace(s);
    TrimEndCutsWhiteSpace(t);
    var r := TrimEnd(t);
    assert r == [] || r[0] == t[0];
    r
  }

  /** `trim` cuts the piece `s[a..a + |Trim(s)|]` out of its input, where everything before
      and after that piece is whitespace. */
  lemma TrimCutsWhiteSpace(s: string)
    ensures var a := |s| - |TrimStart(s)|; var b := a + |Trim(s)|;
      && b <= |s| && Trim(s) == s[a..b]
      && (forall i :: 0 <= i < a ==> IsWhiteSpace(s[i]))
      && (forall i :: b <= i < |s| ==> IsWhiteSpace(s[i]))
  {
    var t := TrimStart(s);
    TrimIsSlice(s);
    TrimEndCutsWhiteSpace(t);
    SuffixPrefixIsSlice(s, t, |TrimEnd(t)|);
    TrimStartCutsWhiteSpace(s);
  }

  lemma TrimIsSlice(s: string)
    ensures var a := |s| - |TrimStart(s)|; a + |Trim(s)| <= |s| && Trim(s) == s[a..a + |Trim(s)|]
  {
    var t := TrimStart(s);
    var a := |s| - |t|;
    var r := TrimEnd(t);
    assert Trim(s) == r;
    assert r == s[a..a + |r|] by {
      assert t == s[a..] && r == t[..|r|];
      assert s[a..][..|r|] == s[a..a + |r|];
    }
  }

  /** Whitespace after the first `k` characters of the suffix `t` of `s` is whitespace in `s`
      after the corresponding slice. */
  lemma SuffixPrefixIsSlice(s: string, t: string, k: nat)
    requires |t| <= |s| && t == s[|s| - |t|..] && k <= |t|
    requires forall i :: k <= i < |t| ==> IsWhiteSpace(t[i])
    ensures forall i :: |s| - |t| + k <= i < |s| ==> IsWhiteSpace(s[i])
  {
    var a := |s| - |t|;
    forall i | a + k <= i < |s| ensures IsWhiteSpace(s[i]) {
      assert s[i] == t[i - a];
    }
  }

  /** `trim` yields the empty string exactly for whitespace-only input. */
  lemma TrimEmptyIffWhiteSpace(s: string)
    ensures Trim(s) == [] <==> forall i :: 0 <= i < |s| ==> IsWhiteSpace(s[i])
  {
    TrimCutsWhiteSpace(s);
    if Trim(s) != [] {
      var a := |s| - |TrimStart(s)|;
      assert Trim(s)[0] == s[a];
    }
  }

  /** Trimming twice is trimming once. */
  lemma TrimIdempotent(s: string)
    ensures Trim(Trim(s)) == Trim(s)
  {
    var r := Trim(s);
    if r != [] {
      assert TrimStart(r) == r;
      assert TrimEnd(r) == r;
    }
  }
}
