/**
 * JavaScript runtime values as the run/replay engine handles them, the errors
 * its operations throw, and the few built-ins it relies on (truthiness,
 * property access, JSON, parseInt, Array.prototype.join).
 */
module Js {

  datatype Option<T> = None | Some(value: T)

  /** Every error the engine throws or propagates, by the message or class it carries. */
  datatype Error =
    | RunNotFound                  // "Run not found"
    | MessageNotFound              // "Message not found"
    | FailedToCreateRun            // "Failed to create run"
    | InvalidMessage(index: nat)   // "Invalid message: ..." for the message at that index
    | DriverError                  // any failure reported by the SQL driver
    | ToolNotFound(message: string)
    | ToolFailed(reason: string)   // whatever a tool implementation throws
    | AgentFailed(reason: string)  // whatever the agent throws
    | TypeError                    // property access on null/undefined, calling a non-function
    | SyntaxError                  // JSON.parse of malformed text
    | ZodError                     // a zod `parse` that rejects its input
    | MessageMustBeObject

  /** The outcome of an operation that may throw. */
  datatype Result<T> = Ok(value: T) | Fail(error: Error)

  /**
   * A JSON-like JavaScript value. Objects are finite maps from keys to values;
   * `undefined` (a missing key) is `None` wherever a lookup may miss.
   */
  datatype Json =
    | JNull
    | JBool(b: bool)
    | JNum(n: int)
    | JStr(s: string)
    | JArr(items: seq<Json>)
    | JObj(fields: map<string, Json>)

  /** `v[key]` for a value known not to be null or undefined. */
  function Get(v: Json, key: string): (r: Option<Json>)
    ensures r.Some? <==> v.JObj? && key in v.fields
    ensures r.Some? ==> r.value == v.fields[key]
  {
    if v.JObj? && key in v.fields then Some(v.fields[key]) else None
  }

  /** `v[key]` for any value: reading a property of null or undefined throws a TypeError. */
  function Access(v: Option<Json>, key: string): (r: Result<Option<Json>>)
    ensures r.Fail? <==> v.None? || v == Some(JNull)
    ensures r.Fail? ==> r.error == TypeError
    ensures r.Ok? ==> r.value == Get(v.value, key)
  {
    if v.None? || v == Some(JNull) then Fail(TypeError) else Ok(Get(v.value, key))
  }

  /** JavaScript truthiness; `None` stands for `undefined`. */
  predicate Truthy(v: Option<Json>)
  {
    match v
    case None => false
    case Some(JNull) => false
    case Some(JBool(b)) => b
    case Some(JNum(n)) => n != 0
    case Some(JStr(s)) => s != ""
    case Some(_) => true
  }

  /** `typeof v === "object" && v !== null` (arrays are objects too). */
  predicate IsObject(v: Option<Json>)
  {
    v.Some? && (v.value.JObj? || v.value.JArr?)
  }

  /**
   * JSON.stringify and JSON.parse, left abstract. `decode` answers `None`
   * where JSON.parse throws.
   */
  datatype Codec = Codec(encode: Json -> string, decode: string -> Option<Json>)

  /**
   * What every JSON implementation provides on the values used here: parsing
   * the text of a value gives the value back, and that text is never empty.
   */
  ghost predicate Lawful(c: Codec)
  {
    forall v: Json {:trigger c.encode(v)} :: c.decode(c.encode(v)) == Some(v) && c.encode(v) != ""
  }

  /** `JSON.parse(text)`, throwing a SyntaxError on malformed text. */
  function Parse(c: Codec, text: string): (r: Result<Json>)
    ensures r.Ok? <==> c.decode(text).Some?
    ensures r.Ok? ==> r.value == c.decode(text).value
    ensures r.Fail? ==> r.error == SyntaxError
  {
    match c.decode(text)
    case Some(v) => Ok(v)
    case None => Fail(SyntaxError)
  }

  lemma ParseEncoded(c: Codec, v: Json)
    requires Lawful(c)
    ensures Parse(c, c.encode(v)) == Ok(v)
  {
  }

  /** An object literal entry whose value may be undefined: undefined values leave no key. */
  function Put(m: map<string, Json>, key: string, v: Option<Json>): (r: map<string, Json>)
    ensures v.Some? ==> r == m[key := v.value]
    ensures v.None? ==> r == m
  {
    if v.Some? then m[key := v.value] else m
  }

  /** `a || b`: the left operand when truthy, else the default. */
  function Or(v: Option<Json>, default: Json): (r: Json)
    ensures Truthy(v) ==> Some(r) == v
    ensures !Truthy(v) ==> r == default
  {
    if Truthy(v) then v.value else default
  }

  /** `xs.map(f)` with a step that may throw: the first throw propagates. */
  function MapAll<A, B>(xs: seq<A>, f: A -> Result<B>): (r: Result<seq<B>>)
    ensures r.Ok? <==> forall i :: 0 <= i < |xs| ==> f(xs[i]).Ok?
    ensures r.Ok? ==> |r.value| == |xs| && forall i :: 0 <= i < |xs| ==> f(xs[i]) == Ok(r.value[i])
    ensures r.Fail? ==> exists i :: 0 <= i < |xs| && f(xs[i]) == Fail(r.error)
    decreases |xs|
  {
    if xs == [] then Ok([])
    else
      match f(xs[0])
      case Fail(e) => Fail(e)
      case Ok(y) =>
        assert forall i :: 1 <= i < |xs| ==> xs[i] == xs[1..][i - 1];
        match MapAll(xs[1..], f)
        case Fail(e) => Fail(e)
        case Ok(ys) => Ok([y] + ys)
  }

  // ---------------------------------------------------------------- strings

  /** ECMAScript WhiteSpace and LineTerminator code points (`\s` and parseInt's trimming). */
  predicate IsSpace(ch: char)
  {
    ch == '\t' || ch == '\n' || ch == '\U{000B}' || ch == '\U{000C}' || ch == '\r' || ch == ' '
    || ch == '\U{00A0}' || ch == '\U{1680}' || ('\U{2000}' <= ch <= '\U{200A}')
    || ch == '\U{2028}' || ch == '\U{2029}' || ch == '\U{202F}' || ch == '\U{205F}'
    || ch == '\U{3000}' || ch == '\U{FEFF}'
  }

  predicate IsDigit(ch: char)
  {
    '0' <= ch <= '9'
  }

  /** Length of the longest prefix of `s` made of whitespace. */
  function SpaceRun(s: string): (n: nat)
    ensures n <= |s|
    ensures forall i :: 0 <= i < n ==> IsSpace(s[i])
    ensures n < |s| ==> !IsSpace(s[n])
  {
    if s == [] || !IsSpace(s[0]) then 0 else 1 + SpaceRun(s[1..])
  }

  /** Length of the longest prefix of `s` made of decimal digits. */
  function DigitRun(s: string): (n: nat)
    ensures n <= |s|
    ensures forall i :: 0 <= i < n ==> IsDigit(s[i])
    ensures n < |s| ==> !IsDigit(s[n])
  {
    if s == [] || !IsDigit(s[0]) then 0 else 1 + DigitRun(s[1..])
  }

  function DigitValue(ch: char): nat
    requires IsDigit(ch)
  {
    (ch as int) - ('0' as int)
  }

  /** The number a string of decimal digits denotes. */
  function DigitsValue(d: string): nat
    requires forall i :: 0 <= i < |d| ==> IsDigit(d[i])
  {
    if d == [] then 0 else DigitsValue(d[..|d| - 1]) * 10 + DigitValue(d[|d| - 1])
  }

  function DigitChar(k: nat): (ch: char)
    requires k < 10
    ensures IsDigit(ch) && DigitValue(ch) == k
  {
    ('0' as int + k) as char
  }

  /** `n.toString()` for a non-negative integer. */
  function NatToString(n: nat): (s: string)
    ensures |s| > 0
    ensures forall i :: 0 <= i < |s| ==> IsDigit(s[i])
    decreases n
  {
    if n < 10 then [DigitChar(n)] else NatToString(n / 10) + [DigitChar(n % 10)]
  }

  lemma {:induction false} DigitsOfNatToString(n: nat)
    ensures DigitsValue(NatToString(n)) == n
    decreases n
  {
    var s := NatToString(n);
    if n >= 10 {
      DigitsOfNatToString(n / 10);
      assert s[..|s| - 1] == NatToString(n / 10);
    }
  }

  /** Distinct ids print differently, so a decimal id string names exactly one id. */
  lemma NatToStringInjective(a: nat, b: nat)
    ensures NatToString(a) == NatToString(b) <==> a == b
  {
    if NatToString(a) == NatToString(b) {
      DigitsOfNatToString(a);
      DigitsOfNatToString(b);
    }
  }

  /** The text after the leading whitespace and the optional sign, where parseInt reads its digits. */
  function Unsigned(s: string): (u: string)
    ensures |u| <= |s|
  {
    var t := s[SpaceRun(s)..];
    if |t| > 0 && (t[0] == '-' || t[0] == '+') then t[1..] else t
  }

  /** Whether a minus sign follows the leading whitespace. */
  predicate Negated(s: string)
  {
    var t := s[SpaceRun(s)..];
    |t| > 0 && t[0] == '-'
  }

  function Signed(negative: bool, v: nat): int
  {
    if negative then -(v as int) else v
  }

  /**
   * `parseInt(s, 10)`: skip leading whitespace, read an optional sign and the
   * longest run of digits; `None` is NaN (no digit after the sign).
   */
  function ParseInt(s: string): (r: Option<int>)
    ensures r.None? <==> DigitRun(Unsigned(s)) == 0
  {
    var body := Unsigned(s);
    var k := DigitRun(body);
    if k == 0 then None else Some(Signed(Negated(s), DigitsValue(body[..k])))
  }

  lemma ParseIntNatToString(n: nat)
    ensures ParseInt(NatToString(n)) == Some(n)
  {
    var s := NatToString(n);
    assert SpaceRun(s) == 0;
    assert Unsigned(s) == s;
    var k := DigitRun(s);
    assert k == |s|;
    assert s[..k] == s;
    DigitsOfNatToString(n);
  }

  predicate IsHexDigit(ch: char)
  {
    IsDigit(ch) || 'a' <= ch <= 'f' || 'A' <= ch <= 'F'
  }

  /** Length of the longest prefix of `s` made of hexadecimal digits. */
  function HexRun(s: string): (n: nat)
    ensures n <= |s|
    ensures forall i :: 0 <= i < n ==> IsHexDigit(s[i])
    ensures n < |s| ==> !IsHexDigit(s[n])
  {
    if s == [] || !IsHexDigit(s[0]) then 0 else 1 + HexRun(s[1..])
  }

  function HexDigitValue(ch: char): (v: nat)
    requires IsHexDigit(ch)
    ensures v < 16
  {
    if IsDigit(ch) then DigitValue(ch)
    else if 'a' <= ch <= 'f' then (ch as int) - ('a' as int) + 10
    else (ch as int) - ('A' as int) + 10
  }

  /** The number a string of hexadecimal digits denotes. */
  function HexValue(d: string): nat
    requires forall i :: 0 <= i < |d| ==> IsHexDigit(d[i])
  {
    if d == [] then 0 else HexValue(d[..|d| - 1]) * 16 + HexDigitValue(d[|d| - 1])
  }

  /** `0x` or `0X` at the start. */
  predicate HexPrefixed(body: string)
  {
    |body| >= 2 && body[0] == '0' && (body[1] == 'x' || body[1] == 'X')
  }

  /**
   * `parseInt(s)` without a radix: as `parseInt(s, 10)`, except that `0x`
   * or `0X` after the sign switches to base 16; a prefix with no
   * hexadecimal digit after it is NaN.
   */
  function ParseIntAuto(s: string): (r: Option<int>)
    ensures !HexPrefixed(Unsigned(s)) ==> r == ParseInt(s)
    ensures HexPrefixed(Unsigned(s)) ==> (r.None? <==> HexRun(Unsigned(s)[2..]) == 0)
    ensures HexPrefixed(Unsigned(s)) && r.Some? ==>
              var digits := Unsigned(s)[2..];
              r.value == Signed(Negated(s), HexValue(digits[..HexRun(digits)]))
  {
    var body := Unsigned(s);
    if HexPrefixed(body) then
      var digits := body[2..];
      var k := HexRun(digits);
      if k == 0 then None else Some(Signed(Negated(s), HexValue(digits[..k])))
    else ParseInt(s)
  }

  /** A printed count reads back the same with or without a radix. */
  lemma ParseIntAutoNatToString(n: nat)
    ensures ParseIntAuto(NatToString(n)) == Some(n)
  {
    var s := NatToString(n);
    assert SpaceRun(s) == 0;
    assert Unsigned(s) == s;
    assert !HexPrefixed(s) by {
      if |s| >= 2 {
        assert IsDigit(s[1]);
      }
    }
    ParseIntNatToString(n);
  }

  /** A word that starts with no digit is `NaN` without a radix too. */
  lemma ParseIntAutoWord()
    ensures ParseIntAuto("ten").None?
  {
    assert SpaceRun("ten") == 0;
    assert Unsigned("ten") == "ten";
    assert !HexPrefixed("ten");
    assert DigitRun("ten") == 0;
  }

  /** Without a radix `0x10` is sixteen, where `parseInt(s, 10)` reads 0. */
  lemma ParseIntAutoHex()
    ensures ParseIntAuto("0x10") == Some(16)
    ensures ParseInt("0x10") == Some(0)
  {
    assert SpaceRun("0x10") == 0;
    assert Unsigned("0x10") == "0x10";
    assert ParseIntAuto("0x10") == Some(16) by {
      assert "0x10"[2..] == "10";
      assert HexRun("10") == 2;
      assert "10"[..2] == "10" && "10"[..1] == "1" && "1"[..0] == "";
      assert HexValue("1") == 1;
      assert HexValue("10") == 16;
    }
    assert DigitRun("0x10") == 1;
    assert "0x10"[..1] == "0" && "0"[..0] == "";
    assert DigitsValue("0") == 0;
  }

  /** The sign comes before the prefix: `-0X1f` is minus thirty-one. */
  lemma ParseIntAutoNegativeHex()
    ensures ParseIntAuto("-0X1f") == Some(-31)
  {
    assert SpaceRun("-0X1f") == 0;
    assert Unsigned("-0X1f") == "0X1f";
    assert "0X1f"[2..] == "1f";
    assert HexRun("1f") == 2;
    assert "1f"[..2] == "1f" && "1f"[..1] == "1" && "1"[..0] == "";
    assert HexValue("1") == 1;
    assert HexValue("1f") == 31;
  }

  /** A prefix without digits is NaN. */
  lemma ParseIntAutoBarePrefix()
    ensures ParseIntAuto("0x") == None
  {
    assert SpaceRun("0x") == 0;
    assert Unsigned("0x") == "0x";
    assert "0x"[2..] == "";
  }

  // ---------------------------------------------------------------- comparison with 0

  /** Length of the longest suffix of `s` made of whitespace. */
  function TrailingSpaceRun(s: string): (n: nat)
    ensures n <= |s|
    ensures n < |s| ==> !IsSpace(s[|s| - 1 - n])
  {
    if s == [] || !IsSpace(s[|s| - 1]) then 0 else 1 + TrailingSpaceRun(s[..|s| - 1])
  }

  /** The string StringToNumber parses: whitespace and line terminators removed at both ends. */
  function Trim(s: string): (r: string)
    ensures |r| <= |s|
    ensures r != [] ==> !IsSpace(r[0]) && !IsSpace(r[|r| - 1])
  {
    var t := s[SpaceRun(s)..];
    t[..|t| - TrailingSpaceRun(t)]
  }

  /** Some character of `s` is a digit other than 0. */
  predicate HasNonZero(s: string)
  {
    exists i :: 0 <= i < |s| && IsHexDigit(s[i]) && s[i] != '0'
  }

  /** Digits, then optionally a point and more digits: the mantissa of a decimal literal. */
  function MantissaLength(u: string): (n: nat)
    ensures n <= |u|
  {
    var k := DigitRun(u);
    if k < |u| && u[k] == '.' then k + 1 + DigitRun(u[k + 1..]) else k
  }

  /** Nothing, or `e`/`E`, an optional sign and at least one digit. */
  predicate OptExponent(e: string)
  {
    e == []
    || (|e| >= 2 && (e[0] == 'e' || e[0] == 'E')
        && var d := if e[1] == '+' || e[1] == '-' then e[2..] else e[1..];
           |d| > 0 && DigitRun(d) == |d|)
  }

  /** An unsigned decimal literal with a value above 0: `Infinity`, or a mantissa with a non-zero digit. */
  predicate PositiveUnsignedDecimal(u: string)
  {
    u == "Infinity"
    || var m := MantissaLength(u);
       HasNonZero(u[..m]) && OptExponent(u[m..])
  }

  /** Digits of a `0x`, `0o` or `0b` literal. */
  predicate IsRadixDigit(ch: char, radix: char)
  {
    if radix == 'x' || radix == 'X' then IsHexDigit(ch)
    else if radix == 'o' || radix == 'O' then '0' <= ch <= '7'
    else ch == '0' || ch == '1'
  }

  /**
   * `Number(s) > 0`: the trimmed text is a literal with a value above 0 (a
   * `0x`/`0o`/`0b` integer, or a decimal literal without a minus sign);
   * anything else is 0, negative or NaN.
   */
  predicate PositiveString(s: string)
  {
    var t := Trim(s);
    if |t| > 2 && t[0] == '0' && t[1] in "xXoObB" then
      (forall i :: 2 <= i < |t| ==> IsRadixDigit(t[i], t[1])) && HasNonZero(t[2..])
    else if |t| > 0 && t[0] == '+' then PositiveUnsignedDecimal(t[1..])
    else if |t| > 0 && t[0] == '-' then false
    else PositiveUnsignedDecimal(t)
  }

  /**
   * The comparison `v > 0`: numbers compare directly, `true` is 1, null 0;
   * a string is converted by `Number`, an array through its `join(",")`
   * text, and any other object through "[object Object]", which is NaN.
   */
  predicate GreaterThanZero(v: Json)
  {
    match v
    case JNull => false
    case JBool(b) => b
    case JNum(n) => n > 0
    case JStr(s) => PositiveString(s)
    case JArr(_) => PositiveString(JsonString(v))
    case JObj(_) => false
  }

  /** A printed count compares above 0 exactly when it is not 0. */
  lemma {:induction false} PositiveNatToString(n: nat)
    ensures PositiveString(NatToString(n)) <==> n > 0
  {
    var s := NatToString(n);
    assert SpaceRun(s) == 0;
    assert TrailingSpaceRun(s) == 0;
    assert Trim(s) == s;
    assert DigitRun(s) == |s|;
    assert MantissaLength(s) == |s|;
    assert s[..|s|] == s && s[|s|..] == [];
    if |s| > 2 {
      assert IsDigit(s[1]) && s[1] !in "xXoObB";
    }
    NonZeroDigitIffPositive(n);
  }

  lemma {:induction false} NonZeroDigitIffPositive(n: nat)
    ensures HasNonZero(NatToString(n)) <==> n > 0
    decreases n
  {
    var s := NatToString(n);
    if n < 10 {
      assert s == [DigitChar(n)];
      assert HasNonZero(s) <==> s[0] != '0';
    } else {
      var p := NatToString(n / 10);
      NonZeroDigitIffPositive(n / 10);
      assert s == p + [DigitChar(n % 10)];
      assert HasNonZero(p) ==> HasNonZero(s) by {
        if HasNonZero(p) {
          var i :| 0 <= i < |p| && IsHexDigit(p[i]) && p[i] != '0';
          assert s[i] == p[i];
        }
      }
    }
  }

  /** The `length` values a plain object may carry, compared with 0 as the engine's filter does. */
  lemma LengthCoercions()
    ensures GreaterThanZero(JNum(1)) && !GreaterThanZero(JNum(0)) && GreaterThanZero(JBool(true))
    ensures GreaterThanZero(JStr("1")) && !GreaterThanZero(JStr("0")) && !GreaterThanZero(JStr("-1"))
    ensures GreaterThanZero(JArr([JNum(1)])) && !GreaterThanZero(JObj(map[]))
  {
    PositiveNatToString(1);
    PositiveNatToString(0);
    assert NatToString(1) == "1" && NatToString(0) == "0";
    assert Trim("-1") == "-1" by {
      assert SpaceRun("-1") == 0;
      assert TrailingSpaceRun("-1") == 0;
    }
    assert JsonString(JArr([JNum(1)])) == "1" by {
      assert JsonString(JNum(1)) == "1";
    }
  }

  lemma NatToStringInjectiveAll()
    ensures forall a: nat, b: nat :: NatToString(a) == NatToString(b) ==> a == b
  {
    forall a: nat, b: nat | NatToString(a) == NatToString(b)
      ensures a == b
    {
      NatToStringInjective(a, b);
    }
  }

  /** The own enumerable properties of an array or a string: each index as decimal text, with its element. */
  function Indexed(items: seq<Json>): (r: map<string, Json>)
    ensures forall i :: 0 <= i < |items| ==> NatToString(i) in r && r[NatToString(i)] == items[i]
    ensures forall k :: k in r ==> exists i :: 0 <= i < |items| && k == NatToString(i)
  {
    NatToStringInjectiveAll();
    map i | 0 <= i < |items| :: NatToString(i) := items[i]
  }

  /** A string's characters, each as a one-character string. */
  function Characters(s: string): (r: seq<Json>)
    ensures |r| == |s|
    ensures forall i :: 0 <= i < |s| ==> r[i] == JStr([s[i]])
  {
    seq(|s|, i requires 0 <= i < |s| => JStr([s[i]]))
  }

  /**
   * What `for...of` and `[...v]` visit: an array's items or a string's
   * characters; any other value is not iterable.
   */
  function Iterated(v: Json): (r: Result<seq<Json>>)
    ensures r.Ok? <==> v.JArr? || v.JStr?
    ensures r.Fail? ==> r.error == TypeError
    ensures v.JArr? ==> r == Ok(v.items)
    ensures v.JStr? ==> |r.value| == |v.s| && forall i :: 0 <= i < |v.s| ==> r.value[i] == JStr([v.s[i]])
  {
    match v
    case JArr(items) => Ok(items)
    case JStr(s) => Ok(Characters(s))
    case _ => Fail(TypeError)
  }

  /** `n.toString()` for any integer. */
  function IntToString(n: int): string
  {
    if n < 0 then "-" + NatToString(-n) else NatToString(n)
  }

  /**
   * `String(v)`, the conversion a template literal or JSON.parse applies;
   * array elements that are null print as "".
   */
  function JsString(v: Option<Json>): string
  {
    if v.None? then "undefined" else JsonString(v.value)
  }

  function JsonString(j: Json): string
  {
    match j
    case JNull => "null"
    case JBool(b) => if b then "true" else "false"
    case JNum(n) => IntToString(n)
    case JStr(s) => s
    case JObj(_) => "[object Object]"
    case JArr(items) =>
      Join(seq(|items|, i requires 0 <= i < |items| => if items[i].JNull? then "" else JsonString(items[i])), ",")
  }

  /** `parts.join(sep)`. */
  function Join(parts: seq<string>, sep: string): (r: string)
    ensures parts == [] ==> r == ""
    ensures |parts| == 1 ==> r == parts[0]
  {
    if parts == [] then ""
    else if |parts| == 1 then parts[0]
    else parts[0] + sep + Join(parts[1..], sep)
  }

  lemma {:induction false} JoinAppend(parts: seq<string>, last: string, sep: string)
    requires parts != []
    ensures Join(parts + [last], sep) == Join(parts, sep) + sep + last
    decreases |parts|
  {
    if |parts| == 1 {
      assert parts + [last] == [parts[0], last];
    } else {
      assert (parts + [last])[1..] == parts[1..] + [last];
      JoinAppend(parts[1..], last, sep);
    }
  }
}
