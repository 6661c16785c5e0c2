/** Values and string operations shared by the query tool and the upload tool:
    JavaScript's nullable strings and truthiness, prefix tests, `split('=')[1]`,
    decimal rendering and the leading-digit part of `parseInt`, and
    `JSON.stringify` of a string. */
module Common {

  datatype Option<+T> = None | Some(value: T)

  /** The outcome of a call that may throw: its value, or the thrown error's message. */
  datatype Result<+T> = Ok(value: T) | Err(message: string)

  /** JavaScript truthiness of a string that may be null: null and "" are falsy. */
  predicate Truthy(s: Option<string>)
  {
    s.Some? && s.value != ""
  }

  /** `s.startsWith(p)` */
  predicate StartsWith(s: string, p: string)
  {
    p <= s
  }

  /** Does `w` occur as a contiguous piece of `s`? */
  predicate Occurs(w: string, s: string)
  {
    w <= s || (s != [] && Occurs(w, s[1..]))
  }

  lemma {:induction false} OccursBetween(a: string, w: string, b: string)
    ensures Occurs(w, a + w + b)
  {
    if a == [] {
      assert a + w + b == w + b;
    } else {
      assert (a + w + b)[1..] == a[1..] + w + b;
      OccursBetween(a[1..], w, b);
    }
  }

  // ---------------------------------------------------------------------------
  // split('=')

  /** The text before the first '=' of `s` (all of `s` when it has none). */
  function BeforeEq(s: string): (r: string)
    ensures r <= s
    ensures '=' !in r
    ensures |r| < |s| ==> s[|r|] == '='
  {
    if s == [] || s[0] == '=' then [] else [s[0]] + BeforeEq(s[1..])
  }

  /** `s.split('=')[1]`: the text between the first and the second '=' of `s`
      (up to the end when there is no second one). */
  function SecondField(s: string): (r: string)
    requires '=' in s
    ensures |BeforeEq(s)| < |s| && s[|BeforeEq(s)|] == '='
    ensures '=' !in r
    ensures r <= s[|BeforeEq(s)| + 1..]
    ensures |BeforeEq(s)| + 1 + |r| == |s| || s[|BeforeEq(s)| + 1 + |r|] == '='
  {
    var i := |BeforeEq(s)|;
    assert i == |s| ==> BeforeEq(s) == s;
    BeforeEq(s[i + 1..])
  }

  /** For an argument `name=rest` whose name holds no '=', the value is `rest`
      up to its first '='. */
  lemma {:induction false} SecondFieldAfterName(name: string, rest: string)
    requires '=' !in name
    ensures '=' in name + "=" + rest
    ensures SecondField(name + "=" + rest) == BeforeEq(rest)
  {
    var s := name + "=" + rest;
    assert s[|name|] == '=';
    BeforeEqPrefix(name, "=" + rest);
    assert s[|name| + 1..] == rest;
  }

  /** In `name=v=w`, with no '=' in the name or in `v`, the value is `v`. */
  lemma SecondFieldStops(name: string, v: string, w: string)
    requires '=' !in name && '=' !in v
    ensures '=' in name + "=" + v + "=" + w
    ensures SecondField(name + "=" + v + "=" + w) == v
  {
    var tail2 := "=" + w;
    var rest := v + tail2;
    var tail1 := "=" + rest;
    var s := name + tail1;
    assert name + "=" + v + "=" + w == s;
    assert s[|name|] == '=';
    BeforeEqPrefix(name, tail1);
    assert s[|name| + 1..] == rest;
    BeforeEqPrefix(v, tail2);
  }

  lemma {:induction false} BeforeEqPrefix(name: string, tail: string)
    requires '=' !in name
    requires tail != [] && tail[0] == '='
    ensures BeforeEq(name + tail) == name
  {
    if name != [] {
      assert (name + tail)[1..] == name[1..] + tail;
      BeforeEqPrefix(name[1..], tail);
    } else {
      assert name + tail == tail;
    }
  }

  // ---------------------------------------------------------------------------
  // Decimal numbers

  predicate IsDigit(c: char)
  {
    '0' <= c <= '9'
  }

  function DigitChar(d: nat): (c: char)
    requires d < 10
    ensures IsDigit(c) && (c as int) - ('0' as int) == d
  {
    (('0' as int) + d) as char
  }

  /** The decimal rendering of `n`, as JavaScript prints a safe integer. */
  function Decimal(n: nat): (r: string)
    ensures r != [] && forall i :: 0 <= i < |r| ==> IsDigit(r[i])
  {
    if n < 10 then [DigitChar(n)] else Decimal(n / 10) + [DigitChar(n % 10)]
  }

  function DigitValue(c: char): nat
    requires IsDigit(c)
  {
    (c as int) - ('0' as int)
  }

  /** The value of a string of decimal digits. */
  function DigitsValue(s: string): nat
    requires forall i :: 0 <= i < |s| ==> IsDigit(s[i])
  {
    if s == [] then 0 else DigitsValue(s[..|s| - 1]) * 10 + DigitValue(s[|s| - 1])
  }

  /** The longest prefix of `s` made of decimal digits. */
  function LeadingDigits(s: string): (r: string)
    ensures r <= s
    ensures forall i :: 0 <= i < |r| ==> IsDigit(r[i])
    ensures |r| < |s| ==> !IsDigit(s[|r|])
  {
    if s == [] || !IsDigit(s[0]) then [] else [s[0]] + LeadingDigits(s[1..])
  }

  /** A JavaScript number produced by `parseInt`: a count, or NaN. */
  datatype Limit = Count(n: nat) | NaN

  /** `parseInt(s)` for decimal input: the value of the leading digits, NaN when
      there are none. */
  function ParseInt(s: string): (r: Limit)
    ensures r.NaN? <==> s == [] || !IsDigit(s[0])
  {
    var d := LeadingDigits(s);
    if d == [] then NaN else Count(DigitsValue(d))
  }

  /** How a number is interpolated into a template string. */
  function LimitText(l: Limit): string
  {
    match l
    case Count(n) => Decimal(n)
    case NaN => "NaN"
  }

  lemma {:induction false} DecimalValue(n: nat)
    ensures DigitsValue(Decimal(n)) == n
  {
    if n >= 10 {
      DecimalValue(n / 10);
      var s := Decimal(n);
      assert s[..|s| - 1] == Decimal(n / 10);
    }
  }

  lemma {:induction false} LeadingDigitsOfDigits(d: string, rest: string)
    requires forall i :: 0 <= i < |d| ==> IsDigit(d[i])
    requires rest == [] || !IsDigit(rest[0])
    ensures LeadingDigits(d + rest) == d
  {
    if d != [] {
      assert (d + rest)[1..] == d[1..] + rest;
      LeadingDigitsOfDigits(d[1..], rest);
    } else {
      assert d + rest == rest;
    }
  }

  /** `parseInt` reads back exactly the number that `Decimal` printed, whatever
      non-digit text follows it. */
  lemma ParseIntDecimal(n: nat, rest: string)
    requires rest == [] || !IsDigit(rest[0])
    ensures ParseInt(Decimal(n) + rest) == Count(n)
    ensures LimitText(ParseInt(Decimal(n) + rest)) == Decimal(n)
  {
    LeadingDigitsOfDigits(Decimal(n), rest);
    DecimalValue(n);
  }

  // ---------------------------------------------------------------------------
  // JSON string literals

  function HexDigit(d: nat): (c: char)
    requires d < 16
    ensures IsDigit(c) || 'a' <= c <= 'f'
  {
    if d < 10 then DigitChar(d) else (('a' as int) + d - 10) as char
  }

  function HexValue(c: char): (r: Option<nat>)
    ensures r.Some? ==> r.value < 16
  {
    if IsDigit(c) then Some((c as int) - ('0' as int))
    else if 'a' <= c <= 'f' then Some((c as int) - ('a' as int) + 10)
    else if 'A' <= c <= 'F' then Some((c as int) - ('A' as int) + 10)
    else None
  }

  const Backspace: char := 8 as char
  const FormFeed: char := 12 as char

  /** How `JSON.stringify` writes one character inside a string literal. */
  function EscapeChar(c: char): (r: string)
    ensures r != []
    ensures forall i :: 0 <= i < |r| ==> r[i] as int >= 0x20
  {
    if c == '"' then "\\\""
    else if c == '\\' then "\\\\"
    else if c == Backspace then "\\b"
    else if c == FormFeed then "\\f"
    else if c == '\n' then "\\n"
    else if c == '\r' then "\\r"
    else if c == '\t' then "\\t"
    else if (c as int) < 0x20 then
      ['\\', 'u', '0', '0', HexDigit((c as int) / 16), HexDigit((c as int) % 16)]
    else [c]
  }

  /** The body of `JSON.stringify(s)`: no control character is left raw. */
  function Escape(s: string): (r: string)
    ensures |r| >= |s|
    ensures forall i :: 0 <= i < |r| ==> r[i] as int >= 0x20
  {
    if s == [] then [] else EscapeChar(s[0]) + Escape(s[1..])
  }

  /** `JSON.stringify(s)` for a string `s`. */
  function Quote(s: string): (r: string)
    ensures |r| >= 2 && r[0] == '"' && r[|r| - 1] == '"'
    ensures forall i :: 0 <= i < |r| ==> r[i] as int >= 0x20
  {
    "\"" + Escape(s) + "\""
  }

  /** The character a two-character escape `\\e` stands for, if `e` is one. */
  function ShortEscape(e: char): Option<char>
  {
    if e == '"' then Some('"')
    else if e == '\\' then Some('\\')
    else if e == '/' then Some('/')
    else if e == 'b' then Some(Backspace)
    else if e == 'f' then Some(FormFeed)
    else if e == 'n' then Some('\n')
    else if e == 'r' then Some('\r')
    else if e == 't' then Some('\t')
    else None
  }

  /** The code unit written by the four hex digits of a `\\uXXXX` escape. */
  function HexQuad(a: char, b: char, c: char, d: char): (r: Option<nat>)
    ensures r.Some? ==> r.value < 0x10000
  {
    match (HexValue(a), HexValue(b), HexValue(c), HexValue(d))
    case (Some(x), Some(y), Some(z), Some(w)) => Some(((x * 16 + y) * 16 + z) * 16 + w)
    case _ => None
  }

  /** Reads back the body of a JSON string literal; None when it is malformed. */
  function Unescape(s: string): (r: Option<string>)
    ensures r.Some? ==> |r.value| <= |s|
  {
    if s == [] then Some([])
    else if s[0] == '"' then None
    else if s[0] != '\\' then
      match Unescape(s[1..])
      case Some(t) => Some([s[0]] + t)
      case None => None
    else if |s| < 2 then None
    else if ShortEscape(s[1]).Some? then
      match Unescape(s[2..])
      case Some(t) => Some([ShortEscape(s[1]).value] + t)
      case None => None
    else if s[1] != 'u' || |s| < 6 then None
    else
      match HexQuad(s[2], s[3], s[4], s[5])
      case None => None
      case Some(v) =>
        if 0xD800 <= v < 0xE000 then None
        else
          match Unescape(s[6..])
          case Some(t) => Some([v as char] + t)
          case None => None
  }

  /** Reads back a JSON string literal. */
  function Unquote(q: string): (r: Option<string>)
    ensures r.Some? ==> |q| >= 2 && q[0] == '"' && q[|q| - 1] == '"'
    ensures r.Some? ==> |r.value| <= |q| - 2
  {
    if |q| < 2 || q[0] != '"' || q[|q| - 1] != '"' then None
    else Unescape(q[1..|q| - 1])
  }

  lemma HexRoundTrip(d: nat)
    requires d < 16
    ensures HexValue(HexDigit(d)) == Some(d)
  {
  }

  lemma {:induction false} UnescapeEscapeChar(c: char, rest: string)
    ensures Unescape(EscapeChar(c) + rest) ==
      match Unescape(rest)
      case Some(t) => Some([c] + t)
      case None => None
  {
    var s := EscapeChar(c) + rest;
    if c == '"' || c == '\\' || c == Backspace || c == FormFeed || c == '\n' || c == '\r' || c == '\t' {
      assert s[2..] == rest;
    } else if (c as int) < 0x20 {
      HexRoundTrip((c as int) / 16);
      HexRoundTrip((c as int) % 16);
      assert s[6..] == rest;
      assert s[2] == '0' && s[3] == '0';
      assert HexValue('0') == Some(0);
    } else {
      assert s[1..] == rest;
    }
  }

  lemma {:induction false} UnescapeEscape(s: string)
    ensures Unescape(Escape(s)) == Some(s)
  {
    if s != [] {
      UnescapeEscape(s[1..]);
      UnescapeEscapeChar(s[0], Escape(s[1..]));
      assert [s[0]] + s[1..] == s;
    }
  }

  /** What `JSON.stringify` wrote, `JSON.parse` reads back unchanged. */
  lemma QuoteRoundTrip(s: string)
    ensures Unquote(Quote(s)) == Some(s)
  {
    var q := Quote(s);
    assert q[1..|q| - 1] == Escape(s);
    UnescapeEscape(s);
  }
}
