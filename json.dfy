/**
 * The parsed JSON values that travel between the app and its backend, with the few
 * pieces of JavaScript semantics the core relies on: truthiness, property access on a
 * parsed value, `String(v)`, `JSON.stringify`, and the reading of a JSON string literal
 * (the part of `JSON.parse` that restoring a stored user needs).
 *
 * Numbers are integers here; floating point is not modelled.
 */
module Json {
  import opened Outcomes

  datatype Json =
    | JNull
    | JBool(b: bool)
    | JNumber(n: int)
    | JString(s: string)
    | JArray(items: seq<Json>)
    | JObject(members: seq<Member>)

  /** One `"key": value` pair of an object, in the order the object lists them. */
  datatype Member = Member(key: string, value: Json)

  /** JavaScript truthiness of a parsed value (`if (v)`, `v || fallback`, `!!v`). */
  predicate Truthy(j: Json) {
    match j
    case JNull => false
    case JBool(b) => b
    case JNumber(n) => n != 0
    case JString(s) => s != ""
    case _ => true
  }

  /** The value of the last member called `key`: `JSON.parse` keeps the last of duplicate keys. */
  function LastValue(ms: seq<Member>, key: string): (r: Option<Json>)
    ensures r.None? <==> forall i :: 0 <= i < |ms| ==> ms[i].key != key
    ensures r.Some? ==> exists i :: 0 <= i < |ms| && ms[i] == Member(key, r.value) &&
                                    forall k :: i < k < |ms| ==> ms[k].key != key
  {
    if ms == [] then None
    else if ms[|ms| - 1].key == key then Some(ms[|ms| - 1].value)
    else LastValue(ms[..|ms| - 1], key)
  }

  /**
   * `d.key` on a parsed value that is not `null` (reading a property of `null` throws,
   * which callers handle themselves). Only objects carry own properties here; inherited
   * ones such as `length` are not modelled.
   */
  function Property(d: Json, key: string): (r: Option<Json>)
    requires d != JNull
    ensures r.Some? ==> d.JObject?
    ensures d.JObject? ==> (r.None? <==> forall i :: 0 <= i < |d.members| ==> d.members[i].key != key)
    ensures r.Some? ==> exists i :: 0 <= i < |d.members| && d.members[i] == Member(key, r.value) &&
                                    forall k :: i < k < |d.members| ==> d.members[k].key != key
    ensures d.JObject? && |d.members| > 0 && d.members[|d.members| - 1].key == key ==>
              r == Some(d.members[|d.members| - 1].value)
  {
    match d
    case JObject(ms) => LastValue(ms, key)
    case _ => None
  }

  function DigitChar(d: nat): char
    requires d < 10
  {
    ('0' as int + d) as char
  }

  /** Decimal text of a natural number, most significant digit first. */
  function NatToDecimal(n: nat): (r: string)
    ensures r != []
    ensures forall i :: 0 <= i < |r| ==> '0' <= r[i] <= '9'
  {
    if n < 10 then [DigitChar(n)] else NatToDecimal(n / 10) + [DigitChar(n % 10)]
  }

  function IntToDecimal(n: int): (r: string)
    ensures r != []
  {
    if n < 0 then "-" + NatToDecimal(-n) else NatToDecimal(n)
  }

  /** `parts.join(sep)`. */
  function Join(parts: seq<string>, sep: string): string {
    if |parts| == 0 then ""
    else if |parts| == 1 then parts[0]
    else parts[0] + sep + Join(parts[1..], sep)
  }

  /**
   * `String(v)`, which is what `new Error(v)` makes the message of a non-string `v`:
   * arrays are joined with commas (null elements become empty), objects print as
   * `[object Object]`.
   */
  function AsString(j: Json): string {
    match j
    case JNull => "null"
    case JBool(b) => if b then "true" else "false"
    case JNumber(n) => IntToDecimal(n)
    case JString(s) => s
    case JArray(items) =>
      Join(seq(|items|, i requires 0 <= i < |items| => if items[i] == JNull then "" else AsString(items[i])), ",")
    case JObject(_) => "[object Object]"
  }

  // ---------------------------------------------------------------------------
  // JSON.stringify
  // ---------------------------------------------------------------------------

  /** Lower-case hexadecimal digit, as `JSON.stringify` writes it in `\u00XX`. */
  function HexDigit(k: nat): char
    requires k < 16
  {
    if k < 10 then ('0' as int + k) as char else ('a' as int + k - 10) as char
  }

  /** How `JSON.stringify` writes one character inside a string literal. */
  function EscapeChar(c: char): (r: string)
    ensures r != []
  {
    if c == '"' then ['\\', '"']
    else if c == '\\' then ['\\', '\\']
    else if c as int == 8 then ['\\', 'b']
    else if c == '\t' then ['\\', 't']
    else if c == '\n' then ['\\', 'n']
    else if c as int == 12 then ['\\', 'f']
    else if c == '\r' then ['\\', 'r']
    else if c < ' ' then ['\\', 'u', '0', '0', HexDigit(c as int / 16), HexDigit(c as int % 16)]
    else [c]
  }

  function Escape(s: string): string {
    if s == [] then [] else EscapeChar(s[0]) + Escape(s[1..])
  }

  /** A string as a JSON string literal. */
  function Quote(s: string): string {
    "\"" + Escape(s) + "\""
  }

  /** `JSON.stringify(j)`: no white space, members in their own order. */
  function Serialize(j: Json): (r: string)
    ensures r != []
  {
    match j
    case JNull => "null"
    case JBool(b) => if b then "true" else "false"
    case JNumber(n) => IntToDecimal(n)
    case JString(s) => Quote(s)
    case JArray(items) =>
      "[" + Join(seq(|items|, i requires 0 <= i < |items| => Serialize(items[i])), ",") + "]"
    case JObject(ms) =>
      "{" + Join(seq(|ms|, i requires 0 <= i < |ms| => Quote(ms[i].key) + ":" + Serialize(ms[i].value)), ",") + "}"
  }

  // ---------------------------------------------------------------------------
  // Reading a JSON string literal (the string part of JSON.parse)
  // ---------------------------------------------------------------------------

  function HexValue(c: char): (r: Option<nat>)
    ensures r.Some? ==> r.value < 16
  {
    if '0' <= c <= '9' then Some(c as int - '0' as int)
    else if 'a' <= c <= 'f' then Some(c as int - 'a' as int + 10)
    else if 'A' <= c <= 'F' then Some(c as int - 'A' as int + 10)
    else None
  }

  /** The code unit that four hexadecimal digits denote. */
  function HexQuad(h: string): (r: Option<nat>)
    requires |h| == 4
    ensures r.Some? ==> r.value < 0x10000
  {
    match (HexValue(h[0]), HexValue(h[1]), HexValue(h[2]), HexValue(h[3]))
    case (Some(a), Some(b), Some(c), Some(d)) => Some(4096 * a + 256 * b + 16 * c + d)
    case _ => None
  }

  /**
   * The character denoted by the escape sequence that follows a backslash, and how many
   * characters of `s` it uses. A `\u` escape of a lone surrogate has no character of its
   * own and is refused.
   */
  function ReadEscape(s: string): (r: Option<(char, nat)>)
    ensures r.Some? ==> 1 <= r.value.1 <= |s|
  {
    if s == [] then None
    else if s[0] == '"' then Some(('"', 1))
    else if s[0] == '\\' then Some(('\\', 1))
    else if s[0] == '/' then Some(('/', 1))
    else if s[0] == 'b' then Some((8 as char, 1))
    else if s[0] == 'f' then Some((12 as char, 1))
    else if s[0] == 'n' then Some(('\n', 1))
    else if s[0] == 'r' then Some(('\r', 1))
    else if s[0] == 't' then Some(('\t', 1))
    else if s[0] == 'u' && |s| >= 5 then
      match HexQuad(s[1..5])
      case Some(v) => if v < 0xD800 || 0xE000 <= v then Some((v as char, 5)) else None
      case None => None
    else None
  }

  function Prepend(c: char, r: Option<(string, string)>): Option<(string, string)> {
    match r
    case Some((x, rest)) => Some(([c] + x, rest))
    case None => None
  }

  /**
   * Reads the body of a string literal whose opening quote has been consumed: the
   * characters up to the closing quote, decoded, and the text after that quote. Raw
   * control characters and unknown escapes make the literal malformed.
   */
  function ReadString(s: string): (r: Option<(string, string)>)
    ensures r.Some? ==> |r.value.1| < |s|
    decreases |s|
  {
    if s == [] then None
    else if s[0] == '"' then Some(([], s[1..]))
    else if s[0] == '\\' then
      match ReadEscape(s[1..])
      case Some((c, n)) => Prepend(c, ReadString(s[1 + n..]))
      case None => None
    else if s[0] < ' ' then None
    else Prepend(s[0], ReadString(s[1..]))
  }

  /** Reading back one escaped character leaves the rest of the text to be read. */
  lemma ReadEscapedChar(c: char, t: string)
    ensures ReadString(EscapeChar(c) + t) == Prepend(c, ReadString(t))
  {
    var e := EscapeChar(c);
    if |e| == 1 {
      assert (e + t)[1..] == t;
    } else if |e| == 2 {
      ReadShortEscape(c, t);
    } else {
      ReadUnicodeEscape(c, t);
    }
  }

  /** A two-character escape such as `\n` reads back as its character. */
  lemma ReadShortEscape(c: char, t: string)
    requires |EscapeChar(c)| == 2
    ensures ReadString(EscapeChar(c) + t) == Prepend(c, ReadString(t))
  {
    var e := EscapeChar(c);
    assert (e + t)[0] == '\\';
    assert (e + t)[1..] == [e[1]] + t;
    assert ReadEscape([e[1]] + t) == Some((c, 1));
    assert ([e[1]] + t)[1..] == t;
  }

  /** A `\u00XX` escape of a control character reads back as that character. */
  lemma ReadUnicodeEscape(c: char, t: string)
    requires |EscapeChar(c)| == 6
    ensures ReadString(EscapeChar(c) + t) == Prepend(c, ReadString(t))
  {
    var e := EscapeChar(c);
    var v := c as int;
    assert e == ['\\', 'u', '0', '0', HexDigit(v / 16), HexDigit(v % 16)];
    var u := e[1..] + t;
    assert (e + t)[1..] == u;
    assert u[1..5] == e[2..6];
    assert HexValue(e[4]) == Some(v / 16);
    assert HexValue(e[5]) == Some(v % 16);
    assert HexQuad(e[2..6]) == Some(v);
    assert ReadEscape(u) == Some((c, 5));
    assert (e + t)[1 + 5..] == t;
  }

  /** Round trip: reading what `Escape` wrote, followed by the closing quote, gives back the string and the rest. */
  lemma {:induction false} ReadEscaped(x: string, rest: string)
    ensures ReadString(Escape(x) + "\"" + rest) == Some((x, rest))
  {
    if x == [] {
      assert Escape(x) + "\"" + rest == "\"" + rest;
    } else {
      var t := Escape(x[1..]) + "\"" + rest;
      assert Escape(x) + "\"" + rest == EscapeChar(x[0]) + t;
      ReadEscapedChar(x[0], t);
      ReadEscaped(x[1..], rest);
      assert [x[0]] + x[1..] == x;
    }
  }

  /** Reads a whole string literal, opening quote included: its decoded content and the text after it. */
  function ReadQuoted(text: string): (r: Option<(string, string)>)
    ensures r.Some? ==> |r.value.1| < |text|
  {
    if |text| > 0 && text[0] == '"' then ReadString(text[1..]) else None
  }

  /** `JSON.parse(JSON.stringify(s)) === s` for a string `s`, whatever text follows the literal. */
  lemma ReadQuotedOf(s: string, rest: string)
    ensures ReadQuoted(Serialize(JString(s)) + rest) == Some((s, rest))
  {
    var text := Serialize(JString(s)) + rest;
    assert text == "\"" + (Escape(s) + "\"" + rest);
    assert text[1..] == Escape(s) + "\"" + rest;
    ReadEscaped(s, rest);
  }
}
