/** The encoding/json output for a flat struct of strings and integers, and a decoder for it.
    Strings are valid text: a Dafny char is a Unicode scalar value. Escaping follows
    section 7 of RFC 8259 with encoding/json's HTML-safe choices. */
module Json {
  import opened Prelude
  import opened Decimal

  datatype Scalar = Text(text: string) | Number(number: int)

  datatype Field = Field(name: string, value: Scalar)

  const QUOTE: char := '\"'
  const BACKSLASH: char := '\\'

  function HexDigit(d: nat): char
    requires d < 16
  {
    if d < 10 then '0' + d as char else 'a' + (d - 10) as char
  }

  function HexValue(c: char): Option<nat> {
    if '0' <= c <= '9' then Some(c as int - '0' as int)
    else if 'a' <= c <= 'f' then Some(c as int - 'a' as int + 10)
    else None
  }

  lemma HexDigits(n: nat)
    requires n < 0x10000
    ensures n == 4096 * (n / 16 / 16 / 16) + 256 * (n / 16 / 16 % 16) + 16 * (n / 16 % 16) + n % 16
    ensures n / 16 / 16 / 16 < 16
  {
    var q := n / 16;
    var r := q / 16;
    assert n == 16 * q + n % 16 && q == 16 * r + q % 16 && r == 16 * (r / 16) + r % 16;
  }

  /** A backslash, u, and four hexadecimal digits. */
  function UnicodeEscape(n: nat): string
    requires n < 0x10000
  {
    HexDigits(n);
    [BACKSLASH, 'u', HexDigit(n / 16 / 16 / 16), HexDigit(n / 16 / 16 % 16), HexDigit(n / 16 % 16), HexDigit(n % 16)]
  }

  function EscapeChar(c: char): string {
    if c == QUOTE || c == BACKSLASH then [BACKSLASH, c]
    else if c == '\U{8}' then [BACKSLASH, 'b']
    else if c == '\U{c}' then [BACKSLASH, 'f']
    else if c == '\n' then [BACKSLASH, 'n']
    else if c == '\r' then [BACKSLASH, 'r']
    else if c == '\t' then [BACKSLASH, 't']
    else if c < ' ' || c == '<' || c == '>' || c == '&' || c == '\U{2028}' || c == '\U{2029}'
    then UnicodeEscape(c as int)
    else [c]
  }

  function EscapeText(s: string): string {
    if s == "" then "" else EscapeChar(s[0]) + EscapeText(s[1..])
  }

  function Quoted(s: string): string {
    [QUOTE] + EscapeText(s) + [QUOTE]
  }

  function EncodeScalar(v: Scalar): string {
    match v
    case Text(s) => Quoted(s)
    case Number(n) => Itoa(n)
  }

  function EncodeField(f: Field): string {
    Quoted(f.name) + ":" + EncodeScalar(f.value)
  }

  function EncodeFields(fs: seq<Field>): string
    requires fs != []
  {
    if |fs| == 1 then EncodeField(fs[0]) + "}"
    else EncodeField(fs[0]) + "," + EncodeFields(fs[1..])
  }

  function EncodeStruct(fs: seq<Field>): string
    requires fs != []
  {
    "{" + EncodeFields(fs)
  }

  // ---- the decoder ----

  /** One character of a string literal's body. */
  function ReadChar(s: string): (r: Option<(char, string)>)
    ensures r.Some? ==> |r.value.1| < |s|
  {
    if s == "" then None
    else if s[0] != BACKSLASH then Some((s[0], s[1..]))
    else if |s| < 2 then None
    else if s[1] == QUOTE || s[1] == BACKSLASH then Some((s[1], s[2..]))
    else if s[1] == 'b' then Some(('\U{8}', s[2..]))
    else if s[1] == 'f' then Some(('\U{c}', s[2..]))
    else if s[1] == 'n' then Some(('\n', s[2..]))
    else if s[1] == 'r' then Some(('\r', s[2..]))
    else if s[1] == 't' then Some(('\t', s[2..]))
    else if s[1] != 'u' || |s| < 6 then None
    else
      var a, b, c, d := HexValue(s[2]), HexValue(s[3]), HexValue(s[4]), HexValue(s[5]);
      if a.None? || b.None? || c.None? || d.None? then None
      else
        var n := 4096 * a.value + 256 * b.value + 16 * c.value + d.value;
        if n < 0xD800 then Some((n as char, s[6..])) else None
  }

  /** The rest of a string literal, after its opening quote. */
  function ReadText(s: string): (r: Option<(string, string)>)
    ensures r.Some? ==> |r.value.1| < |s|
    decreases |s|
  {
    if s == "" then None
    else if s[0] == QUOTE then Some(("", s[1..]))
    else match ReadChar(s)
      case None => None
      case Some((c, rest)) =>
        match ReadText(rest)
        case None => None
        case Some((tail, after)) => Some(([c] + tail, after))
  }

  function DigitRun(s: string): (k: nat)
    ensures k <= |s|
    ensures forall i :: 0 <= i < k ==> IsDigit(s[i])
    ensures k < |s| ==> !IsDigit(s[k])
  {
    if s == "" || !IsDigit(s[0]) then 0 else 1 + DigitRun(s[1..])
  }

  function ReadNatural(s: string): (r: Option<(nat, string)>)
    ensures r.Some? ==> |r.value.1| < |s|
  {
    var k := DigitRun(s);
    if k == 0 then None else Some((Value(s[..k]), s[k..]))
  }

  function ReadScalar(s: string): (r: Option<(Scalar, string)>)
    ensures r.Some? ==> |r.value.1| < |s|
  {
    if s == "" then None
    else if s[0] == QUOTE then
      match ReadText(s[1..])
      case None => None
      case Some((t, rest)) => Some((Text(t), rest))
    else if s[0] == '-' then
      match ReadNatural(s[1..])
      case None => None
      case Some((n, rest)) => Some((Number(0 - n), rest))
    else
      match ReadNatural(s)
      case None => None
      case Some((n, rest)) => Some((Number(n), rest))
  }

  function ReadField(s: string): (r: Option<(Field, string)>)
    ensures r.Some? ==> |r.value.1| < |s|
  {
    if s == "" || s[0] != QUOTE then None
    else match ReadText(s[1..])
      case None => None
      case Some((name, rest)) =>
        if rest == "" || rest[0] != ':' then None
        else match ReadScalar(rest[1..])
          case None => None
          case Some((v, after)) => Some((Field(name, v), after))
  }

  function ReadFields(s: string): Option<seq<Field>>
    decreases |s|
  {
    match ReadField(s)
    case None => None
    case Some((f, rest)) =>
      if rest == "}" then Some([f])
      else if rest == "" || rest[0] != ',' then None
      else match ReadFields(rest[1..])
        case None => None
        case Some(fs) => Some([f] + fs)
  }

  // ---- the decoder undoes the encoder ----

  lemma HexRoundTrip(d: nat)
    requires d < 16
    ensures HexValue(HexDigit(d)) == Some(d)
  {
  }

  lemma UnicodeRoundTrip(c: char, rest: string)
    requires c as int < 0xD800
    ensures ReadChar(UnicodeEscape(c as int) + rest) == Some((c, rest))
  {
    var n := c as int;
    var e := UnicodeEscape(n);
    var s := e + rest;
    HexDigits(n);
    HexRoundTrip(n / 16 / 16 / 16);
    HexRoundTrip(n / 16 / 16 % 16);
    HexRoundTrip(n / 16 % 16);
    HexRoundTrip(n % 16);
    assert s[0] == BACKSLASH && s[1] == 'u' && |s| >= 6;
    assert s[2] == e[2] && s[3] == e[3] && s[4] == e[4] && s[5] == e[5];
    assert s[6..] == rest;
  }

  lemma ReadCharRoundTrip(c: char, rest: string)
    ensures ReadChar(EscapeChar(c) + rest) == Some((c, rest))
    ensures EscapeChar(c)[0] != QUOTE
  {
    var e := EscapeChar(c);
    var s := e + rest;
    if e == [c] {
      assert s[0] == c && s[1..] == rest;
    } else if |e| == 2 {
      assert s[0] == e[0] && s[1] == e[1] && s[2..] == rest;
    } else {
      assert e == UnicodeEscape(c as int);
      UnicodeRoundTrip(c, rest);
    }
  }

  lemma {:induction false} ReadTextRoundTrip(s: string, rest: string)
    ensures ReadText(EscapeText(s) + [QUOTE] + rest) == Some((s, rest))
  {
    hide EscapeChar;
    hide ReadChar;
    var whole := EscapeText(s) + [QUOTE] + rest;
    if s == "" {
      assert whole == [QUOTE] + rest;
    } else {
      var tail := EscapeText(s[1..]) + [QUOTE] + rest;
      assert whole == EscapeChar(s[0]) + tail;
      ReadCharRoundTrip(s[0], tail);
      ReadTextRoundTrip(s[1..], rest);
      assert s == [s[0]] + s[1..];
    }
  }

  lemma {:induction false} DigitRunExact(d: string, rest: string)
    requires forall c :: c in d ==> IsDigit(c)
    requires rest == "" || !IsDigit(rest[0])
    ensures DigitRun(d + rest) == |d|
  {
    if d == "" {
      assert d + rest == rest;
    } else {
      assert (d + rest)[1..] == d[1..] + rest;
      DigitRunExact(d[1..], rest);
    }
  }

  lemma ReadNaturalRoundTrip(n: nat, rest: string)
    requires rest == "" || !IsDigit(rest[0])
    ensures ReadNatural(Digits(n) + rest) == Some((n, rest))
  {
    var d := Digits(n);
    DigitsRoundTrip(n);
    DigitRunExact(d, rest);
    assert (d + rest)[..|d|] == d && (d + rest)[|d|..] == rest;
  }

  lemma ReadTextScalar(t: string, rest: string)
    ensures ReadScalar(Quoted(t) + rest) == Some((Text(t), rest))
  {
    hide EscapeText;
    hide ReadText;
    var s := Quoted(t) + rest;
    var body := EscapeText(t) + [QUOTE] + rest;
    assert s == [QUOTE] + body;
    assert s[0] == QUOTE && s[1..] == body;
    ReadTextRoundTrip(t, rest);
  }

  lemma ReadNegativeScalar(d: string, n: nat, rest: string)
    requires ReadNatural(d + rest) == Some((n, rest))
    ensures ReadScalar("-" + d + rest) == Some((Number(0 - n), rest))
  {
    var s := "-" + d + rest;
    assert s[0] == '-' && s[1..] == d + rest;
  }

  lemma ReadPositiveScalar(d: string, n: nat, rest: string)
    requires d != "" && IsDigit(d[0])
    requires ReadNatural(d + rest) == Some((n, rest))
    ensures ReadScalar(d + rest) == Some((Number(n), rest))
  {
    assert (d + rest)[0] == d[0];
  }

  lemma ReadScalarRoundTrip(v: Scalar, rest: string)
    requires rest == "" || !IsDigit(rest[0])
    ensures ReadScalar(EncodeScalar(v) + rest) == Some((v, rest))
  {
    hide ReadScalar;
    hide Digits;
    match v
    case Text(t) => ReadTextScalar(t, rest);
    case Number(n) =>
      var m: nat := if n < 0 then 0 - n else n;
      ReadNaturalRoundTrip(m, rest);
      DigitsRoundTrip(m);
      if n < 0 {
        ReadNegativeScalar(Digits(m), m, rest);
      } else {
        ReadPositiveScalar(Digits(m), m, rest);
      }
  }

  lemma ReadFieldRoundTrip(f: Field, rest: string)
    requires rest == "" || !IsDigit(rest[0])
    ensures ReadField(EncodeField(f) + rest) == Some((f, rest))
  {
    hide EscapeText;
    hide ReadText;
    hide EncodeScalar;
    hide ReadScalar;
    var s := EncodeField(f) + rest;
    var after := ":" + (EncodeScalar(f.value) + rest);
    var body := EscapeText(f.name) + [QUOTE] + after;
    assert s == [QUOTE] + body;
    assert s[0] == QUOTE && s[1..] == body;
    ReadTextRoundTrip(f.name, after);
    assert after[0] == ':' && after[1..] == EncodeScalar(f.value) + rest;
    ReadScalarRoundTrip(f.value, rest);
  }

  /** Decoding an encoded struct gives back its fields, names and values alike. */
  lemma {:induction false} FieldsRoundTrip(fs: seq<Field>)
    requires fs != []
    ensures ReadFields(EncodeFields(fs)) == Some(fs)
  {
    hide EncodeField;
    hide ReadField;
    if |fs| == 1 {
      ReadFieldRoundTrip(fs[0], "}");
      assert fs == [fs[0]];
    } else {
      var rest := "," + EncodeFields(fs[1..]);
      assert EncodeFields(fs) == EncodeField(fs[0]) + rest;
      ReadFieldRoundTrip(fs[0], rest);
      assert rest[1..] == EncodeFields(fs[1..]);
      FieldsRoundTrip(fs[1..]);
      assert fs == [fs[0]] + fs[1..];
      assert rest[0] == ',' && rest != "}";
    }
  }

  /** Two structs with the same encoding are the same struct. */
  lemma StructInjective(fs: seq<Field>, gs: seq<Field>)
    requires fs != [] && gs != []
    requires EncodeStruct(fs) == EncodeStruct(gs)
    ensures fs == gs
  {
    assert EncodeStruct(fs)[1..] == EncodeFields(fs) && EncodeStruct(gs)[1..] == EncodeFields(gs);
    FieldsRoundTrip(fs);
    FieldsRoundTrip(gs);
  }

  // ---- the text itself ----

  /** The character has an escape of its own in encoding/json's output. */
  predicate Special(c: char) {
    c < ' ' || c == '\"' || c == '\\' || c == '<' || c == '>' || c == '&' || c == '\U{2028}' || c == '\U{2029}'
  }

  /** Text without special characters stands as it is. */
  lemma {:induction false} PlainText(s: string)
    requires forall c :: c in s ==> !Special(c)
    ensures EscapeText(s) == s
  {
    if s != "" {
      assert s[0] in s;
      assert EscapeChar(s[0]) == [s[0]];
      PlainText(s[1..]);
      assert s == [s[0]] + s[1..];
    }
  }

  /** The parts with a comma between each two. */
  function Commas(parts: seq<string>): string
    requires parts != []
  {
    if |parts| == 1 then parts[0] else parts[0] + "," + Commas(parts[1..])
  }

  lemma {:induction false} FieldsAreCommas(fs: seq<Field>, parts: seq<string>)
    requires fs != [] && |fs| == |parts|
    requires forall i :: 0 <= i < |fs| ==> EncodeField(fs[i]) == parts[i]
    ensures EncodeFields(fs) == Commas(parts) + "}"
  {
    hide EncodeField;
    if |fs| > 1 {
      assert forall i :: 0 <= i < |fs| - 1 ==> fs[1..][i] == fs[i + 1] && parts[1..][i] == parts[i + 1];
      FieldsAreCommas(fs[1..], parts[1..]);
    }
  }

  /** A field with a plain name: the name in quotes, a colon, the value. */
  lemma PlainField(name: string, prefix: string, v: Scalar)
    requires forall c :: c in name ==> !Special(c)
    requires prefix == [QUOTE] + name + [QUOTE] + ":"
    ensures EncodeField(Field(name, v)) == prefix + EncodeScalar(v)
  {
    PlainText(name);
  }

  /** The escapes: short ones, and four lower-case hexadecimal digits for the rest. */
  lemma EscapeTable(c: char)
    requires Special(c)
    ensures EscapeChar('\"') == "\\\"" && EscapeChar('\\') == "\\\\"
    ensures EscapeChar('\n') == "\\n" && EscapeChar('\r') == "\\r" && EscapeChar('\t') == "\\t"
    ensures EscapeChar('\U{8}') == "\\b" && EscapeChar('\U{c}') == "\\f"
    ensures EscapeChar('<') == "\\u003c" && EscapeChar('>') == "\\u003e" && EscapeChar('&') == "\\u0026"
    ensures EscapeChar('\U{2028}') == "\\u2028" && EscapeChar('\U{2029}') == "\\u2029"
    ensures c < ' ' && c !in "\n\r\t\U{8}\U{c}" ==>
      EscapeChar(c) == "\\u00" + [if c as int < 16 then '0' else '1', HexDigit(c as int % 16)]
  {
  }
}
