/**
 * The compact JSON text that `serde_json::to_string` produces for the two kinds of
 * value the API calls serialize: a slice of string slices (`["a","b"]`) and a `bool`
 * (`true` / `false`). String escaping follows serde_json's escape table: `"` and `\`
 * are backslash-escaped, the control characters U+0008, U+0009, U+000A, U+000C and
 * U+000D use their short forms `\b \t \n \f \r`, every other character below U+0020
 * becomes `\u00xx` with lower-case hex digits, and all other characters are copied.
 *
 * Beside the encoder stands a strict decoder of the same compact form, the partner
 * against which the encoder is proved: decoding an encoding gives back the input.
 */
module Json {
  import opened Wrappers

  // ---------------------------------------------------------------------------
  // Encoder
  // ---------------------------------------------------------------------------

  /** The lower-case hexadecimal digit for `n`. */
  function HexDigit(n: nat): char
    requires n < 16
  {
    if n < 10 then ('0' as int + n) as char else ('a' as int + n - 10) as char
  }

  /** How one character is written inside a JSON string literal. */
  function EscapeChar(c: char): string {
    if c == '"' then "\\\""
    else if c == '\\' then "\\\\"
    else if c as int == 0x08 then "\\b"
    else if c as int == 0x0C then "\\f"
    else if c == '\n' then "\\n"
    else if c == '\r' then "\\r"
    else if c == '\t' then "\\t"
    else if c as int < 0x20 then "\\u00" + [HexDigit(c as int / 16), HexDigit(c as int % 16)]
    else [c]
  }

  /** The escaped body of a JSON string literal. */
  function Escape(s: string): string {
    if s == [] then "" else EscapeChar(s[0]) + Escape(s[1..])
  }

  /** A JSON string literal. */
  function Quote(s: string): string {
    "\"" + Escape(s) + "\""
  }

  /** `serde_json::to_string` of a slice of string slices. */
  function StringArray(xs: seq<string>): string {
    if xs == [] then "[]" else "[" + Items(xs)
  }

  /** The comma-separated literals of a non-empty list, followed by the closing bracket. */
  function Items(xs: seq<string>): string
    requires xs != []
  {
    Quote(xs[0]) + (if |xs| == 1 then "]" else "," + Items(xs[1..]))
  }

  /** `serde_json::to_string` of a `bool`. */
  function Bool(b: bool): string {
    if b then "true" else "false"
  }

  // ---------------------------------------------------------------------------
  // Decoder (compact form, no insignificant whitespace)
  // ---------------------------------------------------------------------------

  function HexValue(c: char): Option<nat> {
    if '0' <= c <= '9' then Some(c as int - '0' as int)
    else if 'a' <= c <= 'f' then Some(c as int - 'a' as int + 10)
    else if 'A' <= c <= 'F' then Some(c as int - 'A' as int + 10)
    else None
  }

  /**
   * Decodes the escape sequence that `s` starts with (the text after a backslash):
   * the character it stands for and how many characters of `s` it takes. A `\u`
   * escape naming a surrogate half is refused (surrogate pairs are not decoded).
   */
  function Unescape(s: string): (r: Option<(char, nat)>)
    ensures r.Some? ==> 1 <= r.value.1 <= |s|
  {
    if s == [] then None
    else if s[0] == '"' || s[0] == '\\' || s[0] == '/' then Some((s[0], 1))
    else if s[0] == 'b' then Some((0x08 as char, 1))
    else if s[0] == 'f' then Some((0x0C as char, 1))
    else if s[0] == 'n' then Some(('\n', 1))
    else if s[0] == 'r' then Some(('\r', 1))
    else if s[0] == 't' then Some(('\t', 1))
    else if s[0] == 'u' && |s| >= 5 then
      match (HexValue(s[1]), HexValue(s[2]), HexValue(s[3]), HexValue(s[4]))
      case (Some(a), Some(b), Some(c), Some(d)) =>
        var v := ((a * 16 + b) * 16 + c) * 16 + d;
        if v < 0xD800 || 0xE000 <= v then Some((v as char, 5)) else None
      case _ => None
    else None
  }

  /**
   * Decodes the body of a string literal whose opening quote has been read: the
   * string, and the text after its closing quote. Raw control characters are refused.
   */
  function ParseStringRest(s: string): (r: Option<(string, string)>)
    ensures r.Some? ==> |r.value.1| < |s|
    decreases |s|
  {
    if s == [] then None
    else if s[0] == '"' then Some(("", s[1..]))
    else if s[0] == '\\' then
      match Unescape(s[1..])
      case None => None
      case Some((c, n)) =>
        match ParseStringRest(s[1 + n..])
        case None => None
        case Some((t, rest)) => Some(([c] + t, rest))
    else if s[0] as int < 0x20 then None
    else
      match ParseStringRest(s[1..])
      case None => None
      case Some((t, rest)) => Some(([s[0]] + t, rest))
  }

  /** Decodes a JSON array of strings. */
  function ParseStringArray(s: string): Option<seq<string>> {
    if s == "[]" then Some([])
    else if s != [] && s[0] == '[' then ParseItems(s[1..])
    else None
  }

  /** Decodes `"..."` followed by `]`, or by `,` and further items. */
  function ParseItems(s: string): Option<seq<string>>
    decreases |s|
  {
    if s == [] || s[0] != '"' then None
    else
      match ParseStringRest(s[1..])
      case None => None
      case Some((x, rest)) =>
        if rest == "]" then Some([x])
        else if rest != [] && rest[0] == ',' then
          match ParseItems(rest[1..])
          case None => None
          case Some(xs) => Some([x] + xs)
        else None
  }

  /** Decodes a JSON boolean. */
  function ParseBool(s: string): Option<bool> {
    if s == "true" then Some(true) else if s == "false" then Some(false) else None
  }

  // ---------------------------------------------------------------------------
  // Round trips
  // ---------------------------------------------------------------------------

  lemma HexRoundTrip(n: nat)
    requires n < 16
    ensures HexValue(HexDigit(n)) == Some(n)
  {
  }

  /** Decoding the escape of one character yields that character, then the rest. */
  lemma EscapeCharRoundTrip(c: char, t: string)
    ensures ParseStringRest(EscapeChar(c) + t) ==
      match ParseStringRest(t)
      case None => None
      case Some((u, rest)) => Some(([c] + u, rest))
  {
  }

  /** The body of a string literal decodes back to the string. */
  lemma {:induction false} EscapeRoundTrip(s: string, rest: string)
    ensures ParseStringRest(Escape(s) + "\"" + rest) == Some((s, rest))
  {
    if s == [] {
      assert Escape(s) + "\"" + rest == "\"" + rest;
    } else {
      var tail := Escape(s[1..]) + "\"" + rest;
      assert Escape(s) + "\"" + rest == EscapeChar(s[0]) + tail;
      EscapeCharRoundTrip(s[0], tail);
      EscapeRoundTrip(s[1..], rest);
      assert [s[0]] + s[1..] == s;
    }
  }

  /** A string literal decodes back to the string, leaving what follows it. */
  lemma QuoteRoundTrip(s: string, rest: string)
    ensures Quote(s) + rest != []
    ensures (Quote(s) + rest)[0] == '"'
    ensures ParseStringRest((Quote(s) + rest)[1..]) == Some((s, rest))
  {
    assert (Quote(s) + rest)[1..] == Escape(s) + "\"" + rest;
    EscapeRoundTrip(s, rest);
  }

  lemma {:induction false} ItemsRoundTrip(xs: seq<string>)
    requires xs != []
    ensures ParseItems(Items(xs)) == Some(xs)
  {
    var tail := if |xs| == 1 then "]" else "," + Items(xs[1..]);
    var s := Items(xs);
    assert s == Quote(xs[0]) + tail;
    QuoteRoundTrip(xs[0], tail);
    if |xs| == 1 {
      assert xs == [xs[0]];
    } else {
      assert tail[0] == ',' && tail != "]";
      assert tail[1..] == Items(xs[1..]);
      ItemsRoundTrip(xs[1..]);
      assert [xs[0]] + xs[1..] == xs;
    }
  }

  /** Every list of strings survives encoding and decoding unchanged, in order. */
  lemma StringArrayRoundTrip(xs: seq<string>)
    ensures ParseStringArray(StringArray(xs)) == Some(xs)
  {
    if xs != [] {
      QuoteRoundTrip(xs[0], if |xs| == 1 then "]" else "," + Items(xs[1..]));
      assert StringArray(xs)[1..] == Items(xs);
      ItemsRoundTrip(xs);
    }
  }

  /** Distinct lists of strings are encoded as distinct texts. */
  lemma StringArrayInjective(xs: seq<string>, ys: seq<string>)
    ensures StringArray(xs) == StringArray(ys) ==> xs == ys
  {
    StringArrayRoundTrip(xs);
    StringArrayRoundTrip(ys);
  }

  lemma BoolRoundTrip(b: bool)
    ensures ParseBool(Bool(b)) == Some(b)
  {
  }

  // ---------------------------------------------------------------------------
  // Examples
  // ---------------------------------------------------------------------------

  /** Characters that serde_json copies into a string literal unchanged. */
  predicate Plain(s: string) {
    forall i :: 0 <= i < |s| ==> s[i] as int >= 0x20 && s[i] != '"' && s[i] != '\\'
  }

  lemma {:induction false} EscapePlain(s: string)
    requires Plain(s)
    ensures Escape(s) == s
  {
    if s != [] {
      assert Plain(s[1..]);
      EscapePlain(s[1..]);
      assert [s[0]] + s[1..] == s;
    }
  }

  /** The compact form of one element: the quoted string in brackets. */
  lemma StringArraySingleExample()
    ensures StringArray(["forge"]) == "[\"forge\"]"
  {
    EscapePlain("forge");
    assert Items(["forge"]) == Quote("forge") + "]";
  }

  /** The compact form of two elements: comma-separated, no spaces. */
  lemma StringArrayPairExample()
    ensures StringArray(["A", "B"]) == "[\"A\",\"B\"]"
  {
    EscapePlain("A");
    EscapePlain("B");
    assert ["A", "B"][1..] == ["B"];
    assert Items(["B"]) == Quote("B") + "]";
    assert Items(["A", "B"]) == Quote("A") + "," + Items(["B"]);
  }

  /** Quotes and backslashes inside an element are backslash-escaped. */
  lemma StringArrayEscapeExample()
    ensures StringArray(["a\"b\\"]) == "[\"a\\\"b\\\\\"]"
  {
  }
}
