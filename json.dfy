/**
 * JSON tokens as the messaging layer sees them (the JToken family of the JSON
 * library): lookup of a property by name, the text a token gives when asked for
 * its string form, and the compact one-line rendering written on the wire.
 * Parsing is not part of this module; components that parse take the parser as
 * a parameter.
 */
module Json {
  import opened Wrappers

  /** A JSON token. Numbers are integers; objects keep their properties in order, as JObject does. */
  datatype Json =
    | JNull
    | JBool(b: bool)
    | JNumber(n: int)
    | JString(s: string)
    | JArray(items: seq<Json>)
    | JObject(props: seq<Property>)

  /** A JProperty: a name and its value. */
  datatype Property = Property(name: string, value: Json)

  /** The properties of a JObject. */
  type JsonObject = seq<Property>

  /** `o[key]`: the value of the property named `key`, or None (C# null) when there is none. */
  function Get(o: JsonObject, key: string): (r: Option<Json>)
    ensures r.Some? <==> exists i :: 0 <= i < |o| && o[i].name == key
    ensures r.Some? ==> exists i :: 0 <= i < |o| && o[i] == Property(key, r.value)
    ensures r.None? ==> forall i :: 0 <= i < |o| ==> o[i].name != key
  {
    if |o| == 0 then None
    else if o[0].name == key then Some(o[0].value)
    else
      var rest := Get(o[1..], key);
      assert forall i :: 1 <= i < |o| ==> o[i] == o[1..][i - 1];
      rest
  }

  /** Lookup finds the first property with the key: the one at `i` when no earlier property has that name. */
  lemma {:induction false} GetFirst(o: JsonObject, i: nat, key: string)
    requires i < |o| && o[i].name == key
    requires forall j :: 0 <= j < i ==> o[j].name != key
    ensures Get(o, key) == Some(o[i].value)
  {
    if i > 0 {
      assert o[0].name != key;
      GetFirst(o[1..], i - 1, key);
    }
  }

  /** In an object of three differently named properties, each name finds its own value and any other name nothing. */
  lemma GetThree(a: string, va: Json, b: string, vb: Json, c: string, vc: Json, other: string)
    requires a != b && a != c && b != c
    requires other != a && other != b && other != c
    ensures Get([Property(a, va), Property(b, vb), Property(c, vc)], a) == Some(va)
    ensures Get([Property(a, va), Property(b, vb), Property(c, vc)], b) == Some(vb)
    ensures Get([Property(a, va), Property(b, vb), Property(c, vc)], c) == Some(vc)
    ensures Get([Property(a, va), Property(b, vb), Property(c, vc)], other).None?
  {
    var o := [Property(a, va), Property(b, vb), Property(c, vc)];
    GetFirst(o, 0, a);
    GetFirst(o, 1, b);
    GetFirst(o, 2, c);
  }

  /** Looking a key up in two property lists placed one after the other: the first list wins. */
  lemma {:induction false} GetAppend(a: JsonObject, b: JsonObject, key: string)
    ensures Get(a + b, key) == if Get(a, key).Some? then Get(a, key) else Get(b, key)
  {
    if |a| > 0 {
      assert (a + b)[0] == a[0];
      assert (a + b)[1..] == a[1..] + b;
      GetAppend(a[1..], b, key);
    } else {
      assert a + b == b;
    }
  }

  /** `o[key] != null`: the object has a property named `key`, whatever its value (a JSON null included). */
  predicate Has(o: JsonObject, key: string)
  {
    Get(o, key).Some?
  }

  /** What `new JProperty(name, o[key])` stores: the token, or a JSON null when the lookup gave C# null. */
  function ValueOrNull(t: Option<Json>): Json
  {
    t.GetOr(JNull)
  }

  /** The properties of an object token, or None for any other token. */
  function AsObject(j: Json): Option<JsonObject>
  {
    if j.JObject? then Some(j.props) else None
  }

  /** The digit character for 0 <= d < 10. */
  function DigitChar(d: nat): char
    requires d < 10
  {
    "0123456789"[d]
  }

  /** Decimal digits of a natural number, most significant first. */
  function NatText(n: nat): (r: string)
    ensures |r| > 0
    ensures forall i :: 0 <= i < |r| ==> '0' <= r[i] <= '9'
    decreases n
  {
    if n < 10 then [DigitChar(n)] else NatText(n / 10) + [DigitChar(n % 10)]
  }

  /** `Int32.ToString()` / `Int64.ToString()` in the invariant culture: optional '-', then the digits. */
  function IntText(n: int): (r: string)
    ensures |r| > 0
    ensures n >= 0 ==> r == NatText(n)
    ensures n < 0 ==> r == "-" + NatText(-n)
  {
    if n >= 0 then NatText(n) else "-" + NatText(-n)
  }

  /** A lower-case hexadecimal digit, as the library writes in \u escapes. */
  function HexDigit(d: nat): char
    requires d < 16
  {
    "0123456789abcdef"[d]
  }

  /** Four hexadecimal digits of a UTF-16 code unit. */
  function Hex4(v: nat): string
    requires v < 0x1_0000
  {
    [HexDigit(v / 0x1000), HexDigit(v / 0x100 % 16), HexDigit(v / 0x10 % 16), HexDigit(v % 16)]
  }

  /** Characters the library escapes as \uXXXX inside a quoted string. */
  predicate NeedsUnicodeEscape(c: char)
  {
    c < ' ' || c == '\U{0085}' || c == '\U{2028}' || c == '\U{2029}'
  }

  /** The escaped form of one character inside a quoted JSON string. */
  function EscapeChar(c: char): string
  {
    if c == '"' then "\\\""
    else if c == '\\' then "\\\\"
    else if c == '\n' then "\\n"
    else if c == '\r' then "\\r"
    else if c == '\t' then "\\t"
    else if c == '\U{0008}' then "\\b"
    else if c == '\U{000C}' then "\\f"
    else if NeedsUnicodeEscape(c) then "\\u" + Hex4(c as nat)
    else [c]
  }

  /** The escaped body of a quoted JSON string. */
  function Escape(s: string): string
  {
    if |s| == 0 then "" else EscapeChar(s[0]) + Escape(s[1..])
  }

  /** A JSON string literal. */
  function Quote(s: string): string
  {
    "\"" + Escape(s) + "\""
  }

  /** `token.ToString(Formatting.None)`: the compact one-line JSON text of a token. */
  function Compact(j: Json): string
  {
    match j
    case JNull => "null"
    case JBool(b) => if b then "true" else "false"
    case JNumber(n) => IntText(n)
    case JString(s) => Quote(s)
    case JArray(items) => "[" + CompactItems(items) + "]"
    case JObject(props) => "{" + CompactProps(props) + "}"
  }

  /** The comma-separated compact texts of array elements. */
  function CompactItems(items: seq<Json>): string
  {
    if |items| == 0 then ""
    else Compact(items[0]) + (if |items| == 1 then "" else "," + CompactItems(items[1..]))
  }

  /** The comma-separated `"name":value` texts of object properties. */
  function CompactProps(props: seq<Property>): string
  {
    if |props| == 0 then ""
    else
      Quote(props[0].name) + ":" + Compact(props[0].value)
      + (if |props| == 1 then "" else "," + CompactProps(props[1..]))
  }

  /** Text without a line break: what a reader's `ReadLine` returns as one line. */
  predicate OneLine(s: string)
  {
    forall i :: 0 <= i < |s| ==> s[i] != '\n' && s[i] != '\r'
  }

  lemma OneLineConcat(a: string, b: string)
    requires OneLine(a) && OneLine(b)
    ensures OneLine(a + b)
  {
    forall i | 0 <= i < |a + b|
      ensures (a + b)[i] != '\n' && (a + b)[i] != '\r'
    {
      if i >= |a| {
        assert (a + b)[i] == b[i - |a|];
      }
    }
  }

  /** A hexadecimal digit is no line break. */
  lemma HexDigitOneLine(d: nat)
    requires d < 16
    ensures HexDigit(d) != '\n' && HexDigit(d) != '\r'
  {
    var digits := "0123456789abcdef";
    assert forall k :: 0 <= k < |digits| ==> digits[k] != '\n' && digits[k] != '\r';
  }

  /** The four digits of a \u escape are one line. */
  lemma Hex4OneLine(v: nat)
    requires v < 0x1_0000
    ensures OneLine(Hex4(v))
  {
    HexDigitOneLine(v / 0x1000);
    HexDigitOneLine(v / 0x100 % 16);
    HexDigitOneLine(v / 0x10 % 16);
    HexDigitOneLine(v % 16);
  }

  lemma EscapeCharOneLine(c: char)
    ensures OneLine(EscapeChar(c))
  {
    if c == '"' || c == '\\' || c == '\n' || c == '\r' || c == '\t' || c == '\U{0008}' || c == '\U{000C}' {
      var e := EscapeChar(c);
      assert |e| == 2 && e[0] == '\\' && e[1] != '\n' && e[1] != '\r';
    } else if NeedsUnicodeEscape(c) {
      Hex4OneLine(c as nat);
      OneLineConcat("\\u", Hex4(c as nat));
    }
  }

  lemma {:induction false} EscapeOneLine(s: string)
    ensures OneLine(Escape(s))
  {
    if |s| > 0 {
      EscapeCharOneLine(s[0]);
      EscapeOneLine(s[1..]);
      OneLineConcat(EscapeChar(s[0]), Escape(s[1..]));
    }
  }

  /** A quoted string is one line. */
  lemma QuoteOneLine(s: string)
    ensures OneLine(Quote(s))
  {
    EscapeOneLine(s);
    OneLineConcat("\"", Escape(s));
    OneLineConcat("\"" + Escape(s), "\"");
  }

  /** Text between two one-character delimiters that are no line breaks stays one line. */
  lemma EnclosedOneLine(open: string, body: string, close: string)
    requires OneLine(open) && OneLine(body) && OneLine(close)
    ensures OneLine(open + body + close)
  {
    OneLineConcat(open, body);
    OneLineConcat(open + body, close);
  }

  /** The compact text of any token is a single line: line breaks inside strings are escaped. */
  lemma {:induction false} CompactOneLine(j: Json)
    ensures OneLine(Compact(j))
    decreases j, 1
  {
    match j
    case JString(s) => QuoteOneLine(s);
    case JArray(items) =>
      ItemsOneLine(items);
      EnclosedOneLine("[", CompactItems(items), "]");
    case JObject(props) =>
      PropsOneLine(props);
      EnclosedOneLine("{", CompactProps(props), "}");
    case _ =>
  }

  lemma {:induction false} ItemsOneLine(items: seq<Json>)
    ensures OneLine(CompactItems(items))
    decreases items, 0
  {
    if |items| > 0 {
      CompactOneLine(items[0]);
      if |items| > 1 {
        ItemsOneLine(items[1..]);
        OneLineConcat(",", CompactItems(items[1..]));
        OneLineConcat(Compact(items[0]), "," + CompactItems(items[1..]));
      } else {
        assert CompactItems(items) == Compact(items[0]) + "";
      }
    }
  }

  lemma {:induction false} PropsOneLine(props: seq<Property>)
    ensures OneLine(CompactProps(props))
    decreases props, 0
  {
    if |props| > 0 {
      QuoteOneLine(props[0].name);
      CompactOneLine(props[0].value);
      var head := Quote(props[0].name) + ":" + Compact(props[0].value);
      EnclosedOneLine(Quote(props[0].name), ":", Compact(props[0].value));
      if |props| > 1 {
        PropsOneLine(props[1..]);
        OneLineConcat(",", CompactProps(props[1..]));
        OneLineConcat(head, "," + CompactProps(props[1..]));
      } else {
        assert CompactProps(props) == head + "";
      }
    }
  }

  /** The line break of `Formatting.Indented` text. */
  const LineBreak := "\r\n"

  /** The indentation of a line at nesting `depth`: two spaces a level. */
  function Indentation(depth: nat): (r: string)
    ensures |r| == 2 * depth
    ensures OneLine(r)
  {
    if depth == 0 then "" else "  " + Indentation(depth - 1)
  }

  /**
   * `token.ToString(Formatting.Indented)` for a token nested `depth` levels deep:
   * each element and each `"name": value` property on a line of its own, indented
   * one level more than its container, whose closing bracket has a line of its
   * own; an empty container stays `[]` or `{}`; a value is its compact text.
   */
  function Indented(j: Json, depth: nat): string
  {
    match j
    case JArray(items) =>
      if |items| == 0 then "[]" else "[" + IndentedItems(items, depth + 1) + LineBreak + Indentation(depth) + "]"
    case JObject(props) =>
      if |props| == 0 then "{}" else "{" + IndentedProps(props, depth + 1) + LineBreak + Indentation(depth) + "}"
    case _ => Compact(j)
  }

  /** Array elements at nesting `depth`, each on a new line, separated by commas. */
  function IndentedItems(items: seq<Json>, depth: nat): string
  {
    if |items| == 0 then ""
    else
      LineBreak + Indentation(depth) + Indented(items[0], depth)
      + (if |items| == 1 then "" else "," + IndentedItems(items[1..], depth))
  }

  /** Object properties at nesting `depth`, each on a new line as `"name": value`, separated by commas. */
  function IndentedProps(props: seq<Property>, depth: nat): string
  {
    if |props| == 0 then ""
    else
      LineBreak + Indentation(depth) + Quote(props[0].name) + ": " + Indented(props[0].value, depth)
      + (if |props| == 1 then "" else "," + IndentedProps(props[1..], depth))
  }

  /**
   * `token.ToString()`: a JValue gives its value's own text (empty for null,
   * "True"/"False" for booleans, the decimal digits of a number, the raw
   * characters of a string); arrays and objects give their indented JSON text.
   */
  function Text(j: Json): (t: string)
    ensures j.JNull? ==> t == ""
    ensures j.JString? ==> t == j.s
    ensures j.JNumber? ==> t == Compact(j) && OneLine(t)
    ensures j.JBool? ==> OneLine(t)
  {
    match j
    case JNull => ""
    case JBool(b) => if b then "True" else "False"
    case JNumber(n) => CompactOneLine(j); IntText(n)
    case JString(s) => s
    case _ => Indented(j, 0)
  }

  /**
   * The text of a non-empty array or object spans several lines: the opening
   * bracket is followed by a line break, and the closing one stands on a line of
   * its own.
   */
  lemma ContainerTextSpansLines(j: Json)
    requires (j.JArray? && |j.items| > 0) || (j.JObject? && |j.props| > 0)
    ensures var t := Text(j);
      |t| >= 6 && t[1..3] == LineBreak && t[|t| - 3..] == LineBreak + [t[|t| - 1]]
      && (j.JArray? ==> t[0] == '[' && t[|t| - 1] == ']')
      && (j.JObject? ==> t[0] == '{' && t[|t| - 1] == '}')
      && !OneLine(t)
  {
    var t := Text(j);
    var open, close, body := if j.JArray? then '[' else '{', if j.JArray? then ']' else '}',
      if j.JArray? then IndentedItems(j.items, 1) else IndentedProps(j.props, 1);
    assert body[..2] == LineBreak;
    assert Indentation(0) == "";
    assert t == [open] + body + LineBreak + [close];
    assert t[1] == '\r';
  }

  /** One property whose value is not a container, at nesting `depth`: a new line, the indentation, then `"name": value`. */
  lemma IndentedSingleProperty(name: string, v: Json, depth: nat)
    requires !v.JArray? && !v.JObject?
    ensures IndentedProps([Property(name, v)], depth) == LineBreak + Indentation(depth) + (Quote(name) + ": " + Compact(v))
  {
    assert Indented(v, depth) == Compact(v);
  }

  /** An object with one property whose value is not a container: the property alone on the middle line, indented two spaces. */
  lemma SinglePropertyText(name: string, v: Json)
    requires !v.JArray? && !v.JObject?
    ensures Text(JObject([Property(name, v)])) == "{" + LineBreak + "  " + (Quote(name) + ": " + Compact(v)) + LineBreak + "}"
  {
    var line := Quote(name) + ": " + Compact(v);
    IndentedSingleProperty(name, v, 1);
    assert Indentation(1) == "  " + Indentation(0);
    assert Text(JObject([Property(name, v)])) == "{" + (LineBreak + "  " + line) + LineBreak + "" + "}";
  }



  /** The 32-bit signed integer range of C# `int`. */
  predicate IsInt32(n: int)
  {
    -0x8000_0000 <= n < 0x8000_0000
  }
}
