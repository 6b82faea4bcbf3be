/**
 * The token operations the messaging code applies to received JSON and the
 * exceptions they raise: the indexer `token[key]`, `token.ToString()` on a
 * possibly-null reference, and the explicit `(int)` and `(string)` conversions.
 */
module JsonAccess {
  import opened Wrappers
  import opened Json
  import opened Faults

  /** `token[key]` on a token that is present: an object looks the key up; other tokens throw. */
  function Index(t: Json, key: string): (r: Result<Option<Json>, Exception>)
    ensures t.JObject? ==> r == Success(Get(t.props, key))
    ensures !t.JObject? ==> r.Failure?
  {
    match t
    case JObject(props) => Success(Get(props, key))
    case JArray(_) => Failure(Argument("Accessed JArray values with invalid key value: \"" + key + "\". Int32 array index expected."))
    case _ => Failure(InvalidOperation("Cannot access child value on Newtonsoft.Json.Linq.JValue."))
  }

  /** `t[key]` where `t` may itself be C# null. */
  function IndexOpt(t: Option<Json>, key: string): Result<Option<Json>, Exception>
  {
    match t
    case None => Failure(NullReference)
    case Some(v) => Index(v, key)
  }

  /** `t.ToString()` where `t` may be C# null. */
  function ToText(t: Option<Json>): (r: Result<string, Exception>)
    ensures r.Success? <==> t.Some?
    ensures r.Success? ==> r.value == Text(t.value)
  {
    match t
    case None => Failure(NullReference)
    case Some(v) => Success(Text(v))
  }

  /** `(string)t`: null stays null, a value token gives its text, a container throws. */
  function AsString(t: Option<Json>): (r: Result<Option<string>, Exception>)
    ensures r == Success(None) <==> t.None? || t == Some(JNull)
    ensures r.Failure? <==> t.Some? && (t.value.JArray? || t.value.JObject?)
  {
    match t
    case None => Success(None)
    case Some(JNull) => Success(None)
    case Some(JArray(_)) => Failure(Argument("Can not convert Array to String."))
    case Some(JObject(_)) => Failure(Argument("Can not convert Object to String."))
    case Some(v) => Success(Some(Text(v)))
  }

  /** The value of an ASCII decimal digit. */
  function DigitValue(c: char): nat
    requires '0' <= c <= '9'
  {
    (c as int - '0' as int) as nat
  }

  predicate AllDigits(s: string)
  {
    forall i :: 0 <= i < |s| ==> '0' <= s[i] <= '9'
  }

  /** The natural number written by a string of decimal digits. */
  function DigitsValue(s: string): nat
    requires AllDigits(s)
  {
    if |s| == 0 then 0 else DigitsValue(s[..|s| - 1]) * 10 + DigitValue(s[|s| - 1])
  }

  /** The white space `Int32.Parse` skips around a number: the space and the controls U+0009 to U+000D. */
  predicate IsNumberWhite(c: char)
  {
    c == ' ' || '\t' <= c <= '\r'
  }

  /** The text without its leading white space: a suffix that does not start with white space. */
  function TrimStart(s: string): (r: string)
    ensures |r| <= |s| && r == s[|s| - |r|..]
    ensures |r| > 0 ==> !IsNumberWhite(r[0])
  {
    if |s| > 0 && IsNumberWhite(s[0]) then TrimStart(s[1..]) else s
  }

  /** The text without its trailing white space: a prefix that does not end in white space. */
  function TrimEnd(s: string): (r: string)
    ensures |r| <= |s| && r == s[..|r|]
    ensures |r| > 0 ==> !IsNumberWhite(r[|r| - 1])
  {
    if |s| > 0 && IsNumberWhite(s[|s| - 1]) then TrimEnd(s[..|s| - 1]) else s
  }

  /** Only white space is trimmed from the start. */
  lemma {:induction false} TrimStartDropsWhite(s: string)
    ensures forall i :: 0 <= i < |s| - |TrimStart(s)| ==> IsNumberWhite(s[i])
  {
    if |s| > 0 && IsNumberWhite(s[0]) {
      TrimStartDropsWhite(s[1..]);
      assert forall i :: 1 <= i < |s| - |TrimStart(s)| ==> s[i] == s[1..][i - 1];
    }
  }

  /** Only white space is trimmed from the end. */
  lemma {:induction false} TrimEndDropsWhite(s: string)
    ensures forall i :: |TrimEnd(s)| <= i < |s| ==> IsNumberWhite(s[i])
  {
    if |s| > 0 && IsNumberWhite(s[|s| - 1]) {
      TrimEndDropsWhite(s[..|s| - 1]);
      assert forall i :: |TrimEnd(s)| <= i < |s| - 1 ==> s[i] == s[..|s| - 1][i];
    }
  }

  /** The text after a leading sign, if any. */
  function Unsigned(t: string): string
  {
    if |t| > 0 && (t[0] == '-' || t[0] == '+') then t[1..] else t
  }

  /**
   * An optional sign and at least one digit, with nothing around them; anything
   * else is a FormatException, and a value outside 32 bits an OverflowException.
   */
  function ParseSigned(t: string): (r: Result<int, Exception>)
    ensures r.Success? ==> IsInt32(r.value)
    ensures r.Failure? ==> r.error == Format || r.error == Overflow
    ensures r.Success? ==>
      |Unsigned(t)| > 0 && AllDigits(Unsigned(t))
      && var magnitude: int := DigitsValue(Unsigned(t));
      r.value == (if t[0] == '-' then -magnitude else magnitude)
  {
    var neg := |t| > 0 && t[0] == '-';
    var body := Unsigned(t);
    if |body| == 0 || !AllDigits(body) then Failure(Format)
    else
      var mag: int := DigitsValue(body);
      var v := if neg then 0 - mag else mag;
      if IsInt32(v) then Success(v) else Failure(Overflow)
  }

  /**
   * `Convert.ToInt32(string)` in the invariant culture, which is `Int32.Parse`
   * with NumberStyles.Integer: white space may lead and trail the signed digits.
   */
  function ParseInt32(s: string): (r: Result<int, Exception>)
    ensures r.Success? ==> IsInt32(r.value)
    ensures r.Failure? ==> r.error == Format || r.error == Overflow
    ensures r.Success? ==>
      var t := TrimEnd(TrimStart(s));
      |Unsigned(t)| > 0 && AllDigits(Unsigned(t))
      && var magnitude: int := DigitsValue(Unsigned(t));
      r.value == (if t[0] == '-' then -magnitude else magnitude)
  {
    ParseSigned(TrimEnd(TrimStart(s)))
  }

  /** Leading white space is skipped whatever follows. */
  lemma {:induction false} TrimStartAfterWhite(pre: string, s: string)
    requires forall i :: 0 <= i < |pre| ==> IsNumberWhite(pre[i])
    ensures TrimStart(pre + s) == TrimStart(s)
  {
    if |pre| > 0 {
      assert (pre + s)[0] == pre[0];
      assert (pre + s)[1..] == pre[1..] + s;
      TrimStartAfterWhite(pre[1..], s);
    } else {
      assert pre + s == s;
    }
  }

  /** Trailing white space is dropped whatever precedes it. */
  lemma {:induction false} TrimEndBeforeWhite(s: string, post: string)
    requires forall i :: 0 <= i < |post| ==> IsNumberWhite(post[i])
    ensures TrimEnd(s + post) == TrimEnd(s)
  {
    if |post| > 0 {
      assert (s + post)[|s + post| - 1] == post[|post| - 1];
      assert (s + post)[..|s + post| - 1] == s + post[..|post| - 1];
      TrimEndBeforeWhite(s, post[..|post| - 1]);
    } else {
      assert s + post == s;
    }
  }

  /** Trimming text whose ends are not white space leaves it as it is. */
  lemma TrimmedUnchanged(t: string)
    requires |t| > 0 ==> !IsNumberWhite(t[0]) && !IsNumberWhite(t[|t| - 1])
    ensures TrimEnd(TrimStart(t)) == t
  {
  }

  /** Trailing white space does not change the trimmed text. */
  lemma {:induction false} TrimmedIgnoresTail(t: string, post: string)
    requires forall i :: 0 <= i < |post| ==> IsNumberWhite(post[i])
    ensures TrimEnd(TrimStart(t + post)) == TrimEnd(TrimStart(t))
  {
    if |t| == 0 {
      assert t + post == post + "";
      TrimStartAfterWhite(post, "");
    } else if IsNumberWhite(t[0]) {
      assert (t + post)[0] == t[0];
      assert (t + post)[1..] == t[1..] + post;
      TrimmedIgnoresTail(t[1..], post);
    } else {
      assert (t + post)[0] == t[0];
      TrimEndBeforeWhite(t, post);
    }
  }

  /** White space around a number's text does not change what it parses to. */
  lemma WhiteSpaceAroundIgnored(pre: string, t: string, post: string)
    requires forall i :: 0 <= i < |pre| ==> IsNumberWhite(pre[i])
    requires forall i :: 0 <= i < |post| ==> IsNumberWhite(post[i])
    ensures TrimEnd(TrimStart(pre + t + post)) == TrimEnd(TrimStart(t))
    ensures ParseInt32(pre + t + post) == ParseInt32(t)
  {
    assert pre + t + post == pre + (t + post);
    TrimStartAfterWhite(pre, t + post);
    TrimmedIgnoresTail(t, post);
  }

  /** The decimal text of a natural number has the number as its value. */
  lemma {:induction false} DigitsOfNatText(n: nat)
    ensures AllDigits(NatText(n)) && DigitsValue(NatText(n)) == n
    decreases n
  {
    var text := NatText(n);
    if n < 10 {
      DigitCharValue(n);
    } else {
      DigitsOfNatText(n / 10);
      DigitCharValue(n % 10);
      assert text[..|text| - 1] == NatText(n / 10);
    }
  }

  /** A digit character has its digit as value. */
  lemma DigitCharValue(d: nat)
    requires d < 10
    ensures '0' <= DigitChar(d) <= '9' && DigitValue(DigitChar(d)) == d
  {
  }

  /** The decimal text of a 32-bit number reads back as that number. */
  lemma IntTextParses(n: int)
    requires IsInt32(n)
    ensures ParseInt32(IntText(n)) == Success(n)
  {
    var text := IntText(n);
    DigitsOfNatText(if n >= 0 then n else -n);
    TrimmedUnchanged(text);
    if n < 0 {
      assert Unsigned(text) == NatText(-n);
    } else {
      assert text[0] != '-' && text[0] != '+';
    }
  }

  /**
   * The decimal text of a 32-bit number with white space on either side reads
   * back as that number: ` 42` and `42\r\n` both give 42.
   */
  lemma SpacedIntTextParses(pre: string, n: int, post: string)
    requires IsInt32(n)
    requires forall i :: 0 <= i < |pre| ==> IsNumberWhite(pre[i])
    requires forall i :: 0 <= i < |post| ==> IsNumberWhite(post[i])
    ensures ParseInt32(pre + IntText(n) + post) == Success(n)
  {
    WhiteSpaceAroundIgnored(pre, IntText(n), post);
    IntTextParses(n);
  }

  /** `(int)t`: the explicit conversion of a token to a 32-bit integer and the exceptions it raises. */
  function AsInt32(t: Option<Json>): (r: Result<int, Exception>)
    ensures r.Success? ==> IsInt32(r.value)
    ensures t.None? ==> r.Failure?
    ensures forall n :: t == Some(JNumber(n)) ==> r == (if IsInt32(n) then Success(n) else Failure(Overflow))
  {
    match t
    case None => Failure(ArgumentNull("value"))
    case Some(JNull) => Failure(Argument("Can not convert Null to Int32."))
    case Some(JNumber(n)) => if IsInt32(n) then Success(n) else Failure(Overflow)
    case Some(JBool(b)) => Success(if b then 1 else 0)
    case Some(JString(s)) => ParseInt32(s)
    case Some(JArray(_)) => Failure(Argument("Can not convert Array to Int32."))
    case Some(JObject(_)) => Failure(Argument("Can not convert Object to Int32."))
  }

  /** Converting an object token to an int is refused with an ArgumentException. */
  lemma ObjectNotInt32(props: JsonObject)
    ensures AsInt32(Some(JObject(props))) == Failure(Argument("Can not convert Object to Int32."))
  {
  }
}
