/**
 * The project's extension methods: Windows path normalisation, the null-tolerant
 * emptiness and copying helpers for strings and sequences, the conditional
 * line append on a StringBuilder and the text after a regular-expression match.
 */
module Extensions {
  import opened Wrappers
  import opened Faults
  import opened WinPaths

  /** `Char.IsWhiteSpace`: the Unicode space separators, the line and paragraph separators, and the controls U+0009 to U+000D, U+0085. */
  predicate IsWhiteSpace(c: char)
  {
    c == ' ' || ('\t' <= c <= '\r') || c == '\U{0085}' || c == '\U{00A0}' || c == '\U{1680}'
    || ('\U{2000}' <= c <= '\U{200A}') || c == '\U{2028}' || c == '\U{2029}'
    || c == '\U{202F}' || c == '\U{205F}' || c == '\U{3000}'
  }

  /** `IsNullOrWhiteSpace`: null, or nothing but white space. */
  predicate IsNullOrWhiteSpace(s: Option<string>)
  {
    s.None? || forall i :: 0 <= i < |s.value| ==> IsWhiteSpace(s.value[i])
  }

  /**
   * `IsNullOrEmpty` on a string and on an enumerable (both overloads): the
   * input is null, or enumerating it yields no first element.
   */
  function IsNullOrEmpty<T>(s: Option<seq<T>>): (r: bool)
    ensures !r <==> s.Some? && exists x :: x in s.value
  {
    assert s.Some? && |s.value| > 0 ==> s.value[0] in s.value;
    s.None? || |s.value| == 0
  }

  /** `s.Replace('/', '\\')`. */
  function ForwardToBack(s: string): (r: string)
    ensures |r| == |s|
    ensures forall i :: 0 <= i < |s| ==> r[i] == (if s[i] == '/' then '\\' else s[i])
  {
    seq(|s|, i requires 0 <= i < |s| => if s[i] == '/' then '\\' else s[i])
  }

  /** No backslash is directly followed by another. */
  ghost predicate NoDoubleBackslash(s: string)
  {
    forall i, j :: 0 <= i < j < |s| && j == i + 1 ==> !(s[i] == '\\' && s[j] == '\\')
  }

  /** The replacement of every match of the expression `\\+` by one backslash: each run of backslashes shrinks to one. */
  function CollapseBackslashes(s: string): (r: string)
    ensures |s| > 0 ==> |r| > 0 && r[0] == s[0]
    ensures NoDoubleBackslash(r)
  {
    if |s| == 0 then ""
    else if |s| >= 2 && s[0] == '\\' && s[1] == '\\' then CollapseBackslashes(s[1..])
    else [s[0]] + CollapseBackslashes(s[1..])
  }

  /** The collapse uses only characters of its input. */
  lemma {:induction false} CollapseKeepsCharacters(s: string)
    ensures forall i :: 0 <= i < |CollapseBackslashes(s)| ==> CollapseBackslashes(s)[i] in s
  {
    if |s| > 0 {
      CollapseKeepsCharacters(s[1..]);
      var r, rest := CollapseBackslashes(s), CollapseBackslashes(s[1..]);
      forall i | 0 <= i < |r| ensures r[i] in s {
        if |s| >= 2 && s[0] == '\\' && s[1] == '\\' {
          assert r[i] in s[1..];
        } else if i > 0 {
          assert r[i] == rest[i - 1] && rest[i - 1] in s[1..];
        }
      }
    }
  }

  /** `ToWinPathString`: forward slashes become backslashes, then runs of backslashes shrink to one. */
  function ToWinPathString(path: string): (r: string)
    ensures forall i :: 0 <= i < |r| ==> r[i] != '/'
    ensures NoDoubleBackslash(r)
  {
    var back := ForwardToBack(path);
    var r := CollapseBackslashes(back);
    CollapseKeepsCharacters(back);
    assert forall i :: 0 <= i < |r| ==> r[i] != '/' by {
      forall i | 0 <= i < |r| ensures r[i] != '/' {
        var j :| 0 <= j < |back| && back[j] == r[i];
      }
    }
    r
  }

  /** The characters of a path other than the separators, in order. */
  function Others(s: string): string
  {
    if |s| == 0 then "" else (if IsSeparator(s[0]) then "" else [s[0]]) + Others(s[1..])
  }

  /** Replacing '/' by '\' keeps every other character in place. */
  lemma {:induction false} OthersForwardToBack(s: string)
    ensures Others(ForwardToBack(s)) == Others(s)
  {
    if |s| > 0 {
      assert ForwardToBack(s)[1..] == ForwardToBack(s[1..]);
      OthersForwardToBack(s[1..]);
    }
  }

  /** Shrinking runs of backslashes removes only backslashes. */
  lemma {:induction false} OthersCollapse(s: string)
    ensures Others(CollapseBackslashes(s)) == Others(s)
  {
    if |s| > 0 {
      OthersCollapse(s[1..]);
      if !(|s| >= 2 && s[0] == '\\' && s[1] == '\\') {
        assert ([s[0]] + CollapseBackslashes(s[1..]))[1..] == CollapseBackslashes(s[1..]);
      }
    }
  }

  /** `ToWinPathString` keeps every character other than '/' and '\' in its original order. */
  lemma ToWinPathKeepsNames(path: string)
    ensures Others(ToWinPathString(path)) == Others(path)
  {
    OthersForwardToBack(path);
    OthersCollapse(ForwardToBack(path));
  }

  /** Text with no doubled backslash is left as it is by the collapse. */
  lemma {:induction false} CollapseFixed(s: string)
    requires NoDoubleBackslash(s)
    ensures CollapseBackslashes(s) == s
  {
    if |s| > 0 {
      assert NoDoubleBackslash(s[1..]) by {
        forall i, j | 0 <= i < j < |s[1..]| && j == i + 1 ensures !(s[1..][i] == '\\' && s[1..][j] == '\\') {
          assert s[1..][i] == s[i + 1] && s[1..][j] == s[j + 1];
        }
      }
      CollapseFixed(s[1..]);
      if |s| >= 2 {
        assert !(s[0] == '\\' && s[1] == '\\');
      }
      assert [s[0]] + s[1..] == s;
    }
  }

  /** `ToWinPathString` is idempotent. */
  lemma ToWinPathIdempotent(path: string)
    ensures ToWinPathString(ToWinPathString(path)) == ToWinPathString(path)
  {
    var r := ToWinPathString(path);
    assert ForwardToBack(r) == r;
    CollapseFixed(r);
  }

  /** A run of `n` backslashes. */
  function Backslashes(n: nat): (r: string)
    ensures |r| == n
    ensures forall i :: 0 <= i < n ==> r[i] == '\\'
  {
    seq(n, _ => '\\')
  }

  /**
   * The collapse works piece by piece: text split where no two backslashes meet
   * collapses to the collapse of each piece, in order.
   */
  lemma {:induction false} CollapseAppend(a: string, b: string)
    requires |a| == 0 || |b| == 0 || !(a[|a| - 1] == '\\' && b[0] == '\\')
    ensures CollapseBackslashes(a + b) == CollapseBackslashes(a) + CollapseBackslashes(b)
  {
    if |a| == 0 {
      assert a + b == b;
    } else if |a| == 1 {
      assert a == [a[0]];
      CollapseAppendChar(a[0], b);
    } else {
      var c, t := a[0], a[1..];
      assert a == [c] + t && a + b == [c] + (t + b);
      assert t[|t| - 1] == a[|a| - 1];
      CollapseAppend(t, b);
      CollapseAppendStep(c, t, b);
    }
  }

  /** One character in front of text it does not double a backslash with collapses on its own. */
  lemma CollapseAppendChar(c: char, b: string)
    requires !(c == '\\' && |b| > 0 && b[0] == '\\')
    ensures CollapseBackslashes([c] + b) == CollapseBackslashes([c]) + CollapseBackslashes(b)
  {
    CollapseKeepsFirst(c, b);
    assert [c] + "" == [c];
    CollapseKeepsFirst(c, "");
  }

  /** Putting a character in front keeps a split of the rest that collapses piece by piece. */
  lemma CollapseAppendStep(c: char, t: string, b: string)
    requires |t| > 0
    requires CollapseBackslashes(t + b) == CollapseBackslashes(t) + CollapseBackslashes(b)
    ensures CollapseBackslashes([c] + (t + b)) == CollapseBackslashes([c] + t) + CollapseBackslashes(b)
  {
    assert (t + b)[0] == t[0];
    if c == '\\' && t[0] == '\\' {
      CollapseDropsFirst(c, t + b);
      CollapseDropsFirst(c, t);
    } else {
      CollapseKeepsFirst(c, t + b);
      CollapseKeepsFirst(c, t);
      var ct, cb := CollapseBackslashes(t), CollapseBackslashes(b);
      assert [c] + (ct + cb) == ([c] + ct) + cb;
    }
  }

  /** A backslash in front of another one is dropped. */
  lemma CollapseDropsFirst(c: char, s: string)
    requires c == '\\' && |s| > 0 && s[0] == '\\'
    ensures CollapseBackslashes([c] + s) == CollapseBackslashes(s)
  {
    assert ([c] + s)[1..] == s;
  }

  /** Any other character in front is kept. */
  lemma CollapseKeepsFirst(c: char, s: string)
    requires !(c == '\\' && |s| > 0 && s[0] == '\\')
    ensures CollapseBackslashes([c] + s) == [c] + CollapseBackslashes(s)
  {
    assert ([c] + s)[1..] == s;
  }

  /** A run of backslashes collapses to a single one. */
  lemma {:induction false} CollapseRun(n: nat)
    requires n > 0
    ensures CollapseBackslashes(Backslashes(n)) == "\\"
  {
    if n == 1 {
      assert Backslashes(1)[1..] == "";
    } else {
      assert Backslashes(n)[1..] == Backslashes(n - 1);
      CollapseRun(n - 1);
    }
  }

  /** A run of backslashes between text that does not border on a backslash becomes exactly one backslash. */
  lemma CollapseRunBetween(a: string, n: nat, b: string)
    requires n > 0
    requires |a| == 0 || a[|a| - 1] != '\\'
    requires |b| == 0 || b[0] != '\\'
    ensures CollapseBackslashes(a + Backslashes(n) + b) == CollapseBackslashes(a) + "\\" + CollapseBackslashes(b)
  {
    var run := Backslashes(n);
    assert a + run + b == a + (run + b);
    assert (run + b)[0] == '\\';
    calc {
      CollapseBackslashes(a + (run + b));
    == { CollapseAppend(a, run + b); }
      CollapseBackslashes(a) + CollapseBackslashes(run + b);
    == { CollapseAppend(run, b); CollapseRun(n); }
      CollapseBackslashes(a) + ("\\" + CollapseBackslashes(b));
    }
  }

  /** Replacing '/' by '\' works piece by piece. */
  lemma ForwardToBackAppend(a: string, b: string)
    ensures ForwardToBack(a + b) == ForwardToBack(a) + ForwardToBack(b)
  {
  }

  /**
   * `ToWinPathString` turns each run of separators, '/' and '\' mixed in any
   * order, into exactly one backslash, and converts the text on either side on its own.
   */
  lemma ToWinPathRunBetween(a: string, sep: string, b: string)
    requires |sep| > 0 && forall i :: 0 <= i < |sep| ==> IsSeparator(sep[i])
    requires |a| == 0 || !IsSeparator(a[|a| - 1])
    requires |b| == 0 || !IsSeparator(b[0])
    ensures ToWinPathString(a + sep + b) == ToWinPathString(a) + "\\" + ToWinPathString(b)
  {
    ForwardToBackAppend(a + sep, b);
    ForwardToBackAppend(a, sep);
    assert ForwardToBack(sep) == Backslashes(|sep|);
    CollapseRunBetween(ForwardToBack(a), |sep|, ForwardToBack(b));
  }

  /** Text without separators is left as it is. */
  lemma ToWinPathPlain(name: string)
    requires forall i :: 0 <= i < |name| ==> !IsSeparator(name[i])
    ensures ToWinPathString(name) == name
  {
    assert ForwardToBack(name) == name;
    CollapseFixed(name);
  }

  /** `ToListOrNull`: null for null, otherwise a list of the same elements in the same order. */
  function ToListOrNull<T>(s: Option<seq<T>>): (r: Option<seq<T>>)
    ensures r.None? <==> s.None?
    ensures r.Some? ==> |r.value| == |s.value| && forall i :: 0 <= i < |s.value| ==> r.value[i] == s.value[i]
  {
    match s
    case None => None
    case Some(xs) => Some(xs)
  }

  /** `ToArrayOrNull`: null for null, otherwise a new array holding the elements in order. */
  method ToArrayOrNull<T>(s: Option<seq<T>>) returns (r: Option<array<T>>)
    ensures r.None? <==> s.None?
    ensures r.Some? ==> fresh(r.value) && r.value[..] == s.value
  {
    if s.None? {
      return None;
    }
    var xs := s.value;
    var a := new T[|xs|](i requires 0 <= i < |xs| => xs[i]);
    return Some(a);
  }

  /** The non-null elements of a sequence, in order. */
  function CompactSeq<T>(xs: seq<Option<T>>): (r: seq<Option<T>>)
    ensures |r| <= |xs|
    ensures forall i :: 0 <= i < |r| ==> r[i].Some? && r[i] in xs
    ensures forall i :: 0 <= i < |xs| && xs[i].Some? ==> xs[i] in r
  {
    if |xs| == 0 then []
    else
      var rest := CompactSeq(xs[1..]);
      assert forall i :: 1 <= i < |xs| ==> xs[i] == xs[1..][i - 1];
      if xs[0].None? then rest else [xs[0]] + rest
  }

  /** Compacting distributes over concatenation: the order of the kept elements is the order of the input. */
  lemma {:induction false} CompactAppend<T>(a: seq<Option<T>>, b: seq<Option<T>>)
    ensures CompactSeq(a + b) == CompactSeq(a) + CompactSeq(b)
  {
    if |a| == 0 {
      assert a + b == b;
    } else {
      assert (a + b)[0] == a[0] && (a + b)[1..] == a[1..] + b;
      CompactAppend(a[1..], b);
    }
  }

  /** `Compact`: null for null, otherwise the elements that are not null. */
  function Compact<T>(s: Option<seq<Option<T>>>): (r: Option<seq<Option<T>>>)
    ensures r.None? <==> s.None?
    ensures r.Some? ==> r.value == CompactSeq(s.value)
  {
    match s
    case None => None
    case Some(xs) => Some(CompactSeq(xs))
  }

  /** `Environment.NewLine` on Windows, which `AppendLine` adds. */
  const NewLine := "\r\n"

  class StringBuilder {
    var text: string

    constructor ()
      ensures text == ""
    {
      text := "";
    }

    /** `SmartAppendLine(toAppend)`: appends the line only when it is not null or white space, and returns the same builder. */
    method SmartAppendLine(toAppend: Option<string>) returns (r: StringBuilder)
      modifies this
      ensures r == this
      ensures IsNullOrWhiteSpace(toAppend) ==> text == old(text)
      ensures !IsNullOrWhiteSpace(toAppend) ==> text == old(text) + toAppend.value + NewLine
    {
      if !IsNullOrWhiteSpace(toAppend) {
        text := text + toAppend.value + NewLine;
      }
      r := this;
    }
  }

  /** A regular-expression match: where it starts and how many characters it covers. */
  datatype Match = Match(index: int, length: int)

  /** `match.Postmatch(target)`: the target's text after the match, or the exception `Substring` raises. */
  function Postmatch(m: Option<Match>, target: Option<string>): (r: Result<string, Exception>)
    ensures m.None? || target.None? ==> r == Failure(NullReference)
    ensures m.Some? && target.Some? ==>
      (r.Success? <==> 0 <= m.value.index + m.value.length <= |target.value|)
    ensures r.Success? ==>
      |r.value| == |target.value| - (m.value.index + m.value.length)
      && target.value == target.value[..m.value.index + m.value.length] + r.value
  {
    match (m, target)
    case (None, _) => Failure(NullReference)
    case (_, None) => Failure(NullReference)
    case (Some(mt), Some(t)) =>
      var start := mt.index + mt.length;
      if start < 0 || start > |t| then Failure(ArgumentOutOfRange("startIndex"))
      else Success(t[start..])
  }
}
