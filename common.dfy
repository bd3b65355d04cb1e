/** Small value types and the JavaScript string operations the worker relies on
    (trim, split on one character, join, startsWith, padStart, Math.ceil of a
    quotient), written out over `seq<char>`. */
module Common {

  datatype Option<+T> = None | Some(value: T)

  /** The outcome of a step that either yields a value or fails with a message. */
  datatype Result<+T> = Ok(value: T) | Err(error: string)

  function Min(a: int, b: int): int
  {
    if a <= b then a else b
  }

  function Max(a: int, b: int): int
  {
    if a >= b then a else b
  }

  /** JavaScript `x || 0` for a number that may be absent. */
  function OrZero(o: Option<int>): int
  {
    match o
    case Some(v) => v
    case None => 0
  }

  /** The characters JavaScript's `trim()` and the regular-expression class `\s`
      treat as white space: the WhiteSpace and LineTerminator productions of
      ECMAScript (ASCII white space, BOM and the Unicode space separators). */
  predicate IsWhite(c: char)
  {
    c == ' ' || c == '\t' || c == '\n' || c == '\r' || c == '\U{000B}' || c == '\U{000C}'
    || c == '\U{00A0}' || c == '\U{1680}' || ('\U{2000}' <= c <= '\U{200A}')
    || c == '\U{2028}' || c == '\U{2029}' || c == '\U{202F}' || c == '\U{205F}'
    || c == '\U{3000}' || c == '\U{FEFF}'
  }

  /** The characters the regular-expression `.` does not match. */
  predicate IsLineTerminator(c: char)
  {
    c == '\n' || c == '\r' || c == '\U{2028}' || c == '\U{2029}'
  }

  predicate NoWhite(s: string)
  {
    forall i :: 0 <= i < |s| ==> !IsWhite(s[i])
  }

  predicate HasNonWhite(s: string)
  {
    exists i :: 0 <= i < |s| && !IsWhite(s[i])
  }

  /** `String.prototype.trimStart`. */
  function TrimStart(s: string): (r: string)
    ensures |r| <= |s|
  {
    if |s| > 0 && IsWhite(s[0]) then TrimStart(s[1..]) else s
  }

  /** `String.prototype.trimEnd`. */
  function TrimEnd(s: string): (r: string)
    ensures |r| <= |s|
  {
    if |s| > 0 && IsWhite(s[|s| - 1]) then TrimEnd(s[..|s| - 1]) else s
  }

  /** `trimStart` drops the leading white space and nothing else. */
  lemma {:induction false} TrimStartSpec(s: string)
    ensures TrimStart(s) == s[|s| - |TrimStart(s)|..]
    ensures forall i :: 0 <= i < |s| - |TrimStart(s)| ==> IsWhite(s[i])
    ensures TrimStart(s) == [] || !IsWhite(TrimStart(s)[0])
    decreases |s|
  {
    if |s| > 0 && IsWhite(s[0]) {
      var t := s[1..];
      TrimStartSpec(t);
      var r := TrimStart(t);
      assert t[|t| - |r|..] == s[|s| - |r|..];
      forall i | 0 < i < |s| - |r| ensures IsWhite(s[i]) {
        assert s[i] == t[i - 1];
      }
    }
  }

  /** `trimEnd` drops the trailing white space and nothing else. */
  lemma {:induction false} TrimEndSpec(s: string)
    ensures TrimEnd(s) == s[..|TrimEnd(s)|]
    ensures forall i :: |TrimEnd(s)| <= i < |s| ==> IsWhite(s[i])
    ensures TrimEnd(s) == [] || !IsWhite(TrimEnd(s)[|TrimEnd(s)| - 1])
    decreases |s|
  {
    if |s| > 0 && IsWhite(s[|s| - 1]) {
      var t := s[..|s| - 1];
      TrimEndSpec(t);
      var r := TrimEnd(t);
      assert t[..|r|] == s[..|r|];
      forall i | |r| <= i < |s| - 1 ensures IsWhite(s[i]) {
        assert s[i] == t[i];
      }
    }
  }

  /** JavaScript `String.prototype.trim`. */
  function Trim(s: string): string
  {
    TrimEnd(TrimStart(s))
  }

  /** `trim()` keeps a slice of its input: what `trimStart` left, cut at the end. */
  lemma TrimSlice(s: string)
    ensures |s| - |TrimStart(s)| + |Trim(s)| <= |s|
    ensures Trim(s) == s[|s| - |TrimStart(s)|..|s| - |TrimStart(s)| + |Trim(s)|]
  {
    var a := TrimStart(s);
    var k := |s| - |a|;
    var r := TrimEnd(a);
    var m := |r|;
    TrimStartSpec(s);
    TrimEndSpec(a);
    assert s[k..][..m] == s[k..k + m];
  }

  /** A trimmed string starts and ends with a non-white character, and it is
      empty exactly when the input is all white space. */
  lemma TrimEnds(s: string)
    ensures Trim(s) == [] || (!IsWhite(Trim(s)[0]) && !IsWhite(Trim(s)[|Trim(s)| - 1]))
    ensures Trim(s) == [] <==> !HasNonWhite(s)
  {
    var a := TrimStart(s);
    var r := TrimEnd(a);
    var k := |s| - |a|;
    TrimStartSpec(s);
    TrimEndSpec(a);
    if r == [] {
      assert !HasNonWhite(s);
    } else {
      assert r == a[..|r|];
      assert r[0] == a[0] == s[k];
    }
  }

  /** Trailing white space after a non-white character is all `trimEnd` removes. */
  lemma {:induction false} TrimEndWhite(body: string, w: string)
    requires |body| > 0 && !IsWhite(body[|body| - 1])
    requires forall i :: 0 <= i < |w| ==> IsWhite(w[i])
    ensures TrimEnd(body + w) == body
    decreases |w|
  {
    var s := body + w;
    if |w| == 0 {
      assert s == body;
    } else {
      assert s[..|s| - 1] == body + w[..|w| - 1];
      assert s[|s| - 1] == w[|w| - 1];
      TrimEndWhite(body, w[..|w| - 1]);
    }
  }

  lemma TrimOfTrimmed(s: string)
    requires s == [] || (!IsWhite(s[0]) && !IsWhite(s[|s| - 1]))
    ensures Trim(s) == s
  {
  }

  lemma TrimNoWhite(s: string)
    requires NoWhite(s)
    ensures Trim(s) == s
  {
  }

  predicate StartsWith(s: string, prefix: string)
  {
    |prefix| <= |s| && s[..|prefix|] == prefix
  }

  /** Index of the first occurrence of `c` in `s`, or -1 (`String.prototype.indexOf`). */
  function IndexOf(s: string, c: char): (i: int)
    ensures -1 <= i < |s|
    ensures i == -1 ==> c !in s
    ensures i >= 0 ==> s[i] == c && c !in s[..i]
  {
    if |s| == 0 then -1
    else if s[0] == c then 0
    else
      var j := IndexOf(s[1..], c);
      if j < 0 then -1
      else
        assert s[..j + 1] == [s[0]] + s[1..][..j];
        j + 1
  }

  /** `parts.join(sep)`. */
  function Join(parts: seq<string>, sep: string): string
  {
    if |parts| == 0 then ""
    else if |parts| == 1 then parts[0]
    else parts[0] + sep + Join(parts[1..], sep)
  }

  /** `s.split(c)` for a one-character separator. */
  function Split(s: string, c: char): (r: seq<string>)
    ensures |r| >= 1
    ensures forall i :: 0 <= i < |r| ==> c !in r[i]
    decreases |s|
  {
    var i := IndexOf(s, c);
    if i < 0 then [s] else [s[..i]] + Split(s[i + 1..], c)
  }

  /** Joining the pieces of a split with the separator gives back the string. */
  lemma {:induction false} SplitJoin(s: string, c: char)
    ensures Join(Split(s, c), [c]) == s
    decreases |s|
  {
    var i := IndexOf(s, c);
    if i >= 0 {
      var rest := s[i + 1..];
      SplitJoin(rest, c);
      assert s == s[..i] + [c] + rest;
    }
  }

  /** Splitting distributes over a concatenation whose left part ends with the
      separator: the empty last piece of the left part disappears. */
  lemma {:induction false} SplitAppend(a: string, b: string, c: char)
    requires |a| > 0 && a[|a| - 1] == c
    ensures |Split(a, c)| >= 2
    ensures Split(a + b, c) == Split(a, c)[..|Split(a, c)| - 1] + Split(b, c)
    decreases |a|
  {
    var i := FirstAppend(a, b, c);
    var rest := a[i + 1..];
    if i < |a| - 1 {
      SplitAppend(rest, b, c);
      var sr := Split(rest, c);
      assert Split(a, c)[..|Split(a, c)| - 1] == [a[..i]] + sr[..|sr| - 1];
    }
  }

  /** The first separator of `a + b` lies in `a` when `a` ends with one. */
  lemma FirstAppend(a: string, b: string, c: char) returns (i: nat)
    requires |a| > 0 && a[|a| - 1] == c
    ensures i < |a| && a[i] == c
    ensures Split(a + b, c) == [a[..i]] + Split(a[i + 1..] + b, c)
    ensures Split(a, c) == [a[..i]] + Split(a[i + 1..], c)
    ensures i == |a| - 1 ==> Split(a, c) == [a[..i], ""] && a[i + 1..] + b == b
    ensures i < |a| - 1 ==> a[i + 1..][|a| - i - 2] == c
  {
    var j := IndexOf(a, c);
    assert j >= 0 by { assert a[|a| - 1] in a; }
    i := j;
    assert (a + b)[..i] == a[..i];
    assert (a + b)[i + 1..] == a[i + 1..] + b;
    SplitAt(a + b, c, i);
    SplitAt(a, c, i);
  }

  lemma SplitAt(s: string, c: char, i: nat)
    requires i < |s| && s[i] == c && c !in s[..i]
    ensures Split(s, c) == [s[..i]] + Split(s[i + 1..], c)
  {
    IndexOfIs(s, c, i);
  }

  lemma IndexOfIs(s: string, c: char, i: nat)
    requires i < |s| && s[i] == c && c !in s[..i]
    ensures IndexOf(s, c) == i
    decreases i
  {
    if i > 0 {
      assert s[0] == s[..i][0];
      assert s[1..][..i - 1] == s[1..i] == s[..i][1..];
      IndexOfIs(s[1..], c, i - 1);
    }
  }

  /** A line without the separator, then the separator, then the rest. */
  lemma SplitLine(line: string, rest: string, c: char)
    requires c !in line
    ensures Split(line + [c] + rest, c) == [line] + Split(rest, c)
  {
    var s := line + [c] + rest;
    assert s[..|line|] == line;
    assert s[|line| + 1..] == rest;
    SplitAt(s, c, |line|);
  }

  /** A string with no separator splits into itself. */
  lemma SplitNoSep(s: string, c: char)
    requires c !in s
    ensures Split(s, c) == [s]
  {
  }

  /** The character of a decimal digit. */
  function DecimalDigit(d: nat): (c: char)
    requires d < 10
    ensures '0' <= c <= '9'
  {
    ['0', '1', '2', '3', '4', '5', '6', '7', '8', '9'][d]
  }

  predicate AllDigits(s: string)
  {
    forall i :: 0 <= i < |s| ==> '0' <= s[i] <= '9'
  }

  /** The decimal rendering JavaScript gives a non-negative integer in a template literal. */
  function NatToString(n: nat): (r: string)
    ensures |r| >= 1 && AllDigits(r)
  {
    if n < 10 then [DecimalDigit(n)] else NatToString(n / 10) + [DecimalDigit(n % 10)]
  }

  /** `String(n)` for any integer. */
  function IntToString(n: int): (r: string)
    ensures |r| >= 1
  {
    if n < 0 then "-" + NatToString(-n) else NatToString(n)
  }

  function Repeat(c: char, n: nat): (r: string)
    ensures |r| == n && forall i :: 0 <= i < n ==> r[i] == c
  {
    if n == 0 then "" else [c] + Repeat(c, n - 1)
  }

  /** `s.padStart(width, fill)` for a one-character fill. */
  function PadStart(s: string, width: nat, fill: char): (r: string)
    ensures |r| == if |s| >= width then |s| else width
    ensures r[|r| - |s|..] == s
    ensures forall i :: 0 <= i < |r| - |s| ==> r[i] == fill
  {
    if |s| >= width then s else Repeat(fill, width - |s|) + s
  }

  /** `Math.ceil(n / d)` for a non-negative integer quotient. */
  function CeilDiv(n: nat, d: nat): (r: nat)
    requires d > 0
    ensures d * r >= n && d * r < n + d
  {
    (n + d - 1) / d
  }

  /** `s.replace(/c/g, '')`: every occurrence of `c` removed. */
  function RemoveAll(s: string, c: char): (r: string)
    ensures c !in r
    ensures |r| <= |s|
    ensures c !in s ==> r == s
  {
    if |s| == 0 then ""
    else (if s[0] == c then "" else [s[0]]) + RemoveAll(s[1..], c)
  }

  /** Removing a character distributes over concatenation. */
  lemma {:induction false} RemoveAllAppend(a: string, b: string, c: char)
    ensures RemoveAll(a + b, c) == RemoveAll(a, c) + RemoveAll(b, c)
    decreases |a|
  {
    if |a| > 0 {
      assert (a + b)[0] == a[0];
      assert (a + b)[1..] == a[1..] + b;
      RemoveAllAppend(a[1..], b, c);
    } else {
      assert a + b == b;
    }
  }

  /** Concatenation of a sequence of strings, left to right. */
  function Concat(parts: seq<string>): string
  {
    if |parts| == 0 then "" else Concat(parts[..|parts| - 1]) + parts[|parts| - 1]
  }

  lemma {:induction false} ConcatPrefix(parts: seq<string>, k: nat)
    requires k <= |parts|
    ensures IsPrefix(Concat(parts[..k]), Concat(parts))
    decreases |parts| - k
  {
    if k < |parts| {
      ConcatPrefix(parts, k + 1);
      assert parts[..k + 1][..k] == parts[..k];
    } else {
      assert parts[..k] == parts;
    }
  }

  predicate IsPrefix(p: string, s: string)
  {
    |p| <= |s| && s[..|p|] == p
  }

  /** ASCII upper-casing (`toUpperCase` restricted to `a`..`z`). */
  function ToUpperAscii(s: string): (r: string)
    ensures |r| == |s|
    ensures forall i :: 0 <= i < |s| ==> r[i] == (if 'a' <= s[i] <= 'z' then (s[i] as int - 32) as char else s[i])
  {
    if |s| == 0 then "" else
      [if 'a' <= s[0] <= 'z' then (s[0] as int - 32) as char else s[0]] + ToUpperAscii(s[1..])
  }

  /** The three parts of a concatenation can be read back by slicing. */
  lemma ThreeParts(a: string, b: string, c: string)
    ensures |a + b + c| == |a| + |b| + |c|
    ensures (a + b + c)[..|a|] == a
    ensures (a + b + c)[|a|..|a| + |b|] == b
    ensures (a + b + c)[|a| + |b|..] == c
  {
  }
}
