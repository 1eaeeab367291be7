/** Small vocabulary shared by every module of the model: an optional value,
    the outcome of a JavaScript operation that may throw, and the string
    predicates the application's code relies on (`startsWith`, `includes`,
    the end-anchored regular expression, `trim`). */
module Basics {

  /** A value that may be absent (`null`, `undefined`, or a missing key). */
  datatype Option<+T> = None | Some(value: T)

  /** What a JavaScript `throw` carries: an `Error` instance with its message,
      or any other thrown value (for instance the event a `FileReader` rejects
      with), which `error instanceof Error` does not recognise. */
  datatype Fault = ErrorInstance(message: string) | OtherThrown

  /** The outcome of a step that either returns a value or throws. */
  datatype Outcome<+T> = Returned(value: T) | Thrown(fault: Fault)

  /** `s.startsWith(p)` */
  predicate HasPrefix(s: string, p: string) {
    |p| <= |s| && s[..|p|] == p
  }

  /** `s` ends with `p`, as matched by a regular expression anchored with `$`. */
  predicate HasSuffix(s: string, p: string) {
    |p| <= |s| && s[|s| - |p|..] == p
  }

  /** `sub` occurs in `s` starting at index `i`. */
  predicate OccursAt(s: string, sub: string, i: nat) {
    i + |sub| <= |s| && s[i..i + |sub|] == sub
  }

  /** `s.includes(sub)` */
  predicate Contains(s: string, sub: string) {
    exists i: nat :: i <= |s| && OccursAt(s, sub, i)
  }

  /** The characters `String.prototype.trim` removes: the ECMAScript
      WhiteSpace and LineTerminator code points. */
  const JsWhitespace: set<char> := {
    '\t', '\n', '\U{B}', '\U{C}', '\r', ' ', '\U{A0}', '\U{1680}',
    '\U{2000}', '\U{2001}', '\U{2002}', '\U{2003}', '\U{2004}', '\U{2005}',
    '\U{2006}', '\U{2007}', '\U{2008}', '\U{2009}', '\U{200A}',
    '\U{2028}', '\U{2029}', '\U{202F}', '\U{205F}', '\U{3000}', '\U{FEFF}'
  }

  predicate IsJsWhitespace(c: char) {
    c in JsWhitespace
  }

  predicate AllWhitespace(s: string) {
    forall i :: 0 <= i < |s| ==> IsJsWhitespace(s[i])
  }

  /** Text that `trim` leaves as it is: empty, or with a non-blank first and
      last character. */
  predicate IsTrimmed(s: string) {
    |s| == 0 || (!IsJsWhitespace(s[0]) && !IsJsWhitespace(s[|s| - 1]))
  }

  function TrimStart(s: string): (r: string)
    ensures |r| <= |s| && r == s[|s| - |r|..]
    ensures AllWhitespace(s[..|s| - |r|])
    ensures |r| == 0 || !IsJsWhitespace(r[0])
  {
    if |s| > 0 && IsJsWhitespace(s[0]) then TrimStart(s[1..]) else s
  }

  function TrimEnd(s: string): (r: string)
    ensures |r| <= |s| && r == s[..|r|]
    ensures AllWhitespace(s[|r|..])
    ensures |r| == 0 || !IsJsWhitespace(r[|r| - 1])
  {
    if |s| > 0 && IsJsWhitespace(s[|s| - 1]) then TrimEnd(s[..|s| - 1]) else s
  }

  /** `s.trim()`: the slice of `s` left after removing blank characters from
      both ends. */
  function Trim(s: string): (r: string)
    ensures IsTrimmed(r)
    ensures |r| <= |TrimStart(s)| <= |s|
    ensures AllWhitespace(s[..|s| - |TrimStart(s)|])
    ensures forall k :: 0 <= k < |r| ==> r[k] == s[|s| - |TrimStart(s)| + k]
  {
    var a := TrimStart(s);
    var r := TrimEnd(a);
    assert |r| > 0 ==> r[0] == a[0];
    r
  }

  /** Blank padding around already-trimmed text is exactly what `trim`
      removes. */
  lemma {:induction false} TrimPadded(w1: string, t: string, w2: string)
    requires AllWhitespace(w1) && AllWhitespace(w2) && IsTrimmed(t)
    ensures Trim(w1 + t + w2) == t
  {
    assert w1 + t + w2 == w1 + (t + w2);
    if |t| == 0 {
      assert t + w2 == w2;
      TrimStartBlank(w1 + w2);
    } else {
      TrimStartPadded(w1, t + w2);
      TrimEndPadded(t, w2);
    }
  }

  lemma {:induction false} TrimStartBlank(s: string)
    requires AllWhitespace(s)
    ensures TrimStart(s) == []
    decreases |s|
  {
    if |s| > 0 {
      TrimStartBlank(s[1..]);
    }
  }

  lemma {:induction false} TrimStartPadded(w: string, u: string)
    requires AllWhitespace(w) && |u| > 0 && !IsJsWhitespace(u[0])
    ensures TrimStart(w + u) == u
    decreases |w|
  {
    if |w| > 0 {
      assert (w + u)[1..] == w[1..] + u;
      TrimStartPadded(w[1..], u);
    } else {
      assert w + u == u;
    }
  }

  lemma {:induction false} TrimEndPadded(t: string, w: string)
    requires AllWhitespace(w) && |t| > 0 && !IsJsWhitespace(t[|t| - 1])
    ensures TrimEnd(t + w) == t
    decreases |w|
  {
    if |w| > 0 {
      assert (t + w)[..|t + w| - 1] == t + w[..|w| - 1];
      TrimEndPadded(t, w[..|w| - 1]);
    } else {
      assert t + w == t;
    }
  }

  predicate IsDigit(c: char) {
    '0' <= c <= '9'
  }

  function DigitValue(c: char): (d: nat)
    requires IsDigit(c)
    ensures d < 10
  {
    (c as int) - ('0' as int)
  }

  function DigitChar(d: nat): (c: char)
    requires d < 10
    ensures IsDigit(c) && DigitValue(c) == d
  {
    ('0' as int + d) as char
  }
}
