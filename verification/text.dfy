/** String primitives of the JavaScript runtime that the client relies on:
    `String.prototype.trim`, `String.prototype.length` (which counts UTF-16
    code units, not characters) and the decimal rendering of an integer
    (`Number.prototype.toString`), with a decimal reader as its inverse. */
module Text {
  import opened Wrappers

  /** The characters `trim` removes: the ECMAScript WhiteSpace and
      LineTerminator code points. */
  predicate IsWhite(c: char)
  {
    c == ' ' || c == '\t' || c == '\n' || c == '\r' || c == '\U{000B}' || c == '\U{000C}'
    || c == '\U{00A0}' || c == '\U{1680}' || ('\U{2000}' <= c <= '\U{200A}')
    || c == '\U{2028}' || c == '\U{2029}' || c == '\U{202F}' || c == '\U{205F}'
    || c == '\U{3000}' || c == '\U{FEFF}'
  }

  predicate AllWhite(s: string)
  {
    forall k :: 0 <= k < |s| ==> IsWhite(s[k])
  }

  /** Index of the first character that `trim` keeps (|s| if none). */
  function LeadingWhite(s: string): (i: nat)
    ensures i <= |s|
    ensures AllWhite(s[..i])
    ensures i < |s| ==> !IsWhite(s[i])
  {
    if |s| == 0 || !IsWhite(s[0]) then 0
    else
      var i := 1 + LeadingWhite(s[1..]);
      assert s[..i] == [s[0]] + s[1..][..i - 1];
      i
  }

  /** Index just past the last character that `trim` keeps (0 if none). */
  function TrailingWhite(s: string): (j: nat)
    ensures j <= |s|
    ensures AllWhite(s[j..])
    ensures j > 0 ==> !IsWhite(s[j - 1])
  {
    if |s| == 0 || !IsWhite(s[|s| - 1]) then |s|
    else
      var j := TrailingWhite(s[..|s| - 1]);
      assert s[j..] == s[..|s| - 1][j..] + [s[|s| - 1]];
      j
  }

  /** `t[i..j]` is framed by white space on both sides and neither starts
      nor ends with white space. */
  predicate Framed(t: string, i: nat, j: nat)
  {
    && i <= j <= |t|
    && AllWhite(t[..i]) && AllWhite(t[j..])
    && (i < j ==> !IsWhite(t[i]) && !IsWhite(t[j - 1]))
  }

  /** `s.trim()`: the slice of `s` left after removing white space at both
      ends. The contract determines it (see `FramedUnique`): a slice framed by
      white space that neither starts nor ends with white space. */
  function Trim(s: string): (r: string)
    ensures exists i: nat, j: nat :: Framed(s, i, j) && r == s[i..j]
    ensures r == "" <==> AllWhite(s)
  {
    var i := LeadingWhite(s);
    var j := TrailingWhite(s);
    if i == |s| then
      assert s[..i] == s;
      assert s[i..i] == "";
      assert Framed(s, i, i);
      ""
    else
      assert forall k :: j <= k < |s| ==> s[k] == s[j..][k - j];
      assert i < j;
      assert !AllWhite(s);
      assert Framed(s, i, j);
      s[i..j]
  }

  /** At most one slice of a string is framed. */
  lemma FramedUnique(t: string, i: nat, j: nat, i': nat, j': nat)
    requires Framed(t, i, j) && Framed(t, i', j')
    ensures t[i..j] == t[i'..j']
  {
    if i < j {
      FrameBounds(t, i, j, i', j');
    } else if i' < j' {
      FrameBounds(t, i', j', i, j);
    }
  }

  /** A non-empty framed slice fixes the frame. */
  lemma FrameBounds(t: string, i: nat, j: nat, i': nat, j': nat)
    requires Framed(t, i, j) && Framed(t, i', j') && i < j
    ensures i == i' && j == j'
  {
    FrameWhite(t, i, j);
    FrameWhite(t, i', j');
  }

  /** Everything outside a frame is white space. */
  lemma FrameWhite(t: string, i: nat, j: nat)
    requires Framed(t, i, j)
    ensures forall k :: 0 <= k < i ==> IsWhite(t[k])
    ensures forall k :: j <= k < |t| ==> IsWhite(t[k])
  {
    forall k | 0 <= k < i
      ensures IsWhite(t[k])
    {
      assert t[..i][k] == t[k];
    }
    forall k | j <= k < |t|
      ensures IsWhite(t[k])
    {
      assert t[j..][k - j] == t[k];
    }
  }

  /** Padding a string with white space keeps its framed slice framed. */
  lemma FramedPadded(a: string, s: string, b: string, i: nat, j: nat)
    requires AllWhite(a) && AllWhite(b) && Framed(s, i, j)
    ensures Framed(a + s + b, |a| + i, |a| + j)
    ensures (a + s + b)[|a| + i..|a| + j] == s[i..j]
  {
    var t := a + s + b;
    assert t[..|a| + i] == a + s[..i];
    assert t[|a| + j..] == s[j..] + b;
    AllWhiteConcat(a, s[..i]);
    AllWhiteConcat(s[j..], b);
    if i < j {
      assert t[|a| + i] == s[i] && t[|a| + j - 1] == s[j - 1];
    }
  }

  lemma AllWhiteConcat(x: string, y: string)
    requires AllWhite(x) && AllWhite(y)
    ensures AllWhite(x + y)
  {
    assert forall k :: |x| <= k < |x + y| ==> (x + y)[k] == y[k - |x|];
  }

  /** The frame that `Trim` cuts out of `s`. */
  lemma TrimFrame(s: string) returns (i: nat, j: nat)
    ensures Framed(s, i, j) && Trim(s) == s[i..j]
  {
    var r := Trim(s);
    i, j :| Framed(s, i, j) && r == s[i..j];
  }

  /** The trimmed form of `s` sits framed inside `s` padded with white space. */
  lemma PaddedFrame(a: string, s: string, b: string) returns (i: nat, j: nat)
    requires AllWhite(a) && AllWhite(b)
    ensures Framed(a + s + b, i, j) && (a + s + b)[i..j] == Trim(s)
  {
    var i0, j0 := TrimFrame(s);
    FramedPadded(a, s, b, i0, j0);
    i, j := |a| + i0, |a| + j0;
  }

  /** White space added around a string does not change its trimmed form. */
  lemma {:induction false} TrimIgnoresPadding(a: string, s: string, b: string)
    requires AllWhite(a) && AllWhite(b)
    ensures Trim(a + s + b) == Trim(s)
  {
    var t := a + s + b;
    var i, j := PaddedFrame(a, s, b);
    var i', j' := TrimFrame(t);
    FramedUnique(t, i, j, i', j');
  }

  /** Trimming twice is trimming once. */
  lemma TrimIdempotent(s: string)
    ensures Trim(Trim(s)) == Trim(s)
  {
    var i, j := TrimFrame(s);
    var r := s[i..j];
    if i < j {
      assert r[0] == s[i] && r[|r| - 1] == s[j - 1];
    }
    assert r[..0] == [] && r[|r|..] == [];
    assert Framed(r, 0, |r|);
    var i', j' := TrimFrame(r);
    FramedUnique(r, 0, |r|, i', j');
    assert r[0..|r|] == r;
  }

  /** Number of UTF-16 code units JavaScript stores for one character. */
  function CodeUnits(c: char): nat
  {
    if c as int >= 0x1_0000 then 2 else 1
  }

  /** `s.length` in JavaScript: characters outside the Basic Multilingual
      Plane count twice. */
  function Utf16Length(s: string): (n: nat)
    ensures |s| <= n <= 2 * |s|
    ensures (forall k :: 0 <= k < |s| ==> s[k] as int < 0x1_0000) ==> n == |s|
  {
    if |s| == 0 then 0 else CodeUnits(s[0]) + Utf16Length(s[1..])
  }

  /** The character of one decimal digit. */
  function DigitChar(d: nat): char
    requires d < 10
  {
    "0123456789"[d]
  }

  predicate IsDigit(c: char)
  {
    '0' <= c <= '9'
  }

  /** Decimal digits of a natural number, most significant first, no leading zero. */
  function NatDigits(n: nat): (s: string)
    ensures |s| >= 1
    ensures forall k :: 0 <= k < |s| ==> IsDigit(s[k])
    ensures |s| > 1 ==> s[0] != '0'
    decreases n
  {
    if n < 10 then [DigitChar(n)] else NatDigits(n / 10) + [DigitChar(n % 10)]
  }

  /** The largest integer a JavaScript number holds exactly
      (`Number.MAX_SAFE_INTEGER`, 2^53 - 1). */
  const MaxSafeInteger := 0x1F_FFFF_FFFF_FFFF

  /** The integers a JavaScript number represents exactly, one apart. */
  predicate IsSafeInteger(n: int)
  {
    -MaxSafeInteger <= n <= MaxSafeInteger
  }

  /** `n.toString()` for an integer. It agrees with JavaScript only on safe
      integers: beyond them a JavaScript number is no longer exact, and from
      10^21 on `toString` switches to exponent form. */
  function Decimal(n: int): (s: string)
    ensures |s| >= 1
  {
    if n < 0 then "-" + NatDigits(-n) else NatDigits(n)
  }

  /** The value of a string of decimal digits. */
  function DigitsValue(s: string): nat
    requires forall k :: 0 <= k < |s| ==> IsDigit(s[k])
  {
    if |s| == 0 then 0
    else
      assert IsDigit(s[|s| - 1]);
      10 * DigitsValue(s[..|s| - 1]) + ((s[|s| - 1] as int) - ('0' as int))
  }

  /** Reads an optionally signed decimal integer; anything else is rejected. */
  function ParseDecimal(s: string): Option<int>
  {
    if |s| >= 2 && s[0] == '-' && (forall k :: 1 <= k < |s| ==> IsDigit(s[k])) then
      var magnitude: int := DigitsValue(s[1..]);
      Some(-magnitude)
    else if |s| >= 1 && (forall k :: 0 <= k < |s| ==> IsDigit(s[k])) then
      Some(DigitsValue(s))
    else None
  }

  lemma {:induction false} NatDigitsValue(n: nat)
    ensures DigitsValue(NatDigits(n)) == n
    decreases n
  {
    if n >= 10 {
      NatDigitsValue(n / 10);
      var s := NatDigits(n);
      assert s[..|s| - 1] == NatDigits(n / 10);
      assert s[|s| - 1] == DigitChar(n % 10);
    } else {
      assert NatDigits(n) == [DigitChar(n)];
    }
  }

  /** Reading back the decimal rendering of a safe integer gives the integer. */
  lemma DecimalRoundTrip(n: int)
    requires IsSafeInteger(n)
    ensures ParseDecimal(Decimal(n)) == Some(n)
  {
    if n < 0 {
      var m: nat := -n;
      assert Decimal(n) == "-" + NatDigits(m);
      NegativeRoundTrip(m);
    } else {
      NaturalRoundTrip(n);
    }
  }

  lemma NaturalRoundTrip(m: nat)
    ensures ParseDecimal(NatDigits(m)) == Some(m)
  {
    var s := NatDigits(m);
    assert IsDigit(s[0]);
    NatDigitsValue(m);
  }

  lemma NegativeRoundTrip(m: nat)
    requires m > 0
    ensures ParseDecimal("-" + NatDigits(m)) == Some(-(m as int))
  {
    var d := NatDigits(m);
    var s := "-" + d;
    assert s[1..] == d;
    assert forall k :: 1 <= k < |s| ==> s[k] == d[k - 1];
    NatDigitsValue(m);
    var magnitude: int := DigitsValue(s[1..]);
    assert magnitude == m;
  }
}
