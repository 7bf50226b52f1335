/** String operations of JavaScript that the platform relies on. */
module Text {
  /** The decimal digit character of `d`. */
  function Digit(d: nat): (c: char)
    requires d < 10
    ensures '0' <= c <= '9'
    ensures c as int - '0' as int == d
  {
    ('0' as int + d) as char
  }

  predicate IsDigit(c: char)
  {
    '0' <= c <= '9'
  }

  function DigitValue(c: char): (d: nat)
    requires IsDigit(c)
  {
    c as int - '0' as int
  }

  /** The numeric value of a string of decimal digits. */
  function DigitsValue(s: string): (n: nat)
    requires forall i :: 0 <= i < |s| ==> IsDigit(s[i])
  {
    if |s| == 0 then 0
    else DigitsValue(s[..|s| - 1]) * 10 + DigitValue(s[|s| - 1])
  }

  /** `String(n)` for a non-negative integer: shortest decimal form. */
  function NatToString(n: nat): (s: string)
    ensures |s| >= 1
    ensures forall i :: 0 <= i < |s| ==> IsDigit(s[i])
    ensures s[0] == '0' <==> n == 0
    ensures n < 10 <==> |s| == 1
  {
    if n < 10 then [Digit(n)] else NatToString(n / 10) + [Digit(n % 10)]
  }

  /** Reading the decimal form back gives the number: `Number(String(n)) === n`. */
  lemma {:induction false} NatToStringRoundTrip(n: nat)
    ensures DigitsValue(NatToString(n)) == n
  {
    if n >= 10 {
      var s := NatToString(n);
      assert s[..|s| - 1] == NatToString(n / 10);
      NatToStringRoundTrip(n / 10);
    }
  }

  /** Two numbers with the same decimal form are equal. */
  lemma NatToStringInjective(m: nat, n: nat)
    requires NatToString(m) == NatToString(n)
    ensures m == n
  {
    NatToStringRoundTrip(m);
    NatToStringRoundTrip(n);
  }

  /** `String(n)` for any integer. */
  function IntToString(n: int): (s: string)
    ensures |s| >= 1
    ensures n >= 0 ==> s == NatToString(n)
    ensures n < 0 ==> s == "-" + NatToString(-n)
  {
    if n >= 0 then NatToString(n) else "-" + NatToString(-n)
  }

  function Repeat(c: char, k: nat): (s: string)
    ensures |s| == k
    ensures forall i :: 0 <= i < k ==> s[i] == c
  {
    if k == 0 then [] else [c] + Repeat(c, k - 1)
  }

  /** `s.padStart(width, fill)` with a one-character fill. */
  function PadStart(s: string, width: nat, fill: char): (r: string)
    ensures |s| >= width ==> r == s
    ensures |s| < width ==> |r| == width
    ensures exists k: nat :: r == Repeat(fill, k) + s
  {
    if |s| >= width then (assert s == Repeat(fill, 0) + s; s)
    else Repeat(fill, width - |s|) + s
  }

  predicate StartsWith(s: string, p: string)
    decreases |p|
  {
    |p| == 0 || (|s| > 0 && s[0] == p[0] && StartsWith(s[1..], p[1..]))
  }

  /** `s.includes(sub)`. */
  predicate Contains(s: string, sub: string)
    decreases |s|
  {
    StartsWith(s, sub) || (|s| > 0 && Contains(s[1..], sub))
  }

  lemma {:induction false} StartsWithAt(s: string, p: string, k: nat)
    requires StartsWith(s, p) && k < |p|
    ensures k < |s| && s[k] == p[k]
    decreases |p|
  {
    if k > 0 {
      StartsWithAt(s[1..], p[1..], k - 1);
    }
  }

  lemma StartsWithMember(s: string, p: string, k: nat)
    requires k < |p|
    ensures StartsWith(s, p) ==> p[k] in s
  {
    if StartsWith(s, p) {
      StartsWithAt(s, p, k);
    }
  }

  /** A string cannot contain a substring one of whose characters it lacks. */
  lemma {:induction false} AbsentChar(s: string, sub: string, k: nat)
    requires k < |sub| && sub[k] !in s
    ensures !Contains(s, sub)
    decreases |s|
  {
    StartsWithMember(s, sub, k);
    if |s| > 0 {
      assert forall c :: c in s[1..] ==> c in s;
      AbsentChar(s[1..], sub, k);
    }
  }

  /** A string contains whatever occurs in it at some offset. */
  lemma {:induction false} ContainsAt(s: string, sub: string, i: nat)
    requires i + |sub| <= |s| && s[i..i + |sub|] == sub
    ensures Contains(s, sub)
    decreases i
  {
    if i == 0 {
      assert s == sub + s[|sub|..];
      SelfStartsWith(sub);
      StartsWithAppend(sub, s[|sub|..], sub);
    } else {
      assert s[1..][i - 1..i - 1 + |sub|] == s[i..i + |sub|];
      ContainsAt(s[1..], sub, i - 1);
    }
  }

  /** A string contains whatever its suffix contains. */
  lemma {:induction false} SuffixContains(a: string, t: string, sub: string)
    requires Contains(t, sub)
    ensures Contains(a + t, sub)
    decreases |a|
  {
    if |a| > 0 {
      assert (a + t)[1..] == a[1..] + t;
      SuffixContains(a[1..], t, sub);
    } else {
      assert a + t == t;
    }
  }

  /** A string contains each of the pieces it is made of. */
  lemma ContainsMiddle(a: string, b: string, c: string)
    ensures Contains(a + b + c, b)
  {
    var s := a + b + c;
    assert s[|a|..|a| + |b|] == b;
    ContainsAt(s, b, |a|);
  }

  lemma {:induction false} PrefixContains(s: string, t: string, sub: string)
    requires Contains(s, sub)
    ensures Contains(s + t, sub)
    decreases |s|
  {
    if StartsWith(s, sub) {
      StartsWithAppend(s, t, sub);
    } else {
      assert (s + t)[1..] == s[1..] + t;
      PrefixContains(s[1..], t, sub);
    }
  }

  lemma {:induction false} StartsWithAppend(s: string, t: string, p: string)
    requires StartsWith(s, p)
    ensures StartsWith(s + t, p)
    decreases |p|
  {
    if |p| > 0 {
      assert (s + t)[1..] == s[1..] + t;
      StartsWithAppend(s[1..], t, p[1..]);
    }
  }

  /** A string contains each of its prefixes. */
  lemma {:induction false} ContainsOwnPrefix(s: string, n: nat)
    requires n <= |s|
    ensures Contains(s, s[..n])
  {
    SelfStartsWith(s[..n]);
    assert s == s[..n] + s[n..];
    PrefixContains(s[..n], s[n..], s[..n]);
  }

  lemma {:induction false} SelfStartsWith(s: string)
    ensures StartsWith(s, s)
    decreases |s|
  {
    if |s| > 0 {
      SelfStartsWith(s[1..]);
    }
  }

  /** The characters `String.prototype.trim` removes (WhiteSpace and LineTerminator of ECMAScript). */
  predicate IsSpace(c: char)
  {
    c == ' ' || c == '\t' || c == '\n' || c == '\r' || c == '\U{000B}' || c == '\U{000C}'
    || c == '\U{00A0}' || c == '\U{1680}' || ('\U{2000}' <= c <= '\U{200A}')
    || c == '\U{2028}' || c == '\U{2029}' || c == '\U{202F}' || c == '\U{205F}'
    || c == '\U{3000}' || c == '\U{FEFF}'
  }

  function TrimStart(s: string): (r: string)
    ensures |r| <= |s|
    ensures |r| > 0 ==> !IsSpace(r[0])
  {
    if |s| > 0 && IsSpace(s[0]) then TrimStart(s[1..]) else s
  }

  function TrimEnd(s: string): (r: string)
    ensures |r| <= |s|
    ensures |r| > 0 ==> !IsSpace(r[|r| - 1])
  {
    if |s| > 0 && IsSpace(s[|s| - 1]) then TrimEnd(s[..|s| - 1]) else s
  }

  /** `s.trim()`: the middle part of the string without whitespace at either end (see `TrimSplit`). */
  function Trim(s: string): (r: string)
    ensures |r| <= |s|
  {
    TrimEnd(TrimStart(s))
  }

  predicate AllSpace(s: string)
  {
    forall k :: 0 <= k < |s| ==> IsSpace(s[k])
  }

  /** Neither end of the string is whitespace. */
  predicate Bare(s: string)
  {
    |s| > 0 ==> !IsSpace(s[0]) && !IsSpace(s[|s| - 1])
  }

  /** What `TrimStart` drops is a whitespace prefix. */
  lemma {:induction false} TrimStartSplit(s: string) returns (a: string)
    ensures AllSpace(a) && s == a + TrimStart(s)
    decreases |s|
  {
    if |s| > 0 && IsSpace(s[0]) {
      var rest := TrimStartSplit(s[1..]);
      a := [s[0]] + rest;
      assert s == [s[0]] + s[1..];
    } else {
      a := "";
    }
  }

  /** What `TrimEnd` drops is a whitespace suffix. */
  lemma {:induction false} TrimEndSplit(s: string) returns (b: string)
    ensures AllSpace(b) && s == TrimEnd(s) + b
    decreases |s|
  {
    if |s| > 0 && IsSpace(s[|s| - 1]) {
      var rest := TrimEndSplit(s[..|s| - 1]);
      b := rest + [s[|s| - 1]];
      assert s == s[..|s| - 1] + [s[|s| - 1]];
    } else {
      b := "";
    }
  }

  /** Whatever the string, it is its trimmed part with whitespace on either side. */
  lemma TrimSplit(s: string) returns (a: string, b: string)
    ensures AllSpace(a) && AllSpace(b) && Bare(Trim(s)) && s == a + Trim(s) + b
  {
    var t := TrimStart(s);
    var r := TrimEnd(t);
    a := TrimStartSplit(s);
    b := TrimEndSplit(t);
    Associative(a, r, b);
    TrimIsBare(s);
  }

  lemma Associative(a: string, m: string, b: string)
    ensures a + (m + b) == a + m + b
  {
  }

  /** The result of `trim` starts and ends with a character that is not whitespace. */
  lemma TrimIsBare(s: string)
    ensures Bare(Trim(s))
  {
    var t := TrimStart(s);
    var b := TrimEndSplit(t);
    var r := TrimEnd(t);
    if |r| > 0 {
      assert t[0] == r[0];
    }
  }

  lemma {:induction false} TrimStartSpaces(a: string, x: string)
    requires AllSpace(a)
    ensures TrimStart(a + x) == TrimStart(x)
    decreases |a|
  {
    if |a| > 0 {
      assert (a + x)[0] == a[0];
      assert (a + x)[1..] == a[1..] + x;
      TrimStartSpaces(a[1..], x);
    } else {
      assert a + x == x;
    }
  }

  lemma {:induction false} TrimEndSpaces(x: string, b: string)
    requires AllSpace(b)
    ensures TrimEnd(x + b) == TrimEnd(x)
    decreases |b|
  {
    if |b| > 0 {
      assert (x + b)[|x + b| - 1] == b[|b| - 1];
      assert (x + b)[..|x + b| - 1] == x + b[..|b| - 1];
      TrimEndSpaces(x, b[..|b| - 1]);
    } else {
      assert x + b == x;
    }
  }

  /** `trim` removes exactly the whitespace around a bare middle part. */
  lemma TrimUnique(a: string, m: string, b: string)
    requires AllSpace(a) && Bare(m) && AllSpace(b)
    ensures Trim(a + m + b) == m
  {
    var mb := m + b;
    assert a + m + b == a + mb;
    TrimStartSpaces(a, mb);
    if |m| > 0 {
      assert mb[0] == m[0];
      assert TrimStart(mb) == mb;
      TrimEndSpaces(m, b);
    } else {
      assert mb == b + "";
      TrimStartSpaces(b, "");
    }
  }

  /** What `Trim` removes is whitespace at the two ends of the string and nothing else. */
  lemma TrimIsInfix(s: string)
    ensures exists i, j ::
              (0 <= i <= j <= |s| && Trim(s) == s[i..j]
               && (forall k :: 0 <= k < i ==> IsSpace(s[k])) && (forall k :: j <= k < |s| ==> IsSpace(s[k])))
  {
    var a, b := TrimSplit(s);
    var i, j := |a|, |a| + |Trim(s)|;
    assert s[i..j] == Trim(s);
    assert forall k :: 0 <= k < i ==> s[k] == a[k];
    assert forall k :: j <= k < |s| ==> s[k] == b[k - j];
  }

  /** Trimming a string made only of whitespace gives the empty string, and only then. */
  lemma TrimEmpty(s: string)
    ensures Trim(s) == "" <==> AllSpace(s)
  {
    var a, b := TrimSplit(s);
    if Trim(s) == "" {
      assert s == a + b;
      AllSpaceJoin2(a, b);
    }
    if AllSpace(s) {
      assert s + "" + "" == s;
      TrimUnique(s, "", "");
    }
  }

  lemma AllSpaceJoin2(a: string, b: string)
    requires AllSpace(a) && AllSpace(b)
    ensures AllSpace(a + b)
  {
    assert forall k :: 0 <= k < |a| ==> (a + b)[k] == a[k];
    assert forall k :: |a| <= k < |a + b| ==> (a + b)[k] == b[k - |a|];
  }

  /** A trailing space does not change the trimmed string. */
  lemma TrimAppendSpace(s: string)
    ensures Trim(s + " ") == Trim(s)
  {
    var a, b := TrimSplit(s);
    assert s + " " == a + Trim(s) + (b + " ");
    TrimUnique(a, Trim(s), b + " ");
  }

  /** A leading space does not change the trimmed string. */
  lemma TrimPrependSpace(s: string)
    ensures Trim(" " + s) == Trim(s)
  {
    var a, b := TrimSplit(s);
    assert " " + s == (" " + a) + Trim(s) + b;
    TrimUnique(" " + a, Trim(s), b);
  }

  /** Two strings joined by a space are all whitespace exactly when both are. */
  lemma AllSpaceJoin(f: string, l: string)
    ensures AllSpace(f + " " + l) <==> AllSpace(f) && AllSpace(l)
  {
    var joined := f + " " + l;
    assert forall k :: 0 <= k < |f| ==> joined[k] == f[k];
    assert forall k :: 0 <= k < |l| ==> joined[|f| + 1 + k] == l[k];
    if AllSpace(f) && AllSpace(l) {
      AllSpaceJoin2(f, " ");
      AllSpaceJoin2(f + " ", l);
    }
  }

  /**
   * A decimal number followed by a non-digit can be read back off the front of a string:
   * equal strings of that shape have equal numbers and equal remainders.
   */
  lemma NumberThenSeparator(a: nat, b: nat, c: char, x: string, y: string)
    requires !IsDigit(c)
    requires NatToString(a) + [c] + x == NatToString(b) + [c] + y
    ensures a == b && x == y
  {
    var sa, sb := NatToString(a), NatToString(b);
    var l := sa + [c] + x;
    if |sa| < |sb| {
      DigitBeforeSeparator(b, c, y, |sa|);
    } else if |sb| < |sa| {
      DigitBeforeSeparator(a, c, x, |sb|);
    } else {
      assert sa == l[..|sa|] == sb;
      NatToStringInjective(a, b);
      assert x == l[|sa| + 1..] == y;
    }
  }

  lemma DigitBeforeSeparator(a: nat, c: char, x: string, k: nat)
    requires k < |NatToString(a)|
    ensures IsDigit((NatToString(a) + [c] + x)[k])
  {
  }

  /** `String(n)` tells integers apart. */
  lemma IntToStringInjective(m: int, n: int)
    requires IntToString(m) == IntToString(n)
    ensures m == n
  {
    if m >= 0 && n >= 0 {
      NatToStringInjective(m, n);
    } else if m < 0 && n < 0 {
      assert NatToString(-m) == IntToString(m)[1..] == NatToString(-n);
      NatToStringInjective(-m, -n);
    }
  }

  /** A number of at most two digits padded to width 2 with "0" is two digits that read back as it. */
  lemma PaddedTwoDigits(n: nat)
    requires n < 100
    ensures var p := PadStart(NatToString(n), 2, '0');
            |p| == 2 && (forall i :: 0 <= i < 2 ==> IsDigit(p[i])) && DigitsValue(p) == n
  {
    var p := PadStart(NatToString(n), 2, '0');
    if n < 10 {
      assert p == ['0', Digit(n)];
      assert p[..1] == ['0'];
    } else {
      assert NatToString(n) == NatToString(n / 10) + [Digit(n % 10)];
      NatToStringRoundTrip(n);
    }
  }
}
