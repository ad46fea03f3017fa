/** String helpers that stand for the .NET string operations the application
    uses: Trim/TrimEnd, StartsWith/EndsWith, Replace, ToLowerInvariant,
    integer formatting and the "#,##0" number format of the invariant culture. */
module Text {

  /** Environment.NewLine on Windows. */
  const NewLine: string := "\r\n"

  /** char.IsWhiteSpace: the Unicode space, line and paragraph
      separators, the control characters from tab to carriage return, and
      the next-line character. */
  predicate IsWhiteSpace(c: char)
  {
    c == ' ' || c == '\t' || c == '\n' || c == '\U{B}' || c == '\U{C}' || c == '\r' ||
    c == '\U{85}' || c == '\U{A0}' || c == '\U{1680}' ||
    c == '\U{2000}' || c == '\U{2001}' || c == '\U{2002}' || c == '\U{2003}' || c == '\U{2004}' ||
    c == '\U{2005}' || c == '\U{2006}' || c == '\U{2007}' || c == '\U{2008}' || c == '\U{2009}' ||
    c == '\U{200A}' || c == '\U{2028}' || c == '\U{2029}' || c == '\U{202F}' || c == '\U{205F}' ||
    c == '\U{3000}'
  }

  predicate StartsWith(s: string, prefix: string)
  {
    |prefix| <= |s| && s[..|prefix|] == prefix
  }

  predicate EndsWith(s: string, suffix: string)
  {
    |suffix| <= |s| && s[|s| - |suffix|..] == suffix
  }

  /** string.IsNullOrWhiteSpace (null is modelled as ""). */
  predicate IsBlank(s: string)
  {
    forall i :: 0 <= i < |s| ==> IsWhiteSpace(s[i])
  }

  /** string.TrimStart(): drops the leading white space. */
  function TrimStart(s: string): string
  {
    if s == [] || !IsWhiteSpace(s[0]) then s else TrimStart(s[1..])
  }

  /** TrimStart keeps a suffix, drops only white space, and leaves no
      leading white space. */
  lemma {:induction false} TrimStartShape(s: string)
    ensures var r := TrimStart(s);
      |r| <= |s| && r == s[|s| - |r|..] &&
      (forall i :: 0 <= i < |s| - |r| ==> IsWhiteSpace(s[i])) &&
      (r == [] || !IsWhiteSpace(r[0]))
  {
    if s != [] && IsWhiteSpace(s[0]) {
      var t := s[1..];
      TrimStartShape(t);
      var r := TrimStart(t);
      assert r == s[|s| - |r|..] by {
        assert t[|t| - |r|..] == s[|s| - |r|..];
      }
      forall i | 1 <= i < |s| - |r|
        ensures IsWhiteSpace(s[i])
      {
        assert s[i] == t[i - 1];
      }
    }
  }

  /** string.TrimEnd(): drops the trailing white space. */
  function TrimEnd(s: string): string
  {
    if s == [] || !IsWhiteSpace(s[|s| - 1]) then s else TrimEnd(s[..|s| - 1])
  }

  /** TrimEnd keeps a prefix, drops only white space, and leaves no
      trailing white space. */
  lemma {:induction false} TrimEndShape(s: string)
    ensures var r := TrimEnd(s);
      |r| <= |s| && r == s[..|r|] &&
      (forall i :: |r| <= i < |s| ==> IsWhiteSpace(s[i])) &&
      (r == [] || !IsWhiteSpace(r[|r| - 1]))
  {
    if s != [] && IsWhiteSpace(s[|s| - 1]) {
      TrimEndShape(s[..|s| - 1]);
    }
  }

  /** string.Trim(). */
  function Trim(s: string): string
  {
    TrimEnd(TrimStart(s))
  }

  /** A trimmed string is empty or starts and ends with a character that
      is not white space. */
  lemma TrimEnds(s: string)
    ensures var t := Trim(s);
      t == [] || (!IsWhiteSpace(t[0]) && !IsWhiteSpace(t[|t| - 1]))
  {
    TrimStartShape(s);
    TrimEndShape(TrimStart(s));
  }

  /** A string that neither starts nor ends with white space is its own trim. */
  lemma TrimUnchanged(s: string)
    requires s == [] || (!IsWhiteSpace(s[0]) && !IsWhiteSpace(s[|s| - 1]))
    ensures Trim(s) == s
  {
  }

  /** string.Replace(char, char): every occurrence of `from` becomes `to`. */
  function ReplaceChar(s: string, from: char, to: char): string
  {
    if s == [] then [] else [if s[0] == from then to else s[0]] + ReplaceChar(s[1..], from, to)
  }

  /** The replacement keeps the length and changes exactly the occurrences
      of `from`. */
  lemma {:induction false} ReplaceCharAt(s: string, from: char, to: char)
    ensures var r := ReplaceChar(s, from, to);
      |r| == |s| && forall i :: 0 <= i < |s| ==> r[i] == (if s[i] == from then to else s[i])
  {
    if s != [] {
      ReplaceCharAt(s[1..], from, to);
    }
  }

  /** Replacing a character that does not occur changes nothing. */
  lemma {:induction false} ReplaceCharAbsent(s: string, from: char, to: char)
    requires from !in s
    ensures ReplaceChar(s, from, to) == s
  {
    if s != [] {
      assert from !in s[1..];
      ReplaceCharAbsent(s[1..], from, to);
    }
  }

  /** Mapping a character away and back is the identity on strings that did
      not contain the target character to begin with. */
  lemma ReplaceCharRoundTrip(s: string, a: char, b: char)
    requires b !in s
    ensures ReplaceChar(ReplaceChar(s, a, b), b, a) == s
  {
    ReplaceCharAt(s, a, b);
    ReplaceCharAt(ReplaceChar(s, a, b), b, a);
    var t := ReplaceChar(ReplaceChar(s, a, b), b, a);
    forall i | 0 <= i < |s| ensures t[i] == s[i] {
      assert s[i] != b;
    }
  }

  /** string.Replace(string, string): scans left to right and replaces every
      non-overlapping occurrence of `pat`. */
  function ReplaceAll(s: string, pat: string, rep: string): string
    requires pat != []
    decreases |s|
  {
    if |s| < |pat| then s
    else if s[..|pat|] == pat then rep + ReplaceAll(s[|pat|..], pat, rep)
    else [s[0]] + ReplaceAll(s[1..], pat, rep)
  }

  /** Where the pattern does not start, the first character is copied. */
  lemma ReplaceAllStep(s: string, pat: string, rep: string)
    requires pat != [] && s != [] && !StartsWith(s, pat)
    ensures ReplaceAll(s, pat, rep) == [s[0]] + ReplaceAll(s[1..], pat, rep)
  {
    if |s| < |pat| {
      assert ReplaceAll(s[1..], pat, rep) == s[1..];
    }
  }

  /** A string in which the pattern starts nowhere is left as it is. */
  lemma {:induction false} ReplaceAllAbsent(s: string, pat: string, rep: string)
    requires pat != []
    requires forall i :: 0 <= i < |s| ==> !StartsWith(s[i..], pat)
    ensures ReplaceAll(s, pat, rep) == s
    decreases |s|
  {
    if s != [] {
      assert s[0..] == s;
      ReplaceAllStep(s, pat, rep);
      forall i | 0 <= i < |s[1..]| ensures !StartsWith(s[1..][i..], pat) {
        assert s[1..][i..] == s[i + 1..];
      }
      ReplaceAllAbsent(s[1..], pat, rep);
    }
  }

  /** Inserting four spaces after every line feed and removing them again
      gives back the original text. */
  lemma {:induction false} IndentRoundTrip(t: string)
    ensures ReplaceAll(ReplaceAll(t, "\n", "\n    "), "\n    ", "\n") == t
    decreases |t|
  {
    if t != [] {
      IndentRoundTrip(t[1..]);
      var u := ReplaceAll(t[1..], "\n", "\n    ");
      if t[0] == '\n' {
        assert t[..1] == "\n";
        assert ReplaceAll(t, "\n", "\n    ") == "\n    " + u;
        assert ("\n    " + u)[..5] == "\n    ";
        assert ("\n    " + u)[5..] == u;
      } else {
        assert t[..1] != "\n";
        assert ReplaceAll(t, "\n", "\n    ") == [t[0]] + u;
        var w := [t[0]] + u;
        if |w| >= 5 {
          assert w[..5][0] == t[0];
          assert w[..5] != "\n    ";
          assert w[1..] == u;
        } else {
          NoLineFeedUnchanged(t[1..]);
          assert u == t[1..];
          assert w == t;
        }
      }
    }
  }

  /** A short text has no line feed once indented (a line feed becomes five
      characters), so the replacement left it alone. */
  lemma {:induction false} NoLineFeedUnchanged(t: string)
    requires |ReplaceAll(t, "\n", "\n    ")| < 4
    ensures ReplaceAll(t, "\n", "\n    ") == t
    decreases |t|
  {
    if t != [] && t[..1] != "\n" {
      NoLineFeedUnchanged(t[1..]);
    }
  }

  /** char.ToLowerInvariant on the ASCII letters. */
  function LowerChar(c: char): char
  {
    if 'A' <= c <= 'Z' then (c as int + 32) as char else c
  }

  /** string.ToLowerInvariant(), for ASCII upper-case letters. */
  function ToLower(s: string): string
  {
    if s == [] then [] else [LowerChar(s[0])] + ToLower(s[1..])
  }

  /** Lower-casing keeps the length and lower-cases every character. */
  lemma {:induction false} ToLowerAt(s: string)
    ensures var r := ToLower(s);
      |r| == |s| && forall i :: 0 <= i < |s| ==> r[i] == LowerChar(s[i])
  {
    if s != [] {
      ToLowerAt(s[1..]);
    }
  }

  /** Ordinal (code point by code point) lexicographic order on strings. */
  predicate LexLe(a: string, b: string)
    decreases |a|
  {
    a == [] || (b != [] && (a[0] < b[0] || (a[0] == b[0] && LexLe(a[1..], b[1..]))))
  }

  lemma {:induction false} LexLeReflexive(a: string)
    ensures LexLe(a, a)
    decreases |a|
  {
    if a != [] { LexLeReflexive(a[1..]); }
  }

  lemma {:induction false} LexLeTotal(a: string, b: string)
    ensures LexLe(a, b) || LexLe(b, a)
    decreases |a|
  {
    if a != [] && b != [] && a[0] == b[0] { LexLeTotal(a[1..], b[1..]); }
  }

  lemma {:induction false} LexLeTransitive(a: string, b: string, c: string)
    requires LexLe(a, b) && LexLe(b, c)
    ensures LexLe(a, c)
    decreases |a|
  {
    if a != [] && a[0] == b[0] && b[0] == c[0] { LexLeTransitive(a[1..], b[1..], c[1..]); }
  }

  lemma {:induction false} LexLeAntisymmetric(a: string, b: string)
    requires LexLe(a, b) && LexLe(b, a)
    ensures a == b
    decreases |a|
  {
    if a != [] {
      LexLeAntisymmetric(a[1..], b[1..]);
      assert a == [a[0]] + a[1..] && b == [b[0]] + b[1..];
    }
  }

  // Decimal digits

  function DigitChar(d: nat): char
    requires d < 10
  {
    "0123456789"[d]
  }

  predicate IsDigit(c: char)
  {
    '0' <= c <= '9'
  }

  function DigitValue(c: char): nat
    requires IsDigit(c)
  {
    c as int - '0' as int
  }

  lemma DigitRoundTrip(d: nat)
    requires d < 10
    ensures IsDigit(DigitChar(d)) && DigitValue(DigitChar(d)) == d
  {
  }

  /** A text made of decimal digits only. */
  predicate AllDigits(s: string)
  {
    forall i :: 0 <= i < |s| ==> IsDigit(s[i])
  }

  /** long.ToString() of a non-negative number: the shortest decimal text. */
  function NatToString(n: nat): (r: string)
    ensures r != [] && forall i :: 0 <= i < |r| ==> IsDigit(r[i])
    ensures |r| > 1 ==> r[0] != '0'
  {
    DigitRoundTrip(n % 10);
    if n < 10 then [DigitChar(n)] else NatToString(n / 10) + [DigitChar(n % 10)]
  }

  /** long.ToString() of any number, with a leading '-' when it is negative. */
  function IntToString(i: int): string
  {
    if i < 0 then "-" + NatToString(-i) else NatToString(i)
  }

  /** The number a string of decimal digits denotes. */
  function DecimalValue(s: string): nat
    requires forall i :: 0 <= i < |s| ==> IsDigit(s[i])
  {
    if s == [] then 0 else DecimalValue(s[..|s| - 1]) * 10 + DigitValue(s[|s| - 1])
  }

  lemma {:induction false} NatToStringRoundTrip(n: nat)
    ensures DecimalValue(NatToString(n)) == n
  {
    DigitRoundTrip(n % 10);
    if n >= 10 {
      NatToStringRoundTrip(n / 10);
      var s := NatToString(n);
      assert s[..|s| - 1] == NatToString(n / 10);
    }
  }

  /** The three digits of m with leading zeros ("000" to "999"). */
  function ThreeDigits(m: nat): (r: string)
    requires m < 1000
    ensures |r| == 3 && forall i :: 0 <= i < 3 ==> IsDigit(r[i])
  {
    DigitRoundTrip(m / 10 / 10);
    DigitRoundTrip(m / 10 % 10);
    DigitRoundTrip(m % 10);
    [DigitChar(m / 10 / 10), DigitChar(m / 10 % 10), DigitChar(m % 10)]
  }

  /** The format "#,##0" in the invariant culture: decimal digits in groups
      of three separated by ','. */
  function GroupThousands(n: nat): string
  {
    if n < 1000 then NatToString(n) else GroupThousands(n / 1000) + "," + ThreeDigits(n % 1000)
  }

  /** Removes the group separators. */
  function StripCommas(s: string): string
  {
    if s == [] then [] else StripCommas(s[..|s| - 1]) + (if s[|s| - 1] == ',' then [] else [s[|s| - 1]])
  }

  lemma {:induction false} StripCommasAppend(a: string, b: string)
    ensures StripCommas(a + b) == StripCommas(a) + StripCommas(b)
    decreases |b|
  {
    if b == [] {
      assert a + b == a;
    } else {
      assert (a + b)[..|a + b| - 1] == a + b[..|b| - 1];
      StripCommasAppend(a, b[..|b| - 1]);
    }
  }

  lemma DecimalValueAppend(a: string, b: string)
    requires forall i :: 0 <= i < |a| ==> IsDigit(a[i])
    requires |b| == 3 && forall i :: 0 <= i < 3 ==> IsDigit(b[i])
    ensures forall i :: 0 <= i < |a + b| ==> IsDigit((a + b)[i])
    ensures DecimalValue(a + b) == DecimalValue(a) * 1000 + DecimalValue(b)
  {
    var ab := a + b;
    var a1, a2 := a + b[..1], a + b[..2];
    assert ab[..|ab| - 1] == a2;
    assert a2[..|a2| - 1] == a1;
    assert a1[..|a1| - 1] == a;
    var x, y, z := DigitValue(b[0]), DigitValue(b[1]), DigitValue(b[2]);
    var v := DecimalValue(a);
    assert DecimalValue(a1) == v * 10 + x;
    assert DecimalValue(a2) == (v * 10 + x) * 10 + y;
    assert DecimalValue(ab) == ((v * 10 + x) * 10 + y) * 10 + z;
    assert b[..2][..1] == b[..1];
    assert b[..1][..0] == [];
    assert DecimalValue(b[..1]) == x;
    assert DecimalValue(b[..2]) == x * 10 + y;
    assert DecimalValue(b) == (x * 10 + y) * 10 + z;
  }

  lemma ThreeDigitsValue(m: nat)
    requires m < 1000
    ensures DecimalValue(ThreeDigits(m)) == m
  {
    var s := ThreeDigits(m);
    DigitRoundTrip(m / 10 / 10);
    DigitRoundTrip(m / 10 % 10);
    DigitRoundTrip(m % 10);
    assert s[..2][..1] == [s[0]];
    assert s[..1][..0] == [];
    assert DecimalValue(s[..1]) == m / 10 / 10;
    assert DecimalValue(s[..2]) == (m / 10 / 10) * 10 + m / 10 % 10 == m / 10;
  }

  /** Every character of the grouped text is a digit or a separator, and
      dropping the separators gives back the number. */
  lemma {:induction false} GroupThousandsRoundTrip(n: nat)
    ensures forall i :: 0 <= i < |StripCommas(GroupThousands(n))| ==> IsDigit(StripCommas(GroupThousands(n))[i])
    ensures DecimalValue(StripCommas(GroupThousands(n))) == n
  {
    if n < 1000 {
      NoCommaUnchanged(NatToString(n));
      NatToStringRoundTrip(n);
    } else {
      GroupThousandsRoundTrip(n / 1000);
      var head := GroupThousands(n / 1000);
      var tail := ThreeDigits(n % 1000);
      StripCommasAppend(head + ",", tail);
      StripCommasAppend(head, ",");
      assert StripCommas(",") == [];
      NoCommaUnchanged(tail);
      assert GroupThousands(n) == head + "," + tail;
      var digits := StripCommas(head);
      assert StripCommas(GroupThousands(n)) == digits + tail;
      DecimalValueAppend(digits, tail);
      ThreeDigitsValue(n % 1000);
      assert DecimalValue(digits + tail) == (n / 1000) * 1000 + n % 1000;
    }
  }

  lemma {:induction false} NoCommaUnchanged(s: string)
    requires forall i :: 0 <= i < |s| ==> IsDigit(s[i])
    ensures StripCommas(s) == s
  {
    if s != [] {
      NoCommaUnchanged(s[..|s| - 1]);
    }
  }
}
