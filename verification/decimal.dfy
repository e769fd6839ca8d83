/**
 * Decimal rendering of integers, as Java's `Integer.toString` and string
 * concatenation `"" + n` produce it, together with an inverse parser and a
 * splitter used to read rendered text back.
 */
module Decimal {
  import opened Wrappers

  predicate IsDigit(c: char) {
    '0' <= c <= '9'
  }

  predicate AllDigits(s: string) {
    forall k :: 0 <= k < |s| ==> IsDigit(s[k])
  }

  /** The character for one decimal digit. */
  function DigitChar(d: nat): (c: char)
    requires d < 10
    ensures IsDigit(c) && c as int - '0' as int == d
  {
    ('0' as int + d) as char
  }

  /** The value of a string of decimal digits, most significant digit first. */
  function DigitsValue(s: string): nat
    requires AllDigits(s)
  {
    if s == [] then 0 else DigitsValue(s[..|s| - 1]) * 10 + (s[|s| - 1] as int - '0' as int)
  }

  /** Decimal digits of a non-negative number, most significant first. */
  function NatToString(n: nat): (s: string)
    ensures |s| > 0
  {
    if n < 10 then [DigitChar(n)] else NatToString(n / 10) + [DigitChar(n % 10)]
  }

  /**
   * The rendering of a non-negative number is all digits, has no leading
   * zero, and reading the digits back gives the number.
   */
  lemma {:induction false} NatToStringCorrect(n: nat)
    ensures AllDigits(NatToString(n))
    ensures DigitsValue(NatToString(n)) == n
    ensures NatToString(n)[0] == '0' <==> NatToString(n) == "0"
  {
    var s := NatToString(n);
    if n >= 10 {
      var front := NatToString(n / 10);
      NatToStringCorrect(n / 10);
      assert s == front + [DigitChar(n % 10)];
      assert s[..|s| - 1] == front;
      assert s[0] == front[0];
    }
  }

  /** Reads an optional minus sign followed by at least one digit. */
  function ParseInt(s: string): Option<int> {
    if |s| > 1 && s[0] == '-' && AllDigits(s[1..]) then Some(0 - DigitsValue(s[1..]) as int)
    else if |s| > 0 && AllDigits(s) then Some(DigitsValue(s))
    else None
  }

  /**
   * Java's rendering of an int: a minus sign for negative values, then the
   * digits of the magnitude.
   */
  function IntToString(i: int): (s: string)
    ensures |s| > 0
  {
    if i < 0 then "-" + NatToString(-i) else NatToString(i)
  }

  /** Only '-' and digits occur in a rendered int. */
  lemma IntToStringChars(i: int)
    ensures forall k :: 0 <= k < |IntToString(i)| ==> IntToString(i)[k] == '-' || IsDigit(IntToString(i)[k])
  {
    NatToStringCorrect(if i < 0 then -i else i);
  }

  /** ParseInt reads back exactly the int that was rendered. */
  lemma ParseIntInverts(i: int)
    ensures ParseInt(IntToString(i)) == Some(i)
  {
    if i < 0 {
      NatToStringCorrect(-i);
      assert IntToString(i)[1..] == NatToString(-i);
    } else {
      NatToStringCorrect(i);
    }
  }

  lemma IntToStringInjective(i: int, j: int)
    ensures IntToString(i) == IntToString(j) <==> i == j
  {
    if IntToString(i) == IntToString(j) {
      ParseIntInverts(i);
      ParseIntInverts(j);
    }
  }

  /** Splits at the first occurrence of `c`, if there is one. */
  function SplitOn(s: string, c: char): (r: Option<(string, string)>)
    ensures r.Some? ==> s == r.value.0 + [c] + r.value.1 && c !in r.value.0
    ensures r.None? ==> c !in s
  {
    if s == [] then None
    else if s[0] == c then Some(([], s[1..]))
    else
      match SplitOn(s[1..], c)
      case None => None
      case Some((u, w)) => Some(([s[0]] + u, w))
  }

  /** Joining two parts with a separator the first part lacks, then splitting, gives the parts back. */
  lemma {:induction false} SplitOnJoin(u: string, c: char, w: string)
    requires c !in u
    ensures SplitOn(u + [c] + w, c) == Some((u, w))
  {
    if u != [] {
      SplitOnJoin(u[1..], c, w);
      assert (u + [c] + w)[1..] == u[1..] + [c] + w;
      assert [u[0]] + u[1..] == u;
    }
  }

  /** Rendered integers contain neither a space nor the letter 'x' nor a colon. */
  lemma IntToStringHasNoSeparator(i: int)
    ensures ' ' !in IntToString(i) && 'x' !in IntToString(i) && ':' !in IntToString(i)
  {
    var s := IntToString(i);
    IntToStringChars(i);
    forall k | 0 <= k < |s| ensures s[k] != ' ' && s[k] != 'x' && s[k] != ':' {
    }
  }
}
