/** The string operations the source relies on: ordinal case-insensitive
    substring search and the decimal rendering of an `int` inside an
    interpolated string. */
module Text {

  /** Ordinal case folding restricted to ASCII: 'A'..'Z' map to 'a'..'z',
      every other character is its own fold. */
  function FoldCase(c: char): (f: char)
    ensures 'A' <= c <= 'Z' ==> 'a' <= f <= 'z' && f as int - c as int == 32
    ensures !('A' <= c <= 'Z') ==> f == c
  {
    if 'A' <= c <= 'Z' then (c as int + 32) as char else c
  }

  /** `text` begins with `prefix`, comparing folded characters. */
  predicate StartsWithIgnoreCase(text: string, prefix: string) {
    |prefix| <= |text| &&
    forall i :: 0 <= i < |prefix| ==> FoldCase(text[i]) == FoldCase(prefix[i])
  }

  /** `text.Contains(value, StringComparison.OrdinalIgnoreCase)`: `value`
      occurs in `text` at some position, comparing folded characters. The
      empty `value` occurs in every text. */
  predicate ContainsIgnoreCase(text: string, value: string): (r: bool)
    ensures r ==> |value| <= |text|
    ensures value == [] ==> r
    ensures StartsWithIgnoreCase(text, value) ==> r
    decreases |text|
  {
    StartsWithIgnoreCase(text, value) ||
    (|text| > 0 && ContainsIgnoreCase(text[1..], value))
  }

  /** The recursive search agrees with the positional definition: `value`
      is found exactly when some offset of `text` starts with it. */
  lemma {:induction false} ContainsIgnoreCaseAt(text: string, value: string)
    ensures ContainsIgnoreCase(text, value) <==>
            exists i :: 0 <= i <= |text| - |value| && StartsWithIgnoreCase(text[i..], value)
    decreases |text|
  {
    if |text| == 0 {
      if ContainsIgnoreCase(text, value) {
        assert text[0..] == text;
      }
    } else {
      ContainsIgnoreCaseAt(text[1..], value);
      if ContainsIgnoreCase(text, value) {
        if StartsWithIgnoreCase(text, value) {
          assert text[0..] == text;
        } else {
          var j :| 0 <= j <= |text[1..]| - |value| && StartsWithIgnoreCase(text[1..][j..], value);
          assert text[1..][j..] == text[j + 1..];
        }
      } else {
        forall i | 0 <= i <= |text| - |value|
          ensures !StartsWithIgnoreCase(text[i..], value)
        {
          if i == 0 {
            assert text[0..] == text;
          } else {
            assert text[1..][i - 1..] == text[i..];
          }
        }
      }
    }
  }

  /** Matching ignores the case of the query: folding it first does not
      change the answer. */
  lemma {:induction false} ContainsIgnoresQueryCase(text: string, value: string)
    ensures ContainsIgnoreCase(text, value) <==> ContainsIgnoreCase(text, FoldAll(value))
    decreases |text|
  {
    if |text| > 0 {
      ContainsIgnoresQueryCase(text[1..], value);
    }
  }

  /** Matching ignores the case of the text too: folding it first does not
      change the answer. */
  lemma {:induction false} ContainsIgnoresTextCase(text: string, value: string)
    ensures ContainsIgnoreCase(text, value) <==> ContainsIgnoreCase(FoldAll(text), value)
    decreases |text|
  {
    if |text| > 0 {
      assert FoldAll(text)[1..] == FoldAll(text[1..]);
      ContainsIgnoresTextCase(text[1..], value);
    }
  }

  /** Every character folded. */
  function FoldAll(s: string): (r: string)
    ensures |r| == |s|
    ensures forall i :: 0 <= i < |s| ==> r[i] == FoldCase(s[i])
  {
    seq(|s|, i requires 0 <= i < |s| => FoldCase(s[i]))
  }

  /** The character for a decimal digit. */
  function DigitChar(d: int): (c: char)
    requires 0 <= d < 10
    ensures '0' <= c <= '9'
    ensures c as int - '0' as int == d
  {
    ('0' as int + d) as char
  }

  /** The decimal digits of a natural number, most significant first, with no
      leading zero. */
  function NatToDecimal(n: nat): (s: string)
    ensures |s| >= 1
    ensures forall i :: 0 <= i < |s| ==> '0' <= s[i] <= '9'
    ensures |s| > 1 ==> s[0] != '0'
    decreases n
  {
    if n < 10 then [DigitChar(n)] else NatToDecimal(n / 10) + [DigitChar(n % 10)]
  }

  /** `id.ToString()` with the invariant culture: a minus sign before the
      digits of a negative number. */
  function IntToDecimal(n: int): (s: string)
    ensures |s| >= 1
    ensures n < 0 <==> s[0] == '-'
  {
    if n < 0 then "-" + NatToDecimal(-n) else NatToDecimal(n)
  }

  /** Different numbers have different digit strings. */
  lemma {:induction false} NatToDecimalInjective(a: nat, b: nat)
    requires NatToDecimal(a) == NatToDecimal(b)
    ensures a == b
    decreases a
  {
    var s := NatToDecimal(a);
    if a < 10 && b < 10 {
      assert DigitChar(a) == s[0] == DigitChar(b);
    } else if a < 10 || b < 10 {
      // one rendering has a single digit and the other at least two
      assert false;
    } else {
      assert s[|s| - 1] == DigitChar(a % 10) == DigitChar(b % 10);
      assert s[..|s| - 1] == NatToDecimal(a / 10) == NatToDecimal(b / 10);
      NatToDecimalInjective(a / 10, b / 10);
    }
  }

  /** Different integers have different renderings. */
  lemma IntToDecimalInjective(a: int, b: int)
    requires IntToDecimal(a) == IntToDecimal(b)
    ensures a == b
  {
    if a < 0 {
      assert IntToDecimal(a)[1..] == NatToDecimal(-a);
      assert IntToDecimal(b)[1..] == NatToDecimal(-b);
      NatToDecimalInjective(-a, -b);
    } else {
      NatToDecimalInjective(a, b);
    }
  }
}
