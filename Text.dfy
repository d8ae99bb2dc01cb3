/** The two string operations the connector applies to its inputs. */
module Text {
  import opened Wrappers

  /** Python's `pattern in text` for strings. */
  predicate IsSubstring(pattern: string, text: string)
    decreases |text|
  {
    |pattern| <= |text| && (text[..|pattern|] == pattern || IsSubstring(pattern, text[1..]))
  }

  predicate IsDigit(c: char) { '0' <= c <= '9' }

  /** The value of a non-empty run of decimal digits. */
  function DigitsValue(s: string): int
    requires forall i :: 0 <= i < |s| ==> IsDigit(s[i])
  {
    if s == [] then 0 else 10 * DigitsValue(s[..|s| - 1]) + (s[|s| - 1] as int - '0' as int)
  }

  /** Python's `int(s)` on an optionally signed decimal literal; `None` where `int` raises. */
  function ParseInt(s: string): (r: Option<int>)
    ensures r.Some? ==> |s| > 0
  {
    var signed := |s| > 0 && (s[0] == '-' || s[0] == '+');
    var digits := if signed then s[1..] else s;
    if digits == [] || exists i :: 0 <= i < |digits| && !IsDigit(digits[i]) then None
    else if signed && s[0] == '-' then Some(-DigitsValue(digits))
    else Some(DigitsValue(digits))
  }

  /** The decimal spelling of a natural number, the partner of ParseInt. */
  function Decimal(n: nat): (s: string)
    ensures |s| > 0 && forall i :: 0 <= i < |s| ==> IsDigit(s[i])
  {
    var last := ['0' + (n % 10) as char];
    if n < 10 then last else Decimal(n / 10) + last
  }

  lemma {:induction false} DigitsValueOfDecimal(n: nat)
    ensures DigitsValue(Decimal(n)) == n
  {
    var s := Decimal(n);
    if n >= 10 {
      DigitsValueOfDecimal(n / 10);
      assert s[..|s| - 1] == Decimal(n / 10);
    }
  }

  /** `int(str(n)) == n` and `int(str(-n)) == -n`. */
  lemma ParseIntOfDecimal(n: nat)
    ensures ParseInt(Decimal(n)) == Some(n)
    ensures n > 0 ==> ParseInt("-" + Decimal(n)) == Some(-(n as int))
  {
    DigitsValueOfDecimal(n);
    assert ("-" + Decimal(n))[1..] == Decimal(n);
  }

  /** A text without the first character of the pattern does not contain the pattern. */
  lemma {:induction false} NotSubstringWithoutHead(pattern: string, text: string)
    requires |pattern| > 0 && pattern[0] !in text
    ensures !IsSubstring(pattern, text)
    decreases |text|
  {
    if |pattern| <= |text| {
      assert text[..|pattern|][0] == text[0];
      assert forall c :: c in text[1..] ==> c in text;
      NotSubstringWithoutHead(pattern, text[1..]);
    }
  }

  /** A text that starts with the pattern contains it. */
  lemma PrefixIsSubstring(pattern: string, text: string)
    requires |pattern| <= |text| && text[..|pattern|] == pattern
    ensures IsSubstring(pattern, text)
  {
  }
}
