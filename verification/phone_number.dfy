/** TwillioSMSParser.SimplifyNumber: the canonical key a sender's number is
    looked up by. */
module PhoneNumber {
  import opened Text

  /** string.Replace(c, "") for a one-character string: every occurrence of
      `c` removed, the other characters kept in order. */
  function Without(s: string, c: char): (r: string)
    ensures c !in r && |r| <= |s|
    ensures forall x :: x in r ==> x in s
  {
    if s == [] then [] else (if s[0] == c then [] else [s[0]]) + Without(s[1..], c)
  }

  lemma {:induction false} WithoutAppend(a: string, b: string, c: char)
    ensures Without(a + b, c) == Without(a, c) + Without(b, c)
  {
    if a != [] {
      assert (a + b)[1..] == a[1..] + b;
      WithoutAppend(a[1..], b, c);
    } else {
      assert a + b == b;
    }
  }

  /** A string without `c` is left as it is. */
  lemma {:induction false} WithoutAbsent(s: string, c: char)
    requires c !in s
    ensures Without(s, c) == s
  {
    if s != [] {
      WithoutAbsent(s[1..], c);
    }
  }

  const CountryCode := "61"

  /** The number with every space and then every '+' removed: no separator
      is left, and every character left comes from the number. */
  function StripSeparators(number: string): (r: string)
    ensures ' ' !in r && '+' !in r && |r| <= |number|
    ensures forall x :: x in r ==> x in number
  {
    Without(Without(number, ' '), '+')
  }

  /** TwillioSMSParser.SimplifyNumber: separators removed, then one leading
      "61" dropped. */
  function SimplifyNumber(number: string): (r: string)
    ensures ' ' !in r && '+' !in r && |r| <= |number|
  {
    var digits := StripSeparators(number);
    if StartsWith(digits, CountryCode) then digits[|CountryCode|..] else digits
  }

  lemma StripSeparatorsAppend(a: string, b: string)
    ensures StripSeparators(a + b) == StripSeparators(a) + StripSeparators(b)
  {
    WithoutAppend(a, b, ' ');
    WithoutAppend(Without(a, ' '), Without(b, ' '), '+');
  }

  /** A lone separator strips to nothing. */
  lemma StripSeparatorsOfSeparator(c: char)
    requires c == ' ' || c == '+'
    ensures StripSeparators([c]) == []
  {
    assert [c][1..] == [];
    assert Without([c], ' ') == if c == ' ' then [] else [c];
  }

  /** A trailing separator strips away. */
  lemma StripSeparatorsDropsSeparator(a: string, c: char)
    requires c == ' ' || c == '+'
    ensures StripSeparators(a + [c]) == StripSeparators(a)
  {
    StripSeparatorsAppend(a, [c]);
    StripSeparatorsOfSeparator(c);
    assert StripSeparators(a) + [] == StripSeparators(a);
  }

  /** Spaces and '+' signs anywhere in the number make no difference. */
  lemma SimplifyNumberIgnoresSeparator(a: string, c: char, b: string)
    requires c == ' ' || c == '+'
    ensures SimplifyNumber(a + [c] + b) == SimplifyNumber(a + b)
  {
    calc {
      StripSeparators(a + [c] + b);
    == { StripSeparatorsAppend(a + [c], b); }
      StripSeparators(a + [c]) + StripSeparators(b);
    == { StripSeparatorsDropsSeparator(a, c); }
      StripSeparators(a) + StripSeparators(b);
    == { StripSeparatorsAppend(a, b); }
      StripSeparators(a + b);
    }
    DropCountryCodeOnly(a + [c] + b, a + b);
  }

  /** Simplifying depends on the number only through its separator-free form. */
  lemma DropCountryCodeOnly(x: string, y: string)
    requires StripSeparators(x) == StripSeparators(y)
    ensures SimplifyNumber(x) == SimplifyNumber(y)
  {
  }

  /** A number with no separators and no leading "61" is already canonical. */
  lemma SimplifyNumberKeepsPlainNumber(number: string)
    requires ' ' !in number && '+' !in number && !StartsWith(number, CountryCode)
    ensures SimplifyNumber(number) == number
  {
    WithoutAbsent(number, ' ');
    WithoutAbsent(number, '+');
  }

  /** The country code is dropped once only: a separator-free "61" + rest
      simplifies to rest, even when rest itself starts with "61". */
  lemma SimplifyNumberDropsCountryCodeOnce(rest: string)
    requires ' ' !in rest && '+' !in rest
    ensures SimplifyNumber(CountryCode + rest) == rest
  {
    var number := CountryCode + rest;
    assert ' ' !in number && '+' !in number by {
      assert forall i :: 0 <= i < |number| ==> number[i] == (if i < 2 then CountryCode[i] else rest[i - 2]);
    }
    WithoutAbsent(number, ' ');
    WithoutAbsent(number, '+');
    assert number[..2] == CountryCode;
  }

  /** Because of the once-only rule, simplifying is not idempotent. */
  lemma SimplifyNumberNotIdempotent()
    ensures SimplifyNumber("6161") == "61"
    ensures SimplifyNumber(SimplifyNumber("6161")) == ""
  {
    SimplifyNumberDropsCountryCodeOnce("61");
    SimplifyNumberDropsCountryCodeOnce("");
  }

  /** The international spelling "+61…" and the domestic spelling "61…" of
      one number meet at the same key. */
  lemma SimplifyNumberInternational(rest: string)
    requires ' ' !in rest && '+' !in rest
    ensures SimplifyNumber("+" + CountryCode + rest) == rest
    ensures SimplifyNumber(CountryCode + rest) == rest
  {
    SimplifyNumberDropsCountryCodeOnce(rest);
    assert "+" + CountryCode + rest == [] + ['+'] + (CountryCode + rest);
    SimplifyNumberIgnoresSeparator([], '+', CountryCode + rest);
    assert [] + (CountryCode + rest) == CountryCode + rest;
  }
}
