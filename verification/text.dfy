/** The Python string and number operations the scripts use to build file
    names: `str.endswith`, `str.replace`, `int(x)` on a float and the decimal
    rendering of an integer inside an f-string. */
module Text {

  /** `s.endswith(suffix)` */
  predicate EndsWith(s: string, suffix: string)
  {
    |suffix| <= |s| && s[|s| - |suffix|..] == suffix
  }

  /** The pattern occurs in `s` starting at index `i`. */
  predicate MatchAt(s: string, pat: string, i: int)
  {
    0 <= i && i + |pat| <= |s| && s[i..i + |pat|] == pat
  }

  /** `s.replace(pat, rep)`: every non-overlapping occurrence of `pat`, found
      scanning from the left, is replaced by `rep`. With an empty pattern
      Python inserts `rep` before every character and once at the end. */
  function Replace(s: string, pat: string, rep: string): string
    decreases |s|
  {
    if pat == [] then
      if s == [] then rep else rep + [s[0]] + Replace(s[1..], pat, rep)
    else if MatchAt(s, pat, 0) then
      rep + Replace(s[|pat|..], pat, rep)
    else if s == [] then
      []
    else
      [s[0]] + Replace(s[1..], pat, rep)
  }

  /** A prefix that does not contain the pattern's first character is copied
      through unchanged: no occurrence can start inside it. */
  lemma {:induction false} ReplaceSkipsPrefix(prefix: string, t: string, pat: string, rep: string)
    requires pat != [] && pat[0] !in prefix
    ensures Replace(prefix + t, pat, rep) == prefix + Replace(t, pat, rep)
    decreases |prefix|
  {
    if prefix == [] {
      assert prefix + t == t;
    } else {
      var s := prefix + t;
      assert s[0] != pat[0] by {
        assert s[0] == prefix[0] && prefix[0] in prefix;
      }
      assert !MatchAt(s, pat, 0) by {
        if |pat| <= |s| {
          assert s[0..|pat|][0] == s[0];
        }
      }
      var r := Replace(t, pat, rep);
      assert s[1..] == prefix[1..] + t;
      calc {
        Replace(s, pat, rep);
        [s[0]] + Replace(s[1..], pat, rep);
        { ReplaceSkipsPrefix(prefix[1..], t, pat, rep); }
        [prefix[0]] + (prefix[1..] + r);
        ([prefix[0]] + prefix[1..]) + r;
        { assert [prefix[0]] + prefix[1..] == prefix; }
        prefix + r;
      }
    }
  }

  /** Text without the pattern's first character is left as it is. */
  lemma ReplaceAbsent(s: string, pat: string, rep: string)
    requires pat != [] && pat[0] !in s
    ensures Replace(s, pat, rep) == s
  {
    ReplaceSkipsPrefix(s, [], pat, rep);
    assert s + [] == s;
    assert !MatchAt([], pat, 0);
  }

  /** A single occurrence, with no other character that could start one,
      is replaced and everything around it is kept. */
  lemma ReplaceSingle(prefix: string, pat: string, rest: string, rep: string)
    requires pat != [] && pat[0] !in prefix && pat[0] !in rest
    ensures Replace(prefix + pat + rest, pat, rep) == prefix + rep + rest
  {
    var t := pat + rest;
    assert prefix + pat + rest == prefix + t;
    ReplaceSkipsPrefix(prefix, t, pat, rep);
    assert MatchAt(t, pat, 0) by {
      assert t[0..|pat|] == pat;
    }
    assert t[|pat|..] == rest;
    assert Replace(t, pat, rep) == rep + Replace(rest, pat, rep);
    ReplaceAbsent(rest, pat, rep);
    assert prefix + (rep + rest) == prefix + rep + rest;
  }

  /** An occurrence at the very end, with no other character that could
      start one, is the only one replaced. */
  lemma ReplaceSuffix(prefix: string, pat: string, rep: string)
    requires pat != [] && pat[0] !in prefix
    ensures Replace(prefix + pat, pat, rep) == prefix + rep
  {
    ReplaceSingle(prefix, pat, "", rep);
    assert prefix + pat + "" == prefix + pat;
    assert prefix + rep + "" == prefix + rep;
  }

  /** An ending survives being prefixed. */
  lemma EndsWithAfterPrefix(a: string, b: string, suffix: string)
    requires EndsWith(b, suffix)
    ensures EndsWith(a + b, suffix)
  {
    assert (a + b)[|a + b| - |suffix|..] == b[|b| - |suffix|..];
  }

  /** `int(x)` on a float: truncation toward zero (over exact reals). */
  function Truncate(x: real): (r: int)
    ensures 0.0 <= x ==> 0 <= r && r as real <= x < r as real + 1.0
    ensures x < 0.0 ==> r <= 0 && r as real - 1.0 < x <= r as real
  {
    if x >= 0.0 then x.Floor else -((-x).Floor)
  }

  /** The percentage `int(amp*100)` that the scripts write into file and
      folder names. */
  function Percent(amp: real): int
  {
    Truncate(amp * 100.0)
  }

  /** The tag `f"_{int(amp*100)}"` followed by the rest of a file name. */
  function PercentTag(amp: real, ending: string): string
  {
    "_" + Decimal(Percent(amp)) + ending
  }

  const DigitChars: string := "0123456789"

  /** The decimal digits of a natural number, most significant first. */
  function Digits(n: nat): string
    decreases n
  {
    if n < 10 then [DigitChars[n]] else Digits(n / 10) + [DigitChars[n % 10]]
  }

  /** The rendering of an integer in an f-string, with a leading `-` when negative. */
  function Decimal(i: int): string
  {
    if i < 0 then "-" + Digits(-i) else Digits(i)
  }

  /** Every character of a decimal rendering is a digit or the minus sign. */
  lemma {:induction false} DigitsAreDigits(n: nat)
    ensures forall c :: c in Digits(n) ==> c in DigitChars
    decreases n
  {
    if n >= 10 {
      DigitsAreDigits(n / 10);
    }
  }

  /** A rendered number consists of digits and at most a minus sign: it
      contains no dot, underscore, letter or path separator, so it cannot
      create or break a match in a file name. */
  lemma DecimalIsPlain(i: int)
    ensures forall c :: c in Decimal(i) ==> c == '-' || c in DigitChars
  {
    DigitsAreDigits(if i < 0 then -i else i);
  }

  /** The number a string of decimal digits denotes, most significant first. */
  function DigitsValue(s: string): int
    decreases |s|
  {
    if s == [] then 0 else DigitsValue(s[..|s| - 1]) * 10 + (s[|s| - 1] as int - '0' as int)
  }

  /** Reading back a rendered integer, with its optional leading `-`. */
  function DecimalValue(s: string): int
  {
    if s != [] && s[0] == '-' then -DigitsValue(s[1..]) else DigitsValue(s)
  }

  /** The digits of `n` denote `n`; they are never empty and start with a digit. */
  lemma {:induction false} DigitsRoundTrip(n: nat)
    ensures Digits(n) != [] && '0' <= Digits(n)[0] <= '9'
    ensures DigitsValue(Digits(n)) == n
    decreases n
  {
    var s := Digits(n);
    if n < 10 {
      assert s[..0] == [];
      assert DigitChars[n] as int - '0' as int == n;
    } else {
      DigitsRoundTrip(n / 10);
      assert s[..|s| - 1] == Digits(n / 10);
      assert DigitChars[n % 10] as int - '0' as int == n % 10;
    }
  }

  /** The rendering of an integer denotes that integer. */
  lemma DecimalRoundTrip(i: int)
    ensures DecimalValue(Decimal(i)) == i
  {
    if i < 0 {
      var d := Digits(-i);
      DigitsRoundTrip(-i);
      assert Decimal(i) == "-" + d;
      NegativeValue(d);
    } else {
      DigitsRoundTrip(i);
      assert Decimal(i) == Digits(i);
    }
  }

  lemma NegativeValue(d: string)
    ensures DecimalValue("-" + d) == -DigitsValue(d)
  {
    assert ("-" + d)[1..] == d;
  }
}
