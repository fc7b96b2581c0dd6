/**
 * Character classes, ASCII case mapping, Python's `str.title()` and decimal
 * numerals, as the models and template filters of the salon application use them.
 * Only ASCII letters count as cased and only ASCII digits count as digits.
 */
module Text {

  predicate IsUpper(c: char) { 'A' <= c <= 'Z' }

  predicate IsLower(c: char) { 'a' <= c <= 'z' }

  /** A cased character in the sense of Python's `str.title()` (ASCII letters only). */
  predicate IsCased(c: char) { IsUpper(c) || IsLower(c) }

  predicate IsDigit(c: char) { '0' <= c <= '9' }

  predicate AllDigits(s: string) { forall i :: 0 <= i < |s| ==> IsDigit(s[i]) }

  function Upper(c: char): (u: char)
    ensures IsCased(u) == IsCased(c)
    ensures IsCased(c) ==> IsUpper(u)
    ensures !IsLower(c) ==> u == c
  {
    if IsLower(c) then (c as int - 'a' as int + 'A' as int) as char else c
  }

  function Lower(c: char): (l: char)
    ensures IsCased(l) == IsCased(c)
    ensures IsCased(c) ==> IsLower(l)
    ensures !IsUpper(c) ==> l == c
  {
    if IsUpper(c) then (c as int - 'A' as int + 'a' as int) as char else c
  }

  lemma CaseMapsAbsorb(c: char)
    ensures Upper(Lower(c)) == Upper(c) && Lower(Upper(c)) == Lower(c)
    ensures Upper(Upper(c)) == Upper(c) && Lower(Lower(c)) == Lower(c)
  {
  }

  // ---------------------------------------------------------------------------
  // str.title()

  /**
   * Python's title-casing, scanning left to right: a cased character becomes
   * lower case when the character before it is cased and upper case otherwise;
   * every other character is copied. `prevCased` says whether the character just
   * before `s` was cased.
   */
  function TitleFrom(s: string, prevCased: bool): (r: string)
    ensures |r| == |s|
    decreases |s|
  {
    if s == [] then []
    else
      var c := s[0];
      [if IsCased(c) then (if prevCased then Lower(c) else Upper(c)) else c]
        + TitleFrom(s[1..], IsCased(c))
  }

  /** `s.title()` */
  function Title(s: string): string
  {
    TitleFrom(s, false)
  }

  /** The character title-casing puts at position `i`, judged from `s` alone. */
  function TitleCharAt(s: string, prevCased: bool, i: nat): char
    requires i < |s|
  {
    var before := if i == 0 then prevCased else IsCased(s[i - 1]);
    if IsCased(s[i]) then (if before then Lower(s[i]) else Upper(s[i])) else s[i]
  }

  /** Position by position, title-casing looks only at a character and its left neighbour. */
  lemma {:induction false} TitleFromAt(s: string, prevCased: bool, i: nat)
    requires i < |s|
    ensures TitleFrom(s, prevCased)[i] == TitleCharAt(s, prevCased, i)
    decreases i
  {
    if i > 0 {
      TitleFromAt(s[1..], IsCased(s[0]), i - 1);
      assert TitleFrom(s, prevCased)[i] == TitleFrom(s[1..], IsCased(s[0]))[i - 1];
    }
  }

  /**
   * The result of `title()` at position `i`: the first letter of every run of
   * letters is upper case, the other letters are lower case, and every
   * non-letter is kept.
   */
  lemma TitleAt(s: string, i: nat)
    requires i < |s|
    ensures |Title(s)| == |s|
    ensures IsCased(Title(s)[i]) == IsCased(s[i])
    ensures !IsCased(s[i]) ==> Title(s)[i] == s[i]
    ensures IsCased(s[i]) && (i == 0 || !IsCased(s[i - 1])) ==> Title(s)[i] == Upper(s[i])
    ensures IsCased(s[i]) && i > 0 && IsCased(s[i - 1]) ==> Title(s)[i] == Lower(s[i])
  {
    TitleFromAt(s, false, i);
  }

  /** Title-casing an already title-cased string changes nothing. */
  lemma {:induction false} TitleIdempotent(s: string)
    ensures Title(Title(s)) == Title(s)
  {
    var t := Title(s);
    forall i | 0 <= i < |s|
      ensures Title(t)[i] == t[i]
    {
      TitleAt(s, i);
      TitleAt(t, i);
      if i > 0 { TitleAt(s, i - 1); }
      CaseMapsAbsorb(s[i]);
    }
  }

  /** Each of five concatenated strings is found at the offset where the ones before it end. */
  lemma Pieces(a: string, b: string, c: string, d: string, e: string)
    ensures var r := a + b + c + d + e;
      && |r| == |a| + |b| + |c| + |d| + |e|
      && r[..|a|] == a
      && r[|a|..|a| + |b|] == b
      && r[|a| + |b|..|a| + |b| + |c|] == c
      && r[|a| + |b| + |c|..|a| + |b| + |c| + |d|] == d
      && r[|a| + |b| + |c| + |d|..] == e
  {
    var p1 := a + b;
    var p2 := p1 + c;
    var p3 := p2 + d;
    var r := p3 + e;
    assert r[..|p3|] == p3 && r[|p3|..] == e;
    assert p3[..|p2|] == p2 && p3[|p2|..] == d;
    assert p2[..|p1|] == p1 && p2[|p1|..] == c;
    assert p1[..|a|] == a && p1[|a|..] == b;
    assert r[..|a|] == r[..|p3|][..|p2|][..|p1|][..|a|];
    assert r[|a|..|p1|] == r[..|p3|][..|p2|][..|p1|][|a|..];
    assert r[|p1|..|p2|] == r[..|p3|][..|p2|][|p1|..];
    assert r[|p2|..|p3|] == r[..|p3|][|p2|..];
  }

  /** How many times `c` occurs in `s`. */
  function Occurrences(s: string, c: char): nat
    decreases |s|
  {
    if s == [] then 0 else (if s[0] == c then 1 else 0) + Occurrences(s[1..], c)
  }

  lemma {:induction false} OccurrencesConcat(a: string, b: string, c: char)
    ensures Occurrences(a + b, c) == Occurrences(a, c) + Occurrences(b, c)
    decreases |a|
  {
    if a != [] {
      OccurrencesConcat(a[1..], b, c);
      assert (a + b)[1..] == a[1..] + b;
    } else {
      assert a + b == b;
    }
  }

  // ---------------------------------------------------------------------------
  // Decimal numerals

  function DigitChar(d: int): (c: char)
    requires 0 <= d < 10
    ensures IsDigit(c)
  {
    ('0' as int + d) as char
  }

  function DigitValue(c: char): (d: int)
    requires IsDigit(c)
    ensures 0 <= d < 10 && DigitChar(d) == c
  {
    c as int - '0' as int
  }

  /** The decimal digits of `n`, most significant first, as Python's `str(n)` writes them. */
  function NatToString(n: nat): (s: string)
    ensures |s| >= 1 && AllDigits(s)
    ensures s[0] == '0' <==> n == 0
    ensures n < 10 ==> |s| == 1
    ensures 10 <= n < 100 ==> |s| == 2
    decreases n
  {
    if n < 10 then [DigitChar(n)] else NatToString(n / 10) + [DigitChar(n % 10)]
  }

  /** The value of a string of decimal digits; leading zeros are allowed. */
  function ParseNat(s: string): nat
    requires AllDigits(s)
    decreases |s|
  {
    if s == [] then 0 else ParseNat(s[..|s| - 1]) * 10 + DigitValue(s[|s| - 1])
  }

  /** Reading back what `NatToString` wrote gives the number. */
  lemma {:induction false} ParseNatToString(n: nat)
    ensures ParseNat(NatToString(n)) == n
    decreases n
  {
    var s := NatToString(n);
    if n >= 10 {
      ParseNatToString(n / 10);
      assert s[..|s| - 1] == NatToString(n / 10);
    }
  }

  /** `10 ** k`. */
  function Pow10(k: nat): (p: nat)
    ensures p >= 1
  {
    if k == 0 then 1 else 10 * Pow10(k - 1)
  }

  /** A number below 10^k has at most k decimal digits. */
  lemma {:induction false} NatToStringLength(n: nat, k: nat)
    requires 1 <= k && n < Pow10(k)
    ensures |NatToString(n)| <= k
    decreases k
  {
    if n >= 10 {
      NatToStringLength(n / 10, k - 1);
    }
  }

  /** A numeral as `str()` writes one: at least one digit and no leading zero. */
  predicate Canonical(s: string)
  {
    |s| >= 1 && AllDigits(s) && (s[0] == '0' ==> |s| == 1)
  }

  /** A numeral that starts with a non-zero digit has a positive value. */
  lemma {:induction false} LeadingDigitPositive(s: string)
    requires |s| >= 1 && AllDigits(s) && s[0] != '0'
    ensures ParseNat(s) >= 1
    decreases |s|
  {
    var p := s[..|s| - 1];
    if |s| > 1 {
      assert p[0] == s[0];
      LeadingDigitPositive(p);
    } else {
      assert p == [];
    }
  }

  /** The only numeral without leading zeros that denotes `n` is the one `NatToString` writes. */
  lemma {:induction false} CanonicalUnique(s: string, n: nat)
    requires Canonical(s) && ParseNat(s) == n
    ensures s == NatToString(n)
    decreases |s|
  {
    var p := s[..|s| - 1];
    if |s| == 1 {
      assert p == [];
      assert s == [DigitChar(n)];
    } else {
      assert p[0] == s[0];
      LeadingDigitPositive(p);
      CanonicalUnique(p, ParseNat(p));
      assert s == p + [s[|s| - 1]];
    }
  }

  /** `s` is a numeral whose value is `n`. */
  predicate Denotes(s: string, n: nat)
  {
    AllDigits(s) && ParseNat(s) == n
  }

  function Zeros(k: nat): (z: string)
    ensures |z| == k && AllDigits(z)
    ensures forall i :: 0 <= i < k ==> z[i] == '0'
  {
    if k == 0 then [] else ['0'] + Zeros(k - 1)
  }

  /** Leading zeros do not change the value of a numeral. */
  lemma {:induction false} ParseNatLeadingZeros(k: nat, s: string)
    requires AllDigits(s)
    ensures ParseNat(Zeros(k) + s) == ParseNat(s)
    decreases |s|
  {
    var z := Zeros(k) + s;
    if s == [] {
      assert z == Zeros(k);
      ZerosParseToZero(k);
    } else {
      ParseNatLeadingZeros(k, s[..|s| - 1]);
      assert z[..|z| - 1] == Zeros(k) + s[..|s| - 1];
    }
  }

  lemma {:induction false} ZerosParseToZero(k: nat)
    ensures ParseNat(Zeros(k)) == 0
  {
    if k > 0 {
      ZerosParseToZero(k - 1);
      assert Zeros(k)[..k - 1] == Zeros(k - 1);
    }
  }

  /** `n` in decimal, left-padded with zeros to at least `width` characters (`%0*d`). */
  function ZeroPad(n: nat, width: nat): (s: string)
    ensures AllDigits(s)
    ensures |s| == if |NatToString(n)| < width then width else |NatToString(n)|
    ensures ParseNat(s) == n
  {
    var digits := NatToString(n);
    var k := if |digits| < width then width - |digits| else 0;
    ParseNatToString(n);
    ParseNatLeadingZeros(k, digits);
    Zeros(k) + digits
  }

  /** A two-digit field such as `%d`, `%m`, `%H` or `%M` of `strftime`. */
  function Pad2(n: nat): (s: string)
    requires n < 100
    ensures |s| == 2 && AllDigits(s) && ParseNat(s) == n
  {
    ZeroPad(n, 2)
  }

  /** Python's `str()` of a whole number (a `Decimal` with no fractional digits). */
  function IntToString(n: int): (s: string)
    ensures |s| >= 1
    ensures n >= 0 ==> Canonical(s) && ParseNat(s) == n
    ensures n < 0 ==> s[0] == '-' && Canonical(s[1..]) && ParseNat(s[1..]) == -n
  {
    ParseNatToString(if n < 0 then -n else n);
    if n < 0 then "-" + NatToString(-n) else NatToString(n)
  }
}
