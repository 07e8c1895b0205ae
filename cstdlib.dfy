/**
  The part of the C standard library's `atoi` (ISO C11 section 7.22.1.2) that
  the XML attribute table relies on: skip leading white space, read an
  optional sign, then the longest run of decimal digits; anything after the
  digits is ignored, and a string with no digits there converts to 0.
 */
module CStdlib {

  /** Range of a 32-bit C `int`. */
  const INT_MIN: int := -0x8000_0000
  const INT_MAX: int := 0x7FFF_FFFF

  /** `isspace` in the "C" locale. */
  predicate IsSpace(c: char) {
    c == ' ' || c == '\t' || c == '\n' || c == '\r' || c == '\U{000B}' || c == '\U{000C}'
  }

  predicate IsDigit(c: char) {
    '0' <= c <= '9'
  }

  function DigitValue(c: char): (d: nat)
    requires IsDigit(c)
    ensures d < 10
  {
    (c as int - '0' as int) as nat
  }

  function DigitChar(d: nat): (c: char)
    requires d < 10
    ensures IsDigit(c) && DigitValue(c) == d
  {
    ('0' as int + d) as char
  }

  /** The suffix of `s` that starts at its first non-space character. */
  function SkipSpace(s: string): (r: string)
    ensures |r| <= |s| && r == s[|s| - |r|..]
    ensures r == [] || !IsSpace(r[0])
    ensures forall k :: 0 <= k < |s| - |r| ==> IsSpace(s[k])
  {
    if s != [] && IsSpace(s[0]) then SkipSpace(s[1..]) else s
  }

  /** Length of the run of decimal digits at the start of `s`. */
  function DigitRun(s: string): (n: nat)
    ensures n <= |s|
    ensures forall k :: 0 <= k < n ==> IsDigit(s[k])
    ensures n == |s| || !IsDigit(s[n])
  {
    if s != [] && IsDigit(s[0]) then 1 + DigitRun(s[1..]) else 0
  }

  /** The number a string of decimal digits denotes, most significant first. */
  function Value(ds: string): nat
    requires forall k :: 0 <= k < |ds| ==> IsDigit(ds[k])
  {
    if ds == [] then 0 else 10 * Value(ds[..|ds| - 1]) + DigitValue(ds[|ds| - 1])
  }

  /** Value of the leading digit run of `s` (0 when there is none). */
  function LeadingValue(s: string): nat {
    Value(s[..DigitRun(s)])
  }

  /** `t` without its leading sign character, if it has one. */
  function AfterSign(t: string): (u: string)
    ensures t != [] && t[0] in "-+" ==> u == t[1..]
    ensures t == [] || t[0] !in "-+" ==> u == t
  {
    if t != [] && (t[0] == '-' || t[0] == '+') then t[1..] else t
  }

  /** `atoi`, with the result as a mathematical integer: a string whose
      first character after the white space and an optional sign is not a
      digit (so "true", "- 5" and "+-3") converts to 0, and only a '-' sign
      gives a negative result. */
  function Atoi(s: string): (r: int)
    ensures var u := AfterSign(SkipSpace(s)); u == [] || !IsDigit(u[0]) ==> r == 0
    ensures r < 0 ==> SkipSpace(s) != [] && SkipSpace(s)[0] == '-'
  {
    var t := SkipSpace(s);
    if t != [] && t[0] == '-' then -(LeadingValue(t[1..]) as int)
    else if t != [] && t[0] == '+' then LeadingValue(t[1..])
    else LeadingValue(t)
  }

  /** Decimal numeral of a natural number, without leading zeros. */
  function Numeral(n: nat): (s: string)
    ensures s != [] && forall k :: 0 <= k < |s| ==> IsDigit(s[k])
  {
    if n < 10 then [DigitChar(n)] else Numeral(n / 10) + [DigitChar(n % 10)]
  }

  /** Decimal numeral of an integer, with '-' in front of a negative one. */
  function IntToString(i: int): string {
    if i < 0 then "-" + Numeral(-i) else Numeral(i)
  }

  lemma {:induction false} ValueOfNumeral(n: nat)
    ensures Value(Numeral(n)) == n
  {
    if n >= 10 {
      var s := Numeral(n);
      assert s[..|s| - 1] == Numeral(n / 10);
      ValueOfNumeral(n / 10);
    }
  }

  lemma {:induction false} DigitRunOfDigitsThen(ds: string, t: string)
    requires forall k :: 0 <= k < |ds| ==> IsDigit(ds[k])
    requires t == [] || !IsDigit(t[0])
    ensures DigitRun(ds + t) == |ds|
  {
    if ds != [] {
      assert (ds + t)[1..] == ds[1..] + t;
      DigitRunOfDigitsThen(ds[1..], t);
    } else {
      assert ds + t == t;
    }
  }

  /** The digits of a numeral are read back, whatever non-digit text follows. */
  lemma NumeralThenRest(n: nat, t: string)
    requires t == [] || !IsDigit(t[0])
    ensures LeadingValue(Numeral(n) + t) == n
  {
    var s := Numeral(n) + t;
    DigitRunOfDigitsThen(Numeral(n), t);
    assert s[..DigitRun(s)] == Numeral(n);
    ValueOfNumeral(n);
  }

  /** On a string that does not start with white space, `atoi` reads the
      sign and the digits right away. */
  lemma AtoiWithoutLeadingSpace(s: string)
    requires s != [] && !IsSpace(s[0])
    ensures Atoi(s) == if s[0] == '-' then -(LeadingValue(s[1..]) as int)
                       else if s[0] == '+' then LeadingValue(s[1..])
                       else LeadingValue(s)
  {
  }

  /** `atoi` reads back the numeral of any integer, and ignores what follows
      it as long as that does not start with a digit. */
  lemma AtoiOfNumeralThenRest(i: int, t: string)
    requires t == [] || !IsDigit(t[0])
    ensures Atoi(IntToString(i) + t) == i
  {
    var s := IntToString(i) + t;
    if i < 0 {
      assert s == ['-'] + (Numeral(-i) + t);
      AtoiWithoutLeadingSpace(s);
      assert s[1..] == Numeral(-i) + t;
      NumeralThenRest(-i, t);
    } else {
      var n := Numeral(i);
      assert s[0] == n[0] && IsDigit(n[0]);
      AtoiWithoutLeadingSpace(s);
      NumeralThenRest(i, t);
    }
  }

  /** Round trip: `atoi` inverts the decimal numeral. */
  lemma AtoiOfIntToString(i: int)
    ensures Atoi(IntToString(i)) == i
  {
    assert IntToString(i) + [] == IntToString(i);
    AtoiOfNumeralThenRest(i, []);
  }

  /** Leading white space does not change what `atoi` reads. */
  lemma AtoiSkipsSpace(w: string, s: string)
    requires forall k :: 0 <= k < |w| ==> IsSpace(w[k])
    ensures Atoi(w + s) == Atoi(s)
  {
    SkipSpaceOfSpaces(w, s);
  }

  lemma {:induction false} SkipSpaceOfSpaces(w: string, s: string)
    requires forall k :: 0 <= k < |w| ==> IsSpace(w[k])
    ensures SkipSpace(w + s) == SkipSpace(s)
  {
    if w != [] {
      assert (w + s)[1..] == w[1..] + s;
      SkipSpaceOfSpaces(w[1..], s);
    } else {
      assert w + s == s;
    }
  }
}
