/** Python's number formatting as used in the report and the insight texts:
    `{:,}` on integers, `${:,.2f}` on money, and the `repr` of a float that
    `round(x, 2)` produced. Each formatter comes with a parser that reads its
    output back. */
module Format {
  import opened Wrappers
  import Strings

  predicate IsDigit(c: char) {
    '0' <= c <= '9'
  }

  predicate AllDigits(s: string) {
    forall k :: 0 <= k < |s| ==> IsDigit(s[k])
  }

  function DigitChar(d: nat): (c: char)
    requires d < 10
    ensures IsDigit(c) && c as int - '0' as int == d
  {
    ('0' as int + d) as char
  }

  function DigitValue(c: char): (d: nat)
    requires IsDigit(c)
    ensures d < 10 && DigitChar(d) == c
  {
    c as int - '0' as int
  }

  /** `str(n)` for a non-negative integer: no sign, no leading zero. */
  function Digits(n: nat): (s: string)
    ensures s != [] && AllDigits(s)
    ensures |s| > 1 ==> s[0] != '0'
  {
    if n < 10 then [DigitChar(n)] else Digits(n / 10) + [DigitChar(n % 10)]
  }

  /** The number a string of decimal digits denotes. */
  function ValueOf(s: string): nat
    requires AllDigits(s)
  {
    if s == [] then 0 else ValueOf(s[..|s| - 1]) * 10 + DigitValue(s[|s| - 1])
  }

  lemma {:induction false} ValueOfDigits(n: nat)
    ensures ValueOf(Digits(n)) == n
  {
    if n >= 10 {
      var s := Digits(n);
      assert s[..|s| - 1] == Digits(n / 10);
      ValueOfDigits(n / 10);
    }
  }

  /** Two digits, zero-padded: the `.2f` fraction. */
  function TwoDigits(m: nat): (s: string)
    requires m < 100
    ensures |s| == 2 && AllDigits(s) && ValueOf(s) == m
  {
    var s := [DigitChar(m / 10), DigitChar(m % 10)];
    assert s[..1] == [DigitChar(m / 10)];
    assert [DigitChar(m / 10)][..0] == [];
    assert ValueOf(s[..1]) == m / 10;
    s
  }

  /** Inserts a comma between every group of three digits, counted from the right. */
  function Group(ds: string): (r: string)
    requires ds != []
    ensures |r| == |ds| + (|ds| - 1) / 3
    ensures r[0] == ds[0]
    decreases |ds|
  {
    if |ds| <= 3 then ds else Group(ds[..|ds| - 3]) + "," + ds[|ds| - 3..]
  }

  function RemoveCommas(s: string): string {
    if s == [] then []
    else RemoveCommas(s[..|s| - 1]) + (if s[|s| - 1] == ',' then [] else [s[|s| - 1]])
  }

  lemma {:induction false} RemoveCommasAppend(a: string, b: string)
    ensures RemoveCommas(a + b) == RemoveCommas(a) + RemoveCommas(b)
    decreases |b|
  {
    if b == [] {
      assert a + b == a;
    } else {
      var b' := b[..|b| - 1];
      assert (a + b)[..|a + b| - 1] == a + b';
      RemoveCommasAppend(a, b');
    }
  }

  lemma {:induction false} RemoveCommasNone(s: string)
    requires AllDigits(s)
    ensures RemoveCommas(s) == s
  {
    if s != [] {
      RemoveCommasNone(s[..|s| - 1]);
    }
  }

  /** Grouping only inserts commas: deleting them gives back the digits. */
  lemma {:induction false} RemoveCommasGroup(ds: string)
    requires ds != [] && AllDigits(ds)
    ensures RemoveCommas(Group(ds)) == ds
    decreases |ds|
  {
    if |ds| <= 3 {
      RemoveCommasNone(ds);
    } else {
      var head, tail := ds[..|ds| - 3], ds[|ds| - 3..];
      RemoveCommasGroup(head);
      RemoveCommasJoin(Group(head), tail);
      assert head + tail == ds;
    }
  }

  lemma RemoveCommasJoin(g: string, tail: string)
    requires AllDigits(tail)
    ensures RemoveCommas(g + "," + tail) == RemoveCommas(g) + tail
  {
    var gc := g + ",";
    RemoveCommasAppend(gc, tail);
    RemoveCommasAppend(g, ",");
    RemoveCommasNone(tail);
    RemoveCommasComma();
  }

  lemma RemoveCommasComma()
    ensures RemoveCommas(",") == []
  {
    assert ","[..0] == [];
  }

  /** Commas exactly every four characters from the right end, digits
      everywhere else: the leading group has one to three digits and every
      later group exactly three. */
  predicate WellGrouped(r: string) {
    (forall i :: 0 <= i < |r| ==> (r[i] == ',' <==> i > 0 && (|r| - i) % 4 == 0)) &&
    (forall i :: 0 <= i < |r| && r[i] != ',' ==> IsDigit(r[i]))
  }

  lemma GroupStep(g: string, tail: string)
    requires g != [] && WellGrouped(g) && |tail| == 3 && AllDigits(tail)
    ensures WellGrouped(g + "," + tail)
  {
    var r := g + "," + tail;
    forall i | 0 <= i < |r|
      ensures r[i] == ',' <==> i > 0 && (|r| - i) % 4 == 0
      ensures r[i] != ',' ==> IsDigit(r[i])
    {
      if i < |g| {
        assert r[i] == g[i];
        assert (|r| - i) % 4 == (|g| - i) % 4;
      } else if i > |g| {
        assert r[i] == tail[i - |g| - 1];
      }
    }
  }

  /** The commas of a grouped number are where `{:,}` puts them. */
  lemma {:induction false} GroupCommaPositions(ds: string)
    requires ds != [] && AllDigits(ds)
    ensures WellGrouped(Group(ds))
    decreases |ds|
  {
    if |ds| > 3 {
      var head, tail := ds[..|ds| - 3], ds[|ds| - 3..];
      GroupCommaPositions(head);
      GroupStep(Group(head), tail);
    }
  }

  /** Python's `f"{n:,}"` for an integer. */
  function Grouped(n: int): (s: string)
    ensures s != []
  {
    if n < 0 then "-" + Group(Digits(-n)) else Group(Digits(n))
  }

  /** Reads digits that may carry commas; the inverse of `Group`. */
  function ParseUnsigned(s: string): Option<nat> {
    var d := RemoveCommas(s);
    if d != [] && AllDigits(d) then Some(ValueOf(d)) else None
  }

  /** Reads a `{:,}`-formatted integer back. */
  function ParseGrouped(s: string): Option<int> {
    if s != [] && s[0] == '-' then
      match ParseUnsigned(s[1..])
      case Some(v) => Some(0 - v as int)
      case None => None
    else
      match ParseUnsigned(s)
      case Some(v) => Some(v)
      case None => None
  }

  lemma ParseUnsignedGroup(n: nat)
    ensures ParseUnsigned(Group(Digits(n))) == Some(n)
  {
    RemoveCommasGroup(Digits(n));
    ValueOfDigits(n);
  }

  /** `{:,}` loses nothing: the integer is read back from its text. */
  lemma GroupedRoundTrip(n: int)
    ensures ParseGrouped(Grouped(n)) == Some(n)
  {
    var m := if n < 0 then -n else n;
    var g := Group(Digits(m));
    ParseUnsignedGroup(m);
    assert IsDigit(g[0]);
    if n < 0 {
      assert Grouped(n) == "-" + g;
      assert ("-" + g)[1..] == g;
    } else {
      assert Grouped(n) == g;
    }
  }

  /** Python's `f"${x:,.2f}"` for an amount of `cents` hundredths: a dollar
      sign, the sign of the amount, comma-grouped whole units, a point and
      exactly two decimals. */
  function Money(cents: int): (s: string)
    ensures |s| >= 5 && s[0] == '$' && s[|s| - 3] == '.'
    ensures IsDigit(s[|s| - 2]) && IsDigit(s[|s| - 1])
  {
    "$" + if cents < 0 then "-" + Amount(-cents) else Amount(cents)
  }

  /** `f"{a:,.2f}"` for a non-negative number of cents. */
  function Amount(a: nat): (s: string)
    ensures |s| >= 4 && s[|s| - 3] == '.' && IsDigit(s[0])
    ensures IsDigit(s[|s| - 2]) && IsDigit(s[|s| - 1])
  {
    Group(Digits(a / 100)) + "." + TwoDigits(a % 100)
  }

  /** Reads an unsigned `,.2f` amount (`1,234.50`) back, in cents. */
  function ParseAmount(t: string): Option<nat> {
    if |t| < 4 || t[|t| - 3] != '.' || !AllDigits(t[|t| - 2..]) then None
    else
      match ParseUnsigned(t[..|t| - 3])
      case None => None
      case Some(whole) => Some(whole * 100 + ValueOf(t[|t| - 2..]))
  }

  /** Reads a `${:,.2f}` amount back, in cents. */
  function ParseMoney(s: string): Option<int> {
    if |s| < 2 || s[0] != '$' then None
    else if s[1] == '-' then
      match ParseAmount(s[2..])
      case None => None
      case Some(v) => Some(0 - v as int)
    else
      match ParseAmount(s[1..])
      case None => None
      case Some(v) => Some(v)
  }

  lemma ParseAmountParts(g: string, w: nat, f: string)
    requires ParseUnsigned(g) == Some(w)
    requires |f| == 2 && AllDigits(f)
    ensures ParseAmount(g + "." + f) == Some(w * 100 + ValueOf(f))
  {
    var t := g + "." + f;
    assert |t| == |g| + 3 && t[|t| - 3] == '.';
    assert t[..|t| - 3] == g;
    assert t[|t| - 2..] == f;
    assert AllDigits(t[|t| - 2..]);
  }

  lemma ParseAmountOf(a: nat)
    ensures ParseAmount(Amount(a)) == Some(a)
  {
    ParseUnsignedGroup(a / 100);
    ParseAmountParts(Group(Digits(a / 100)), a / 100, TwoDigits(a % 100));
  }

  lemma ParseMoneySigned(t: string, a: nat)
    requires ParseAmount(t) == Some(a)
    requires t != [] && IsDigit(t[0])
    ensures ParseMoney("$" + t) == Some(a)
    ensures ParseMoney("$" + ("-" + t)) == Some(0 - a)
  {
    assert ("$" + t)[1..] == t;
    assert ("$" + ("-" + t))[2..] == t;
  }

  /** `${:,.2f}` loses nothing for a whole number of cents. */
  lemma MoneyRoundTrip(cents: int)
    ensures ParseMoney(Money(cents)) == Some(cents)
  {
    var a := if cents < 0 then -cents else cents;
    ParseAmountOf(a);
    ParseMoneySigned(Amount(a), a);
  }

  /** The fraction as Python's shortest float repr writes it: `.0`, one
      digit, or two digits, never a trailing zero after the first. */
  function Fraction(m: nat): (s: string)
    requires m < 100
    ensures 1 <= |s| <= 2 && AllDigits(s)
    ensures |s| == 2 ==> s[1] != '0'
  {
    if m % 10 == 0 then [DigitChar(m / 10)] else TwoDigits(m)
  }

  /** `repr(x)` for a float `x` that `round(v, 2)` produced, given as its
      number of hundredths `h`: `15.0`, `0.5`, `3.05`. */
  function DecimalRepr(h: int): (s: string)
    ensures |s| >= 3
  {
    if h < 0 then "-" + UnsignedRepr(-h) else UnsignedRepr(h)
  }

  function UnsignedRepr(a: nat): (s: string)
    ensures |s| >= 3
  {
    Digits(a / 100) + "." + Fraction(a % 100)
  }

  /** Reads back an unsigned decimal with one or two fractional digits, in hundredths. */
  function ParseUnsignedDecimal(t: string): Option<nat> {
    match Strings.LastIndexOf(t, '.')
    case None => None
    case Some(i) => ParseSplitDecimal(t[..i], t[i + 1..])
  }

  /** The value of an unsigned decimal given the digits on either side of its point. */
  function ParseSplitDecimal(whole: string, frac: string): Option<nat> {
    if whole == [] || !AllDigits(whole) || !(1 <= |frac| <= 2) || !AllDigits(frac) then None
    else Some(ValueOf(whole) * 100 + (if |frac| == 1 then DigitValue(frac[0]) * 10 else ValueOf(frac)))
  }

  /** Reads back a signed decimal with one or two fractional digits, in hundredths. */
  function ParseDecimal(s: string): Option<int> {
    if s != [] && s[0] == '-' then
      match ParseUnsignedDecimal(s[1..])
      case None => None
      case Some(v) => Some(0 - v as int)
    else
      match ParseUnsignedDecimal(s)
      case None => None
      case Some(v) => Some(v)
  }

  lemma FractionValue(m: nat)
    requires m < 100
    ensures (if |Fraction(m)| == 1 then DigitValue(Fraction(m)[0]) * 10 else ValueOf(Fraction(m))) == m
  {
    if m % 10 == 0 {
      assert DigitValue(Fraction(m)[0]) == m / 10;
    }
  }

  /** A point followed by no other point is where the parser splits. */
  lemma SplitAtLastPoint(w: string, f: string)
    requires '.' !in f
    ensures ParseUnsignedDecimal(w + "." + f) == ParseSplitDecimal(w, f)
  {
    var t := w + "." + f;
    Strings.LastIndexOfJoin(w, '.', f);
    assert t[..|w|] == w && t[|w| + 1..] == f;
  }

  lemma NoPointInFraction(m: nat)
    requires m < 100
    ensures '.' !in Fraction(m)
  {
    var f := Fraction(m);
    forall k | 0 <= k < |f| ensures f[k] != '.' { assert IsDigit(f[k]); }
  }

  lemma ParseSplitDigits(n: nat, m: nat)
    requires m < 100
    ensures ParseSplitDecimal(Digits(n), Fraction(m)) == Some(n * 100 + m)
  {
    ValueOfDigits(n);
    FractionValue(m);
  }

  lemma ParseUnsignedDecimalOf(a: nat)
    ensures ParseUnsignedDecimal(UnsignedRepr(a)) == Some(a)
    ensures IsDigit(UnsignedRepr(a)[0])
  {
    NoPointInFraction(a % 100);
    SplitAtLastPoint(Digits(a / 100), Fraction(a % 100));
    ParseSplitDigits(a / 100, a % 100);
  }

  lemma ParseDecimalSigned(t: string, a: nat)
    requires ParseUnsignedDecimal(t) == Some(a)
    requires t != [] && t[0] != '-'
    ensures ParseDecimal(t) == Some(a)
    ensures ParseDecimal("-" + t) == Some(0 - a)
  {
    assert ("-" + t)[1..] == t;
  }

  /** The repr of a rounded float loses nothing: its hundredths are read back. */
  lemma DecimalReprRoundTrip(h: int)
    ensures ParseDecimal(DecimalRepr(h)) == Some(h)
  {
    var a := if h < 0 then -h else h;
    ParseUnsignedDecimalOf(a);
    ParseDecimalSigned(UnsignedRepr(a), a);
  }

  /** A grouped number is made of digits and commas only. */
  lemma GroupLatin1(n: nat)
    ensures Strings.Latin1(Group(Digits(n)))
  {
    GroupCommaPositions(Digits(n));
  }

  /** `{:,}` writes only digits, commas and a minus sign. */
  lemma GroupedLatin1(n: int)
    ensures Strings.Latin1(Grouped(n))
  {
    var m := if n < 0 then -n else n;
    GroupLatin1(m);
    Strings.Latin1Append("-", Group(Digits(m)));
  }

  /** `${:,.2f}` writes only a dollar sign, a minus sign, digits, commas
      and a point. */
  lemma MoneyLatin1(cents: int)
    ensures Strings.Latin1(Money(cents))
  {
    var a := if cents < 0 then -cents else cents;
    GroupLatin1(a / 100);
    Strings.Latin1Append(Group(Digits(a / 100)), ".");
    Strings.Latin1Append(Group(Digits(a / 100)) + ".", TwoDigits(a % 100));
    Strings.Latin1Append("-", Amount(a));
    Strings.Latin1Append("$", if cents < 0 then "-" + Amount(a) else Amount(a));
  }

  /** The repr of a rounded rate writes only digits, a point and a minus sign. */
  lemma DecimalReprLatin1(h: int)
    ensures Strings.Latin1(DecimalRepr(h))
  {
    var a := if h < 0 then -h else h;
    Strings.Latin1Append(Digits(a / 100), ".");
    Strings.Latin1Append(Digits(a / 100) + ".", Fraction(a % 100));
    Strings.Latin1Append("-", UnsignedRepr(a));
  }
}
