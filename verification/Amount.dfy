/** Amounts in minor units, printed for and parsed from the payment provider. */
module Amount {
  import opened Common

  const MAX: int := 0x7fff_ffff_ffff_ffff
  const MIN: int := -0x8000_0000_0000_0000

  predicate Int64(x: int) {
    MIN <= x <= MAX
  }

  /** Two's-complement wrap-around of a 64-bit result. */
  function Wrap(x: int): int {
    (x - MIN) % 0x1_0000_0000_0000_0000 + MIN
  }

  /** Division and remainder that truncate toward zero. */
  function Quot(a: int, b: int): int
    requires b > 0
  {
    if a >= 0 then a / b else -((-a) / b)
  }

  function Rem(a: int, b: int): int
    requires b > 0
  {
    a - b * Quot(a, b)
  }

  // ---- numerals -----------------------------------------------------------------------------------

  function Digit(d: nat): char
    requires d < 10
  {
    '0' + d as char
  }

  predicate IsDigit(c: char) {
    '0' <= c <= '9'
  }

  predicate AllDigits(s: string) {
    forall i | 0 <= i < |s| :: IsDigit(s[i])
  }

  function DigitsValue(s: string): nat
    requires AllDigits(s)
  {
    if s == "" then 0 else DigitsValue(s[..|s| - 1]) * 10 + (s[|s| - 1] as int - '0' as int)
  }

  function Decimal(n: nat): string {
    if n < 10 then [Digit(n)] else Decimal(n / 10) + [Digit(n % 10)]
  }

  function Signed(x: int): string {
    if x < 0 then "-" + Decimal(-x) else Decimal(x)
  }

  /** At least two characters, padded with zeros. */
  function Padded(x: int): string {
    if 0 <= x < 10 then "0" + Decimal(x) else Signed(x)
  }

  /** A base-10 integer with an optional sign that fits 64 bits. */
  function ParseInt(s: string): Option<int> {
    if s == "" then None
    else
      var negative := s[0] == '-';
      var digits := if s[0] == '-' || s[0] == '+' then s[1..] else s;
      if digits == "" || !AllDigits(digits) then None
      else
        var x: int := if negative then 0 - DigitsValue(digits) else DigitsValue(digits);
        if Int64(x) then Some(x) else None
  }

  // ---- amounts ------------------------------------------------------------------------------------

  function Split(s: string): (parts: seq<string>)
    ensures |parts| >= 1
  {
    if s == "" then [""]
    else
      var rest := Split(s[1..]);
      if s[0] == '.' then [""] + rest else [[s[0]] + rest[0]] + rest[1..]
  }

  function FormatMinor(v: int): string {
    Signed(Quot(v, 100)) + "." + Padded(Rem(v, 100))
  }

  function ParseMinor(s: string): Result<int> {
    var parts := Split(s);
    if |parts| != 2 then Err(Conflict) else Combine(parts[0], parts[1])
  }

  /** The checks on the two parts, with 64-bit arithmetic. */
  function Combine(whole: string, cents: string): Result<int> {
    if |cents| != 2 || whole == "" then Err(Conflict)
    else
      var major, minor := ParseInt(whole), ParseInt(cents);
      if major.None? || major.value < 0 then Err(Conflict)
      else if minor.None? || minor.value < 0 || minor.value > 99 then Err(Conflict)
      else if major.value > Quot(Wrap(MAX - minor.value), 100) then Err(Conflict)
      else Ok(Wrap(Wrap(major.value * 100) + minor.value))
  }

  // ---- numerals and their values ------------------------------------------------------------------

  /** A numeral as the printer writes it: digits only, no leading zero unless it is zero. */
  predicate CanonicalDigits(s: string) {
    |s| >= 1 && AllDigits(s) && (|s| > 1 ==> s[0] != '0')
  }

  lemma {:induction false} DecimalValue(n: nat)
    ensures CanonicalDigits(Decimal(n)) && DigitsValue(Decimal(n)) == n
    ensures n >= 1 ==> Decimal(n)[0] != '0'
  {
    if n >= 10 {
      DecimalValue(n / 10);
      var s := Decimal(n);
      assert s[..|s| - 1] == Decimal(n / 10);
    } else {
      assert [Digit(n)][..0] == "";
      assert DigitsValue([Digit(n)][..0]) == 0;
    }
  }

  lemma {:induction false} ValuePositive(s: string)
    requires AllDigits(s) && s != "" && s[0] != '0'
    ensures DigitsValue(s) >= 1
  {
    if |s| > 1 {
      ValuePositive(s[..|s| - 1]);
    } else {
      assert s[..0] == "";
    }
  }

  /** Canonical numerals are exactly what the printer produces. */
  lemma {:induction false} DecimalOfValue(s: string)
    requires CanonicalDigits(s)
    ensures Decimal(DigitsValue(s)) == s
  {
    if |s| > 1 {
      var init := s[..|s| - 1];
      DecimalOfValue(init);
      ValuePositive(init);
      assert s == init + [s[|s| - 1]];
    } else {
      assert s[..0] == "";
      assert DigitsValue(s) == s[0] as int - '0' as int;
    }
  }

  // ---- splitting ----------------------------------------------------------------------------------

  predicate NoDot(s: string) {
    forall i | 0 <= i < |s| :: s[i] != '.'
  }

  lemma {:induction false} SplitPlain(s: string)
    requires NoDot(s)
    ensures Split(s) == [s]
  {
    if s != "" {
      SplitPlain(s[1..]);
      assert [s[0]] + s[1..] == s;
    }
  }

  lemma {:induction false} SplitPair(a: string, b: string)
    requires NoDot(a) && NoDot(b)
    ensures Split(a + "." + b) == [a, b]
  {
    var s := a + "." + b;
    if a == "" {
      assert s[1..] == b;
      SplitPlain(b);
    } else {
      assert s[1..] == a[1..] + "." + b;
      SplitPair(a[1..], b);
      assert [a[0]] + a[1..] == a;
    }
  }

  lemma {:induction false} SplitOne(s: string)
    requires |Split(s)| == 1
    ensures Split(s) == [s] && NoDot(s)
  {
    if s != "" {
      SplitOne(s[1..]);
      assert [s[0]] + s[1..] == s;
    }
  }

  lemma {:induction false} SplitJoin(s: string)
    requires |Split(s)| == 2
    ensures s == Split(s)[0] + "." + Split(s)[1] && NoDot(Split(s)[0]) && NoDot(Split(s)[1])
  {
    if s[0] == '.' { SplitOne(s[1..]); } else { SplitJoin(s[1..]); }
  }

  // ---- round trips --------------------------------------------------------------------------------

  lemma WrapIdentity(x: int)
    requires Int64(x)
    ensures Wrap(x) == x
  {
  }

  /** The guard keeps every intermediate result inside 64 bits. */
  lemma ParseNeverWraps(major: int, minor: int)
    requires 0 <= major && 0 <= minor <= 99
    ensures Wrap(MAX - minor) == MAX - minor
    ensures major <= Quot(MAX - minor, 100) <==> major * 100 + minor <= MAX
    ensures major * 100 + minor <= MAX ==> Wrap(Wrap(major * 100) + minor) == major * 100 + minor
  {
    WrapIdentity(MAX - minor);
    if major * 100 + minor <= MAX {
      WrapIdentity(major * 100);
      WrapIdentity(major * 100 + minor);
    }
  }

  lemma DigitsPlain(s: string)
    requires AllDigits(s)
    ensures NoDot(s)
  {
  }

  lemma ParseDigits(s: string)
    requires AllDigits(s) && s != ""
    ensures ParseInt(s) == if DigitsValue(s) <= MAX then Some(DigitsValue(s)) else None
  {
    assert IsDigit(s[0]);
  }

  lemma PaddedValue(x: int)
    requires 0 <= x <= 99
    ensures |Padded(x)| == 2 && AllDigits(Padded(x)) && DigitsValue(Padded(x)) == x
  {
    DecimalValue(x);
    if x < 10 {
      var s := Padded(x);
      assert s[..1] == "0" && s[..1][..0] == "";
      assert DigitsValue(s[..1]) == 0;
    } else {
      assert |Decimal(x / 10)| == 1;
    }
  }

  lemma CombineDigits(whole: string, cents: string)
    requires AllDigits(whole) && whole != "" && AllDigits(cents) && |cents| == 2 && DigitsValue(cents) <= 99
    ensures Combine(whole, cents) ==
            var v := DigitsValue(whole) * 100 + DigitsValue(cents); if v <= MAX then Ok(v) else Err(Conflict)
  {
    ParseDigits(whole);
    ParseDigits(cents);
    ParseNeverWraps(DigitsValue(whole), DigitsValue(cents));
  }

  lemma ParsePair(whole: string, cents: string)
    requires NoDot(whole) && NoDot(cents)
    ensures ParseMinor(whole + "." + cents) == Combine(whole, cents)
  {
    SplitPair(whole, cents);
  }

  /** Every amount that is not negative survives printing and parsing. */
  lemma RoundTrip(v: int)
    requires 0 <= v <= MAX
    ensures ParseMinor(FormatMinor(v)) == Ok(v)
  {
    var major, minor := v / 100, v % 100;
    assert Quot(v, 100) == major && Rem(v, 100) == minor;
    DecimalValue(major);
    PaddedValue(minor);
    DigitsPlain(Decimal(major));
    DigitsPlain(Padded(minor));
    ParsePair(Decimal(major), Padded(minor));
    CombineDigits(Decimal(major), Padded(minor));
  }

  /** A negative amount prints as something the parser rejects. */
  lemma NegativeRejected(v: int)
    requires MIN <= v < 0
    ensures ParseMinor(FormatMinor(v)).Err?
  {
    var major, minor := Quot(v, 100), Rem(v, 100);
    assert -99 <= minor <= 0 && major <= 0 && (major < 0 || minor < 0);
    DecimalValue(-major);
    DecimalValue(-minor);
    DigitsPlain(Decimal(-major));
    DigitsPlain(Decimal(-minor));
    if minor == 0 { PaddedValue(0); DigitsPlain(Padded(0)); }
    SplitPair(Signed(major), Padded(minor));
    if major < 0 {
      assert ParseInt(Signed(major)) == Some(major) by { assert Signed(major)[1..] == Decimal(-major); }
    } else {
      assert Padded(minor)[1..] == Decimal(-minor);
    }
  }

  /** Over all 64-bit amounts, printing and parsing round-trips exactly for those not negative. */
  lemma RoundTripIff(v: int)
    requires Int64(v)
    ensures ParseMinor(FormatMinor(v)) == Ok(v) <==> v >= 0
    ensures ParseMinor(FormatMinor(v)).Err? <==> v < 0
  {
    if v >= 0 { RoundTrip(v); } else { NegativeRejected(v); }
  }

  /** A text the printer would write. */
  predicate Canonical(s: string) {
    var parts := Split(s);
    |parts| == 2 && CanonicalDigits(parts[0]) && |parts[1]| == 2 && AllDigits(parts[1])
  }

  lemma TwoDigits(s: string)
    requires |s| == 2 && AllDigits(s)
    ensures DigitsValue(s) <= 99 && Padded(DigitsValue(s)) == s
  {
    assert s[..1][..0] == "" && DigitsValue(s[..1][..0]) == 0;
    var d := s[0] as int - '0' as int;
    assert DigitsValue(s[..1]) == d;
    if d == 0 { assert s == "0" + [s[1]]; } else { assert Decimal(DigitsValue(s)) == Decimal(d) + [s[1]]; }
  }

  /** Printing any accepted amount gives a canonical text. */
  lemma PrintedCanonical(v: int)
    requires 0 <= v <= MAX
    ensures Canonical(FormatMinor(v))
  {
    DecimalValue(v / 100);
    PaddedValue(v % 100);
    assert Quot(v, 100) == v / 100 && Rem(v, 100) == v % 100;
    DigitsPlain(Decimal(v / 100));
    DigitsPlain(Padded(v % 100));
    SplitPair(Decimal(v / 100), Padded(v % 100));
  }

  lemma ParsedInRange(s: string)
    requires ParseMinor(s).Ok?
    ensures 0 <= ParseMinor(s).value <= MAX
    ensures ParseMinor(s).value == ParseInt(Split(s)[0]).value * 100 + ParseInt(Split(s)[1]).value
    ensures 0 <= ParseInt(Split(s)[1]).value <= 99 && 0 <= ParseInt(Split(s)[0]).value
  {
    ParseNeverWraps(ParseInt(Split(s)[0]).value, ParseInt(Split(s)[1]).value);
  }

  lemma CanonicalPrintsBack(s: string)
    requires ParseMinor(s).Ok? && Canonical(s)
    ensures FormatMinor(ParseMinor(s).value) == s
  {
    var whole, cents := Split(s)[0], Split(s)[1];
    ParsedInRange(s);
    SplitJoin(s);
    ParseDigits(whole);
    ParseDigits(cents);
    DecimalOfValue(whole);
    TwoDigits(cents);
    var v := DigitsValue(whole) * 100 + DigitsValue(cents);
    assert Quot(v, 100) == DigitsValue(whole) && Rem(v, 100) == DigitsValue(cents);
  }

  /** Parsing then printing gives the text back exactly when the text is canonical. */
  lemma PrintsBackIffCanonical(s: string)
    requires ParseMinor(s).Ok?
    ensures 0 <= ParseMinor(s).value <= MAX
    ensures FormatMinor(ParseMinor(s).value) == s <==> Canonical(s)
  {
    ParsedInRange(s);
    PrintedCanonical(ParseMinor(s).value);
    if Canonical(s) { CanonicalPrintsBack(s); }
  }

  lemma OneDigit(c: char)
    requires IsDigit(c)
    ensures AllDigits([c]) && DigitsValue([c]) == c as int - '0' as int
  {
    assert [c][..0] == "";
  }

  lemma LooseParts(c: char)
    requires IsDigit(c)
    ensures ParseInt("+" + [c]) == Some(c as int - '0' as int) && ParseInt("-0") == Some(0)
  {
    OneDigit(c);
    OneDigit('0');
    assert ("+" + [c])[1..] == [c] && "-0"[1..] == "0";
  }

  lemma LooseText(whole: string, cents: string, major: nat, minor: nat)
    requires NoDot(whole) && NoDot(cents) && (!AllDigits(whole) || !AllDigits(cents))
    requires whole != "" && |cents| == 2 && ParseInt(whole) == Some(major) && ParseInt(cents) == Some(minor)
    requires minor <= 99 && major * 100 + minor <= MAX
    ensures ParseMinor(whole + "." + cents) == Ok(major * 100 + minor) && !Canonical(whole + "." + cents)
  {
    SplitPair(whole, cents);
    ParseNeverWraps(major, minor);
  }

  /** A sign before zero is accepted although the printer never writes one. */
  lemma SignedZero(c: char)
    requires IsDigit(c)
    ensures ParseMinor("-0" + "." + ("0" + [c])) == Ok(c as int - '0' as int) && !Canonical("-0" + "." + ("0" + [c]))
  {
    LooseParts(c);
    var d := c as int - '0' as int;
    PaddedValue(d);
    assert Padded(d) == "0" + [c];
    ParseDigits("0" + [c]);
    DigitsPlain("0" + [c]);
    assert !IsDigit("-0"[0]);
    LooseText("-0", "0" + [c], 0, d);
  }

  /** A signed digit is accepted as two-digit cents, and read as cents, not tens of cents. */
  lemma SignedCents(c: char)
    requires IsDigit(c)
    ensures ParseMinor("1" + "." + ("+" + [c])) == Ok(100 + (c as int - '0' as int)) && !Canonical("1" + "." + ("+" + [c]))
  {
    LooseParts(c);
    OneDigit('1');
    ParseDigits("1");
    var cents := "+" + [c];
    assert !IsDigit(cents[0]);
    LooseText("1", cents, 1, c as int - '0' as int);
  }
}
