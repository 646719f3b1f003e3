/** Month keys ("YYYY-MM") and the month arithmetic behind them: the month selector's
    previous/next buttons, and date-fns `addMonths` on dates anchored at day 01. */
module MonthKeys {
  import opened Collections

  /** A calendar month; `month` runs from 1 (January) to 12 (December). */
  datatype YearMonth = YearMonth(year: int, month: int)

  predicate ValidMonth(ym: YearMonth) {
    1 <= ym.month <= 12
  }

  /** Number of months since January of year 0. */
  function Ordinal(ym: YearMonth): int {
    ym.year * 12 + (ym.month - 1)
  }

  /** The month with the given ordinal. */
  function FromOrdinal(n: int): (ym: YearMonth)
    ensures ValidMonth(ym) && Ordinal(ym) == n
  {
    YearMonth(n / 12, n % 12 + 1)
  }

  /** Two valid months with the same ordinal are the same month. */
  lemma OrdinalInjective(a: YearMonth, b: YearMonth)
    requires ValidMonth(a) && ValidMonth(b) && Ordinal(a) == Ordinal(b)
    ensures a == b
  {
  }

  /** `addMonths(d, k)` at the level of months: the month `k` months after `ym`. */
  function AddMonths(ym: YearMonth, k: int): (r: YearMonth)
    ensures ValidMonth(r) && Ordinal(r) == Ordinal(ym) + k
  {
    FromOrdinal(Ordinal(ym) + k)
  }

  /** The successor month: December rolls over to January of the next year. */
  function Next(ym: YearMonth): (r: YearMonth)
    requires ValidMonth(ym)
    ensures r == if ym.month == 12 then YearMonth(ym.year + 1, 1) else YearMonth(ym.year, ym.month + 1)
  {
    var r := AddMonths(ym, 1);
    OrdinalInjective(r, if ym.month == 12 then YearMonth(ym.year + 1, 1) else YearMonth(ym.year, ym.month + 1));
    r
  }

  /** The predecessor month: January rolls back to December of the previous year. */
  function Prev(ym: YearMonth): (r: YearMonth)
    requires ValidMonth(ym)
    ensures r == if ym.month == 1 then YearMonth(ym.year - 1, 12) else YearMonth(ym.year, ym.month - 1)
  {
    var r := AddMonths(ym, -1);
    OrdinalInjective(r, if ym.month == 1 then YearMonth(ym.year - 1, 12) else YearMonth(ym.year, ym.month - 1));
    r
  }

  // ---------------------------------------------------------------------------
  // Text form

  predicate IsDigit(c: char) {
    '0' <= c <= '9'
  }

  predicate AllDigits(s: string) {
    forall i :: 0 <= i < |s| ==> IsDigit(s[i])
  }

  function Digit(d: int): (c: char)
    requires 0 <= d <= 9
    ensures IsDigit(c) && c as int == '0' as int + d
  {
    ('0' as int + d) as char
  }

  function DigitValue(c: char): (d: int)
    requires IsDigit(c)
    ensures 0 <= d <= 9 && Digit(d) == c
  {
    c as int - '0' as int
  }

  /** Shortest decimal numeral of `n`. */
  function Decimal(n: nat): (s: string)
    ensures |s| >= 1 && AllDigits(s)
    ensures (n >= 10 ==> |s| >= 2) && (n >= 100 ==> |s| >= 3) && (n >= 1000 ==> |s| >= 4)
    ensures n >= 10000 ==> |s| >= 5
  {
    if n < 10 then [Digit(n)] else Decimal(n / 10) + [Digit(n % 10)]
  }

  /** The year that the `yyyy` pattern prints: years up to 0 are shown as era years
      of the era before year 1 (year 0 prints as 1, year -1 as 2). */
  function EraYear(y: int): nat {
    if y > 0 then y else 1 - y
  }

  /** The `yyyy` pattern: the era year, padded with zeros to at least four digits. */
  function YearText(y: int): string {
    var n := EraYear(y);
    if n < 10000 then FourDigits(n) else Decimal(n)
  }

  /** A number below 10000 as exactly four digits, most significant first. */
  function FourDigits(n: int): string
    requires 0 <= n < 10000
  {
    var a := n / 10;
    var b := a / 10;
    var c := b / 10;
    [Digit(c % 10), Digit(b % 10), Digit(a % 10), Digit(n % 10)]
  }

  /** The `MM` pattern. */
  function MonthText(m: int): string
    requires 1 <= m <= 12
  {
    [Digit(m / 10), Digit(m % 10)]
  }

  /** `format(d, "yyyy-MM")`. */
  function Format(ym: YearMonth): string
    requires ValidMonth(ym)
  {
    YearText(ym.year) + "-" + MonthText(ym.month)
  }

  function FourDigitValue(s: string): int
    requires |s| == 4 && AllDigits(s)
  {
    ((DigitValue(s[0]) * 10 + DigitValue(s[1])) * 10 + DigitValue(s[2])) * 10 + DigitValue(s[3])
  }

  function TwoDigitValue(s: string): int
    requires |s| == 2 && AllDigits(s)
  {
    DigitValue(s[0]) * 10 + DigitValue(s[1])
  }

  /** `parse(key + "-01", "yyyy-MM-dd")` on a canonical key: four year digits naming a
      year from 1 to 9999, a dash, two month digits naming a month from 1 to 12.
      `None` stands for the invalid date that any other key parses to. */
  function Parse(key: string): Option<YearMonth>
  {
    if |key| == 7 && key[4] == '-' && AllDigits(key[..4]) && AllDigits(key[5..]) then
      var y := FourDigitValue(key[..4]);
      var m := TwoDigitValue(key[5..]);
      if 1 <= y && 1 <= m <= 12 then Some(YearMonth(y, m)) else None
    else None
  }

  /** Keys of the form YYYY-MM: digits, a dash three places from the end, two month
      digits and at least four year digits. */
  predicate KeyForm(s: string) {
    |s| >= 7 && s[|s| - 3] == '-' && AllDigits(s[..|s| - 3]) && AllDigits(s[|s| - 2..])
  }

  /** Every formatted month is in key form, exactly seven characters long for the years
      1 to 9999. */
  lemma FormatShape(ym: YearMonth)
    requires ValidMonth(ym)
    ensures KeyForm(Format(ym))
    ensures 1 <= ym.year <= 9999 ==> |Format(ym)| == 7
  {
    var s := Format(ym);
    var y := YearText(ym.year);
    assert |y| >= 4;
    assert s[..|s| - 3] == y;
    assert s[|s| - 2..] == MonthText(ym.month);
  }

  /** Dividing `10 * x + d` by ten splits off the digit `d`. */
  lemma SplitDigit(x: int, d: int)
    requires 0 <= d <= 9
    ensures (x * 10 + d) / 10 == x && (x * 10 + d) % 10 == d
  {
  }

  lemma FourDigitsRoundTrip(n: int)
    requires 0 <= n < 10000
    ensures |FourDigits(n)| == 4 && AllDigits(FourDigits(n)) && FourDigitValue(FourDigits(n)) == n
  {
    var a := n / 10;
    var b := a / 10;
    var c := b / 10;
    assert n == a * 10 + n % 10;
    assert a == b * 10 + a % 10;
    assert b == c * 10 + b % 10;
    assert c < 10;
  }

  lemma FourDigitValueRoundTrip(s: string)
    requires |s| == 4 && AllDigits(s)
    ensures 0 <= FourDigitValue(s) < 10000 && FourDigits(FourDigitValue(s)) == s
  {
    var v0, v1, v2, v3 := DigitValue(s[0]), DigitValue(s[1]), DigitValue(s[2]), DigitValue(s[3]);
    var c := v0;
    var b := c * 10 + v1;
    var a := b * 10 + v2;
    var n := a * 10 + v3;
    SplitDigit(a, v3);
    SplitDigit(b, v2);
    SplitDigit(c, v1);
    assert c / 10 == 0 && c % 10 == c;
    assert FourDigits(n) == [Digit(v0), Digit(v1), Digit(v2), Digit(v3)];
  }

  lemma TwoDigitValueRoundTrip(s: string)
    requires |s| == 2 && AllDigits(s)
    ensures var m := TwoDigitValue(s); 0 <= m < 100 && [Digit(m / 10), Digit(m % 10)] == s
  {
    SplitDigit(DigitValue(s[0]), DigitValue(s[1]));
  }

  /** The number a numeral denotes, most significant digit first. */
  function DecimalValue(s: string): nat
    requires AllDigits(s)
  {
    if s == [] then 0 else DecimalValue(s[..|s| - 1]) * 10 + DigitValue(s[|s| - 1])
  }

  /** The numeral of `n` denotes `n`. */
  lemma {:induction false} DecimalRoundTrip(n: nat)
    ensures DecimalValue(Decimal(n)) == n
  {
    var s := Decimal(n);
    if n < 10 {
      assert s[..0] == [];
    } else {
      DecimalRoundTrip(n / 10);
      assert s[..|s| - 1] == Decimal(n / 10);
    }
  }

  /** Years from 1 on print differently: the four-digit form below 10000 and the plain
      numeral, at least five digits long, above. */
  lemma YearTextInjective(x: int, y: int)
    requires 1 <= x && 1 <= y && YearText(x) == YearText(y)
    ensures x == y
  {
    if x < 10000 && y < 10000 {
      FourDigitsRoundTrip(x);
      FourDigitsRoundTrip(y);
    } else if x >= 10000 && y >= 10000 {
      DecimalRoundTrip(x);
      DecimalRoundTrip(y);
    } else {
      assert false;
    }
  }

  /** Formatting is one-to-one on the months of the years from 1 on. */
  lemma FormatInjective(a: YearMonth, b: YearMonth)
    requires ValidMonth(a) && ValidMonth(b) && 1 <= a.year && 1 <= b.year
    requires Format(a) == Format(b)
    ensures a == b
  {
    var s := Format(a);
    assert s[..|s| - 3] == YearText(a.year) && s[|s| - 2..] == MonthText(a.month);
    assert s[..|s| - 3] == YearText(b.year) && s[|s| - 2..] == MonthText(b.month);
    YearTextInjective(a.year, b.year);
    SplitDigit(a.month / 10, a.month % 10);
    SplitDigit(b.month / 10, b.month % 10);
    assert DigitValue(MonthText(a.month)[0]) == a.month / 10;
  }

  /** Parsing a formatted month gives the month back, for the years the key form holds. */
  lemma ParseFormat(ym: YearMonth)
    requires ValidMonth(ym) && 1 <= ym.year <= 9999
    ensures Parse(Format(ym)) == Some(ym)
  {
    var s := Format(ym);
    FourDigitsRoundTrip(ym.year);
    assert s[..4] == FourDigits(ym.year);
    assert s[5..] == MonthText(ym.month);
    SplitDigit(ym.month / 10, ym.month % 10);
  }

  /** Formatting a parsed key gives the key back: canonical keys have one spelling. */
  lemma FormatParse(key: string)
    requires Parse(key).Some?
    ensures Format(Parse(key).value) == key
  {
    var ym := Parse(key).value;
    FourDigitValueRoundTrip(key[..4]);
    TwoDigitValueRoundTrip(key[5..]);
    assert YearText(ym.year) == key[..4];
    assert MonthText(ym.month) == key[5..];
    assert key == key[..4] + "-" + key[5..];
  }

  // ---------------------------------------------------------------------------
  // The month selector's buttons

  /** ▶: the key of the month after `value`; `None` where the source's formatting
      throws on an invalid date. */
  function NextKey(value: string): Option<string>
  {
    match Parse(value)
    case None => None
    case Some(ym) => Some(Format(AddMonths(ym, 1)))
  }

  /** ◀: the key of the month before `value`. */
  function PrevKey(value: string): Option<string>
  {
    match Parse(value)
    case None => None
    case Some(ym) => Some(Format(AddMonths(ym, -1)))
  }

  /** ▶ emits a key in key form naming the successor month, December rolling over to
      January of the next year; it fails exactly on keys that do not parse. */
  lemma NextKeyMeaning(value: string)
    ensures NextKey(value).Some? <==> Parse(value).Some?
    ensures NextKey(value).Some? ==> KeyForm(NextKey(value).value)
    ensures Parse(value).Some? && Next(Parse(value).value).year <= 9999 ==>
      var ym := Parse(value).value;
      Parse(NextKey(value).value) ==
        Some(if ym.month == 12 then YearMonth(ym.year + 1, 1) else YearMonth(ym.year, ym.month + 1))
  {
    if Parse(value).Some? {
      var ym := Parse(value).value;
      assert AddMonths(ym, 1) == Next(ym);
      FormatShape(Next(ym));
      if Next(ym).year <= 9999 {
        ParseFormat(Next(ym));
      }
    }
  }

  /** ◀ emits a key in key form naming the predecessor month, January rolling back to
      December of the previous year; it fails exactly on keys that do not parse. */
  lemma PrevKeyMeaning(value: string)
    ensures PrevKey(value).Some? <==> Parse(value).Some?
    ensures PrevKey(value).Some? ==> KeyForm(PrevKey(value).value)
    ensures Parse(value).Some? && Prev(Parse(value).value).year >= 1 ==>
      var ym := Parse(value).value;
      Parse(PrevKey(value).value) ==
        Some(if ym.month == 1 then YearMonth(ym.year - 1, 12) else YearMonth(ym.year, ym.month - 1))
  {
    if Parse(value).Some? {
      var ym := Parse(value).value;
      assert AddMonths(ym, -1) == Prev(ym);
      FormatShape(Prev(ym));
      if Prev(ym).year >= 1 {
        ParseFormat(Prev(ym));
      }
    }
  }

  /** The keys of the months at the edges of the four-digit years. */
  lemma EdgeKeys()
    ensures Format(YearMonth(9999, 12)) == "9999-12"
    ensures Format(YearMonth(1, 1)) == "0001-01"
    ensures Format(YearMonth(0, 12)) == "0001-12"
  {
    assert FourDigits(9999) == "9999" by {
      assert Digit(9) == '9';
    }
    assert FourDigits(1) == "0001" by {
      assert Digit(0) == '0' && Digit(1) == '1';
    }
    assert MonthText(12) == "12" && MonthText(1) == "01" by {
      assert Digit(0) == '0' && Digit(1) == '1' && Digit(2) == '2';
    }
  }

  /** ▶ then ◀ returns the original key, except from December 9999, whose successor
      has a five-digit year that no longer parses. */
  lemma PrevAfterNext(value: string)
    requires Parse(value).Some? && value != "9999-12"
    ensures NextKey(value).Some? && PrevKey(NextKey(value).value) == Some(value)
  {
    var ym := Parse(value).value;
    FormatParse(value);
    assert ym != YearMonth(9999, 12) by { EdgeKeys(); }
    var n := Next(ym);
    assert AddMonths(ym, 1) == n;
    ParseFormat(n);
    assert AddMonths(n, -1) == ym by { OrdinalInjective(AddMonths(n, -1), ym); }
  }

  /** ◀ then ▶ returns the original key, except from January 0001, whose predecessor
      prints as "0001-12" (year 0 is shown as era year 1). */
  lemma NextAfterPrev(value: string)
    requires Parse(value).Some? && value != "0001-01"
    ensures PrevKey(value).Some? && NextKey(PrevKey(value).value) == Some(value)
  {
    var ym := Parse(value).value;
    FormatParse(value);
    assert ym != YearMonth(1, 1) by { EdgeKeys(); }
    var p := Prev(ym);
    assert AddMonths(ym, -1) == p;
    ParseFormat(p);
    assert AddMonths(p, 1) == ym by { OrdinalInjective(AddMonths(p, 1), ym); }
  }

  /** The exception above: ◀ on January of year 1 stays in year "0001". */
  lemma PrevOfFirstMonth()
    ensures PrevKey("0001-01") == Some("0001-12")
  {
    EdgeKeys();
    ParseFormat(YearMonth(1, 1));
    assert AddMonths(YearMonth(1, 1), -1) == Prev(YearMonth(1, 1));
  }
}
