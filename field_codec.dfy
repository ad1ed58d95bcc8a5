/**
 * Field decoding for the report columns: European-format numbers
 * ("1.677,10") and `dd/mm/yyyy` dates.
 *
 * A numeric column is read the way the parser reads it: every `.` (thousands
 * separator) is removed, every `,` (decimal separator) becomes `.`, and the
 * result goes to Python's `float()`.  Only the plain decimal forms of
 * `float()` are modelled, and the value is kept exactly, as a mantissa and a
 * power-of-ten scale.  A date column goes through
 * `strptime(text, "%d/%m/%Y")`.
 */
module FieldCodec {
  import opened Wrappers
  import opened PyText

  predicate IsDigit(c: char) {
    '0' <= c <= '9'
  }

  predicate AllDigits(s: string) {
    forall i | 0 <= i < |s| :: IsDigit(s[i])
  }

  function DigitValue(c: char): (d: nat)
    requires IsDigit(c)
    ensures d < 10
  {
    c as int - '0' as int
  }

  /** The number a string of decimal digits denotes ("" denotes 0). */
  function DigitsValue(s: string): nat
    requires AllDigits(s)
    decreases |s|
  {
    if s == [] then 0 else DigitsValue(s[..|s| - 1]) * 10 + DigitValue(s[|s| - 1])
  }

  /** The position of the first `c` in `s`, or `|s|` when there is none. */
  function IndexOf(s: string, c: char): (k: nat)
    ensures k <= |s|
    ensures forall i | 0 <= i < k :: s[i] != c
    ensures k < |s| ==> s[k] == c
    decreases |s|
  {
    if s == [] then 0 else if s[0] == c then 0 else 1 + IndexOf(s[1..], c)
  }

  // ---------------------------------------------------------------- numbers

  /** An exact decimal number: `mantissa / 10^scale`. */
  datatype Decimal = Decimal(mantissa: int, scale: nat)

  /** The value a numeric column keeps when its side of the report is unused (`0.0`). */
  const Zero: Decimal := Decimal(0, 0)

  /** The text after an optional leading sign. */
  function Unsigned(t: string): string {
    if |t| > 0 && (t[0] == '+' || t[0] == '-') then t[1..] else t
  }

  /**
   * The decimal literals `float()` accepts: an optional sign, then digits
   * with at most one `.`, and at least one digit.
   */
  predicate IsDecimalLiteral(t: string) {
    var b := Unsigned(t);
    && b != [] && b != "."
    && CountChar(b, '.') <= 1
    && forall i | 0 <= i < |b| :: IsDigit(b[i]) || b[i] == '.'
  }

  /** `float(t)` on a decimal literal, kept exact; `None` where `float()` raises. */
  function ParseDecimal(t: string): Option<Decimal> {
    var b := Unsigned(t);
    var k := IndexOf(b, '.');
    DecimalOfParts(|t| > 0 && t[0] == '-', b[..k], if k < |b| then b[k + 1..] else [])
  }

  /** The number with the given digits before and after the point. */
  function DecimalOfParts(negative: bool, intPart: string, fracPart: string): Option<Decimal> {
    if AllDigits(intPart) && AllDigits(fracPart) && |intPart| + |fracPart| > 0 then
      var m: int := DigitsValue(intPart + fracPart);
      Some(Decimal(if negative then -m else m, |fracPart|))
    else
      None
  }

  /** `ParseDecimal` accepts exactly the decimal literals. */
  lemma ParseDecimalAccepts(t: string)
    ensures ParseDecimal(t).Some? <==> IsDecimalLiteral(t)
  {
    var b := Unsigned(t);
    SplitAtPoint(b, IndexOf(b, '.'));
  }

  /** The literal grammar read off the split at the first `.`. */
  lemma SplitAtPoint(b: string, k: nat)
    requires k == IndexOf(b, '.')
    ensures var intPart := b[..k];
            var fracPart := if k < |b| then b[k + 1..] else [];
            (AllDigits(intPart) && AllDigits(fracPart) && |intPart| + |fracPart| > 0)
            <==>
            (b != [] && b != "." && CountChar(b, '.') <= 1 &&
             forall i | 0 <= i < |b| :: IsDigit(b[i]) || b[i] == '.')
  {
    if k < |b| {
      SplitAtFoundPoint(b, k);
    } else {
      CountCharZero(b, '.');
      assert b[..k] == b;
    }
  }

  /** The split when there is a `.`: the digits before it and the digits after it. */
  lemma SplitAtFoundPoint(b: string, k: nat)
    requires k == IndexOf(b, '.') && k < |b|
    ensures var intPart := b[..k];
            var fracPart := b[k + 1..];
            (AllDigits(intPart) && AllDigits(fracPart) && |intPart| + |fracPart| > 0)
            <==>
            (b != [] && b != "." && CountChar(b, '.') <= 1 &&
             forall i | 0 <= i < |b| :: IsDigit(b[i]) || b[i] == '.')
  {
    var intPart, fracPart := b[..k], b[k + 1..];
    assert b == intPart + [b[k]] + fracPart;
    CountCharZero(intPart, '.');
    CountCharZero(fracPart, '.');
    CountCharConcat(intPart + [b[k]], fracPart, '.');
    CountCharConcat(intPart, [b[k]], '.');
    assert CountChar(b, '.') == 1 + CountChar(fracPart, '.');
    assert forall i | k < i < |b| :: b[i] == fracPart[i - k - 1];
    assert b == "." <==> |intPart| + |fracPart| == 0;
  }

  /** `s.replace(".", "").replace(",", ".")`. */
  function Normalize(raw: string): (r: string)
    ensures CountChar(r, ',') == 0
  {
    ReplaceCharCount(RemoveChar(raw, '.'), ',', '.');
    ReplaceChar(RemoveChar(raw, '.'), ',', '.')
  }

  /**
   * The value of a numeric column, or `None` where the source's `float()`
   * call raises `ValueError` (`float()` itself ignores surrounding whitespace).
   */
  function ParseNumber(raw: string): Option<Decimal> {
    ParseDecimal(Strip(Normalize(raw)))
  }

  /** After normalisation the only `.` characters are the former decimal commas. */
  lemma NormalizePoints(raw: string)
    ensures CountChar(Normalize(raw), '.') == CountChar(raw, ',')
  {
    var noDots := RemoveChar(raw, '.');
    CountCharZero(noDots, '.');
    RemoveCharKeepsCount(raw, '.', ',');
    ReplaceCharCount(noDots, ',', '.');
  }

  /** More than one decimal comma is always a format error ("12,34,56"). */
  lemma SeveralCommasRejected(raw: string)
    requires CountChar(raw, ',') >= 2
    ensures ParseNumber(raw) == None
  {
    var n := Normalize(raw);
    NormalizePoints(raw);
    StripKeepsCount(n, '.');
    TwoPointsNotLiteral(Strip(n));
    ParseDecimalAccepts(Strip(n));
  }

  lemma TwoPointsNotLiteral(t: string)
    requires CountChar(t, '.') >= 2
    ensures !IsDecimalLiteral(t)
  {
    if |t| > 0 && (t[0] == '+' || t[0] == '-') {
      assert t == [t[0]] + t[1..];
      CountCharConcat([t[0]], t[1..], '.');
    }
  }

  /** Thousands separators are ignored wherever they stand. */
  lemma ThousandsSeparatorIgnored(s: string, i: nat)
    requires i <= |s|
    ensures ParseNumber(s[..i] + "." + s[i..]) == ParseNumber(s)
  {
    var pre, post := s[..i], s[i..];
    RemoveCharConcat(pre + ".", post, '.');
    RemoveCharConcat(pre, ".", '.');
    assert RemoveChar(".", '.') == [];
    RemoveCharConcat(pre, post, '.');
    assert pre + post == s;
    assert RemoveChar(pre + "." + post, '.') == RemoveChar(s, '.');
  }

  lemma {:induction false} DigitsUntouched(s: string)
    requires AllDigits(s)
    ensures RemoveChar(s, '.') == s && ReplaceChar(s, ',', '.') == s
    decreases |s|
  {
    if s != [] {
      DigitsUntouched(s[1..]);
      assert s == [s[0]] + s[1..];
    }
  }

  /**
   * A number written with a decimal comma, optionally negative, is read
   * exactly: "-27,00" is -2700 hundredths and "0,403" is 403 thousandths.
   */
  lemma EuropeanNumber(negative: bool, whole: string, frac: string)
    requires AllDigits(whole) && AllDigits(frac) && whole != []
    ensures var sign := if negative then "-" else "";
            var m: int := DigitsValue(whole + frac);
            ParseNumber(sign + whole + "," + frac)
              == Some(Decimal(if negative then -m else m, |frac|))
  {
    var sign := if negative then "-" else "";
    var n := sign + whole + "." + frac;
    assert Strip(Normalize(sign + whole + "," + frac)) == n by {
      NormalizeCommaNumber(sign, whole, frac);
      assert n[0] == (if negative then '-' else whole[0]);
      assert n[|n| - 1] == (if frac == [] then '.' else frac[|frac| - 1]);
    }
    ParsePointNumber(negative, whole, frac);
  }

  lemma NormalizeCommaNumber(sign: string, whole: string, frac: string)
    requires AllDigits(whole) && AllDigits(frac) && (sign == "" || sign == "-")
    ensures Normalize(sign + whole + "," + frac) == sign + whole + "." + frac
  {
    NoPointsInCommaNumber(sign, whole, frac);
    CommaBecomesPoint(sign, whole, frac);
  }

  /** A number with a decimal comma has no point to remove. */
  lemma NoPointsInCommaNumber(sign: string, whole: string, frac: string)
    requires AllDigits(whole) && AllDigits(frac) && (sign == "" || sign == "-")
    ensures RemoveChar(sign + whole + "," + frac, '.') == sign + whole + "," + frac
  {
    var a := sign + whole;
    var b := a + ",";
    DigitsUntouched(whole);
    DigitsUntouched(frac);
    RemoveCharConcat(sign, whole, '.');
    assert RemoveChar(sign, '.') == sign;
    RemoveCharConcat(a, ",", '.');
    assert RemoveChar(",", '.') == ",";
    RemoveCharConcat(b, frac, '.');
  }

  /** Its one comma, and nothing else, becomes the decimal point. */
  lemma CommaBecomesPoint(sign: string, whole: string, frac: string)
    requires AllDigits(whole) && AllDigits(frac) && (sign == "" || sign == "-")
    ensures ReplaceChar(sign + whole + "," + frac, ',', '.') == sign + whole + "." + frac
  {
    var raw := sign + whole + "," + frac;
    var n := sign + whole + "." + frac;
    var k := |sign| + |whole|;
    forall i | 0 <= i < |raw|
      ensures ReplaceChar(raw, ',', '.')[i] == n[i]
    {
      if i < |sign| {
        assert raw[i] == sign[i] && n[i] == sign[i];
      } else if i < k {
        assert raw[i] == whole[i - |sign|] && n[i] == whole[i - |sign|];
      } else if i > k {
        assert raw[i] == frac[i - k - 1] && n[i] == frac[i - k - 1];
      }
    }
  }

  lemma ParsePointNumber(negative: bool, whole: string, frac: string)
    requires AllDigits(whole) && AllDigits(frac) && whole != []
    ensures var sign := if negative then "-" else "";
            var m: int := DigitsValue(whole + frac);
            ParseDecimal(sign + whole + "." + frac)
              == Some(Decimal(if negative then -m else m, |frac|))
  {
    var sign := if negative then "-" else "";
    var b := whole + "." + frac;
    var n := sign + b;
    assert sign + whole + "." + frac == n;
    SignSplit(negative, b);
    PointSplit(whole, frac);
    var k := |whole|;
    assert ParseDecimal(n) == DecimalOfParts(negative, b[..k], b[k + 1..]);
    assert DecimalOfParts(negative, b[..k], b[k + 1..]) == DecimalOfParts(negative, whole, frac);
  }

  /** An optional leading `-` is read as the sign and then dropped. */
  lemma SignSplit(negative: bool, b: string)
    requires b != [] && b[0] != '-' && b[0] != '+'
    ensures var n := (if negative then "-" else "") + b;
            Unsigned(n) == b && (|n| > 0 && n[0] == '-') == negative
  {
    var n := (if negative then "-" else "") + b;
    if negative {
      assert n[1..] == b;
    } else {
      assert n == b;
    }
  }

  /** A number with one point splits at it into its two digit runs. */
  lemma PointSplit(whole: string, frac: string)
    requires AllDigits(whole)
    ensures var b := whole + "." + frac;
            IndexOf(b, '.') == |whole| && b[..|whole|] == whole && b[|whole| + 1..] == frac
  {
    var rest := "." + frac;
    assert whole + "." + frac == whole + rest;
    assert IndexOf(rest, '.') == 0;
    IndexOfAfterDigits(whole, rest, '.');
  }

  lemma {:induction false} IndexOfAfterDigits(whole: string, rest: string, c: char)
    requires AllDigits(whole) && !IsDigit(c)
    ensures IndexOf(whole + rest, c) == |whole| + IndexOf(rest, c)
    decreases |whole|
  {
    if whole != [] {
      assert (whole + rest)[1..] == whole[1..] + rest;
      IndexOfAfterDigits(whole[1..], rest, c);
    } else {
      assert whole + rest == rest;
    }
  }

  /** Appending a digit shifts the value one decimal place. */
  lemma DigitsValueSnoc(s: string, c: char)
    requires AllDigits(s) && IsDigit(c)
    ensures AllDigits(s + [c]) && DigitsValue(s + [c]) == DigitsValue(s) * 10 + DigitValue(c)
  {
    assert (s + [c])[..|s|] == s;
  }

  // ------------------------------------------------------------------ dates

  datatype Date = Date(year: int, month: int, day: int)

  predicate IsLeapYear(y: int) {
    y % 4 == 0 && (y % 100 != 0 || y % 400 == 0)
  }

  function DaysInMonth(y: int, m: int): int
    requires 1 <= m <= 12
  {
    if m == 2 then (if IsLeapYear(y) then 29 else 28)
    else if m == 4 || m == 6 || m == 9 || m == 11 then 30
    else 31
  }

  /** The dates Python's `datetime.date` can hold. */
  predicate IsCalendarDate(d: Date) {
    && 1 <= d.year <= 9999
    && 1 <= d.month <= 12
    && 1 <= d.day <= DaysInMonth(d.year, d.month)
  }

  /** What `%d` matches: `3[01]|[12]\d|0[1-9]|[1-9]| [1-9]`. */
  predicate IsDayToken(s: string) {
    || (|s| == 1 && '1' <= s[0] <= '9')
    || (|s| == 2 && s[0] == '0' && '1' <= s[1] <= '9')
    || (|s| == 2 && (s[0] == '1' || s[0] == '2') && IsDigit(s[1]))
    || (|s| == 2 && s[0] == '3' && (s[1] == '0' || s[1] == '1'))
    || (|s| == 2 && s[0] == ' ' && '1' <= s[1] <= '9')
  }

  /** What `%m` matches: `1[0-2]|0[1-9]|[1-9]`. */
  predicate IsMonthToken(s: string) {
    || (|s| == 1 && '1' <= s[0] <= '9')
    || (|s| == 2 && s[0] == '0' && '1' <= s[1] <= '9')
    || (|s| == 2 && s[0] == '1' && '0' <= s[1] <= '2')
  }

  /** What `%Y` matches: exactly four digits. */
  predicate IsYearToken(s: string) {
    |s| == 4 && AllDigits(s)
  }

  /** The number a day or month token stands for (`int()` ignores the leading blank). */
  function TokenValue(s: string): nat
    requires IsDayToken(s) || IsMonthToken(s)
  {
    if s[0] == ' ' then DigitValue(s[1]) else DigitsValue(s)
  }

  /**
   * `strptime(s, "%d/%m/%Y").date()`, or `None` where it raises
   * `ValueError`: the text must be a day token, `/`, a month token, `/` and
   * a four-digit year with nothing after it, and name a real calendar day.
   */
  function ParseDate(s: string): (r: Option<Date>)
    ensures r.Some? ==> IsCalendarDate(r.value)
  {
    var i := IndexOf(s, '/');
    if i == |s| then None
    else
      var rest := s[i + 1..];
      var j := IndexOf(rest, '/');
      if j == |rest| then None
      else
        var dd, mm, yyyy := s[..i], rest[..j], rest[j + 1..];
        if IsDayToken(dd) && IsMonthToken(mm) && IsYearToken(yyyy) then
          var d := Date(DigitsValue(yyyy), TokenValue(mm), TokenValue(dd));
          if IsCalendarDate(d) then Some(d) else None
        else
          None
  }

  function DigitChar(n: nat): (c: char)
    requires n < 10
    ensures IsDigit(c) && DigitValue(c) == n
  {
    ('0' as int + n) as char
  }

  /** `n` written with two digits, zero-padded. */
  function Pad2(n: nat): (s: string)
    requires n < 100
    ensures |s| == 2 && AllDigits(s) && DigitsValue(s) == n
  {
    var s := [DigitChar(n / 10)] + [DigitChar(n % 10)];
    DigitsValueSnoc([], DigitChar(n / 10));
    assert [] + [DigitChar(n / 10)] == [DigitChar(n / 10)];
    DigitsValueSnoc([DigitChar(n / 10)], DigitChar(n % 10));
    s
  }

  /** `n` written with four digits, zero-padded. */
  function Pad4(n: nat): (s: string)
    requires n < 10000
    ensures IsYearToken(s) && DigitsValue(s) == n
  {
    var hi, lo := Pad2(n / 100), Pad2(n % 100);
    DigitsValueSnoc(hi, lo[0]);
    assert hi + lo == hi + [lo[0]] + [lo[1]];
    DigitsValueSnoc(hi + [lo[0]], lo[1]);
    assert DigitsValue(lo) == DigitValue(lo[0]) * 10 + DigitValue(lo[1]) by {
      assert lo == [] + [lo[0]] + [lo[1]];
      DigitsValueSnoc([], lo[0]);
      assert [] + [lo[0]] == [lo[0]];
      DigitsValueSnoc([lo[0]], lo[1]);
    }
    hi + lo
  }

  /** Two digits read and written back give the same two digits. */
  lemma Pad2OfDigits(t: string)
    requires |t| == 2 && AllDigits(t)
    ensures DigitsValue(t) < 100 && Pad2(DigitsValue(t)) == t
  {
    assert t == [] + [t[0]] + [t[1]];
    DigitsValueSnoc([], t[0]);
    assert [] + [t[0]] == [t[0]];
    DigitsValueSnoc([t[0]], t[1]);
    var v := DigitsValue(t);
    assert v / 10 == DigitValue(t[0]) && v % 10 == DigitValue(t[1]);
  }

  /** Four digits read and written back give the same four digits. */
  lemma Pad4OfDigits(t: string)
    requires IsYearToken(t)
    ensures DigitsValue(t) < 10000 && Pad4(DigitsValue(t)) == t
  {
    var hi, lo := t[..2], t[2..];
    Pad2OfDigits(hi);
    Pad2OfDigits(lo);
    assert t == hi + [lo[0]] + [lo[1]];
    DigitsValueSnoc(hi, lo[0]);
    DigitsValueSnoc(hi + [lo[0]], lo[1]);
    assert DigitsValue(lo) == DigitValue(lo[0]) * 10 + DigitValue(lo[1]) by {
      assert lo == [] + [lo[0]] + [lo[1]];
      DigitsValueSnoc([], lo[0]);
      assert [] + [lo[0]] == [lo[0]];
      DigitsValueSnoc([lo[0]], lo[1]);
    }
    var v := DigitsValue(t);
    assert v == DigitsValue(hi) * 100 + DigitsValue(lo);
    assert v / 100 == DigitsValue(hi) && v % 100 == DigitsValue(lo);
  }

  /** A date as the report prints it, `dd/mm/yyyy`. */
  function FormatDate(d: Date): (s: string)
    requires IsCalendarDate(d)
    ensures IsDateShape(s)
  {
    Pad2(d.day) + "/" + Pad2(d.month) + "/" + Pad4(d.year)
  }

  /** The `dd/mm/yyyy` layout: ten characters, digits apart from the two slashes. */
  predicate IsDateShape(s: string) {
    && |s| == 10 && s[2] == '/' && s[5] == '/'
    && AllDigits(s[..2]) && AllDigits(s[3..5]) && AllDigits(s[6..])
  }

  /** How `ParseDate` splits a text in the `dd/mm/yyyy` layout. */
  lemma ShapeSplit(s: string)
    requires IsDateShape(s)
    ensures IndexOf(s, '/') == 2
    ensures var rest := s[3..]; IndexOf(rest, '/') == 2 && rest[..2] == s[3..5] && rest[3..] == s[6..]
  {
    var rest := s[3..];
    assert s == s[..2] + rest[..0] + s[2..];
    IndexOfAfterDigits(s[..2], s[2..], '/');
    assert rest == s[3..5] + rest[2..];
    IndexOfAfterDigits(s[3..5], rest[2..], '/');
  }

  /** Every calendar date printed as `dd/mm/yyyy` reads back as itself. */
  lemma FormatDateRoundTrip(d: Date)
    requires IsCalendarDate(d)
    ensures ParseDate(FormatDate(d)) == Some(d)
  {
    var dd, mm, yyyy := Pad2(d.day), Pad2(d.month), Pad4(d.year);
    var s := FormatDate(d);
    assert s[..2] == dd && s[3..5] == mm && s[6..] == yyyy;
    ShapeSplit(s);
    DayTokenOfPad(d.day);
    MonthTokenOfPad(d.month);
  }

  lemma DayTokenOfPad(n: nat)
    requires 1 <= n <= 31
    ensures IsDayToken(Pad2(n)) && TokenValue(Pad2(n)) == n
  {
    var s := Pad2(n);
    assert s[0] == DigitChar(n / 10) && s[1] == DigitChar(n % 10);
  }

  lemma MonthTokenOfPad(n: nat)
    requires 1 <= n <= 12
    ensures IsMonthToken(Pad2(n)) && TokenValue(Pad2(n)) == n
  {
    var s := Pad2(n);
    assert s[0] == DigitChar(n / 10) && s[1] == DigitChar(n % 10);
  }

  /**
   * Conversely, a text in the `dd/mm/yyyy` layout that reads at all was
   * written canonically: printing the date gives the text back.
   */
  lemma ParseDateCanonical(s: string)
    requires IsDateShape(s) && ParseDate(s).Some?
    ensures FormatDate(ParseDate(s).value) == s
  {
    var d := ParseDate(s).value;
    ShapeSplit(s);
    var dd, mm, yyyy := s[..2], s[3..5], s[6..];
    Pad2OfDigits(dd);
    Pad2OfDigits(mm);
    Pad4OfDigits(yyyy);
    assert d == Date(DigitsValue(yyyy), DigitsValue(mm), DigitsValue(dd));
    assert s == dd + "/" + mm + "/" + yyyy;
  }
}
