/**
 * Proleptic Gregorian dates, the zero-padded text forms the invoicing tool
 * writes ("%Y-%m-%d %H:%M:%S" for the record date, "%Y%m%d%H%M%S" inside
 * invoice IDs), the parser that reads the date part back, and the due date
 * printed on an invoice: issue date plus thirty calendar days.
 */
module Calendar {
  import opened Outcomes

  datatype Date = Date(year: int, month: int, day: int)
  datatype DateTime = DateTime(date: Date, hour: int, minute: int, second: int)

  /** The last year a Python datetime can hold. */
  const MaxYear: int := 9999

  /** Payment is due this many calendar days after the issue date. */
  const PaymentTermDays: nat := 30

  predicate IsLeapYear(year: int)
  {
    year % 4 == 0 && (year % 100 != 0 || year % 400 == 0)
  }

  function DaysInMonth(year: int, month: int): int
  {
    if month == 2 then (if IsLeapYear(year) then 29 else 28)
    else if month == 4 || month == 6 || month == 9 || month == 11 then 30
    else 31
  }

  function DaysInYear(year: int): int
  {
    if IsLeapYear(year) then 366 else 365
  }

  /** A day of the proleptic Gregorian calendar from year 1 on, with no upper bound. */
  predicate IsCivil(d: Date)
  {
    1 <= d.year && 1 <= d.month <= 12 && 1 <= d.day <= DaysInMonth(d.year, d.month)
  }

  /** A date that a Python datetime can hold (years 1 to 9999). */
  predicate IsValidDate(d: Date)
  {
    IsCivil(d) && d.year <= MaxYear
  }

  predicate IsValidDateTime(t: DateTime)
  {
    IsValidDate(t.date) && 0 <= t.hour < 24 && 0 <= t.minute < 60 && 0 <= t.second < 60
  }

  /** Days in the years before `year`, counted from year 1 (the closed form Python's datetime uses). */
  function DaysBeforeYear(year: int): nat
    requires 1 <= year
  {
    var y := year - 1;
    y * 365 + y / 4 - y / 100 + y / 400
  }

  lemma DaysBeforeNextYear(year: int)
    requires 1 <= year
    ensures DaysBeforeYear(year + 1) == DaysBeforeYear(year) + DaysInYear(year)
  {
    var y := year - 1;
    DivStep(y, 4);
    DivStep(y, 100);
    DivStep(y, 400);
    DivisibleBy400Or100(year);
    assert DaysBeforeYear(year + 1) == year * 365 + year / 4 - year / 100 + year / 400;
  }

  lemma DivisibleBy400Or100(year: int)
    ensures year % 100 == 0 ==> year % 4 == 0
    ensures year % 400 == 0 ==> year % 100 == 0
  {
    if year % 100 == 0 {
      var q := year / 100;
      assert year == 4 * (25 * q);
    }
    if year % 400 == 0 {
      var q := year / 400;
      assert year == 100 * (4 * q);
    }
  }

  lemma DivStep(y: nat, k: nat)
    requires k == 4 || k == 100 || k == 400
    ensures (y + 1) / k == y / k + (if (y + 1) % k == 0 then 1 else 0)
  {
    if k == 4 {
      assert (y + 1) / 4 == y / 4 + (if (y + 1) % 4 == 0 then 1 else 0);
    } else if k == 100 {
      assert (y + 1) / 100 == y / 100 + (if (y + 1) % 100 == 0 then 1 else 0);
    } else {
      assert (y + 1) / 400 == y / 400 + (if (y + 1) % 400 == 0 then 1 else 0);
    }
  }

  function DaysBeforeMonth(year: int, month: int): nat
    requires 1 <= month <= 12
  {
    var table := [0, 31, 59, 90, 120, 151, 181, 212, 243, 273, 304, 334];
    table[month - 1] + (if month > 2 && IsLeapYear(year) then 1 else 0)
  }

  /** Days elapsed since 0001-01-01 (Python's date.toordinal() minus one). */
  function DayNumber(d: Date): nat
    requires IsCivil(d)
  {
    DaysBeforeYear(d.year) + DaysBeforeMonth(d.year, d.month) + d.day - 1
  }

  /** The calendar day after d. */
  function NextDay(d: Date): (e: Date)
    requires IsCivil(d)
    ensures IsCivil(e) && DayNumber(e) == DayNumber(d) + 1
  {
    DaysBeforeNextYear(d.year);
    if d.day < DaysInMonth(d.year, d.month) then Date(d.year, d.month, d.day + 1)
    else if d.month < 12 then Date(d.year, d.month + 1, 1)
    else Date(d.year + 1, 1, 1)
  }

  /** The date n calendar days after d (Python's date + timedelta(days=n), without its year bound). */
  function AddDays(d: Date, n: nat): (e: Date)
    requires IsCivil(d)
    ensures IsCivil(e) && DayNumber(e) == DayNumber(d) + n
    ensures e.year >= d.year
    decreases n
  {
    if n == 0 then d else AddDays(NextDay(d), n - 1)
  }

  lemma {:induction false} DaysBeforeYearMonotone(a: int, b: int)
    requires 1 <= a <= b
    ensures DaysBeforeYear(a) + (b - a) * 365 <= DaysBeforeYear(b)
    decreases b - a
  {
    if a < b {
      DaysBeforeYearMonotone(a, b - 1);
      DaysBeforeNextYear(b - 1);
    }
  }

  lemma DayNumberWithinYear(d: Date)
    requires IsCivil(d)
    ensures DaysBeforeYear(d.year) <= DayNumber(d) < DaysBeforeYear(d.year + 1)
  {
    DaysBeforeNextYear(d.year);
  }

  /** Within one year, a day of an earlier month comes before every day of a later month. */
  lemma MonthOrder(year: int, m1: int, day1: int, m2: int, day2: int)
    requires 1 <= m1 < m2 <= 12
    requires 1 <= day1 <= DaysInMonth(year, m1) && 1 <= day2
    ensures DaysBeforeMonth(year, m1) + day1 < DaysBeforeMonth(year, m2) + day2
  {
  }

  /** Distinct calendar days have distinct day numbers: the day number identifies the date. */
  lemma DayNumberInjective(d1: Date, d2: Date)
    requires IsCivil(d1) && IsCivil(d2)
    requires DayNumber(d1) == DayNumber(d2)
    ensures d1 == d2
  {
    DayNumberWithinYear(d1);
    DayNumberWithinYear(d2);
    if d1.year < d2.year {
      DaysBeforeYearMonotone(d1.year + 1, d2.year);
    } else if d2.year < d1.year {
      DaysBeforeYearMonotone(d2.year + 1, d1.year);
    } else if d1.month < d2.month {
      MonthOrder(d1.year, d1.month, d1.day, d2.month, d2.day);
    } else if d2.month < d1.month {
      MonthOrder(d1.year, d2.month, d2.day, d1.month, d1.day);
    }
  }

  // ---------------------------------------------------------------------------
  // Zero-padded decimal text

  function Pow10(n: nat): (p: nat)
    ensures p >= 1
  {
    if n == 0 then 1 else 10 * Pow10(n - 1)
  }

  predicate IsDigit(c: char)
  {
    '0' <= c <= '9'
  }

  predicate AllDigits(s: string)
  {
    forall i :: 0 <= i < |s| ==> IsDigit(s[i])
  }

  function DigitChar(k: int): (c: char)
    requires 0 <= k < 10
    ensures IsDigit(c) && c as int - '0' as int == k
  {
    ('0' as int + k) as char
  }

  /** The last `width` decimal digits of n, with leading zeros (strftime's %m, %d, %H, ...). */
  function Pad(n: nat, width: nat): (s: string)
    ensures |s| == width && AllDigits(s)
  {
    if width == 0 then [] else Pad(n / 10, width - 1) + [DigitChar(n % 10)]
  }

  /** The number a string of decimal digits denotes. */
  function DigitsValue(s: string): (v: nat)
    requires AllDigits(s)
    ensures v < Pow10(|s|)
  {
    if s == [] then 0
    else DigitsValue(s[..|s| - 1]) * 10 + (s[|s| - 1] as int - '0' as int)
  }

  lemma {:induction false} PadValue(n: nat, width: nat)
    requires n < Pow10(width)
    ensures DigitsValue(Pad(n, width)) == n
  {
    if width > 0 {
      var s := Pad(n, width);
      assert n / 10 < Pow10(width - 1);
      PadValue(n / 10, width - 1);
      assert s[..|s| - 1] == Pad(n / 10, width - 1);
    }
  }

  lemma {:induction false} ValuePad(s: string)
    requires AllDigits(s)
    ensures Pad(DigitsValue(s), |s|) == s
  {
    if s != [] {
      var init := s[..|s| - 1];
      var last := s[|s| - 1] as int - '0' as int;
      ValuePad(init);
      DecimalShift(DigitsValue(init), last);
      assert DigitChar(last) == s[|s| - 1];
      assert s == init + [s[|s| - 1]];
    }
  }

  lemma DecimalShift(v: nat, last: int)
    requires 0 <= last < 10
    ensures (v * 10 + last) / 10 == v && (v * 10 + last) % 10 == last
  {
  }

  /** Zero-padding to a fixed width loses nothing for numbers that fit. */
  lemma PadInjective(n: nat, m: nat, width: nat)
    requires n < Pow10(width) && m < Pow10(width)
    requires Pad(n, width) == Pad(m, width)
    ensures n == m
  {
    PadValue(n, width);
    PadValue(m, width);
  }

  // ---------------------------------------------------------------------------
  // Text forms of dates

  /** strftime("%Y-%m-%d"). */
  function FormatDate(d: Date): (s: string)
    requires IsValidDate(d)
    ensures |s| == 10 && s[4] == '-' && s[7] == '-'
    ensures forall i :: 0 <= i < 10 && i != 4 && i != 7 ==> IsDigit(s[i])
  {
    Pad(d.year, 4) + "-" + Pad(d.month, 2) + "-" + Pad(d.day, 2)
  }

  /** strftime("%Y-%m-%d %H:%M:%S"), the form of an invoice record's date. */
  function FormatDateTime(t: DateTime): (s: string)
    requires IsValidDateTime(t)
    ensures |s| == 19 && s[..10] == FormatDate(t.date)
    ensures s[10] == ' ' && s[13] == ':' && s[16] == ':'
  {
    FormatDate(t.date) + " " + Pad(t.hour, 2) + ":" + Pad(t.minute, 2) + ":" + Pad(t.second, 2)
  }

  /** strftime("%Y%m%d%H%M%S"), the timestamp inside an invoice ID. */
  function Stamp(t: DateTime): (s: string)
    requires IsValidDateTime(t)
    ensures |s| == 14 && AllDigits(s)
  {
    Pad(t.date.year, 4) + Pad(t.date.month, 2) + Pad(t.date.day, 2)
      + Pad(t.hour, 2) + Pad(t.minute, 2) + Pad(t.second, 2)
  }

  /** Two valid instants with the same timestamp text are the same instant (to the second). */
  lemma StampInjective(t1: DateTime, t2: DateTime)
    requires IsValidDateTime(t1) && IsValidDateTime(t2)
    requires Stamp(t1) == Stamp(t2)
    ensures t1 == t2
  {
    var s1, s2 := Stamp(t1), Stamp(t2);
    assert Pow10(2) == 100 && Pow10(4) == 10000;
    assert s1[0..4] == Pad(t1.date.year, 4) && s2[0..4] == Pad(t2.date.year, 4);
    assert s1[4..6] == Pad(t1.date.month, 2) && s2[4..6] == Pad(t2.date.month, 2);
    assert s1[6..8] == Pad(t1.date.day, 2) && s2[6..8] == Pad(t2.date.day, 2);
    assert s1[8..10] == Pad(t1.hour, 2) && s2[8..10] == Pad(t2.hour, 2);
    assert s1[10..12] == Pad(t1.minute, 2) && s2[10..12] == Pad(t2.minute, 2);
    assert s1[12..14] == Pad(t1.second, 2) && s2[12..14] == Pad(t2.second, 2);
    PadInjective(t1.date.year, t2.date.year, 4);
    PadInjective(t1.date.month, t2.date.month, 2);
    PadInjective(t1.date.day, t2.date.day, 2);
    PadInjective(t1.hour, t2.hour, 2);
    PadInjective(t1.minute, t2.minute, 2);
    PadInjective(t1.second, t2.second, 2);
  }

  /**
   * strptime(s, "%Y-%m-%d") on the text it is given: exactly four, two and two
   * digits separated by '-', naming a valid date.
   */
  function ParseDate(s: string): (r: Option<Date>)
    ensures r.Some? ==> IsValidDate(r.value) && FormatDate(r.value) == s
  {
    if |s| == 10 && s[4] == '-' && s[7] == '-'
       && AllDigits(s[..4]) && AllDigits(s[5..7]) && AllDigits(s[8..])
    then
      var d := Date(DigitsValue(s[..4]), DigitsValue(s[5..7]), DigitsValue(s[8..]));
      if IsValidDate(d) then
        FormatParsedFields(s);
        Some(d)
      else None
    else None
  }

  lemma FormatParsedFields(s: string)
    requires |s| == 10 && s[4] == '-' && s[7] == '-'
    requires AllDigits(s[..4]) && AllDigits(s[5..7]) && AllDigits(s[8..])
    requires IsValidDate(Date(DigitsValue(s[..4]), DigitsValue(s[5..7]), DigitsValue(s[8..])))
    ensures FormatDate(Date(DigitsValue(s[..4]), DigitsValue(s[5..7]), DigitsValue(s[8..]))) == s
  {
    ValuePad(s[..4]);
    ValuePad(s[5..7]);
    ValuePad(s[8..]);
    assert s == s[..4] + "-" + s[5..7] + "-" + s[8..];
  }

  /** Parsing reads back every date the formatter writes. */
  lemma ParseFormatDate(d: Date)
    requires IsValidDate(d)
    ensures ParseDate(FormatDate(d)) == Some(d)
  {
    var s := FormatDate(d);
    assert Pow10(2) == 100 && Pow10(4) == 10000;
    assert s[..4] == Pad(d.year, 4);
    assert s[5..7] == Pad(d.month, 2);
    assert s[8..] == Pad(d.day, 2);
    PadValue(d.year, 4);
    PadValue(d.month, 2);
    PadValue(d.day, 2);
  }

  // ---------------------------------------------------------------------------
  // The first whitespace-separated field of a string (Python's s.split()[0])

  predicate IsSpace(c: char)
  {
    c == ' ' || '\t' <= c <= '\r'
  }

  function TrimStart(s: string): (t: string)
    ensures |t| <= |s| && t == s[|s| - |t|..]
    ensures t == [] || !IsSpace(t[0])
    ensures forall i :: 0 <= i < |s| - |t| ==> IsSpace(s[i])
  {
    if s != [] && IsSpace(s[0]) then TrimStart(s[1..]) else s
  }

  function TakeWord(s: string): (w: string)
    ensures |w| <= |s| && w == s[..|w|]
    ensures forall i :: 0 <= i < |w| ==> !IsSpace(w[i])
    ensures |w| == |s| || IsSpace(s[|w|])
  {
    if s == [] || IsSpace(s[0]) then [] else [s[0]] + TakeWord(s[1..])
  }

  /** Where the first field of s starts: just past its leading whitespace (|s| when there is none). */
  function FieldStart(s: string): (k: nat)
    ensures k <= |s| && (k == |s| || !IsSpace(s[k]))
    ensures forall i :: 0 <= i < k ==> IsSpace(s[i])
  {
    |s| - |TrimStart(s)|
  }

  /**
   * s.split()[0]: the run of non-whitespace characters starting at the first
   * non-whitespace character and ending at the next whitespace character or
   * the end; None where Python raises IndexError (s is empty or all whitespace).
   */
  function FirstField(s: string): (r: Option<string>)
    ensures r.None? <==> forall i :: 0 <= i < |s| ==> IsSpace(s[i])
    ensures r.Some? ==> r.value != [] && forall i :: 0 <= i < |r.value| ==> !IsSpace(r.value[i])
    ensures r.Some? ==>
      var k := FieldStart(s);
      && k + |r.value| <= |s|
      && s[k..k + |r.value|] == r.value
      && (k + |r.value| == |s| || IsSpace(s[k + |r.value|]))
  {
    var t := TrimStart(s);
    if t == [] then None
    else
      assert t[0] == s[|s| - |t|];
      var w := TakeWord(t);
      assert s[FieldStart(s)..FieldStart(s) + |w|] == w;
      Some(w)
  }

  lemma {:induction false} TakeWordUpToSpace(w: string, rest: string)
    requires forall i :: 0 <= i < |w| ==> !IsSpace(w[i])
    ensures TakeWord(w + " " + rest) == w
  {
    if w != [] {
      assert (w + " " + rest)[1..] == w[1..] + " " + rest;
      TakeWordUpToSpace(w[1..], rest);
    }
  }

  /** The first field of a formatted record date is its date part. */
  lemma FirstFieldOfDateTime(t: DateTime)
    requires IsValidDateTime(t)
    ensures FirstField(FormatDateTime(t)) == Some(FormatDate(t.date))
  {
    var day := FormatDate(t.date);
    var rest := Pad(t.hour, 2) + ":" + Pad(t.minute, 2) + ":" + Pad(t.second, 2);
    assert FormatDateTime(t) == day + " " + rest;
    assert forall i :: 0 <= i < |day| ==> IsDigit(day[i]) || day[i] == '-' by {
      assert day == Pad(t.date.year, 4) + "-" + Pad(t.date.month, 2) + "-" + Pad(t.date.day, 2);
    }
    TakeWordUpToSpace(day, rest);
  }

  // ---------------------------------------------------------------------------
  // The due date on an invoice

  /**
   * The "Due Date:" cell: the first field of the record's date read as
   * YYYY-MM-DD, plus thirty days, written as YYYY-MM-DD. Fails where the
   * tool's code raises: no field (IndexError), a field that is not a date
   * (ValueError), or a due date past year 9999 (OverflowError).
   */
  function DueDate(recordDate: string): (r: Result<string>)
    ensures r.Success? <==>
      && FirstField(recordDate).Some?
      && ParseDate(FirstField(recordDate).value).Some?
      && AddDays(ParseDate(FirstField(recordDate).value).value, PaymentTermDays).year <= MaxYear
    ensures r.Success? ==>
      var issued := ParseDate(FirstField(recordDate).value).value;
      && ParseDate(r.value).Some?
      && DayNumber(ParseDate(r.value).value) == DayNumber(issued) + PaymentTermDays
  {
    match FirstField(recordDate)
    case None => Failure(IndexError(0))
    case Some(field) =>
      match ParseDate(field)
      case None => Failure(DateValueError(field))
      case Some(issued) =>
        var due := AddDays(issued, PaymentTermDays);
        if due.year > MaxYear then Failure(DateOverflow)
        else
          ParseFormatDate(due);
          Success(FormatDate(due))
  }

  /** The due date of a record dated at clock reading t is the date thirty days after t's date. */
  lemma DueDateOfRecordDate(t: DateTime)
    requires IsValidDateTime(t)
    requires AddDays(t.date, PaymentTermDays).year <= MaxYear
    ensures DueDate(FormatDateTime(t)) == Success(FormatDate(AddDays(t.date, PaymentTermDays)))
  {
    FirstFieldOfDateTime(t);
    ParseFormatDate(t.date);
  }

  /** The due date is the one calendar day whose day number is thirty more than the issue date's. */
  lemma DueDateIsUnique(issued: Date, due: Date)
    requires IsCivil(issued) && IsCivil(due)
    requires DayNumber(due) == DayNumber(issued) + PaymentTermDays
    ensures due == AddDays(issued, PaymentTermDays)
  {
    DayNumberInjective(due, AddDays(issued, PaymentTermDays));
  }

  /** An invoice issued on 2024-02-15 is due on 2024-03-16 (February 2024 has 29 days). */
  lemma DueDateAcrossLeapFebruary()
    ensures AddDays(Date(2024, 2, 15), PaymentTermDays) == Date(2024, 3, 16)
  {
    DueDateIsUnique(Date(2024, 2, 15), Date(2024, 3, 16));
  }

  /** An invoice issued on 2023-02-15 is due on 2023-03-17 (February 2023 has 28 days). */
  lemma DueDateAcrossCommonFebruary()
    ensures AddDays(Date(2023, 2, 15), PaymentTermDays) == Date(2023, 3, 17)
  {
    DueDateIsUnique(Date(2023, 2, 15), Date(2023, 3, 17));
  }

  /** An invoice issued on 2023-12-15 is due on 2024-01-14. */
  lemma DueDateAcrossYearEnd()
    ensures AddDays(Date(2023, 12, 15), PaymentTermDays) == Date(2024, 1, 14)
  {
    DueDateIsUnique(Date(2023, 12, 15), Date(2024, 1, 14));
  }

  /** A record dated 9999-12-15 has no due date: thirty days later is in year 10000. */
  lemma DueDateOverflows(t: DateTime)
    requires IsValidDateTime(t) && t.date == Date(9999, 12, 15)
    ensures DueDate(FormatDateTime(t)) == Failure(DateOverflow)
  {
    assert AddDays(t.date, PaymentTermDays).year == 10000 by {
      DueDateIsUnique(Date(9999, 12, 15), Date(10000, 1, 14));
    }
    FirstFieldOfDateTime(t);
    ParseFormatDate(t.date);
  }
}
