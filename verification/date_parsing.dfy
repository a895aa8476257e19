/** `_parse_date` of the journal-entry import: a datetime cell gives its
    date, a date cell itself, and a text cell is read with `strptime` in the
    formats `%Y-%m-%d`, `%d/%m/%Y` and `%d-%m-%Y`, in that order. */
module DateParsing {
  import opened Base
  import opened Dates

  /** The value pandas hands over for a Date cell. */
  datatype DateValue =
    | DateTimeValue(date: ValidDate, secondOfDay: nat)
    | DateOnly(date: ValidDate)
    | Text(text: string)
    | Other(typeName: string)

  /** `s.split(sep)`. */
  function Split(s: string, sep: char): (parts: seq<string>)
    ensures |parts| >= 1
  {
    if s == [] then [[]]
    else if s[0] == sep then [[]] + Split(s[1..], sep)
    else
      var rest := Split(s[1..], sep);
      [[s[0]] + rest[0]] + rest[1..]
  }

  /** `%Y`: exactly four digits. */
  function YearField(s: string): Option<int>
  {
    if |s| == 4 && AllDigits(s) then Some(DigitsValue(s)) else None
  }

  /** `%m` (and the digit forms of `%d`): one or two digits naming a number
      from 1 to `max`. */
  function SmallField(s: string, max: nat): Option<int>
  {
    if 1 <= |s| <= 2 && AllDigits(s) && 1 <= DigitsValue(s) <= max then Some(DigitsValue(s)) else None
  }

  /** `%d`, whose pattern also admits a space before a single digit 1-9. */
  function DayField(s: string): (r: Option<int>)
    ensures r.Some? ==> 1 <= r.value <= 31
    ensures |s| == 2 && s[0] == ' ' ==> (r.Some? <==> '1' <= s[1] <= '9')
    ensures |s| == 2 && s[0] == ' ' && r.Some? ==> r.value == s[1] as int - '0' as int
    ensures !(|s| == 2 && s[0] == ' ') ==> r == SmallField(s, 31)
  {
    if |s| == 2 && s[0] == ' ' then
      if '1' <= s[1] <= '9' then Some(s[1] as int - '0' as int) else None
    else SmallField(s, 31)
  }

  datatype Layout = YearFirst | DayFirst

  /** `datetime.strptime(s, fmt).date()` for the three numeric formats; None
      where Python raises ValueError (no match, text left over, or no such day). */
  function Strptime(s: string, layout: Layout, sep: char): (r: Option<Date>)
    ensures r.Some? ==> Valid(r.value)
  {
    var parts := Split(s, sep);
    if |parts| != 3 then None
    else
      var (ys, ds) := if layout == YearFirst then (parts[0], parts[2]) else (parts[2], parts[0]);
      match (YearField(ys), SmallField(parts[1], 12), DayField(ds))
      case (Some(y), Some(m), Some(d)) => MakeDate(y, m, d)
      case _ => None
  }

  /** `_parse_date`. */
  function ParseDate(v: DateValue): (r: Result<Date>)
    ensures r.Ok? ==> Valid(r.value)
    ensures v.DateTimeValue? || v.DateOnly? ==> r == Ok(v.date)
    ensures v.Other? ==> r == Err("Type de date invalide: <class '" + v.typeName + "'>")
    ensures v.Text? ==> (r.Ok? <==>
      Strptime(v.text, YearFirst, '-').Some?
      || Strptime(v.text, DayFirst, '/').Some?
      || Strptime(v.text, DayFirst, '-').Some?)
  {
    match v
    case DateTimeValue(d, _) => Ok(d)
    case DateOnly(d) => Ok(d)
    case Text(s) =>
      var iso := Strptime(s, YearFirst, '-');
      if iso.Some? then Ok(iso.value)
      else
        var slashed := Strptime(s, DayFirst, '/');
        if slashed.Some? then Ok(slashed.value)
        else
          var dashed := Strptime(s, DayFirst, '-');
          if dashed.Some? then Ok(dashed.value)
          else Err("Format de date invalide: " + s)
    case Other(t) => Err("Type de date invalide: <class '" + t + "'>")
  }

  // ---------------------------------------------------------------------------
  // Round trips: a date written in any of the three formats reads back as itself.

  function Pad2(n: nat): (s: string)
    requires n < 100
    ensures |s| == 2 && AllDigits(s)
  {
    [DigitChar(n / 10), DigitChar(n % 10)]
  }

  function Pad4(n: nat): (s: string)
    requires n < 10000
    ensures |s| == 4 && AllDigits(s)
  {
    [DigitChar(n / 1000), DigitChar(n / 100 % 10), DigitChar(n / 10 % 10), DigitChar(n % 10)]
  }

  /** `d.isoformat()`, the layout of the import template. */
  function IsoFormat(d: Date): string
    requires Valid(d)
  {
    Pad4(d.year) + "-" + Pad2(d.month) + "-" + Pad2(d.day)
  }

  /** `d.strftime('%d' + sep + '%m' + sep + '%Y')`. */
  function DayFirstFormat(d: Date, sep: char): string
    requires Valid(d)
  {
    Pad2(d.day) + [sep] + Pad2(d.month) + [sep] + Pad4(d.year)
  }

  lemma Pad2Value(n: nat)
    requires n < 100
    ensures DigitsValue(Pad2(n)) == n
  {
    var s := Pad2(n);
    assert s[..1][..0] == [];
    assert DigitsValue(s[..1]) == n / 10;
  }

  /** Each leading part of a number's decimal digits is the number divided
      by a power of ten. */
  lemma PlaceValues(n: nat)
    ensures n / 100 == n / 1000 * 10 + n / 100 % 10
    ensures n / 10 == n / 100 * 10 + n / 10 % 10
  {
    assert n / 1000 == n / 100 / 10 && n / 100 == n / 10 / 10;
  }

  lemma Pad4Value(n: nat)
    requires n < 10000
    ensures DigitsValue(Pad4(n)) == n
  {
    var s := Pad4(n);
    PlaceValues(n);
    assert s[..1][..0] == [];
    assert s[..2][..1] == s[..1];
    assert s[..3][..2] == s[..2];
    assert s[..4][..3] == s[..3];
    assert DigitsValue(s[..1]) == n / 1000;
    assert DigitsValue(s[..2]) == n / 100;
    assert DigitsValue(s[..3]) == n / 10;
  }

  lemma {:induction false} SplitNoSep(a: string, sep: char)
    requires sep !in a
    ensures Split(a, sep) == [a]
  {
    if a != [] {
      assert sep !in a[1..];
      SplitNoSep(a[1..], sep);
      assert [a[0]] + a[1..] == a;
    }
  }

  lemma {:induction false} SplitAtSep(a: string, b: string, sep: char)
    requires sep !in a
    ensures Split(a + [sep] + b, sep) == [a] + Split(b, sep)
  {
    if a == [] {
      assert a + [sep] + b == [sep] + b;
      assert ([sep] + b)[1..] == b;
    } else {
      assert (a + [sep] + b)[1..] == a[1..] + [sep] + b;
      assert sep !in a[1..];
      SplitAtSep(a[1..], b, sep);
      assert [a[0]] + a[1..] == a;
    }
  }

  lemma SplitThree(a: string, b: string, c: string, sep: char)
    requires sep !in a && sep !in b && sep !in c
    ensures Split(a + [sep] + b + [sep] + c, sep) == [a, b, c]
  {
    assert a + [sep] + b + [sep] + c == a + [sep] + (b + [sep] + c);
    SplitAtSep(a, b + [sep] + c, sep);
    SplitAtSep(b, c, sep);
    SplitNoSep(c, sep);
  }

  lemma IsoFormatReadsBack(d: Date)
    requires Valid(d)
    ensures ParseDate(Text(IsoFormat(d))) == Ok(d)
  {
    Pad4Value(d.year);
    Pad2Value(d.month);
    Pad2Value(d.day);
    SplitThree(Pad4(d.year), Pad2(d.month), Pad2(d.day), '-');
    assert Strptime(IsoFormat(d), YearFirst, '-') == Some(d);
  }

  /** A day-first string never matches `%Y-%m-%d`, so it reaches the later formats. */
  lemma DayFirstIsNotIso(d: Date, sep: char)
    requires Valid(d) && (sep == '/' || sep == '-')
    ensures Strptime(DayFirstFormat(d, sep), YearFirst, '-').None?
  {
    var s := DayFirstFormat(d, sep);
    if sep == '/' {
      assert forall i :: 0 <= i < |s| ==> s[i] != '-';
      SplitNoSep(s, '-');
    } else {
      SplitThree(Pad2(d.day), Pad2(d.month), Pad4(d.year), sep);
      assert Split(s, '-')[0] == Pad2(d.day);
    }
  }

  lemma DayFirstFormatReadsBack(d: Date, sep: char)
    requires Valid(d) && (sep == '/' || sep == '-')
    ensures ParseDate(Text(DayFirstFormat(d, sep))) == Ok(d)
  {
    var s := DayFirstFormat(d, sep);
    Pad4Value(d.year);
    Pad2Value(d.month);
    Pad2Value(d.day);
    SplitThree(Pad2(d.day), Pad2(d.month), Pad4(d.year), sep);
    assert Strptime(s, DayFirst, sep) == Some(d);
    DayFirstIsNotIso(d, sep);
    if sep == '-' {
      assert forall i :: 0 <= i < |s| ==> s[i] != '/';
      SplitNoSep(s, '/');
    }
  }

  /** A day written as a space and a digit, as `%d` allows, reads back too. */
  lemma SpacePaddedDayReadsBack(d: Date)
    requires Valid(d) && d.day < 10
    ensures ParseDate(Text(Pad4(d.year) + "-" + Pad2(d.month) + "-" + [' ', DigitChar(d.day)])) == Ok(d)
  {
    var day := [' ', DigitChar(d.day)];
    Pad4Value(d.year);
    Pad2Value(d.month);
    assert '-' !in day;
    SplitThree(Pad4(d.year), Pad2(d.month), day, '-');
    assert Pad4(d.year) + "-" + Pad2(d.month) + "-" + day == Pad4(d.year) + ['-'] + Pad2(d.month) + ['-'] + day;
    assert DayField(day) == Some(d.day);
  }

  /** The month field admits no such space. */
  lemma SpacePaddedMonthRejected(s: string)
    requires |s| > 0 && s[0] == ' '
    ensures SmallField(s, 12).None?
  {
    assert !IsDigit(s[0]);
  }
}
