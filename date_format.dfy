/**
 The date strings the synchronisation code reads and writes: the accepted API formats
 "%d %B %Y" (full English month name) and "%d %b %Y" (abbreviated name), tried in order
 with the first that parses winning, and the stored form "%d-%m-%Y".
 ParseDate accepts the strings Python's strptime accepts for these formats that are
 written with ASCII digits, single spaces and capitalised month names.
 */
module DateFormat {
  import opened Wrappers
  import opened Text
  import opened Calendar

  /** "%d %B %Y" or "%d %b %Y". */
  datatype Format = FullMonthName | AbbreviatedMonthName

  /** The order in which the main engine and the app try the formats. */
  const AcceptedFormats: seq<Format> := [FullMonthName, AbbreviatedMonthName]

  /** The name of month m (1..12) in format f: %B (full) or %b (abbreviated), English locale. */
  function MonthName(f: Format, m: int): string
    requires 1 <= m <= 12
  {
    match f
    case FullMonthName =>
      if m == 1 then "January" else if m == 2 then "February" else if m == 3 then "March"
      else if m == 4 then "April" else if m == 5 then "May" else if m == 6 then "June"
      else if m == 7 then "July" else if m == 8 then "August" else if m == 9 then "September"
      else if m == 10 then "October" else if m == 11 then "November" else "December"
    case AbbreviatedMonthName =>
      if m == 1 then "Jan" else if m == 2 then "Feb" else if m == 3 then "Mar"
      else if m == 4 then "Apr" else if m == 5 then "May" else if m == 6 then "Jun"
      else if m == 7 then "Jul" else if m == 8 then "Aug" else if m == 9 then "Sep"
      else if m == 10 then "Oct" else if m == 11 then "Nov" else "Dec"
  }

  /**
   The only month whose name can be s in either format, read off the second and third
   letters, which differ between any two months; 0 when those letters fit no month.
   */
  function MonthKey(s: string): int {
    if |s| < 3 then 0
    else
      var x, y := s[1], s[2];
      if false then 0
    else if x == 'a' && y == 'n' then 1
    else if x == 'e' && y == 'b' then 2
    else if x == 'a' && y == 'r' then 3
    else if x == 'p' && y == 'r' then 4
    else if x == 'a' && y == 'y' then 5
    else if x == 'u' && y == 'n' then 6
    else if x == 'u' && y == 'l' then 7
    else if x == 'u' && y == 'g' then 8
    else if x == 'e' && y == 'p' then 9
    else if x == 'c' && y == 't' then 10
    else if x == 'o' && y == 'v' then 11
    else if x == 'e' && y == 'c' then 12
      else 0
  }

  /** Each month name leads back to its month and holds no space. */
  lemma MonthKeyOfName(f: Format, m: int)
    requires 1 <= m <= 12
    ensures MonthKey(MonthName(f, m)) == m
    ensures ' ' !in MonthName(f, m)
  {
    match f
    case FullMonthName =>
      if m == 1 {
      } else if m == 2 {
      } else if m == 3 {
      } else if m == 4 {
      } else if m == 5 {
      } else if m == 6 {
      } else if m == 7 {
      } else if m == 8 {
      } else if m == 9 {
      } else if m == 10 {
      } else if m == 11 {
      } else {
      }
    case AbbreviatedMonthName =>
      if m == 1 {
      } else if m == 2 {
      } else if m == 3 {
      } else if m == 4 {
      } else if m == 5 {
      } else if m == 6 {
      } else if m == 7 {
      } else if m == 8 {
      } else if m == 9 {
      } else if m == 10 {
      } else if m == 11 {
      } else {
      }
  }

  /** The month number (1..12) a name stands for in format f, or None when it names no month. */
  function MonthNumber(name: string, f: Format): (m: Option<int>)
    ensures m.Some? ==> 1 <= m.value <= 12 && MonthName(f, m.value) == name
    ensures m.None? <==> forall k :: 1 <= k <= 12 ==> MonthName(f, k) != name
  {
    var k := MonthKey(name);
    if 1 <= k <= 12 && MonthName(f, k) == name then Some(k)
    else
      assert forall j :: 1 <= j <= 12 ==> MonthName(f, j) != name by {
        forall j | 1 <= j <= 12 ensures MonthName(f, j) != name {
          MonthKeyOfName(f, j);
        }
      }
      None
  }

  /** datetime.strptime(s, f), with None for the ValueError it raises. */
  function ParseDate(s: string, f: Format): Option<Date> {
    ParseFields(Split(s, ' '), f)
  }

  /** What strptime returns is a real calendar date with a four-digit year. */
  lemma ParseDateValid(s: string, f: Format)
    requires ParseDate(s, f).Some?
    ensures ValidDate(ParseDate(s, f).value) && 1 <= ParseDate(s, f).value.year <= 9999
  {
    var fields := Split(s, ' ');
    DecimalValueBound(fields[2]);
  }

  /** The day, month-name and year fields of a date string, checked and converted. */
  function ParseFields(fields: seq<string>, f: Format): Option<Date> {
    if |fields| != 3 then None
    else if !(1 <= |fields[0]| <= 2 && AllDigits(fields[0])) then None
    else if !(|fields[2]| == 4 && AllDigits(fields[2])) then None
    else
      match MonthNumber(fields[1], f)
      case None => None
      case Some(m) =>
        var d := Date(DecimalValue(fields[2]), m, DecimalValue(fields[0]));
        if ValidDate(d) then Some(d) else None
  }

  lemma {:induction false} NatToStringLength(n: nat, bound: nat, k: nat)
    requires 1 <= k && n < bound
    requires bound == if k == 1 then 10 else if k == 2 then 100 else if k == 3 then 1000 else 10000
    requires k <= 4
    ensures |NatToString(n)| <= k
  {
    if n >= 10 {
      NatToStringLength(n / 10, bound / 10, k - 1);
    }
  }

  /** The text of d in format f, with a two-digit day and a four-digit year. */
  function Spelled(d: Date, f: Format): string
    requires ValidDate(d)
  {
    Pad2(d.day) + " " + MonthName(f, d.month) + " " + ZeroPad(NatToString(d.year), 4)
  }

  /** Month names read back as their own month. */
  lemma MonthNumberOfName(f: Format, m: int)
    requires 1 <= m <= 12
    ensures MonthNumber(MonthName(f, m), f) == Some(m)
  {
    MonthKeyOfName(f, m);
  }

  lemma ParseFieldsOf(a: string, b: string, c: string, f: Format, d: Date)
    requires 1 <= |a| <= 2 && AllDigits(a) && DecimalValue(a) == d.day
    requires |c| == 4 && AllDigits(c) && DecimalValue(c) == d.year
    requires MonthNumber(b, f) == Some(d.month)
    requires ValidDate(d)
    ensures ParseFields([a, b, c], f) == Some(d)
  {
    var fields := [a, b, c];
    assert fields[0] == a && fields[1] == b && fields[2] == c;
  }

  /** The space-separated fields of a spelled date: padded day, month name, four-digit year. */
  lemma SpelledFields(d: Date, f: Format)
    requires ValidDate(d) && d.year <= 9999
    ensures Split(Spelled(d, f), ' ') == [Pad2(d.day), MonthName(f, d.month), ZeroPad(NatToString(d.year), 4)]
  {
    var a, b, c := Pad2(d.day), MonthName(f, d.month), ZeroPad(NatToString(d.year), 4);
    ZeroPadValue(NatToString(d.day), 2);
    ZeroPadValue(NatToString(d.year), 4);
    NonDigitAbsent(a, ' ');
    NonDigitAbsent(c, ' ');
    MonthKeyOfName(f, d.month);
    assert Spelled(d, f) == a + [' '] + b + [' '] + c;
    SplitThree(a, b, c, ' ');
  }

  /** Every valid date up to year 9999, spelled in either format, parses back to itself. */
  lemma ParseSpelled(d: Date, f: Format)
    requires ValidDate(d) && d.year <= 9999
    ensures ParseDate(Spelled(d, f), f) == Some(d)
  {
    var a, b, c := Pad2(d.day), MonthName(f, d.month), ZeroPad(NatToString(d.year), 4);
    SpelledFields(d, f);
    ZeroPadValue(NatToString(d.day), 2);
    ZeroPadValue(NatToString(d.year), 4);
    NatToStringLength(d.day, 100, 2);
    NatToStringLength(d.year, 10000, 4);
    assert 1 <= |a| <= 2 && AllDigits(a) && DecimalValue(a) == d.day;
    assert |c| == 4 && AllDigits(c) && DecimalValue(c) == d.year;
    MonthNumberOfName(f, d.month);
    ParseFieldsOf(a, b, c, f, d);
  }

  /** Abbreviations have three letters; every full name but "May" is longer. */
  lemma MonthNameLengths(m: int)
    requires 1 <= m <= 12
    ensures |MonthName(AbbreviatedMonthName, m)| == 3
    ensures m != 5 <==> |MonthName(FullMonthName, m)| > 3
  {
  }

  /** An abbreviation other than "May" is no full month name. */
  lemma AbbreviationNotFullName(m: int)
    requires 1 <= m <= 12 && m != 5
    ensures MonthNumber(MonthName(AbbreviatedMonthName, m), FullMonthName).None?
  {
    MonthKeyOfName(AbbreviatedMonthName, m);
    MonthNameLengths(m);
  }

  lemma AbbreviatedRejected(d: Date)
    requires ValidDate(d) && d.year <= 9999 && d.month != 5
    ensures ParseDate(Spelled(d, AbbreviatedMonthName), FullMonthName).None?
  {
    var fields := Split(Spelled(d, AbbreviatedMonthName), ' ');
    SpelledFields(d, AbbreviatedMonthName);
    AbbreviationNotFullName(d.month);
    UnknownMonthRejected(fields, FullMonthName);
  }

  /** A middle field naming no month fails the parse. */
  lemma UnknownMonthRejected(fields: seq<string>, f: Format)
    requires |fields| >= 2 && MonthNumber(fields[1], f).None?
    ensures ParseFields(fields, f).None?
  {
  }

  /**
   "%d %B %Y" rejects a date spelled with an abbreviated month name, except for May,
   whose abbreviation is its full name.
   */
  lemma AbbreviatedNotFull(d: Date)
    requires ValidDate(d) && d.year <= 9999
    ensures ParseDate(Spelled(d, AbbreviatedMonthName), FullMonthName).None? <==> d.month != 5
  {
    if d.month != 5 {
      AbbreviatedRejected(d);
    } else {
      assert MonthName(AbbreviatedMonthName, 5) == MonthName(FullMonthName, 5);
      ParseSpelled(d, FullMonthName);
    }
  }

  /** The first format in the list that parses raw: the try-each-format loop with `break`. */
  function FirstParse(raw: string, formats: seq<Format>): (r: Option<Date>)
    ensures r.None? <==> forall i :: 0 <= i < |formats| ==> ParseDate(raw, formats[i]).None?
    ensures r.Some? ==> exists i :: 0 <= i < |formats| && ParseDate(raw, formats[i]) == r
                                  && forall j :: 0 <= j < i ==> ParseDate(raw, formats[j]).None?
  {
    if formats == [] then None
    else if ParseDate(raw, formats[0]).Some? then ParseDate(raw, formats[0])
    else
      var r := FirstParse(raw, formats[1..]);
      assert forall i :: 1 <= i < |formats| ==> formats[i] == formats[1..][i - 1];
      r
  }

  /** Whatever format wins, the date it yields is a real calendar date with a four-digit year. */
  lemma FirstParseValid(raw: string, formats: seq<Format>)
    requires FirstParse(raw, formats).Some?
    ensures ValidDate(FirstParse(raw, formats).value) && FirstParse(raw, formats).value.year <= 9999
  {
    var i :| 0 <= i < |formats| && ParseDate(raw, formats[i]) == FirstParse(raw, formats)
             && forall j :: 0 <= j < i ==> ParseDate(raw, formats[j]).None?;
    ParseDateValid(raw, formats[i]);
  }

  /** The loop that tries each format in turn and stops at the first that parses. */
  method TryFormats(raw: string, formats: seq<Format>) returns (dt: Option<Date>)
    ensures dt == FirstParse(raw, formats)
  {
    dt := None;
    var i := 0;
    while i < |formats| && dt.None?
      invariant 0 <= i <= |formats|
      invariant dt.None? ==> FirstParse(raw, formats) == FirstParse(raw, formats[i..])
      invariant dt.Some? ==> dt == FirstParse(raw, formats)
    {
      assert formats[i..][0] == formats[i] && formats[i..][1..] == formats[i + 1..];
      dt := ParseDate(raw, formats[i]);
      i := i + 1;
    }
  }

  /** The stored form: dt.strftime("%d-%m-%Y"). */
  function FormatDate(d: Date): string
    requires ValidDate(d)
  {
    Pad2(d.day) + "-" + Pad2(d.month) + "-" + NatToString(d.year)
  }

  /** The date's '-' fields are its padded day, its padded month and its year. */
  lemma FormatDateFields(d: Date)
    requires ValidDate(d)
    ensures Split(FormatDate(d), '-') == [Pad2(d.day), Pad2(d.month), NatToString(d.year)]
    ensures Split(FormatDate(d), '-')[1] == Pad2(d.month)
  {
    var a, b, c := Pad2(d.day), Pad2(d.month), NatToString(d.year);
    ZeroPadValue(NatToString(d.day), 2);
    ZeroPadValue(NatToString(d.month), 2);
    NonDigitAbsent(a, '-');
    NonDigitAbsent(b, '-');
    NonDigitAbsent(c, '-');
    assert FormatDate(d) == a + ['-'] + b + ['-'] + c;
    SplitThree(a, b, c, '-');
  }

  /** Different dates are stored under different strings, so the stored form is a sound dedupe key. */
  lemma FormatDateInjective(d: Date, e: Date)
    requires ValidDate(d) && ValidDate(e) && FormatDate(d) == FormatDate(e)
    ensures d == e
  {
    FormatDateFields(d);
    FormatDateFields(e);
    ZeroPadValue(NatToString(d.day), 2);
    ZeroPadValue(NatToString(d.month), 2);
    ZeroPadValue(NatToString(e.day), 2);
    ZeroPadValue(NatToString(e.month), 2);
  }
}
