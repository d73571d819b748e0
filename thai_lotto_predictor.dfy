/**
 The main prediction engine, ThaiLottoPredictor: a stored newest-first draw history, a
 count of API failures, synchronisation with the latest published result, the next-draw
 schedule with its cultural bias numbers, and the weighted top-five ranking.
 */
module ThaiLottoPredictor {
  import opened Wrappers
  import opened Text
  import opened Calendar
  import opened DateFormat
  import opened Fetch
  import opened History
  import opened Scoring
  import opened WeightedScoring

  /** The evidence tag the penalty step appends, with its emoji mis-decoded as in the source. */
  const RepeatRiskTag: string := "\U{201A}\U{00F6}\U{2020}\U{00D4}\U{220F}\U{00E8} Repeat Risk"

  /**
   Weights 5 / 3 / 1, a fixed -5 penalty, and a recent factor that only runs once the
   history holds at least five draws.
   */
  const MainConfig: Config :=
    Config(5, 3, 1, -5, AllOrNothing(5), "Cultural Pattern", "Seasonal Match", "Recent Flow", RepeatRiskTag)

  // ---------------------------------------------------------------------------
  // Seed data
  // ---------------------------------------------------------------------------

  /** The eleven bootstrap records used when there is no stored database. */
  function Seed(): seq<Record> {
    [ Record("02-01-2026", "16"), Record("30-12-2025", "59"), Record("16-12-2025", "52"),
      Record("01-12-2025", "22"), Record("16-11-2025", "38"), Record("01-11-2025", "87"),
      Record("17-01-2025", "61"), Record("17-01-2024", "47"), Record("17-01-2023", "92"),
      Record("17-01-2022", "15"), Record("17-01-2021", "68") ]
  }

  /** The stored "DD-MM-YYYY" shape: digits with '-' at positions 2 and 5. */
  predicate StoredShape(date: string) {
    |date| == 10 && date[2] == '-' && date[5] == '-'
    && forall i :: 0 <= i < 10 && i != 2 && i != 5 ==> IsDigit(date[i])
  }

  /** A date of the stored shape splits into day, month and year fields. */
  lemma StoredShapeSplits(date: string)
    requires StoredShape(date)
    ensures |Split(date, '-')| == 3
  {
    var a, b, c := date[..2], date[3..5], date[6..];
    assert date == a + ['-'] + b + ['-'] + c;
    assert '-' !in a && '-' !in b;
    assert '-' !in c by {
      forall i | 0 <= i < |c| ensures c[i] != '-' {
        assert c[i] == date[i + 6];
      }
    }
    SplitThree(a, b, c, '-');
  }

  lemma SeedShapes()
    ensures forall i :: 0 <= i < |Seed()| ==> StoredShape(Seed()[i].date)
  {
  }

  lemma SeedDatesDiffer()
    ensures DatesDistinct(Seed())
  {
  }

  /**
   The seed satisfies what the engine relies on: no date occurs twice and every date has
   the month field the seasonal factor reads.
   */
  lemma SeedWellFormed()
    ensures |Seed()| == 11
    ensures DatesDistinct(Seed()) && MonthFieldsPresent(Seed())
  {
    SeedShapes();
    SeedDatesDiffer();
    forall i | 0 <= i < |Seed()| ensures |Split(Seed()[i].date, '-')| >= 2 {
      StoredShapeSplits(Seed()[i].date);
    }
  }

  // ---------------------------------------------------------------------------
  // Draw schedule and cultural bias
  // ---------------------------------------------------------------------------

  /**
   The draw the engine predicts for, given today's date: after the 16th the 1st of next
   month, otherwise the 16th of this month, then the two holiday shifts. It is a real
   draw date on or after today, and it is today exactly on a 16th outside January.
   */
  function NextDrawDate(now: Date): (r: Date)
    requires ValidDate(now)
    ensures ValidDate(r) && IsDrawDate(r)
    ensures AtOrBefore(now, r)
    ensures r == now <==> now.day == 16 && now.month != 1
  {
    var year := if now.day > 16 && now.month == 12 then now.year + 1 else now.year;
    var month := if now.day > 16 then (if now.month == 12 then 1 else now.month + 1) else now.month;
    var day := if now.day > 16 then 1 else 16;
    var day' := if month == 1 && day == 16 then 17 else if month == 5 && day == 1 then 2 else day;
    Date(year, month, day')
  }

  /**
   The predicted draw is the next one after today except on May 1, where the May 2
   Labour Day draw is passed over for May 16.
   */
  lemma NoDrawSkipped(now: Date, d: Date)
    requires ValidDate(now) && IsDrawDate(d)
    requires Before(now, d) && Before(d, NextDrawDate(now))
    ensures now.month == 5 && now.day == 1 && d == Date(now.year, 5, 2)
  {
  }

  /** The numbers Teacher's Day and Labour Day draws add to the bias list. */
  const TeachersDayNumbers: seq<string> := ["16", "17", "61", "95", "97"]
  const LabourDayNumbers: seq<string> := ["01", "02", "05"]

  /** The holiday numbers for a draw date. */
  function SpecialNumbers(target: Date): seq<string> {
    if target.month == 1 && target.day == 17 then TeachersDayNumbers
    else if target.month == 5 && target.day == 2 then LabourDayNumbers
    else []
  }

  /**
   list(set(bias_nums)): the holiday numbers, the year's last two digits, str(year % 100)
   and "96", each once. Python's set order is unspecified; first-occurrence order stands in for it.
   */
  function BiasNumbers(target: Date): (r: seq<string>)
    requires ValidDate(target)
    ensures NoDup(r)
    ensures forall x :: x in r <==> x in SpecialNumbers(target) || x == "96"
                                     || x == Last2(NatToString(target.year)) || x == NatToString(target.year % 100)
  {
    var y := target.year;
    Distinct(SpecialNumbers(target) + [Last2(NatToString(y)), NatToString(y % 100), "96"])
  }

  /** Two year strings and "96" cannot stand in for three distinct holiday numbers. */
  lemma TwoCannotCover(x: string, y: string, z: string, special: seq<string>, a: string, b: string)
    requires x != y && y != z && x != z && x != "96" && y != "96" && z != "96"
    requires x !in special && y !in special && z !in special
    ensures !((x == a || x == b) && (y == a || y == b) && (z == a || z == b))
  {
  }

  /** All five Teacher's Day numbers are in the bias exactly for a January 17 draw. */
  lemma TeachersDayBias(target: Date)
    requires ValidDate(target)
    ensures (forall x :: x in TeachersDayNumbers ==> x in BiasNumbers(target))
              <==> target.month == 1 && target.day == 17
  {
    if !(target.month == 1 && target.day == 17) {
      var a, b := Last2(NatToString(target.year)), NatToString(target.year % 100);
      TwoCannotCover("16", "17", "61", SpecialNumbers(target), a, b);
      assert "16" in TeachersDayNumbers && "17" in TeachersDayNumbers && "61" in TeachersDayNumbers;
    }
  }

  /** All three Labour Day numbers are in the bias exactly for a May 2 draw. */
  lemma LabourDayBias(target: Date)
    requires ValidDate(target)
    ensures (forall x :: x in LabourDayNumbers ==> x in BiasNumbers(target))
              <==> target.month == 5 && target.day == 2
  {
    if !(target.month == 5 && target.day == 2) {
      var a, b := Last2(NatToString(target.year)), NatToString(target.year % 100);
      TwoCannotCover("01", "02", "05", SpecialNumbers(target), a, b);
      assert "01" in LabourDayNumbers && "02" in LabourDayNumbers && "05" in LabourDayNumbers;
    }
  }

  lemma DivTens(y: nat)
    ensures (y % 100) / 10 == (y / 10) % 10 && (y % 100) % 10 == y % 10
  {
    var a, m := y / 100, y % 100;
    assert y == 100 * a + m;
    assert y / 10 == 10 * a + m / 10;
  }

  lemma {:induction false} TwoDigits(n: nat)
    requires 10 <= n < 100
    ensures NatToString(n) == [DigitChar(n / 10), DigitChar(n % 10)]
  {
    assert NatToString(n) == NatToString(n / 10) + [DigitChar(n % 10)];
  }

  /**
   str(year)[-2:] and str(year % 100) name the same number except for years whose last
   two digits start with 0 (2000 to 2009 give "05" beside "5"), where the bias gains an extra
   one-digit entry.
   */
  lemma {:induction false} YearSuffixQuirk(y: nat)
    ensures NatToString(y % 100) == Last2(NatToString(y)) <==> y < 10 || y % 100 >= 10
  {
    if y >= 10 {
      Last2Digits(y);
      DivTens(y);
      var m := y % 100;
      if m >= 10 {
        TwoDigits(m);
      } else {
        assert |NatToString(m)| == 1;
      }
    } else {
      assert y % 100 == y;
      assert |NatToString(y)| == 1;
    }
  }

  /** The last two characters of str(y) for y from 10 on are its tens and units digits. */
  lemma Last2Digits(y: nat)
    requires y >= 10
    ensures Last2(NatToString(y)) == [DigitChar((y / 10) % 10), DigitChar(y % 10)]
  {
    var q := y / 10;
    var t := NatToString(q);
    assert NatToString(y) == t + [DigitChar(y % 10)];
    if q < 10 {
      assert t == [DigitChar(q)];
    } else {
      assert t == NatToString(q / 10) + [DigitChar(q % 10)];
    }
    assert t[|t| - 1] == DigitChar(q % 10);
    var u := t + [DigitChar(y % 10)];
    assert u[|u| - 2..] == [t[|t| - 1], DigitChar(y % 10)];
  }

  // ---------------------------------------------------------------------------
  // Synchronisation
  // ---------------------------------------------------------------------------

  /** The engine's state: the newest-first history and the consecutive API failure count. */
  datatype Store = Store(history: seq<Record>, apiFailures: nat)

  /** An outcome that counts as an API failure: a RequestException or a non-200 status. */
  predicate IsFailure(o: FetchOutcome) {
    o.TransportError? || (o.Reply? && (o.status != 200 || o.body.NotJson?))
  }

  /**
   sync_online_data for one fetch outcome: a failure bumps the counter; a missing field
   or a date in neither accepted format changes nothing; a parsed date not yet stored is
   prepended in "%d-%m-%Y" form and resets the counter; a known date changes nothing.
   */
  function Synced(s: Store, o: FetchOutcome): Store {
    if IsFailure(o) then Store(s.history, s.apiFailures + 1)
    else if !o.body.Fields? then s
    else
      var dt := FirstParse(o.body.rawDate, AcceptedFormats);
      if dt.None? then s
      else
        FirstParseValid(o.body.rawDate, AcceptedFormats);
        var date := FormatDate(dt.value);
        if HasDate(s.history, date) then s
        else Store([Record(date, o.body.number)] + s.history, 0)
  }

  /** The outcomes that add a record: a 200 reply whose date parses and is not yet stored. */
  predicate AddsRecord(h: seq<Record>, o: FetchOutcome) {
    o.Reply? && o.status == 200 && o.body.Fields?
    && var dt := FirstParse(o.body.rawDate, AcceptedFormats);
    dt.Some? && (FirstParseValid(o.body.rawDate, AcceptedFormats); !HasDate(h, FormatDate(dt.value)))
  }

  /**
   A sync changes the history exactly when it adds a record; adding resets the failure
   count, a failure increments it, and every other outcome leaves it alone.
   */
  lemma SyncedEffect(s: Store, o: FetchOutcome)
    ensures Synced(s, o).history != s.history <==> AddsRecord(s.history, o)
    ensures Synced(s, o).apiFailures == if AddsRecord(s.history, o) then 0
                                        else if IsFailure(o) then s.apiFailures + 1
                                        else s.apiFailures
  {
    if AddsRecord(s.history, o) {
      assert |Synced(s, o).history| == |s.history| + 1;
    }
  }

  /**
   An added record goes in front of the unchanged history, carries the fetched number, and
   its date is one the history did not hold, written in the stored form of the date the
   reply named.
   */
  lemma SyncedAdds(s: Store, o: FetchOutcome)
    requires AddsRecord(s.history, o)
    ensures var r := Synced(s, o).history;
      |r| == |s.history| + 1 && r[1..] == s.history && r[0].number == o.body.number
      && !HasDate(s.history, r[0].date)
      && exists d :: ValidDate(d) && r[0].date == FormatDate(d) && ParsedFirst(o.body.rawDate, d)
  {
    var raw := o.body.rawDate;
    FirstParseValid(raw, AcceptedFormats);
    var d := FirstParse(raw, AcceptedFormats).value;
    var r := Synced(s, o).history;
    assert r == [Record(FormatDate(d), o.body.number)] + s.history;
    assert ParsedFirst(raw, d) by {
      var i :| 0 <= i < |AcceptedFormats| && ParseDate(raw, AcceptedFormats[i]) == Some(d)
               && forall j :: 0 <= j < i ==> ParseDate(raw, AcceptedFormats[j]).None?;
      if i == 1 {
        assert ParseDate(raw, AcceptedFormats[0]).None?;
      }
    }
  }

  /** "%d %B %Y" yields d, or it fails and "%d %b %Y" yields d. */
  predicate ParsedFirst(raw: string, d: Date) {
    ParseDate(raw, FullMonthName) == Some(d)
    || (ParseDate(raw, FullMonthName).None? && ParseDate(raw, AbbreviatedMonthName) == Some(d))
  }

  /** Syncing the same outcome again is a no-op on the history. */
  lemma SyncedIdempotent(s: Store, o: FetchOutcome)
    ensures Synced(Synced(s, o), o).history == Synced(s, o).history
    ensures AddsRecord(s.history, o) ==> Synced(Synced(s, o), o) == Synced(s, o)
  {
    var s1 := Synced(s, o);
    SyncedEffect(s, o);
    if AddsRecord(s.history, o) {
      FirstParseValid(o.body.rawDate, AcceptedFormats);
      var date := FormatDate(FirstParse(o.body.rawDate, AcceptedFormats).value);
      assert s1.history[0].date == date;
      assert HasDate(s1.history, date);
    } else {
      assert s1.history == s.history;
    }
    assert !AddsRecord(s1.history, o);
    SyncedEffect(s1, o);
  }

  /** A sync keeps every month field readable. */
  lemma SyncedKeepsMonthFields(s: Store, o: FetchOutcome)
    requires MonthFieldsPresent(s.history)
    ensures MonthFieldsPresent(Synced(s, o).history)
  {
    if AddsRecord(s.history, o) {
      FirstParseValid(o.body.rawDate, AcceptedFormats);
      var d := FirstParse(o.body.rawDate, AcceptedFormats).value;
      assert Synced(s, o).history == InsertIfNew(s.history, Record(FormatDate(d), o.body.number));
      InsertKeepsMonthFields(s.history, d, o.body.number);
    } else {
      SyncedEffect(s, o);
    }
  }

  /** A sync keeps the dates distinct and keeps every month field readable. */
  lemma SyncedKeepsHistoryWellFormed(s: Store, o: FetchOutcome)
    requires DatesDistinct(s.history) && MonthFieldsPresent(s.history)
    ensures DatesDistinct(Synced(s, o).history) && MonthFieldsPresent(Synced(s, o).history)
  {
    if AddsRecord(s.history, o) {
      FirstParseValid(o.body.rawDate, AcceptedFormats);
      var d := FirstParse(o.body.rawDate, AcceptedFormats).value;
      var rec := Record(FormatDate(d), o.body.number);
      assert Synced(s, o).history == InsertIfNew(s.history, rec);
      InsertKeepsDatesDistinct(s.history, rec);
      InsertKeepsMonthFields(s.history, d, o.body.number);
    } else {
      SyncedEffect(s, o);
    }
  }

  /** A run of syncs, one per outcome in order. */
  function SyncAll(s: Store, os: seq<FetchOutcome>): Store
    decreases os
  {
    if os == [] then s else SyncAll(Synced(s, os[0]), os[1..])
  }

  /** How many outcomes in os are failures. */
  function FailureCount(os: seq<FetchOutcome>): nat {
    if os == [] then 0 else (if IsFailure(os[0]) then 1 else 0) + FailureCount(os[1..])
  }

  /**
   api_failures counts the failures since the last added record: while no outcome adds a
   record the history stays put and the counter grows by one per failure.
   */
  lemma {:induction false} FailuresCounted(s: Store, os: seq<FetchOutcome>)
    requires forall i :: 0 <= i < |os| ==> !AddsRecord(s.history, os[i])
    ensures SyncAll(s, os) == Store(s.history, s.apiFailures + FailureCount(os))
    decreases os
  {
    if os != [] {
      SyncedEffect(s, os[0]);
      var s1 := Synced(s, os[0]);
      assert s1.history == s.history;
      assert forall i :: 0 <= i < |os[1..]| ==> !AddsRecord(s1.history, os[1..][i]) by {
        forall i | 0 <= i < |os[1..]| ensures !AddsRecord(s1.history, os[1..][i]) {
          assert os[1..][i] == os[i + 1];
        }
      }
      FailuresCounted(s1, os[1..]);
    }
  }

  // ---------------------------------------------------------------------------
  // Ranking
  // ---------------------------------------------------------------------------

  /**
   compute_top_picks after its sync: the weighted scores for the next draw's bias numbers
   and month, ranked with most_common(5).
   */
  function TopPicks(h: seq<Record>, now: Date): seq<Scored>
    requires ValidDate(now) && MonthFieldsPresent(h)
  {
    var target := NextDrawDate(now);
    Rank(WeightedItems(h, BiasNumbers(target), Pad2(target.month), MainConfig), 5)
  }

  /**
   Between one and five picks, best first, no number twice; each pick is a scored number
   reported with its weighted score.
   */
  lemma TopPicksRanked(h: seq<Record>, now: Date)
    requires ValidDate(now) && MonthFieldsPresent(h)
    ensures var target := NextDrawDate(now);
      var bias, tm := BiasNumbers(target), Pad2(target.month);
      var r := TopPicks(h, now);
      1 <= |r| <= 5 && SortedDesc(r) && NoDup(NumbersOf(r))
      && forall i :: 0 <= i < |r| ==>
           (r[i].number in ScoredKeys(h, bias, tm, MainConfig)
            && r[i].score == WeightedScore(h, bias, tm, MainConfig, r[i].number))
  {
    var target := NextDrawDate(now);
    var bias, tm := BiasNumbers(target), Pad2(target.month);
    WeightedRanked(h, bias, tm, MainConfig, 5);
    assert "96" in ScoredKeys(h, bias, tm, MainConfig);
  }

  /** The picks are a true top five: no scored number left out beats any pick. */
  lemma TopPicksBeatRest(h: seq<Record>, now: Date, n: string, i: int)
    requires ValidDate(now) && MonthFieldsPresent(h)
    requires var target := NextDrawDate(now);
      n in ScoredKeys(h, BiasNumbers(target), Pad2(target.month), MainConfig)
    requires n !in NumbersOf(TopPicks(h, now)) && 0 <= i < |TopPicks(h, now)|
    ensures var target := NextDrawDate(now);
      WeightedScore(h, BiasNumbers(target), Pad2(target.month), MainConfig, n) <= TopPicks(h, now)[i].score
  {
    var target := NextDrawDate(now);
    WeightedBeatRest(h, BiasNumbers(target), Pad2(target.month), MainConfig, 5, n, i);
  }

  /**
   With an empty history every bias number scores the cultural weight 5, so the picks are
   the first five bias numbers, in bias order.
   */
  lemma EmptyHistoryPicks(now: Date)
    requires ValidDate(now)
    ensures var bias := BiasNumbers(NextDrawDate(now));
      TopPicks([], now) == Take(seq(|bias|, i requires 0 <= i < |bias| => Scored(bias[i], 5)), 5)
  {
    var target := NextDrawDate(now);
    EmptyHistoryRanked(BiasNumbers(target), Pad2(target.month), MainConfig, 5);
  }

  /**
   One stored January draw of "61", bias numbers "61" and "17", target month "01": with
   fewer than five records there is no recent factor, so "61" scores 5 + 3 - 5 = 3 and
   ranks behind "17" at 5.
   */
  lemma SingleJanuaryRecord()
    ensures var h, bias := [Record("17-01-2025", "61")], ["61", "17"];
      MonthFieldsPresent(h)
      && WeightedScore(h, bias, "01", MainConfig, "61") == 3
      && WeightedScore(h, bias, "01", MainConfig, "17") == 5
      && Rank(WeightedItems(h, bias, "01", MainConfig), 5) == [Scored("17", 5), Scored("61", 3)]
  {
    var h, bias := [Record("17-01-2025", "61")], ["61", "17"];
    SingleJanuaryFactors(h);
    SingleJanuaryKeys(h, bias);
    SingleJanuaryScores(h, bias);
    SingleJanuaryItems(h, bias);
    TwoItemsRanked(Scored("61", 3), Scored("17", 5));
  }

  lemma SingleJanuaryItems(h: seq<Record>, bias: seq<string>)
    requires MonthFieldsPresent(h)
    requires ScoredKeys(h, bias, "01", MainConfig) == ["61", "17"]
    requires WeightedScore(h, bias, "01", MainConfig, "61") == 3
    requires WeightedScore(h, bias, "01", MainConfig, "17") == 5
    ensures WeightedItems(h, bias, "01", MainConfig) == [Scored("61", 3), Scored("17", 5)]
  {
  }

  lemma TwoItemsRanked(a: Scored, b: Scored)
    requires a.score < b.score
    ensures Rank([a, b], 5) == [b, a]
  {
    assert [a, b][1..] == [b];
    assert [b][1..] == [];
    assert SortDesc([b]) == Insert(b, []) == [b];
    assert Insert(a, [b]) == [b] + Insert(a, []);
    assert SortDesc([a, b]) == [b, a];
  }

  lemma SingleJanuaryFactors(h: seq<Record>)
    requires h == [Record("17-01-2025", "61")]
    ensures MonthFieldsPresent(h)
    ensures SeasonalNumbers(h, "01") == ["61"] && RecentNumbers(h, MainConfig.window) == []
  {
    JanuaryDateFields();
    OneRecordFactors(h[0], "01");
  }

  /** A lone record of month tm is the seasonal list, and too few for the main recent window. */
  lemma OneRecordFactors(rec: Record, tm: string)
    requires |Split(rec.date, '-')| >= 2 && Split(rec.date, '-')[1] == tm
    ensures MonthFieldsPresent([rec])
    ensures SeasonalNumbers([rec], tm) == [rec.number] && RecentNumbers([rec], MainConfig.window) == []
  {
    assert [rec][1..] == [];
    assert SeasonalNumbers([rec][1..], tm) == [];
  }

  lemma JanuaryDateFields()
    ensures Split("17-01-2025", '-') == ["17", "01", "2025"]
  {
    var a, b, c := "17", "01", "2025";
    assert "17-01-2025" == a + ['-'] + b + ['-'] + c;
    SplitThree(a, b, c, '-');
  }

  lemma SingleJanuaryKeys(h: seq<Record>, bias: seq<string>)
    requires h == [Record("17-01-2025", "61")] && bias == ["61", "17"]
    requires MonthFieldsPresent(h)
    requires SeasonalNumbers(h, "01") == ["61"] && RecentNumbers(h, MainConfig.window) == []
    ensures ScoredKeys(h, bias, "01", MainConfig) == ["61", "17"]
  {
    RepeatedFirstKey("61", "17");
  }

  lemma RepeatedFirstKey(a: string, b: string)
    requires a != b
    ensures Distinct([a, b] + [a] + []) == [a, b]
  {
    assert [a, b] + [a] + [] == [a, b] + [a];
    DistinctSnoc([a, b], a);
    DistinctOfNoDup([a, b]);
  }

  lemma SingleJanuaryScores(h: seq<Record>, bias: seq<string>)
    requires h == [Record("17-01-2025", "61")] && bias == ["61", "17"]
    requires MonthFieldsPresent(h)
    requires SeasonalNumbers(h, "01") == ["61"] && RecentNumbers(h, MainConfig.window) == []
    requires ScoredKeys(h, bias, "01", MainConfig) == ["61", "17"]
    ensures WeightedScore(h, bias, "01", MainConfig, "61") == 3
    ensures WeightedScore(h, bias, "01", MainConfig, "17") == 5
  {
    CountNoDup(bias, "61");
    CountNoDup(bias, "17");
    CountNoDup(["61"], "61");
    CountNoDup(["61"], "17");
  }

  /**
   Once the history reaches five records the latest number always takes the -5 penalty,
   and no other number does.
   */
  lemma MainPenaltyOnLatest(h: seq<Record>, now: Date, n: string)
    requires ValidDate(now) && MonthFieldsPresent(h) && |h| >= 5
    ensures var target := NextDrawDate(now);
      PenaltyApplies(h, BiasNumbers(target), Pad2(target.month), MainConfig, n) <==> n == h[0].number
  {
    var target := NextDrawDate(now);
    LatestPenalised(h, BiasNumbers(target), Pad2(target.month), MainConfig);
  }

  // ---------------------------------------------------------------------------
  // The engine
  // ---------------------------------------------------------------------------

  class Predictor {
    var history: seq<Record>
    var apiFailures: nat

    function State(): Store
      reads this
    {
      Store(history, apiFailures)
    }

    /** No date is stored twice and every stored date has the month field the seasonal factor reads. */
    predicate Valid()
      reads this
    {
      DatesDistinct(history) && MonthFieldsPresent(history)
    }

    /**
     _load_or_seed_data: the stored database when one loads, otherwise the seed (writing
     the seed back to disk is not modelled). The failure count starts at zero.
     */
    constructor(stored: Option<seq<Record>>)
      ensures history == if stored.Some? then stored.value else Seed()
      ensures apiFailures == 0
      ensures stored.None? ==> Valid()
    {
      history := if stored.Some? then stored.value else Seed();
      apiFailures := 0;
      SeedWellFormed();
    }

    /** sync_online_data, with the API's reply given as o. */
    method SyncOnlineData(o: FetchOutcome)
      modifies this
      ensures State() == Synced(old(State()), o)
      ensures old(Valid()) ==> Valid()
    {
      if Valid() {
        SyncedKeepsHistoryWellFormed(State(), o);
      }
      match o
      case TransportError =>
        apiFailures := apiFailures + 1;
      case Reply(status, body) =>
        if status != 200 {
          apiFailures := apiFailures + 1;
          return;
        }
        match body
        case NotJson =>
          apiFailures := apiFailures + 1;
        case MissingField =>
        case Fields(rawDate, number) =>
          var dt := TryFormats(rawDate, AcceptedFormats);
          if dt.None? {
            return;
          }
          FirstParseValid(rawDate, AcceptedFormats);
          var fmtDate := FormatDate(dt.value);
          if !HasDate(history, fmtDate) {
            history := [Record(fmtDate, number)] + history;
            apiFailures := 0;
          }
    }

    /**
     compute_top_picks on day now: sync with o, then score and rank for the next draw.
     The stored history must have readable month fields, as the seasonal factor indexes them.
     */
    method ComputeTopPicks(now: Date, o: FetchOutcome) returns (ranked: seq<Scored>)
      requires ValidDate(now) && MonthFieldsPresent(history)
      modifies this
      ensures State() == Synced(old(State()), o)
      ensures MonthFieldsPresent(history) && (old(Valid()) ==> Valid())
      ensures ranked == TopPicks(history, now)
    {
      SyncedKeepsMonthFields(State(), o);
      SyncOnlineData(o);
      var target := NextDrawDate(now);
      var culturalBias := BiasNumbers(target);
      var targetMonth := Pad2(target.month);
      var scores := WeightedScores(history, culturalBias, targetMonth, MainConfig);
      ranked := Rank(Items(scores), 5);
    }
  }
}
