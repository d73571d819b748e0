/**
 The legacy engine, LottoEngine: a newest-first table of draw rows, a sync that accepts
 only full month names, the same next-draw rule as the main engine, and a forecast from
 day-and-month, weekday and last-twenty factors whose reasons are kept free of repeats.
 */
module LegacyPredictor {
  import opened Wrappers
  import opened Text
  import opened Calendar
  import opened DateFormat
  import opened Fetch
  import opened Scoring
  import ThaiLottoPredictor

  /** One row of the table: date, day, month, weekday name and number. */
  datatype Row = Row(date: string, day: int, month: int, weekday: string, number: string)

  /** The placeholder number add_score skips. */
  const Unknown: string := "Unknown"

  const SeasonalWeight := 3
  const WeekdayWeight := 2
  const RecentWeight := 1

  /** The thirteen bootstrap rows used when there is no stored table. */
  function Seed(): seq<Row> {
    [ Row("17-01-2025", 17, 1, "Friday", "Unknown"), Row("30-12-2024", 30, 12, "Monday", "59"),
      Row("16-12-2024", 16, 12, "Monday", "52"), Row("01-12-2024", 1, 12, "Sunday", "22"),
      Row("16-11-2024", 16, 11, "Saturday", "38"), Row("01-11-2024", 1, 11, "Friday", "87"),
      Row("17-01-2024", 17, 1, "Wednesday", "61"), Row("17-01-2023", 17, 1, "Tuesday", "47"),
      Row("17-01-2022", 17, 1, "Monday", "92"), Row("17-01-2021", 17, 1, "Sunday", "15"),
      Row("17-01-2020", 17, 1, "Friday", "68"), Row("17-01-2019", 17, 1, "Thursday", "65"),
      Row("17-01-2018", 17, 1, "Wednesday", "50") ]
  }

  /** df['date'].values. */
  function DateColumn(df: seq<Row>): (ds: seq<string>)
    ensures |ds| == |df|
  {
    seq(|df|, i requires 0 <= i < |df| => df[i].date)
  }

  /**
   df['number'].tolist(). The twin of History.Numbers for the legacy table's rows, which
   carry more columns than the main engine's records.
   */
  function NumberColumn(df: seq<Row>): (ns: seq<string>)
    ensures |ns| == |df|
  {
    seq(|df|, i requires 0 <= i < |df| => df[i].number)
  }

  // ---------------------------------------------------------------------------
  // Synchronisation
  // ---------------------------------------------------------------------------

  /**
   sync_latest_data for one fetch outcome: only a 200 reply whose date parses as
   "%d %B %Y" and is not yet in the date column adds a row, in front, carrying the parsed
   day, month and weekday name; every other outcome, errors included, leaves the table.
   */
  function LegacySynced(df: seq<Row>, o: FetchOutcome, weekdayOf: Date -> string): seq<Row> {
    if o.Reply? && o.status == 200 && o.body.Fields? && ParseDate(o.body.rawDate, FullMonthName).Some? then
      var d := ParseDate(o.body.rawDate, FullMonthName).value;
      ParseDateValid(o.body.rawDate, FullMonthName);
      var fmtDate := FormatDate(d);
      if fmtDate in DateColumn(df) then df
      else [Row(fmtDate, d.day, d.month, weekdayOf(d), o.body.number)] + df
    else df
  }

  /**
   A sync either leaves the table alone or puts one row with a new date in front of the
   unchanged table; that row's fields describe the date the reply spelled in full.
   */
  lemma LegacySyncedEffect(df: seq<Row>, o: FetchOutcome, weekdayOf: Date -> string)
    ensures var r := LegacySynced(df, o, weekdayOf);
      r == df
      || (|r| == |df| + 1 && r[1..] == df && r[0].date !in DateColumn(df)
          && o.Reply? && o.body.Fields? && r[0].number == o.body.number
          && exists d :: ParseDate(o.body.rawDate, FullMonthName) == Some(d) && ValidDate(d)
                         && r[0] == Row(FormatDate(d), d.day, d.month, weekdayOf(d), o.body.number))
  {
    var r := LegacySynced(df, o, weekdayOf);
    if r != df {
      var d := ParseDate(o.body.rawDate, FullMonthName).value;
      ParseDateValid(o.body.rawDate, FullMonthName);
      assert r == [Row(FormatDate(d), d.day, d.month, weekdayOf(d), o.body.number)] + df;
    }
  }

  /** No date is stored twice. */
  predicate DatesDistinct(df: seq<Row>) {
    forall i, j :: 0 <= i < j < |df| ==> df[i].date != df[j].date
  }

  /** Putting a row with a new date in front keeps the dates distinct. */
  lemma PrependKeepsDatesDistinct(df: seq<Row>, row: Row)
    requires DatesDistinct(df) && row.date !in DateColumn(df)
    ensures DatesDistinct([row] + df)
  {
    var r := [row] + df;
    forall i, j | 0 <= i < j < |r| ensures r[i].date != r[j].date {
      assert r[j] == df[j - 1];
      if i > 0 {
        assert r[i] == df[i - 1];
      } else {
        assert DateColumn(df)[j - 1] == df[j - 1].date;
      }
    }
  }

  /** A sync keeps the dates distinct. */
  lemma LegacySyncedKeepsDatesDistinct(df: seq<Row>, o: FetchOutcome, weekdayOf: Date -> string)
    requires DatesDistinct(df)
    ensures DatesDistinct(LegacySynced(df, o, weekdayOf))
  {
    if o.Reply? && o.status == 200 && o.body.Fields? && ParseDate(o.body.rawDate, FullMonthName).Some? {
      var d := ParseDate(o.body.rawDate, FullMonthName).value;
      ParseDateValid(o.body.rawDate, FullMonthName);
      var row := Row(FormatDate(d), d.day, d.month, weekdayOf(d), o.body.number);
      if row.date !in DateColumn(df) {
        PrependKeepsDatesDistinct(df, row);
      }
    }
  }

  /** Syncing the same outcome again changes nothing. */
  lemma LegacySyncedIdempotent(df: seq<Row>, o: FetchOutcome, weekdayOf: Date -> string)
    ensures LegacySynced(LegacySynced(df, o, weekdayOf), o, weekdayOf) == LegacySynced(df, o, weekdayOf)
  {
    var r := LegacySynced(df, o, weekdayOf);
    LegacySyncedEffect(df, o, weekdayOf);
    if r != df {
      assert DateColumn(r)[0] == r[0].date;
      assert r[0].date in DateColumn(r);
    }
  }

  /**
   The legacy sync reads only full month names: a reply spelling its date with an
   abbreviated name (any month but May, whose two names agree) changes nothing, where the
   main engine's second format accepts it.
   */
  lemma AbbreviatedIgnored(df: seq<Row>, d: Date, number: string, weekdayOf: Date -> string)
    requires ValidDate(d) && d.year <= 9999 && d.month != 5
    ensures LegacySynced(df, Reply(200, Fields(Spelled(d, AbbreviatedMonthName), number)), weekdayOf) == df
    ensures FirstParse(Spelled(d, AbbreviatedMonthName), AcceptedFormats) == Some(d)
  {
    var raw := Spelled(d, AbbreviatedMonthName);
    AbbreviatedNotFull(d);
    ParseSpelled(d, AbbreviatedMonthName);
    FullNameRequired(df, raw, number, weekdayOf);
    SecondFormatWins(raw, d);
  }

  /** A date that "%d %B %Y" rejects leaves the table as it is. */
  lemma FullNameRequired(df: seq<Row>, raw: string, number: string, weekdayOf: Date -> string)
    requires ParseDate(raw, FullMonthName).None?
    ensures LegacySynced(df, Reply(200, Fields(raw, number)), weekdayOf) == df
  {
  }

  /** When the full-name format fails, the main engine's loop takes the abbreviated format's date. */
  lemma SecondFormatWins(raw: string, d: Date)
    requires ParseDate(raw, FullMonthName).None? && ParseDate(raw, AbbreviatedMonthName) == Some(d)
    ensures FirstParse(raw, AcceptedFormats) == Some(d)
  {
    assert AcceptedFormats[0] == FullMonthName && AcceptedFormats[1..] == [AbbreviatedMonthName];
    assert FirstParse(raw, [AbbreviatedMonthName]) == Some(d);
  }

  // ---------------------------------------------------------------------------
  // add_score: scores with deduplicated reasons
  // ---------------------------------------------------------------------------

  /**
   One pass of add_score's body for a number other than "Unknown": the score grows by w,
   and the reason tag is appended unless n already has it.
   */
  function AddOnce(t: Table, n: string, w: int, tag: string): (r: Table)
    requires WellFormed(t)
    ensures WellFormed(r)
    ensures n in t.keys ==> r.keys == t.keys
    ensures n !in t.keys ==> r.keys == t.keys + [n]
    ensures forall m :: ScoreOf(r, m) == ScoreOf(t, m) + (if m == n then w else 0)
    ensures forall m :: TagsOf(r, m) == TagsOf(t, m) + (if m == n && tag !in TagsOf(t, n) then [tag] else [])
  {
    var keys := if n in t.keys then t.keys else t.keys + [n];
    var tags := if tag in TagsOf(t, n) then TagsOf(t, n) else TagsOf(t, n) + [tag];
    Table(keys, t.score[n := ScoreOf(t, n) + w], t.tags[n := tags])
  }

  /**
   r is t after add_score ran over a list whose scorable entries are `kept`: each kept
   number gained w per occurrence and the tag once, unless it already had it.
   */
  ghost predicate Added(t: Table, r: Table, kept: seq<string>, w: int, tag: string) {
    && r.keys == Distinct(t.keys + kept)
    && (forall n :: ScoreOf(r, n) == ScoreOf(t, n) + w * Count(kept, n))
    && (forall n :: TagsOf(r, n) == TagsOf(t, n) + (if n in kept && tag !in TagsOf(t, n) then [tag] else []))
  }

  lemma AddedNothing(t: Table, w: int, tag: string)
    requires WellFormed(t)
    ensures Added(t, t, [], w, tag)
  {
    DistinctOfNoDup(t.keys);
    assert t.keys + [] == t.keys;
    forall n ensures TagsOf(t, n) + [] == TagsOf(t, n) {
    }
  }

  lemma AddedScores(t: Table, r: Table, kept: seq<string>, x: string, w: int, tag: string)
    requires WellFormed(r)
    requires forall n :: ScoreOf(r, n) == ScoreOf(t, n) + w * Count(kept, n)
    ensures forall n :: ScoreOf(AddOnce(r, x, w, tag), n) == ScoreOf(t, n) + w * Count(kept + [x], n)
  {
    forall n ensures ScoreOf(AddOnce(r, x, w, tag), n) == ScoreOf(t, n) + w * Count(kept + [x], n) {
      CountSnoc(kept, x, n);
      Distribute(w, Count(kept, n), if n == x then 1 else 0);
    }
  }

  lemma AddedTags(t: Table, r: Table, kept: seq<string>, x: string, w: int, tag: string)
    requires WellFormed(r)
    requires forall n :: TagsOf(r, n) == TagsOf(t, n) + (if n in kept && tag !in TagsOf(t, n) then [tag] else [])
    ensures forall n :: TagsOf(AddOnce(r, x, w, tag), n)
                          == TagsOf(t, n) + (if n in kept + [x] && tag !in TagsOf(t, n) then [tag] else [])
  {
    var r' := AddOnce(r, x, w, tag);
    forall n ensures TagsOf(r', n) == TagsOf(t, n) + (if n in kept + [x] && tag !in TagsOf(t, n) then [tag] else []) {
      if n == x && n in kept && tag !in TagsOf(t, n) {
        assert TagsOf(r, n)[|TagsOf(t, n)|] == tag;
      }
      if n != x {
        assert TagsOf(r', n) == TagsOf(r, n) + [];
      }
    }
  }

  lemma AddedStep(t: Table, r: Table, kept: seq<string>, x: string, w: int, tag: string)
    requires WellFormed(r) && Added(t, r, kept, w, tag)
    ensures Added(t, AddOnce(r, x, w, tag), kept + [x], w, tag)
  {
    AddedScores(t, r, kept, x, w, tag);
    AddedTags(t, r, kept, x, w, tag);
    assert t.keys + (kept + [x]) == (t.keys + kept) + [x];
    DistinctSnoc(t.keys + kept, x);
  }

  lemma WithoutSnoc(s: seq<string>, x: string)
    ensures Without(s + [x], Unknown) == Without(s, Unknown) + (if x == Unknown then [] else [x])
  {
    assert (s + [x])[..|s|] == s;
  }

  /** add_score(num_list, weight, tag): "Unknown" entries are skipped. */
  method AddScore(t: Table, nums: seq<string>, w: int, tag: string) returns (r: Table)
    requires WellFormed(t)
    ensures WellFormed(r)
    ensures Added(t, r, Without(nums, Unknown), w, tag)
  {
    r := t;
    AddedNothing(t, w, tag);
    PrefixAll(nums, 0);
    ghost var kept: seq<string> := [];
    var i := 0;
    while i < |nums|
      invariant 0 <= i <= |nums|
      invariant kept == Without(nums[..i], Unknown)
      invariant WellFormed(r) && Added(t, r, kept, w, tag)
    {
      PrefixSnoc(nums, i);
      WithoutSnoc(nums[..i], nums[i]);
      if nums[i] != Unknown {
        AddedStep(t, r, kept, nums[i], w, tag);
        r := AddOnce(r, nums[i], w, tag);
        kept := kept + [nums[i]];
      }
      i := i + 1;
    }
    PrefixAll(nums, i);
  }

  // ---------------------------------------------------------------------------
  // Forecast
  // ---------------------------------------------------------------------------

  /** get_next_draw_target: the same schedule as the main engine's, date only. */
  function NextDrawTarget(now: Date): (r: Date)
    requires ValidDate(now)
    ensures ValidDate(r) && IsDrawDate(r) && AtOrBefore(now, r)
    ensures r == ThaiLottoPredictor.NextDrawDate(now)
  {
    var year := if now.day > 16 && now.month == 12 then now.year + 1 else now.year;
    var month := if now.day > 16 then (if now.month == 12 then 1 else now.month + 1) else now.month;
    var day := if now.day > 16 then 1 else 16;
    if month == 1 && day == 16 then Date(year, month, 17)
    else if month == 5 && day == 1 then Date(year, month, 2)
    else Date(year, month, day)
  }

  /** Numbers of the rows drawn on the target's day of the target's month. */
  function SeasonalHits(df: seq<Row>, target: Date): seq<string> {
    if df == [] then []
    else (if df[0].day == target.day && df[0].month == target.month then [df[0].number] else [])
         + SeasonalHits(df[1..], target)
  }

  /** Numbers of the rows drawn on the given weekday. */
  function WeekdayHits(df: seq<Row>, weekday: string): seq<string> {
    if df == [] then []
    else (if df[0].weekday == weekday then [df[0].number] else []) + WeekdayHits(df[1..], weekday)
  }

  /** df.head(20)['number']: the first min(20, len) numbers. */
  function RecentHits(df: seq<Row>): (r: seq<string>)
    ensures |r| == if |df| < 20 then |df| else 20
    ensures r == NumberColumn(df)[..|r|]
  {
    NumberColumn(Take(df, 20))
  }

  const SeasonalTag: string := "Seasonal Match"
  const RecentTag: string := "Recent Trend"

  /** f"Weekday ({t_weekday})". */
  function WeekdayTag(weekday: string): string {
    "Weekday (" + weekday + ")"
  }

  /** The numbers the forecast scores, in first-scored order; "Unknown" is never one. */
  function ForecastKeys(df: seq<Row>, target: Date, weekday: string): seq<string> {
    Distinct(Without(SeasonalHits(df, target), Unknown) + Without(WeekdayHits(df, weekday), Unknown)
             + Without(RecentHits(df), Unknown))
  }

  /** 3 per seasonal hit, 2 per weekday hit, 1 per recent hit; "Unknown" scores nothing. */
  function ForecastScore(df: seq<Row>, target: Date, weekday: string, n: string): int {
    if n == Unknown then 0
    else SeasonalWeight * Count(SeasonalHits(df, target), n) + WeekdayWeight * Count(WeekdayHits(df, weekday), n)
         + RecentWeight * Count(RecentHits(df), n)
  }

  /** n's reasons: each factor that scored it, once, in factor order. */
  function ForecastReasons(df: seq<Row>, target: Date, weekday: string, n: string): seq<string> {
    if n == Unknown then []
    else (if n in SeasonalHits(df, target) then [SeasonalTag] else [])
         + (if n in WeekdayHits(df, weekday) then [WeekdayTag(weekday)] else [])
         + (if n in RecentHits(df) then [RecentTag] else [])
  }

  function ForecastItems(df: seq<Row>, target: Date, weekday: string): seq<Scored> {
    var keys := ForecastKeys(df, target, weekday);
    seq(|keys|, i requires 0 <= i < |keys| => Scored(keys[i], ForecastScore(df, target, weekday, keys[i])))
  }

  /** One line of compute_forecast's result: (number, score, reasons). */
  datatype Forecast = Forecast(number: string, score: int, reasons: seq<string>)

  /** `results.append((num, score, reasons[num]))` for each ranked entry. */
  function Lines(df: seq<Row>, target: Date, weekday: string, ranked: seq<Scored>): seq<Forecast> {
    seq(|ranked|, i requires 0 <= i < |ranked| =>
      Forecast(ranked[i].number, ranked[i].score, ForecastReasons(df, target, weekday, ranked[i].number)))
  }

  /** The top five of the ranked scores, each with its reasons. */
  function ForecastOf(df: seq<Row>, target: Date, weekday: string): seq<Forecast> {
    Lines(df, target, weekday, Rank(ForecastItems(df, target, weekday), 5))
  }

  lemma WithoutCount(s: seq<string>, n: string)
    ensures Count(Without(s, Unknown), n) == if n == Unknown then 0 else Count(s, n)
    ensures n in Without(s, Unknown) <==> n != Unknown && n in s
  {
    CountPositive(s, n);
    CountPositive(Without(s, Unknown), n);
  }

  lemma WeekdayTagDiffers(weekday: string)
    ensures WeekdayTag(weekday) != SeasonalTag && WeekdayTag(weekday) != RecentTag
  {
    assert WeekdayTag(weekday)[0] == 'W';
  }

  /** After the three add_score calls, n's score is its three contributions. */
  lemma ThreeAddsScore(df: seq<Row>, target: Date, weekday: string, t1: Table, t2: Table, t3: Table, n: string)
    requires Added(Empty, t1, Without(SeasonalHits(df, target), Unknown), SeasonalWeight, SeasonalTag)
    requires Added(t1, t2, Without(WeekdayHits(df, weekday), Unknown), WeekdayWeight, WeekdayTag(weekday))
    requires Added(t2, t3, Without(RecentHits(df), Unknown), RecentWeight, RecentTag)
    ensures ScoreOf(t3, n) == ForecastScore(df, target, weekday, n)
  {
    var s, w, r := SeasonalHits(df, target), WeekdayHits(df, weekday), RecentHits(df);
    WithoutCount(s, n);
    WithoutCount(w, n);
    WithoutCount(r, n);
    assert ScoreOf(t1, n) == ScoreOf(Empty, n) + SeasonalWeight * Count(Without(s, Unknown), n);
    assert ScoreOf(t2, n) == ScoreOf(t1, n) + WeekdayWeight * Count(Without(w, Unknown), n);
    assert ScoreOf(t3, n) == ScoreOf(t2, n) + RecentWeight * Count(Without(r, Unknown), n);
  }

  /** After the three add_score calls, n's reasons are the factors that scored it, once each. */
  lemma ThreeAddsTags(df: seq<Row>, target: Date, weekday: string, t1: Table, t2: Table, t3: Table, n: string)
    requires Added(Empty, t1, Without(SeasonalHits(df, target), Unknown), SeasonalWeight, SeasonalTag)
    requires Added(t1, t2, Without(WeekdayHits(df, weekday), Unknown), WeekdayWeight, WeekdayTag(weekday))
    requires Added(t2, t3, Without(RecentHits(df), Unknown), RecentWeight, RecentTag)
    ensures TagsOf(t3, n) == ForecastReasons(df, target, weekday, n)
  {
    var s, w, r := SeasonalHits(df, target), WeekdayHits(df, weekday), RecentHits(df);
    WithoutCount(s, n);
    WithoutCount(w, n);
    WithoutCount(r, n);
    WeekdayTagDiffers(weekday);
    assert TagsOf(Empty, n) == [];
    DedupChain(TagsOf(t1, n), TagsOf(t2, n), TagsOf(t3, n),
               n in Without(s, Unknown), n in Without(w, Unknown), n in Without(r, Unknown),
               SeasonalTag, WeekdayTag(weekday), RecentTag);
  }

  /**
   Three deduplicating appends of three different tags, starting from no reasons, give
   each tag whose factor fired, once, in order.
   */
  lemma DedupChain(e1: seq<string>, e2: seq<string>, e3: seq<string>, a: bool, b: bool, c: bool,
                   ta: string, tb: string, tc: string)
    requires ta != tb && ta != tc && tb != tc
    requires e1 == [] + (if a && ta !in [] then [ta] else [])
    requires e2 == e1 + (if b && tb !in e1 then [tb] else [])
    requires e3 == e2 + (if c && tc !in e2 then [tc] else [])
    ensures e3 == (if a then [ta] else []) + (if b then [tb] else []) + (if c then [tc] else [])
    ensures (a || b || c) ==> e3 != []
    ensures NoDup(e3)
  {
    assert e1 == if a then [ta] else [];
    assert tb !in e1;
    assert e2 == (if a then [ta] else []) + (if b then [tb] else []);
    assert tc !in e2;
  }

  /** The three add_score calls of compute_forecast, from empty score and reason dicts. */
  method ForecastScores(df: seq<Row>, target: Date, weekday: string) returns (t: Table)
    ensures WellFormed(t) && t.keys == ForecastKeys(df, target, weekday)
    ensures forall n :: ScoreOf(t, n) == ForecastScore(df, target, weekday, n)
    ensures forall n :: TagsOf(t, n) == ForecastReasons(df, target, weekday, n)
  {
    var s, w, r := SeasonalHits(df, target), WeekdayHits(df, weekday), RecentHits(df);
    var t1 := AddScore(Empty, s, SeasonalWeight, SeasonalTag);
    var t2 := AddScore(t1, w, WeekdayWeight, WeekdayTag(weekday));
    t := AddScore(t2, r, RecentWeight, RecentTag);
    assert Empty.keys + Without(s, Unknown) == Without(s, Unknown);
    DistinctAbsorb(Without(s, Unknown), Without(w, Unknown));
    DistinctAbsorb(Without(s, Unknown) + Without(w, Unknown), Without(r, Unknown));
    forall n ensures ScoreOf(t, n) == ForecastScore(df, target, weekday, n)
                  && TagsOf(t, n) == ForecastReasons(df, target, weekday, n) {
      ThreeAddsScore(df, target, weekday, t1, t2, t, n);
      ThreeAddsTags(df, target, weekday, t1, t2, t, n);
    }
  }

  /** Every scored number has at least one reason, none repeated, and is not "Unknown". */
  lemma ReasonsWellFormed(df: seq<Row>, target: Date, weekday: string, n: string)
    requires n in ForecastKeys(df, target, weekday)
    ensures n != Unknown
    ensures ForecastReasons(df, target, weekday, n) != []
    ensures NoDup(ForecastReasons(df, target, weekday, n))
  {
    var s, w, r := SeasonalHits(df, target), WeekdayHits(df, weekday), RecentHits(df);
    WithoutCount(s, n);
    WithoutCount(w, n);
    WithoutCount(r, n);
    assert n in Without(s, Unknown) + Without(w, Unknown) + Without(r, Unknown);
    WeekdayTagDiffers(weekday);
    var e1: seq<string> := if n in s then [SeasonalTag] else [];
    var e2 := e1 + (if n in w && WeekdayTag(weekday) !in e1 then [WeekdayTag(weekday)] else []);
    var e3 := e2 + (if n in r && RecentTag !in e2 then [RecentTag] else []);
    DedupChain(e1, e2, e3, n in s, n in w, n in r, SeasonalTag, WeekdayTag(weekday), RecentTag);
  }

  /**
   At most five lines, best first, no number twice, none "Unknown"; each carries its
   weighted score and a non-empty, repeat-free list of reasons.
   */
  lemma ForecastRanked(df: seq<Row>, target: Date, weekday: string)
    ensures var out := ForecastOf(df, target, weekday);
      |out| <= 5
      && (forall i, j :: 0 <= i < j < |out| ==> out[i].score >= out[j].score && out[i].number != out[j].number)
      && forall i :: 0 <= i < |out| ==>
           (out[i].number in ForecastKeys(df, target, weekday) && out[i].number != Unknown
            && out[i].score == ForecastScore(df, target, weekday, out[i].number)
            && out[i].reasons != [] && NoDup(out[i].reasons))
  {
    var out := ForecastOf(df, target, weekday);
    ForecastPicks(df, target, weekday);
    forall i | 0 <= i < |out|
      ensures out[i].number != Unknown && out[i].reasons != [] && NoDup(out[i].reasons)
    {
      ReasonsWellFormed(df, target, weekday, out[i].number);
    }
    var ranked := Rank(ForecastItems(df, target, weekday), 5);
    assert out == Lines(df, target, weekday, ranked);
    forall i, j | 0 <= i < j < |out| ensures out[i].number != out[j].number {
      assert NumbersOf(ranked)[i] == out[i].number && NumbersOf(ranked)[j] == out[j].number;
    }
  }

  /** The forecast items: one per scored number, each with its forecast score. */
  lemma ForecastItemsEntries(df: seq<Row>, target: Date, weekday: string)
    ensures NumbersOf(ForecastItems(df, target, weekday)) == ForecastKeys(df, target, weekday)
    ensures NoDup(NumbersOf(ForecastItems(df, target, weekday)))
    ensures forall x :: x in ForecastItems(df, target, weekday) ==>
              x.number in ForecastKeys(df, target, weekday) && x.score == ForecastScore(df, target, weekday, x.number)
  {
    var items, keys := ForecastItems(df, target, weekday), ForecastKeys(df, target, weekday);
    assert NumbersOf(items) == keys;
  }

  /** The top five ranked items: best first, no number twice, each a scored number's score. */
  lemma ForecastPicks(df: seq<Row>, target: Date, weekday: string)
    ensures var r := Rank(ForecastItems(df, target, weekday), 5);
      |r| <= 5 && SortedDesc(r) && NoDup(NumbersOf(r))
      && forall i :: 0 <= i < |r| ==>
           r[i].number in ForecastKeys(df, target, weekday) && r[i].score == ForecastScore(df, target, weekday, r[i].number)
  {
    var items := ForecastItems(df, target, weekday);
    ForecastItemsEntries(df, target, weekday);
    RankEntries(items, 5);
    RankDistinct(items, 5);
  }

  // ---------------------------------------------------------------------------
  // The engine
  // ---------------------------------------------------------------------------

  class LottoEngine {
    var df: seq<Row>

    /** _load_or_initialize_db: the stored table when there is one, otherwise the seed. */
    constructor(stored: Option<seq<Row>>)
      ensures df == if stored.Some? then stored.value else Seed()
    {
      df := if stored.Some? then stored.value else Seed();
    }

    /** sync_latest_data, with the API's reply given as o and strftime("%A") as weekdayOf. */
    method SyncLatestData(o: FetchOutcome, weekdayOf: Date -> string)
      modifies this
      ensures df == LegacySynced(old(df), o, weekdayOf)
    {
      if o.Reply? && o.status == 200 && o.body.Fields? {
        var dt := ParseDate(o.body.rawDate, FullMonthName);
        if dt.Some? {
          ParseDateValid(o.body.rawDate, FullMonthName);
          var fmtDate := FormatDate(dt.value);
          if fmtDate !in DateColumn(df) {
            var newEntry := Row(fmtDate, dt.value.day, dt.value.month, weekdayOf(dt.value), o.body.number);
            df := [newEntry] + df;
          }
        }
      }
    }

    /** compute_forecast on day now: sync with o, then score and rank for the next draw. */
    method ComputeForecast(now: Date, o: FetchOutcome, weekdayOf: Date -> string) returns (out: seq<Forecast>)
      requires ValidDate(now)
      modifies this
      ensures df == LegacySynced(old(df), o, weekdayOf)
      ensures out == ForecastOf(df, NextDrawTarget(now), weekdayOf(NextDrawTarget(now)))
    {
      SyncLatestData(o, weekdayOf);
      var rows := df;
      var target := NextDrawTarget(now);
      var weekday := weekdayOf(target);
      var t := ForecastScores(rows, target, weekday);
      TableItems(rows, target, weekday, t);
      var ranked := Rank(Items(t), 5);
      out := CollectForecasts(rows, target, weekday, t, ranked);
    }
  }

  /** The table ForecastScores builds lists the forecast items. */
  lemma TableItems(df: seq<Row>, target: Date, weekday: string, t: Table)
    requires t.keys == ForecastKeys(df, target, weekday)
    requires forall n :: ScoreOf(t, n) == ForecastScore(df, target, weekday, n)
    ensures Items(t) == ForecastItems(df, target, weekday)
  {
  }

  /** The result loop of compute_forecast, reading each number's reasons from the table. */
  method CollectForecasts(df: seq<Row>, target: Date, weekday: string, t: Table, ranked: seq<Scored>)
    returns (out: seq<Forecast>)
    requires forall n :: TagsOf(t, n) == ForecastReasons(df, target, weekday, n)
    ensures out == Lines(df, target, weekday, ranked)
  {
    out := [];
    var i := 0;
    while i < |ranked|
      invariant 0 <= i <= |ranked|
      invariant out == Lines(df, target, weekday, ranked[..i])
    {
      out := out + [Forecast(ranked[i].number, ranked[i].score, TagsOf(t, ranked[i].number))];
      PrefixSnoc(ranked, i);
      i := i + 1;
    }
    PrefixAll(ranked, i);
  }
}
