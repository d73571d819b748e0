/**
 The Streamlit app's engine: its own next-draw rule, the "intersection" scorer over mined
 history numbers, and the nested engine methods (a latest-draw fetch, a draw context and
 an advanced scorer). In the source these sit after a `return` and use names the file never
 defines (an endpoint, a database file, a cache lifetime, `json`, `defaultdict`, the
 weights). They are modelled as their code intends, with those names supplied as
 parameters or constants.
 */
module App {
  import opened Wrappers
  import opened Text
  import opened Calendar
  import opened DateFormat
  import opened Fetch
  import opened History
  import opened Scoring
  import opened WeightedScoring
  import ThaiLottoPredictor

  // ---------------------------------------------------------------------------
  // Draw date and bias set
  // ---------------------------------------------------------------------------

  /**
   get_target_date: on or before the 16th the mid-month draw (the 17th in January),
   otherwise the 1st of next month. There is no Labour Day shift.
   */
  function TargetDate(now: Date): (r: Date)
    requires ValidDate(now)
    ensures ValidDate(r) && AtOrBefore(now, r)
    ensures r.day == 1 || r.day == 16 || r.day == 17
    ensures r.day == 17 <==> r.month == 1 && now.day <= 16
    ensures IsDrawDate(r) <==> !(r.month == 5 && r.day == 1)
  {
    if now.day <= 16 then Date(now.year, now.month, if now.month == 1 then 17 else 16)
    else if now.month < 12 then Date(now.year, now.month + 1, 1)
    else Date(now.year + 1, 1, 1)
  }

  /**
   The app's target agrees with the main engine's except in the second half of April,
   where it names May 1 and the main engine the Labour Day draw on May 2.
   */
  lemma TargetDateVsNextDraw(now: Date)
    requires ValidDate(now)
    ensures TargetDate(now) != ThaiLottoPredictor.NextDrawDate(now) <==> now.month == 4 && now.day > 16
    ensures now.month == 4 && now.day > 16 ==>
              TargetDate(now) == Date(now.year, 5, 1) && ThaiLottoPredictor.NextDrawDate(now) == Date(now.year, 5, 2)
  {
  }

  /** The Teacher's Day numbers the bias set adds on January 17. */
  const TeachersDayBias: seq<string> := ["61", "95", "19", "79"]

  predicate IsTeachersDay(target: Date) {
    target.month == 1 && target.day == 17
  }

  /**
   bias_set: the two-digit day and day before, the last two digits of the year and of
   the Buddhist-era year (year + 543), and on January 17 four more numbers. The set's
   iteration order is unspecified; first-occurrence order stands in for it.
   */
  function BiasSet(target: Date): seq<string>
    requires ValidDate(target)
  {
    BiasOf(Pad2(target.day), Pad2(target.day - 1), Last2(NatToString(target.year)),
           Last2(NatToString(target.year + 543)), IsTeachersDay(target))
  }

  /** The set {day, prev, year, era} plus the Teacher's Day numbers when teachers holds. */
  function BiasOf(day: string, prev: string, year: string, era: string, teachers: bool): (r: seq<string>)
    ensures NoDup(r) && r != []
    ensures forall x :: x in r <==> x == day || x == prev || x == year || x == era || (teachers && x in TeachersDayBias)
  {
    var r := Distinct([day, prev, year, era] + if teachers then TeachersDayBias else []);
    assert day in r;
    r
  }

  /** All four Teacher's Day numbers are in the bias set exactly on January 17. */
  lemma TeachersDayBiasSet(target: Date)
    requires ValidDate(target)
    ensures (forall x :: x in TeachersDayBias ==> x in BiasSet(target)) <==> IsTeachersDay(target)
  {
    if !IsTeachersDay(target) {
      var a, b := Last2(NatToString(target.year)), Last2(NatToString(target.year + 543));
      ThreeNotAmongTwo("95", "79", "61", a, b);
      assert "95" in TeachersDayBias && "79" in TeachersDayBias && "61" in TeachersDayBias;
      if "95" != a && "95" != b {
        MissingOutside(target, "95");
      } else if "79" != a && "79" != b {
        MissingOutside(target, "79");
      } else {
        MissingOutside(target, "61");
      }
    }
  }

  /** A Teacher's Day number other than both year suffixes is missing outside January 17. */
  lemma MissingOutside(target: Date, lit: string)
    requires ValidDate(target) && !IsTeachersDay(target)
    requires |lit| > 0 && '4' <= lit[0] <= '9'
    requires lit != Last2(NatToString(target.year)) && lit != Last2(NatToString(target.year + 543))
    ensures lit !in BiasSet(target)
  {
    var d, p := Pad2(target.day), Pad2(target.day - 1);
    var a, b := Last2(NatToString(target.year)), Last2(NatToString(target.year + 543));
    PadBelow(lit, target.day);
    assert BiasSet(target) == BiasOf(d, p, a, b, false);
    NotInBias(lit, d, p, a, b);
  }

  lemma NotInBias(lit: string, d: string, p: string, a: string, b: string)
    requires lit != d && lit != p && lit != a && lit != b
    ensures lit !in BiasOf(d, p, a, b, false)
  {
  }

  /** A string starting with a digit from 4 to 9 is neither a padded day of the month nor the day before. */
  lemma PadBelow(lit: string, day: nat)
    requires |lit| > 0 && '4' <= lit[0] <= '9'
    requires 1 <= day <= 31
    ensures lit != Pad2(day) && lit != Pad2(day - 1)
  {
    LeadingDiffers(day, lit[0]);
    LeadingDiffers(day - 1, lit[0]);
  }

  lemma LeadingDiffers(n: nat, c: char)
    requires n < 40 && c != '0' && c != '1' && c != '2' && c != '3'
    ensures |Pad2(n)| == 2 && Pad2(n)[0] != c
  {
    PadLeading(n);
  }

  /** Below 40, the padded form has two characters and starts with 0, 1, 2 or 3. */
  lemma PadLeading(n: nat)
    requires n < 40
    ensures |Pad2(n)| == 2 && (Pad2(n)[0] == '0' || Pad2(n)[0] == '1' || Pad2(n)[0] == '2' || Pad2(n)[0] == '3')
  {
    var s := NatToString(n);
    if n >= 10 {
      assert s == NatToString(n / 10) + [DigitChar(n % 10)];
      assert s[0] == DigitChar(n / 10);
    }
  }

  lemma ThreeNotAmongTwo(x: string, y: string, z: string, a: string, b: string)
    requires x != y && y != z && x != z
    ensures !((x == a || x == b) && (y == a || y == b) && (z == a || z == b))
  {
  }

  // ---------------------------------------------------------------------------
  // Most frequent digit
  // ---------------------------------------------------------------------------

  /**
   The position of the first maximum of Count(s, _) over keys: what max() returns over a
   Counter's items, which it visits in first-occurrence order.
   */
  function FirstMax(keys: seq<char>, s: string): (i: nat)
    requires keys != []
    ensures i < |keys|
    ensures forall j :: 0 <= j < |keys| ==> Count(s, keys[j]) <= Count(s, keys[i])
    ensures forall j :: 0 <= j < i ==> Count(s, keys[j]) < Count(s, keys[i])
    decreases |keys|
  {
    if |keys| == 1 then 0
    else
      var m := FirstMax(keys[..|keys| - 1], s);
      assert forall j :: 0 <= j < |keys| - 1 ==> keys[..|keys| - 1][j] == keys[j];
      if Count(s, keys[|keys| - 1]) > Count(s, keys[m]) then |keys| - 1 else m
  }

  /** Counter(all_digits).most_common(1)[0][0]. */
  function TopDigit(s: string): char
    requires s != []
  {
    assert s[0] in Distinct(s);
    var keys := Distinct(s);
    keys[FirstMax(keys, s)]
  }

  /**
   The top digit occurs in s, no character occurs more often, and every character that
   occurs as often first occurs later in s.
   */
  predicate IsTopDigit(s: string, c: char) {
    c in s
    && (forall x :: x in s ==> Count(s, x) <= Count(s, c))
    && forall x :: x in s && Count(s, x) == Count(s, c) && x != c ==> IndexOf(s, c) < IndexOf(s, x)
  }

  /** First-occurrence order of Distinct agrees with positions in s. */
  lemma {:induction false} DistinctOrder(s: string, i: int, j: int)
    requires 0 <= i < j < |Distinct(s)|
    ensures IndexOf(s, Distinct(s)[i]) < IndexOf(s, Distinct(s)[j])
    decreases |s|
  {
    var d := Distinct(s);
    var p := s[..|s| - 1];
    var dp := Distinct(p);
    assert s == p + [s[|s| - 1]];
    DistinctSnoc(p, s[|s| - 1]);
    assert d == dp || d == dp + [s[|s| - 1]];
    assert d[i] in dp;
    if j < |dp| {
      assert d[i] == dp[i] && d[j] == dp[j];
      DistinctOrder(p, i, j);
      FirstOfPrefix(s, d[i]);
      FirstOfPrefix(s, d[j]);
    } else {
      assert d[j] == s[|s| - 1] && d[j] !in p;
      FirstOfPrefix(s, d[i]);
      assert s[..|s| - 1] == p;
    }
  }

  lemma FirstOfPrefix(s: string, x: char)
    requires |s| > 0 && x in s[..|s| - 1]
    ensures IndexOf(s, x) == IndexOf(s[..|s| - 1], x)
    decreases |s|
  {
    if s[0] != x {
      assert s[1..][..|s[1..]| - 1] == s[..|s| - 1][1..];
      FirstOfPrefix(s[1..], x);
    }
  }

  /** TopDigit picks the most frequent character, the earliest one on a tie. */
  lemma TopDigitCorrect(s: string)
    requires s != []
    ensures IsTopDigit(s, TopDigit(s))
  {
    var keys := Distinct(s);
    assert s[0] in keys;
    var i := FirstMax(keys, s);
    var c := keys[i];
    forall x | x in s ensures Count(s, x) <= Count(s, c) {
      var j :| 0 <= j < |keys| && keys[j] == x;
    }
    forall x | x in s && Count(s, x) == Count(s, c) && x != c ensures IndexOf(s, c) < IndexOf(s, x) {
      var j :| 0 <= j < |keys| && keys[j] == x;
      assert j != i;
      if i < j {
        DistinctOrder(s, i, j);
      }
    }
  }

  /** The tie rule makes the top digit unique. */
  lemma TopDigitUnique(s: string, c: char, d: char)
    requires IsTopDigit(s, c) && IsTopDigit(s, d)
    ensures c == d
  {
  }

  // ---------------------------------------------------------------------------
  // Mining the API
  // ---------------------------------------------------------------------------

  /**
   What one request for a draw's running numbers yields: no reply at all (the request
   raised), or a status code with runningNumbers[0]['number'][0] when the JSON has it.
   */
  datatype NumberReply =
    | NoReply
    | NumberReply(status: int, running: Option<string>)

  /**
   mine_historical_data over the replies for the ten years, oldest first: a 200 reply that
   carries a running number contributes it, and every other reply is skipped.
   */
  function MinedNumbers(replies: seq<NumberReply>): (r: seq<string>)
    ensures |r| <= |replies|
    ensures forall n :: n in r <==> NumberReply(200, Some(n)) in replies
    decreases |replies|
  {
    if replies == [] then []
    else
      var rest := MinedNumbers(replies[1..]);
      assert forall o :: o in replies <==> o == replies[0] || o in replies[1..];
      match replies[0]
      case NumberReply(200, Some(n)) => [n] + rest
      case _ => rest
  }

  /**
   Each mined number stands for one 200 reply that carries it: a number occurs in the
   mined history exactly as often as such a reply does.
   */
  lemma {:induction false} MinedCount(replies: seq<NumberReply>, n: string)
    ensures Count(MinedNumbers(replies), n) == Count(replies, NumberReply(200, Some(n)))
  {
    if replies != [] {
      var o := replies[0];
      var head := if o.NumberReply? && o.status == 200 && o.running.Some? then [o.running.value] else [];
      MinedCount(replies[1..], n);
      assert replies == [o] + replies[1..];
      assert MinedNumbers(replies) == head + MinedNumbers(replies[1..]);
      CountAppend(head, MinedNumbers(replies[1..]), n);
      CountAppend([o], replies[1..], NumberReply(200, Some(n)));
    }
  }

  /**
   Mining keeps the year order: the numbers mined from earlier years come before those
   of later years.
   */
  lemma {:induction false} MinedAppend(a: seq<NumberReply>, b: seq<NumberReply>)
    ensures MinedNumbers(a + b) == MinedNumbers(a) + MinedNumbers(b)
  {
    if a == [] {
      assert a + b == b;
    } else {
      var o := a[0];
      var head := if o.NumberReply? && o.status == 200 && o.running.Some? then [o.running.value] else [];
      MinedAppend(a[1..], b);
      assert (a + b)[0] == o && (a + b)[1..] == a[1..] + b;
      assert MinedNumbers(a + b) == head + MinedNumbers(a[1..] + b);
      assert MinedNumbers(a) == head + MinedNumbers(a[1..]);
    }
  }

  /**
   get_latest_draw_penalty: the running number of the latest draw when the reply's JSON
   carries one, whatever its status; None when the request raised or a key is missing.
   */
  function LatestPenalty(o: NumberReply): Option<string> {
    if o.NumberReply? then o.running else None
  }

  // ---------------------------------------------------------------------------
  // Intersection scoring
  // ---------------------------------------------------------------------------

  const CulturalTag: string := "Cultural Bias"
  const HistoryTag: string := "History Repeat"
  const PenaltyTag: string := "\U{26D4} Penalty (Recent)"

  function StatTag(c: char): string {
    "Stat Match '" + [c] + "'"
  }

  /** The keys that contain the digit c, in key order. */
  function Containing(keys: seq<string>, c: char): (r: seq<string>)
    ensures forall n :: n in r <==> n in keys && c in n
    ensures NoDup(keys) ==> NoDup(r)
    decreases |keys|
  {
    if keys == [] then []
    else
      var init := keys[..|keys| - 1];
      var last := keys[|keys| - 1];
      assert keys == init + [last];
      assert forall n :: n in keys <==> n in init || n == last;
      Containing(init, c) + if c in last then [last] else []
  }

  /** Appending numbers already keyed leaves the key order alone. */
  lemma {:induction false} DistinctSubsumed(a: seq<string>, b: seq<string>)
    requires NoDup(a) && forall x :: x in b ==> x in a
    ensures Distinct(a + b) == a
    decreases |b|
  {
    if b == [] {
      assert a + b == a;
      DistinctOfNoDup(a);
    } else {
      var init := b[..|b| - 1];
      assert b == init + [b[|b| - 1]];
      assert a + b == (a + init) + [b[|b| - 1]];
      DistinctSnoc(a + init, b[|b| - 1]);
      DistinctSubsumed(a, init);
    }
  }

  /**
   Logic 2: `for n in scores: if top_digit in n: scores[n] += 3` with its evidence, over
   the keys present before the loop.
   */
  method StatBonus(t: Table, c: char) returns (r: Table)
    requires WellFormed(t)
    ensures WellFormed(r) && r.keys == t.keys
    ensures Accumulated(t, r, Containing(t.keys, c), 3, StatTag(c))
  {
    var keys := t.keys;
    r := t;
    AddNothing(t, 3, StatTag(c));
    ghost var done: seq<string> := [];
    var i := 0;
    while i < |keys|
      invariant 0 <= i <= |keys|
      invariant done == Containing(keys[..i], c)
      invariant Accumulated(t, r, done, 3, StatTag(c))
    {
      var n := keys[i];
      ContainingSnoc(keys, i, c);
      if c in n {
        AddStep(t, r, done, n, 3, StatTag(c));
        r := Bump(r, n, 3, StatTag(c));
        done := done + [n];
      }
      i := i + 1;
    }
    PrefixAll(keys, i);
    DistinctSubsumed(t.keys, done);
  }

  lemma ContainingSnoc(keys: seq<string>, i: int, c: char)
    requires 0 <= i < |keys|
    ensures Containing(keys[..i + 1], c) == Containing(keys[..i], c) + if c in keys[i] then [keys[i]] else []
  {
    assert keys[..i + 1][..i] == keys[..i];
  }

  /** The penalty step: a non-empty latest number already keyed loses 20. */
  predicate PenaltyHits(bias: seq<string>, numbers: seq<string>, p: Option<string>, n: string) {
    p.Some? && p.value != "" && n == p.value && n in bias + numbers
  }

  /**
   A number's final score: 5 for a bias number, 3 more when it contains the top digit,
   5 per history occurrence, and -20 when it is the latest draw's number.
   */
  function IntersectionScore(bias: seq<string>, numbers: seq<string>, c: char, p: Option<string>, n: string): int {
    (if n in bias then 5 + (if c in n then 3 else 0) else 0)
    + 5 * Count(numbers, n)
    - (if PenaltyHits(bias, numbers, p, n) then 20 else 0)
  }

  /** A number's final reasons, one per contribution in step order. */
  function IntersectionReasons(bias: seq<string>, numbers: seq<string>, c: char, p: Option<string>, n: string): seq<string> {
    (if n in bias then [CulturalTag] + (if c in n then [StatTag(c)] else []) else [])
    + Repeat(HistoryTag, Count(numbers, n))
    + (if PenaltyHits(bias, numbers, p, n) then [PenaltyTag] else [])
  }

  /** scores.items(): the bias numbers first, then new history numbers as they occur. */
  function IntersectionItems(bias: seq<string>, numbers: seq<string>, c: char, p: Option<string>): seq<Scored> {
    var keys := Distinct(bias + numbers);
    seq(|keys|, i requires 0 <= i < |keys| => Scored(keys[i], IntersectionScore(bias, numbers, c, p, keys[i])))
  }

  /** The -20 step on a table. */
  function Penalised(t: Table, p: Option<string>): Table
    requires WellFormed(t)
  {
    if p.Some? && p.value != "" && p.value in t.keys then Bump(t, p.value, -20, PenaltyTag) else t
  }

  /** Logic 1 to 4 of the intersection block, over a bias set and the mined numbers. */
  method IntersectionScores(bias: seq<string>, numbers: seq<string>, c: char, p: Option<string>) returns (t: Table)
    requires NoDup(bias)
    ensures WellFormed(t) && t.keys == Distinct(bias + numbers)
    ensures forall n :: ScoreOf(t, n) == IntersectionScore(bias, numbers, c, p, n)
    ensures forall n :: TagsOf(t, n) == IntersectionReasons(bias, numbers, c, p, n)
    ensures Items(t) == IntersectionItems(bias, numbers, c, p)
  {
    var t1 := AddAll(Empty, bias, 5, CulturalTag);
    assert Empty.keys + bias == bias;
    DistinctOfNoDup(bias);
    var t2 := StatBonus(t1, c);
    var t3 := AddAll(t2, numbers, 5, HistoryTag);
    t := Penalised(t3, p);
    IntersectionTotals(bias, numbers, c, p, t1, t2, t3);
  }

  /** The table after all four steps holds every number's intersection score and reasons. */
  lemma IntersectionTotals(bias: seq<string>, numbers: seq<string>, c: char, p: Option<string>, t1: Table, t2: Table, t3: Table)
    requires NoDup(bias) && t1.keys == bias && t2.keys == bias
    requires Accumulated(Empty, t1, bias, 5, CulturalTag)
    requires Accumulated(t1, t2, Containing(t1.keys, c), 3, StatTag(c))
    requires WellFormed(t3) && Accumulated(t2, t3, numbers, 5, HistoryTag)
    ensures WellFormed(Penalised(t3, p)) && Penalised(t3, p).keys == Distinct(bias + numbers)
    ensures forall n :: ScoreOf(Penalised(t3, p), n) == IntersectionScore(bias, numbers, c, p, n)
    ensures forall n :: TagsOf(Penalised(t3, p), n) == IntersectionReasons(bias, numbers, c, p, n)
    ensures Items(Penalised(t3, p)) == IntersectionItems(bias, numbers, c, p)
  {
    var t := Penalised(t3, p);
    assert t.keys == t3.keys;
    forall n ensures ScoreOf(t, n) == IntersectionScore(bias, numbers, c, p, n)
      ensures TagsOf(t, n) == IntersectionReasons(bias, numbers, c, p, n)
    {
      IntersectionSteps(bias, numbers, c, t1, t2, t3, n);
      IntersectionAt(bias, numbers, c, p, n, t3);
    }
  }

  /** One number's score and reasons after the bias, stat and history steps. */
  lemma IntersectionSteps(bias: seq<string>, numbers: seq<string>, c: char, t1: Table, t2: Table, t3: Table, n: string)
    requires Accumulated(Empty, t1, bias, 5, CulturalTag)
    requires Accumulated(t1, t2, Containing(t1.keys, c), 3, StatTag(c)) && t1.keys == bias
    requires Accumulated(t2, t3, numbers, 5, HistoryTag)
    ensures ScoreOf(t3, n) == 5 * Count(bias, n) + 3 * Count(Containing(bias, c), n) + 5 * Count(numbers, n)
    ensures TagsOf(t3, n) == Repeat(CulturalTag, Count(bias, n)) + Repeat(StatTag(c), Count(Containing(bias, c), n))
                             + Repeat(HistoryTag, Count(numbers, n))
  {
    var r1, r2, r3 := Repeat(CulturalTag, Count(bias, n)), Repeat(StatTag(c), Count(Containing(bias, c), n)),
                      Repeat(HistoryTag, Count(numbers, n));
    assert TagsOf(Empty, n) == [];
    assert TagsOf(t1, n) == [] + r1 == r1;
    assert TagsOf(t2, n) == r1 + r2;
    assert TagsOf(t3, n) == (r1 + r2) + r3;
  }

  /** One number's score and reasons once the three adding steps are summed up. */
  lemma IntersectionAt(bias: seq<string>, numbers: seq<string>, c: char, p: Option<string>, n: string, t3: Table)
    requires NoDup(bias) && WellFormed(t3) && t3.keys == Distinct(bias + numbers)
    requires ScoreOf(t3, n) == 5 * Count(bias, n) + 3 * Count(Containing(bias, c), n) + 5 * Count(numbers, n)
    requires TagsOf(t3, n) == Repeat(CulturalTag, Count(bias, n)) + Repeat(StatTag(c), Count(Containing(bias, c), n))
                              + Repeat(HistoryTag, Count(numbers, n))
    ensures ScoreOf(Penalised(t3, p), n) == IntersectionScore(bias, numbers, c, p, n)
    ensures TagsOf(Penalised(t3, p), n) == IntersectionReasons(bias, numbers, c, p, n)
  {
    CountNoDup(bias, n);
    CountNoDup(Containing(bias, c), n);
    var pen := PenaltyHits(bias, numbers, p, n);
    assert pen <==> p.Some? && p.value != "" && p.value in t3.keys && n == p.value;
    PenalisedAt(t3, p, n, pen);
    BaseReasons(n in bias, c in n, StatTag(c), Repeat(HistoryTag, Count(numbers, n)));
  }

  /** The -20 step changes n's score and reasons exactly when n is the latest number and keyed. */
  lemma PenalisedAt(t3: Table, p: Option<string>, n: string, pen: bool)
    requires WellFormed(t3)
    requires pen <==> p.Some? && p.value != "" && p.value in t3.keys && n == p.value
    ensures ScoreOf(Penalised(t3, p), n) == ScoreOf(t3, n) - (if pen then 20 else 0)
    ensures TagsOf(Penalised(t3, p), n) == TagsOf(t3, n) + (if pen then [PenaltyTag] else [])
  {
    if !(p.Some? && p.value != "" && p.value in t3.keys) {
      assert TagsOf(t3, n) + [] == TagsOf(t3, n);
    }
  }

  /** The first two steps' evidence for one number, as opposed to its repeat counts. */
  lemma BaseReasons(inBias: bool, hit: bool, statTag: string, rest: seq<string>)
    ensures Repeat(CulturalTag, if inBias then 1 else 0) + Repeat(statTag, if inBias && hit then 1 else 0) + rest
         == (if inBias then [CulturalTag] + (if hit then [statTag] else []) else []) + rest
  {
    assert Repeat(CulturalTag, 1) == [CulturalTag];
    assert Repeat(statTag, 1) == [statTag];
  }

  /**
   Between one and five picks, best first, no number twice; each pick is a scored number
   with its intersection score.
   */
  lemma IntersectionPicksRanked(bias: seq<string>, numbers: seq<string>, c: char, p: Option<string>)
    requires NoDup(bias) && bias != []
    ensures var r := Rank(IntersectionItems(bias, numbers, c, p), 5);
      1 <= |r| <= 5 && SortedDesc(r) && NoDup(NumbersOf(r))
      && forall i :: 0 <= i < |r| ==>
           r[i].number in bias + numbers && r[i].score == IntersectionScore(bias, numbers, c, p, r[i].number)
  {
    var items := IntersectionItems(bias, numbers, c, p);
    var keys := Distinct(bias + numbers);
    assert NumbersOf(items) == keys;
    assert bias[0] in keys;
    RankEntries(items, 5);
    RankDistinct(items, 5);
    var r := Rank(items, 5);
    forall i | 0 <= i < |r|
      ensures r[i].number in bias + numbers && r[i].score == IntersectionScore(bias, numbers, c, p, r[i].number)
    {
      var j :| 0 <= j < |items| && items[j] == r[i];
      assert r[i].number == keys[j];
    }
  }

  /** The winner, top_picks[0], scores at least as much as every scored number. */
  lemma WinnerIsBest(bias: seq<string>, numbers: seq<string>, c: char, p: Option<string>, n: string)
    requires NoDup(bias) && bias != [] && n in bias + numbers
    ensures var r := Rank(IntersectionItems(bias, numbers, c, p), 5);
      |r| > 0 && IntersectionScore(bias, numbers, c, p, n) <= r[0].score
  {
    var items := IntersectionItems(bias, numbers, c, p);
    var keys := Distinct(bias + numbers);
    IntersectionPicksRanked(bias, numbers, c, p);
    var r := Rank(items, 5);
    var j :| 0 <= j < |keys| && keys[j] == n;
    var x := items[j];
    assert x == Scored(n, IntersectionScore(bias, numbers, c, p, n));
    if x in r {
      var k :| 0 <= k < |r| && r[k] == x;
      assert r[0].score >= r[k].score;
    } else {
      RankIsTop(items, 5, x, 0);
    }
  }

  // ---------------------------------------------------------------------------
  // The live analysis
  // ---------------------------------------------------------------------------

  datatype Analysis =
    /** No year yielded a number: the app shows an error and stops. */
    | NoHistory
    /** Every mined number is empty, so `Counter(all_digits).most_common(1)[0]` raises IndexError. */
    | NoDigits
    /** The target draw, the top digit, the five top picks and the winner. */
    | Prediction(target: Date, topDigit: char, picks: seq<Scored>, winner: Scored)

  /**
   The "Run Live Analysis" button on day now, with the per-year replies and the latest
   draw's reply as inputs.
   */
  method RunLiveAnalysis(now: Date, replies: seq<NumberReply>, latest: NumberReply) returns (a: Analysis)
    requires ValidDate(now)
    ensures a.NoHistory? <==> MinedNumbers(replies) == []
    ensures a.NoDigits? <==> MinedNumbers(replies) != [] && Concat(MinedNumbers(replies)) == []
    ensures a.Prediction? ==>
      var numbers := MinedNumbers(replies);
      a.target == TargetDate(now)
      && a.topDigit == TopDigit(Concat(numbers))
      && a.picks == Rank(IntersectionItems(BiasSet(a.target), numbers, a.topDigit, LatestPenalty(latest)), 5)
      && |a.picks| >= 1 && a.winner == a.picks[0]
  {
    var target := TargetDate(now);
    var rawHistory := MinedNumbers(replies);
    var penaltyNum := LatestPenalty(latest);
    if rawHistory == [] {
      return NoHistory;
    }
    var allDigits := Concat(rawHistory);
    if allDigits == [] {
      return NoDigits;
    }
    var topDigit := TopDigit(allDigits);
    var biasSet := BiasSet(target);
    var scores := IntersectionScores(biasSet, rawHistory, topDigit, penaltyNum);
    var topPicks := Rank(Items(scores), 5);
    IntersectionPicksRanked(biasSet, rawHistory, topDigit, penaltyNum);
    a := Prediction(target, topDigit, topPicks, topPicks[0]);
  }

  // ---------------------------------------------------------------------------
  // The nested engine methods
  // ---------------------------------------------------------------------------

  /**
   get_next_draw_context: the main engine's next draw, with a bias list that lacks the
   main engine's str(year % 100).
   */
  function DrawContext(now: Date): (Date, seq<string>)
    requires ValidDate(now)
  {
    var next := ThaiLottoPredictor.NextDrawDate(now);
    (next, Distinct(ThaiLottoPredictor.SpecialNumbers(next) + [Last2(NatToString(next.year)), "96"]))
  }

  /**
   The context's bias numbers are the main engine's, except that str(year % 100) is only
   there when it equals the year's last two digits: for years from 10 on, when the year
   mod 100 is below 10.
   */
  lemma DrawContextBias(now: Date, x: string)
    requires ValidDate(now)
    ensures var (next, bias) := DrawContext(now);
      x in bias <==> x in ThaiLottoPredictor.BiasNumbers(next)
                     && (x != NatToString(next.year % 100) || x == Last2(NatToString(next.year))
                         || x in ThaiLottoPredictor.SpecialNumbers(next) || x == "96")
  {
  }

  /** The weights dict of the engine; its values are not part of the source. */
  datatype Weights = Weights(culture: int, seasonal: int, recent: int, penalty: int)

  /** run_advanced_algorithm's factors: the recent factor reads up to 20 records. */
  function AdvancedConfig(w: Weights): Config {
    Config(w.culture, w.seasonal, w.recent, w.penalty, UpTo(20),
           "Cultural Pattern", "Seasonal Match", "Recent Trend", "\U{26A0}\U{FE0F} Repeat Risk")
  }

  /** One result row: a number, its score and its evidence. */
  datatype Evidence = Evidence(number: string, score: int, evidence: seq<string>)

  /** `for num, score in ranked: results.append((num, score, evidence[num]))`. */
  function Rows(h: seq<Record>, bias: seq<string>, tm: string, cfg: Config, ranked: seq<Scored>): seq<Evidence>
    requires MonthFieldsPresent(h)
  {
    seq(|ranked|, i requires 0 <= i < |ranked| =>
      Evidence(ranked[i].number, ranked[i].score, WeightedTags(h, bias, tm, cfg, ranked[i].number)))
  }

  /** The result rows of most_common(5) with each number's evidence. */
  function AdvancedResults(h: seq<Record>, target: Date, bias: seq<string>, w: Weights): seq<Evidence>
    requires MonthFieldsPresent(h) && ValidDate(target)
  {
    var cfg, tm := AdvancedConfig(w), Pad2(target.month);
    Rows(h, bias, tm, cfg, Rank(WeightedItems(h, bias, tm, cfg), 5))
  }

  /**
   At most five rows, best first, distinct numbers, each a scored number with its weighted
   score and evidence.
   */
  lemma AdvancedResultsRanked(h: seq<Record>, target: Date, bias: seq<string>, w: Weights)
    requires MonthFieldsPresent(h) && ValidDate(target)
    ensures var cfg, tm := AdvancedConfig(w), Pad2(target.month);
      var r := AdvancedResults(h, target, bias, w);
      var keys := ScoredKeys(h, bias, tm, cfg);
      |r| == (if |keys| < 5 then |keys| else 5)
      && (forall i, j :: 0 <= i < j < |r| ==> r[i].score >= r[j].score && r[i].number != r[j].number)
      && forall i :: 0 <= i < |r| ==>
           r[i].number in keys && r[i].score == WeightedScore(h, bias, tm, cfg, r[i].number)
           && r[i].evidence == WeightedTags(h, bias, tm, cfg, r[i].number)
  {
    RowsRanked(h, bias, Pad2(target.month), AdvancedConfig(w));
  }

  lemma RowsRanked(h: seq<Record>, bias: seq<string>, tm: string, cfg: Config)
    requires MonthFieldsPresent(h)
    ensures var r := Rows(h, bias, tm, cfg, Rank(WeightedItems(h, bias, tm, cfg), 5));
      var keys := ScoredKeys(h, bias, tm, cfg);
      |r| == (if |keys| < 5 then |keys| else 5)
      && (forall i, j :: 0 <= i < j < |r| ==> r[i].score >= r[j].score && r[i].number != r[j].number)
      && forall i :: 0 <= i < |r| ==>
           r[i].number in keys && r[i].score == WeightedScore(h, bias, tm, cfg, r[i].number)
           && r[i].evidence == WeightedTags(h, bias, tm, cfg, r[i].number)
  {
    var items := WeightedItems(h, bias, tm, cfg);
    var ranked := Rank(items, 5);
    WeightedItemsEntries(h, bias, tm, cfg);
    RankEntries(items, 5);
    RankDistinct(items, 5);
    assert |items| == |ScoredKeys(h, bias, tm, cfg)|;
    var r := Rows(h, bias, tm, cfg, ranked);
    forall i, j | 0 <= i < j < |r| ensures r[i].score >= r[j].score && r[i].number != r[j].number {
      assert r[i].number == NumbersOf(ranked)[i] && r[j].number == NumbersOf(ranked)[j];
    }
  }

  /** Unlike the main engine, the advanced scorer penalises the latest number from the first record on. */
  lemma AdvancedPenaltyOnLatest(h: seq<Record>, target: Date, bias: seq<string>, w: Weights, n: string)
    requires MonthFieldsPresent(h) && ValidDate(target) && |h| >= 1
    ensures PenaltyApplies(h, bias, Pad2(target.month), AdvancedConfig(w), n) <==> n == h[0].number
  {
    LatestPenalised(h, bias, Pad2(target.month), AdvancedConfig(w));
  }

  /** What fetch_latest_draw returns for display. */
  datatype Shown = Shown(date: string, number: string, status: string)

  /**
   fetch_latest_draw's effect: a non-200 status, a failed request, a body that is not JSON
   or lacks a field each count a failure; a parsed date not yet stored is prepended in
   "%d-%m-%Y" form without touching the counter; anything else changes nothing.
   */
  function Fetched(s: ThaiLottoPredictor.Store, o: FetchOutcome): ThaiLottoPredictor.Store {
    if o.TransportError? || o.status != 200 || !o.body.Fields? then
      ThaiLottoPredictor.Store(s.history, s.apiFailures + 1)
    else
      var dt := FirstParse(o.body.rawDate, AcceptedFormats);
      if dt.None? then s
      else
        FirstParseValid(o.body.rawDate, AcceptedFormats);
        ThaiLottoPredictor.Store(InsertIfNew(s.history, Record(FormatDate(dt.value), o.body.number)), s.apiFailures)
  }

  /** fetch_latest_draw's returned dict. */
  function FetchedShown(o: FetchOutcome): Shown {
    if o.Reply? && o.status != 200 then Shown("Unknown", "N/A", "Offline")
    else if o.TransportError? || !o.body.Fields? then Shown("Error", "N/A", "Offline")
    else Shown(o.body.rawDate, o.body.number, "Online")
  }

  /**
   The fetch counts a failure exactly when it reports "Offline", and its history effect is
   the main engine's sync's; unlike the sync it never resets the counter.
   */
  lemma FetchedEffect(s: ThaiLottoPredictor.Store, o: FetchOutcome)
    ensures Fetched(s, o).apiFailures == s.apiFailures + (if FetchedShown(o).status == "Offline" then 1 else 0)
    ensures Fetched(s, o).history == ThaiLottoPredictor.Synced(s, o).history
  {
    if !(o.TransportError? || o.status != 200 || !o.body.Fields?) {
      assert FetchedShown(o).status == "Online";
    }
  }

  /** Fetching the same reply again leaves the history as it is. */
  lemma FetchedIdempotent(s: ThaiLottoPredictor.Store, o: FetchOutcome)
    ensures Fetched(Fetched(s, o), o).history == Fetched(s, o).history
  {
    if !(o.TransportError? || o.status != 200 || !o.body.Fields?) {
      var dt := FirstParse(o.body.rawDate, AcceptedFormats);
      if dt.Some? {
        FirstParseValid(o.body.rawDate, AcceptedFormats);
        InsertIdempotent(s.history, Record(FormatDate(dt.value), o.body.number));
      }
    }
  }

  /** The result loop of run_advanced_algorithm, reading each number's evidence from the table. */
  method CollectRows(h: seq<Record>, bias: seq<string>, tm: string, cfg: Config, scores: Table, ranked: seq<Scored>)
    returns (results: seq<Evidence>)
    requires MonthFieldsPresent(h)
    requires forall n :: TagsOf(scores, n) == WeightedTags(h, bias, tm, cfg, n)
    ensures results == Rows(h, bias, tm, cfg, ranked)
  {
    results := [];
    var i := 0;
    while i < |ranked|
      invariant 0 <= i <= |ranked|
      invariant results == Rows(h, bias, tm, cfg, ranked[..i])
    {
      results := results + [Evidence(ranked[i].number, ranked[i].score, TagsOf(scores, ranked[i].number))];
      PrefixSnoc(ranked, i);
      i := i + 1;
    }
    PrefixAll(ranked, i);
  }

  /**
   The engine the nested methods belong to; the enclosing class is not part of the
   source, so its constructor takes the initial state as given.
   */
  class AdvancedEngine {
    var history: seq<Record>
    var apiFailures: nat
    const weights: Weights

    function State(): ThaiLottoPredictor.Store
      reads this
    {
      ThaiLottoPredictor.Store(history, apiFailures)
    }

    constructor(history0: seq<Record>, w: Weights)
      ensures history == history0 && apiFailures == 0 && weights == w
    {
      history := history0;
      apiFailures := 0;
      weights := w;
    }

    /** fetch_latest_draw, with the API's reply given as o (caching is not modelled). */
    method FetchLatestDraw(o: FetchOutcome) returns (shown: Shown)
      modifies this
      ensures State() == Fetched(old(State()), o)
      ensures shown == FetchedShown(o)
    {
      match o
      case TransportError =>
        apiFailures := apiFailures + 1;
        shown := Shown("Error", "N/A", "Offline");
      case Reply(status, body) =>
        if status != 200 {
          apiFailures := apiFailures + 1;
          return Shown("Unknown", "N/A", "Offline");
        }
        match body
        case NotJson =>
          apiFailures := apiFailures + 1;
          shown := Shown("Error", "N/A", "Offline");
        case MissingField =>
          apiFailures := apiFailures + 1;
          shown := Shown("Error", "N/A", "Offline");
        case Fields(rawDate, result2d) =>
          var dt := TryFormats(rawDate, AcceptedFormats);
          if dt.None? {
            return Shown(rawDate, result2d, "Online");
          }
          FirstParseValid(rawDate, AcceptedFormats);
          var fmtDate := FormatDate(dt.value);
          if !HasDate(history, fmtDate) {
            history := [Record(fmtDate, result2d)] + history;
          }
          shown := Shown(rawDate, result2d, "Online");
    }

    /** run_advanced_algorithm over the engine's history and weights. */
    method RunAdvancedAlgorithm(targetDate: Date, culturalBias: seq<string>) returns (results: seq<Evidence>)
      requires MonthFieldsPresent(history) && ValidDate(targetDate)
      ensures results == AdvancedResults(history, targetDate, culturalBias, weights)
    {
      var cfg := AdvancedConfig(weights);
      var targetMonth := Pad2(targetDate.month);
      var scores := WeightedScores(history, culturalBias, targetMonth, cfg);
      var ranked := Rank(Items(scores), 5);
      results := CollectRows(history, culturalBias, targetMonth, cfg, scores, ranked);
    }
  }
}
