/**
 The weighted multi-factor scorer shared by the main engine's compute_top_picks and
 the weights-dict variant run_advanced_algorithm: a cultural factor over the bias list,
 a seasonal factor over the records of the target month, a recent factor over the
 newest records, and a penalty on the latest number if it was scored. The variants
 differ only in weights, tags and the recent window, gathered in a Config.
 */
module WeightedScoring {
  import opened Text
  import opened History
  import opened Scoring

  /** Which newest records the recent factor reads. */
  datatype Window =
    /** `if len(h) >= size: h[:size]`, and no recent factor otherwise. */
    | AllOrNothing(size: nat)
    /** `h[:size] if len(h) >= size else h`. */
    | UpTo(size: nat)

  datatype Config = Config(
    culture: int, seasonal: int, recent: int, penalty: int, window: Window,
    cultureTag: string, seasonalTag: string, recentTag: string, penaltyTag: string)

  /** The numbers of the records the recent factor reads: a prefix of the history. */
  function RecentNumbers(h: seq<Record>, w: Window): (r: seq<string>)
    ensures w.AllOrNothing? ==> |r| == if |h| >= w.size then w.size else 0
    ensures w.UpTo? ==> |r| == if |h| >= w.size then w.size else |h|
    ensures |r| <= |h| && r == Numbers(h)[..|r|]
  {
    match w
    case AllOrNothing(k) => if |h| >= k then Numbers(h[..k]) else []
    case UpTo(k) => Numbers(Take(h, k))
  }

  /** The keys of the Counter when the penalty step runs, in insertion order. */
  function ScoredKeys(h: seq<Record>, bias: seq<string>, tm: string, cfg: Config): seq<string>
    requires MonthFieldsPresent(h)
  {
    Distinct(bias + SeasonalNumbers(h, tm) + RecentNumbers(h, cfg.window))
  }

  /** `if history: latest = history[0]['number']; if latest in scores: ...` picks n. */
  predicate PenaltyApplies(h: seq<Record>, bias: seq<string>, tm: string, cfg: Config, n: string)
    requires MonthFieldsPresent(h)
  {
    |h| > 0 && n == h[0].number && n in ScoredKeys(h, bias, tm, cfg)
  }

  /** Final score of n: each factor's weight once per occurrence of n, then the penalty. */
  function WeightedScore(h: seq<Record>, bias: seq<string>, tm: string, cfg: Config, n: string): int
    requires MonthFieldsPresent(h)
  {
    cfg.culture * Count(bias, n)
    + cfg.seasonal * Count(SeasonalNumbers(h, tm), n)
    + cfg.recent * Count(RecentNumbers(h, cfg.window), n)
    + (if PenaltyApplies(h, bias, tm, cfg, n) then cfg.penalty else 0)
  }

  /** Final evidence of n: one tag per contribution, in factor order, never deduplicated. */
  function WeightedTags(h: seq<Record>, bias: seq<string>, tm: string, cfg: Config, n: string): seq<string>
    requires MonthFieldsPresent(h)
  {
    Repeat(cfg.cultureTag, Count(bias, n))
    + Repeat(cfg.seasonalTag, Count(SeasonalNumbers(h, tm), n))
    + Repeat(cfg.recentTag, Count(RecentNumbers(h, cfg.window), n))
    + (if PenaltyApplies(h, bias, tm, cfg, n) then [cfg.penaltyTag] else [])
  }

  /** scores.items() at the end, in key order. */
  function WeightedItems(h: seq<Record>, bias: seq<string>, tm: string, cfg: Config): seq<Scored>
    requires MonthFieldsPresent(h)
  {
    var keys := ScoredKeys(h, bias, tm, cfg);
    seq(|keys|, i requires 0 <= i < |keys| => Scored(keys[i], WeightedScore(h, bias, tm, cfg, keys[i])))
  }

  /** The three factor loops and the penalty step, filling a Counter and an evidence dict. */
  method WeightedScores(h: seq<Record>, bias: seq<string>, tm: string, cfg: Config) returns (t: Table)
    requires MonthFieldsPresent(h)
    ensures WellFormed(t) && t.keys == ScoredKeys(h, bias, tm, cfg)
    ensures forall n :: ScoreOf(t, n) == WeightedScore(h, bias, tm, cfg, n)
    ensures forall n :: TagsOf(t, n) == WeightedTags(h, bias, tm, cfg, n)
    ensures Items(t) == WeightedItems(h, bias, tm, cfg)
  {
    var seasonal := SeasonalNumbers(h, tm);
    var recent := RecentNumbers(h, cfg.window);
    var t1 := AddAll(Empty, bias, cfg.culture, cfg.cultureTag);
    var t2 := AddAll(t1, seasonal, cfg.seasonal, cfg.seasonalTag);
    var t3 := AddAll(t2, recent, cfg.recent, cfg.recentTag);
    ThreeFactors(h, bias, tm, cfg, t1, t2, t3);
    t := t3;
    if |h| > 0 {
      var latest := h[0].number;
      if latest in t.keys {
        t := Bump(t, latest, cfg.penalty, cfg.penaltyTag);
      }
    }
    forall n ensures ScoreOf(t, n) == WeightedScore(h, bias, tm, cfg, n)
                  && TagsOf(t, n) == WeightedTags(h, bias, tm, cfg, n) {
      ThreeFactorsAt(h, bias, tm, cfg, t1, t2, t3, n);
      PenaltyAt(h, bias, tm, cfg, t3, t, n);
    }
    ItemsOfScores(h, bias, tm, cfg, t);
  }

  /** The penalty step on top of the three factors yields n's final score and evidence. */
  lemma PenaltyAt(h: seq<Record>, bias: seq<string>, tm: string, cfg: Config, t3: Table, t: Table, n: string)
    requires MonthFieldsPresent(h) && WellFormed(t3) && t3.keys == ScoredKeys(h, bias, tm, cfg)
    requires ScoreOf(t3, n) == cfg.culture * Count(bias, n)
              + cfg.seasonal * Count(SeasonalNumbers(h, tm), n) + cfg.recent * Count(RecentNumbers(h, cfg.window), n)
    requires TagsOf(t3, n) == Repeat(cfg.cultureTag, Count(bias, n))
              + Repeat(cfg.seasonalTag, Count(SeasonalNumbers(h, tm), n))
              + Repeat(cfg.recentTag, Count(RecentNumbers(h, cfg.window), n))
    requires t == if |h| > 0 && h[0].number in t3.keys then Bump(t3, h[0].number, cfg.penalty, cfg.penaltyTag) else t3
    ensures ScoreOf(t, n) == WeightedScore(h, bias, tm, cfg, n)
    ensures TagsOf(t, n) == WeightedTags(h, bias, tm, cfg, n)
  {
    var pen := PenaltyApplies(h, bias, tm, cfg, n);
    assert pen <==> |h| > 0 && n == h[0].number && n in t3.keys;
    PenaltyStep(t3, t, n, if |h| > 0 then h[0].number else "", |h| > 0 && h[0].number in t3.keys, pen, cfg.penalty, cfg.penaltyTag);
  }

  lemma PenaltyStep(t3: Table, t: Table, n: string, latest: string, hit: bool, pen: bool, w: int, tag: string)
    requires WellFormed(t3)
    requires t == if hit then Bump(t3, latest, w, tag) else t3
    requires pen <==> hit && n == latest
    ensures ScoreOf(t, n) == ScoreOf(t3, n) + (if pen then w else 0)
    ensures TagsOf(t, n) == TagsOf(t3, n) + (if pen then [tag] else [])
  {
    if !hit {
      assert TagsOf(t3, n) + [] == TagsOf(t3, n);
    }
  }

  lemma ItemsOfScores(h: seq<Record>, bias: seq<string>, tm: string, cfg: Config, t: Table)
    requires MonthFieldsPresent(h)
    requires t.keys == ScoredKeys(h, bias, tm, cfg)
    requires forall n :: ScoreOf(t, n) == WeightedScore(h, bias, tm, cfg, n)
    ensures Items(t) == WeightedItems(h, bias, tm, cfg)
  {
  }

  /** After the three factor loops, the keys are the scored numbers in first-occurrence order. */
  lemma ThreeFactors(h: seq<Record>, bias: seq<string>, tm: string, cfg: Config, t1: Table, t2: Table, t3: Table)
    requires MonthFieldsPresent(h)
    requires Accumulated(Empty, t1, bias, cfg.culture, cfg.cultureTag)
    requires Accumulated(t1, t2, SeasonalNumbers(h, tm), cfg.seasonal, cfg.seasonalTag)
    requires Accumulated(t2, t3, RecentNumbers(h, cfg.window), cfg.recent, cfg.recentTag)
    ensures t3.keys == ScoredKeys(h, bias, tm, cfg)
  {
    var s := SeasonalNumbers(h, tm);
    var r := RecentNumbers(h, cfg.window);
    assert Empty.keys + bias == bias;
    DistinctAbsorb(bias, s);
    DistinctAbsorb(bias + s, r);
  }

  /** After the three factor loops, n's score and evidence are its three contributions. */
  lemma ThreeFactorsAt(h: seq<Record>, bias: seq<string>, tm: string, cfg: Config, t1: Table, t2: Table, t3: Table, n: string)
    requires MonthFieldsPresent(h)
    requires Accumulated(Empty, t1, bias, cfg.culture, cfg.cultureTag)
    requires Accumulated(t1, t2, SeasonalNumbers(h, tm), cfg.seasonal, cfg.seasonalTag)
    requires Accumulated(t2, t3, RecentNumbers(h, cfg.window), cfg.recent, cfg.recentTag)
    ensures ScoreOf(t3, n) == cfg.culture * Count(bias, n)
              + cfg.seasonal * Count(SeasonalNumbers(h, tm), n) + cfg.recent * Count(RecentNumbers(h, cfg.window), n)
    ensures TagsOf(t3, n) == Repeat(cfg.cultureTag, Count(bias, n))
              + Repeat(cfg.seasonalTag, Count(SeasonalNumbers(h, tm), n))
              + Repeat(cfg.recentTag, Count(RecentNumbers(h, cfg.window), n))
  {
    var s := SeasonalNumbers(h, tm);
    var r := RecentNumbers(h, cfg.window);
    assert ScoreOf(t1, n) == ScoreOf(Empty, n) + cfg.culture * Count(bias, n);
    assert ScoreOf(t2, n) == ScoreOf(t1, n) + cfg.seasonal * Count(s, n);
    assert ScoreOf(t3, n) == ScoreOf(t2, n) + cfg.recent * Count(r, n);
    assert TagsOf(Empty, n) == [];
    ChainTags(TagsOf(t1, n), TagsOf(t2, n), TagsOf(t3, n), Repeat(cfg.cultureTag, Count(bias, n)),
              Repeat(cfg.seasonalTag, Count(s, n)), Repeat(cfg.recentTag, Count(r, n)));
  }

  lemma ChainTags(e1: seq<string>, e2: seq<string>, e3: seq<string>, r1: seq<string>, r2: seq<string>, r3: seq<string>)
    requires e1 == [] + r1 && e2 == e1 + r2 && e3 == e2 + r3
    ensures e3 == r1 + r2 + r3
  {
  }

  /** With no history only the bias numbers are scored, each once with the cultural weight. */
  lemma EmptyHistoryScoresBiasOnly(bias: seq<string>, tm: string, cfg: Config)
    requires NoDup(bias)
    ensures ScoredKeys([], bias, tm, cfg) == bias
    ensures forall n :: n in bias ==> WeightedScore([], bias, tm, cfg, n) == cfg.culture
    ensures forall n :: n in bias ==> WeightedTags([], bias, tm, cfg, n) == [cfg.cultureTag]
  {
    EmptyFactors([], tm, cfg);
    assert bias + [] + [] == bias;
    DistinctOfNoDup(bias);
    forall n | n in bias
      ensures WeightedScore([], bias, tm, cfg, n) == cfg.culture
      ensures WeightedTags([], bias, tm, cfg, n) == [cfg.cultureTag]
    {
      EmptyHistoryAt(bias, tm, cfg, n);
    }
  }

  lemma EmptyFactors(h: seq<Record>, tm: string, cfg: Config)
    requires h == []
    ensures SeasonalNumbers(h, tm) == [] && RecentNumbers(h, cfg.window) == []
  {
  }

  lemma EmptyHistoryAt(bias: seq<string>, tm: string, cfg: Config, n: string)
    requires NoDup(bias) && n in bias
    ensures WeightedScore([], bias, tm, cfg, n) == cfg.culture
    ensures WeightedTags([], bias, tm, cfg, n) == [cfg.cultureTag]
  {
    EmptyFactors([], tm, cfg);
    CountNoDup(bias, n);
    assert Repeat(cfg.cultureTag, 1) == [cfg.cultureTag];
  }

  /** The ranked items of an empty history: the bias numbers in order, each with the cultural weight. */
  lemma EmptyHistoryItems(bias: seq<string>, tm: string, cfg: Config)
    requires NoDup(bias)
    ensures |WeightedItems([], bias, tm, cfg)| == |bias|
    ensures forall i :: 0 <= i < |bias| ==> WeightedItems([], bias, tm, cfg)[i] == Scored(bias[i], cfg.culture)
  {
    EmptyHistoryScoresBiasOnly(bias, tm, cfg);
  }

  lemma {:induction false} CountRepeat(x: string, k: nat, y: string)
    ensures Count(Repeat(x, k), y) == if x == y then k else 0
  {
    if k > 0 {
      CountSnoc(Repeat(x, k - 1), x, y);
      CountRepeat(x, k - 1, y);
    }
  }

  /**
   The penalty touches at most one number, the latest draw's: when the penalty tag
   differs from the factor tags, it occurs in n's evidence once if n was penalised and
   not at all otherwise.
   */
  lemma PenaltyOnlyLatest(h: seq<Record>, bias: seq<string>, tm: string, cfg: Config, n: string)
    requires MonthFieldsPresent(h)
    requires cfg.penaltyTag != cfg.cultureTag && cfg.penaltyTag != cfg.seasonalTag
    requires cfg.penaltyTag != cfg.recentTag
    ensures Count(WeightedTags(h, bias, tm, cfg, n), cfg.penaltyTag)
              == if PenaltyApplies(h, bias, tm, cfg, n) then 1 else 0
    ensures PenaltyApplies(h, bias, tm, cfg, n) ==> n == h[0].number
  {
    var p := cfg.penaltyTag;
    var a := Repeat(cfg.cultureTag, Count(bias, n));
    var b := Repeat(cfg.seasonalTag, Count(SeasonalNumbers(h, tm), n));
    var c := Repeat(cfg.recentTag, Count(RecentNumbers(h, cfg.window), n));
    var d: seq<string> := if PenaltyApplies(h, bias, tm, cfg, n) then [p] else [];
    CountRepeat(cfg.cultureTag, Count(bias, n), p);
    CountRepeat(cfg.seasonalTag, Count(SeasonalNumbers(h, tm), n), p);
    CountRepeat(cfg.recentTag, Count(RecentNumbers(h, cfg.window), n), p);
    CountAppend(a, b, p);
    CountAppend(a + b, c, p);
    CountAppend(a + b + c, d, p);
    assert Count(d, p) == if PenaltyApplies(h, bias, tm, cfg, n) then 1 else 0 by {
      if PenaltyApplies(h, bias, tm, cfg, n) {
        assert d == [] + [p];
      }
    }
  }

  /**
   Once the recent window reaches the latest record, the latest number is always scored
   and so always penalised.
   */
  lemma LatestPenalised(h: seq<Record>, bias: seq<string>, tm: string, cfg: Config)
    requires MonthFieldsPresent(h) && |h| > 0 && cfg.window.size >= 1
    requires cfg.window.AllOrNothing? ==> |h| >= cfg.window.size
    ensures PenaltyApplies(h, bias, tm, cfg, h[0].number)
  {
    var r := RecentNumbers(h, cfg.window);
    assert r[0] == Numbers(h)[0] == h[0].number;
    var all := bias + SeasonalNumbers(h, tm) + r;
    assert all[|all| - |r|] == r[0];
  }

  /** The scored items list every scored number once, in key order, with its weighted score. */
  lemma WeightedItemsEntries(h: seq<Record>, bias: seq<string>, tm: string, cfg: Config)
    requires MonthFieldsPresent(h)
    ensures NumbersOf(WeightedItems(h, bias, tm, cfg)) == ScoredKeys(h, bias, tm, cfg)
    ensures NoDup(NumbersOf(WeightedItems(h, bias, tm, cfg)))
    ensures forall x :: x in WeightedItems(h, bias, tm, cfg) <==>
              x.number in ScoredKeys(h, bias, tm, cfg) && x.score == WeightedScore(h, bias, tm, cfg, x.number)
  {
    var items, keys := WeightedItems(h, bias, tm, cfg), ScoredKeys(h, bias, tm, cfg);
    assert NumbersOf(items) == keys;
    forall x: Scored | x.number in keys && x.score == WeightedScore(h, bias, tm, cfg, x.number)
      ensures x in items
    {
      var i :| 0 <= i < |keys| && keys[i] == x.number;
      assert items[i] == x;
    }
  }

  /** With no history, the ranking is the first k bias numbers, each at the cultural weight. */
  lemma EmptyHistoryRanked(bias: seq<string>, tm: string, cfg: Config, k: nat)
    requires NoDup(bias)
    ensures Rank(WeightedItems([], bias, tm, cfg), k)
         == Take(seq(|bias|, i requires 0 <= i < |bias| => Scored(bias[i], cfg.culture)), k)
  {
    EmptyHistoryItems(bias, tm, cfg);
    var items := WeightedItems([], bias, tm, cfg);
    assert items == seq(|bias|, i requires 0 <= i < |bias| => Scored(bias[i], cfg.culture));
    SortDescAllTied(items, cfg.culture);
  }

  /**
   most_common(k) over the weighted scores: min(k, #scored) entries, best first, no number
   twice, each a scored number with its weighted score.
   */
  lemma WeightedRanked(h: seq<Record>, bias: seq<string>, tm: string, cfg: Config, k: nat)
    requires MonthFieldsPresent(h)
    ensures var r, keys := Rank(WeightedItems(h, bias, tm, cfg), k), ScoredKeys(h, bias, tm, cfg);
      |r| == (if |keys| < k then |keys| else k) && SortedDesc(r) && NoDup(NumbersOf(r))
      && forall i :: 0 <= i < |r| ==>
           r[i].number in keys && r[i].score == WeightedScore(h, bias, tm, cfg, r[i].number)
  {
    var items := WeightedItems(h, bias, tm, cfg);
    WeightedItemsEntries(h, bias, tm, cfg);
    RankEntries(items, k);
    RankDistinct(items, k);
    assert |items| == |ScoredKeys(h, bias, tm, cfg)|;
  }

  /** No scored number left out of most_common(k) beats an entry in it. */
  lemma WeightedBeatRest(h: seq<Record>, bias: seq<string>, tm: string, cfg: Config, k: nat, n: string, i: int)
    requires MonthFieldsPresent(h) && n in ScoredKeys(h, bias, tm, cfg)
    requires n !in NumbersOf(Rank(WeightedItems(h, bias, tm, cfg), k))
    requires 0 <= i < |Rank(WeightedItems(h, bias, tm, cfg), k)|
    ensures WeightedScore(h, bias, tm, cfg, n) <= Rank(WeightedItems(h, bias, tm, cfg), k)[i].score
  {
    var items := WeightedItems(h, bias, tm, cfg);
    var r := Rank(items, k);
    WeightedItemsEntries(h, bias, tm, cfg);
    var x := Scored(n, WeightedScore(h, bias, tm, cfg, n));
    forall j | 0 <= j < |r| ensures r[j] != x {
      assert NumbersOf(r)[j] == r[j].number;
    }
    RankIsTop(items, k, x, i);
  }
}
