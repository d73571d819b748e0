/**
 The score table every engine fills: a Counter (or dict) of scores together with a dict
 of evidence lists, both keyed by two-digit number strings, and the stable descending
 ranking that `Counter.most_common(k)` and `sorted(..., reverse=True)[:k]` produce.
 */
module Scoring {
  import opened Text

  /**
   keys  -- the keys in insertion order (the iteration order of the Python dict)
   score -- the Counter / score dict
   tags  -- the evidence / reasons dict
   */
  datatype Table = Table(keys: seq<string>, score: map<string, int>, tags: map<string, seq<string>>)

  /**
   Each key is listed once. A number missing from the dicts reads as score 0 and no
   evidence (ScoreOf, TagsOf), so the dicts' own key sets need no separate invariant.
   */
  predicate WellFormed(t: Table) {
    NoDup(t.keys)
  }

  const Empty: Table := Table([], map[], map[])

  /** scores[n] on a Counter, or scores.get(n, 0): a missing key scores 0. */
  function ScoreOf(t: Table, n: string): int {
    if n in t.score then t.score[n] else 0
  }

  /** evidence.get(n, []). */
  function TagsOf(t: Table, n: string): seq<string> {
    if n in t.tags then t.tags[n] else []
  }

  /**
   `scores[n] += w` followed by `evidence.setdefault(n, []).append(tag)`: n's score grows
   by w and its evidence by tag, a new key goes last, and no other number changes.
   */
  function Bump(t: Table, n: string, w: int, tag: string): (r: Table)
    requires WellFormed(t)
    ensures WellFormed(r)
    ensures n in t.keys ==> r.keys == t.keys
    ensures n !in t.keys ==> r.keys == t.keys + [n]
    ensures forall m :: ScoreOf(r, m) == ScoreOf(t, m) + (if m == n then w else 0)
    ensures forall m :: TagsOf(r, m) == TagsOf(t, m) + (if m == n then [tag] else [])
  {
    var keys := if n in t.keys then t.keys else t.keys + [n];
    Table(keys, t.score[n := ScoreOf(t, n) + w], t.tags[n := TagsOf(t, n) + [tag]])
  }

  lemma Distribute(w: int, c: int, d: int)
    ensures w * (c + d) == w * c + w * d
  {
  }

  /** One more occurrence of x, added by Bump, keeps AddAll's closed form of the scores. */
  lemma BumpScores(t: Table, r: Table, done: seq<string>, x: string, w: int, tag: string)
    requires WellFormed(r)
    requires forall n :: ScoreOf(r, n) == ScoreOf(t, n) + w * Count(done, n)
    ensures forall n :: ScoreOf(Bump(r, x, w, tag), n) == ScoreOf(t, n) + w * Count(done + [x], n)
  {
    forall n ensures ScoreOf(Bump(r, x, w, tag), n) == ScoreOf(t, n) + w * Count(done + [x], n) {
      BumpScoreAt(t, r, done, x, w, tag, n);
    }
  }

  lemma BumpScoreAt(t: Table, r: Table, done: seq<string>, x: string, w: int, tag: string, n: string)
    requires WellFormed(r)
    requires ScoreOf(r, n) == ScoreOf(t, n) + w * Count(done, n)
    ensures ScoreOf(Bump(r, x, w, tag), n) == ScoreOf(t, n) + w * Count(done + [x], n)
  {
    CountSnoc(done, x, n);
    Distribute(w, Count(done, n), if n == x then 1 else 0);
  }

  /** One more occurrence of x, added by Bump, keeps AddAll's closed form of the evidence. */
  lemma BumpTags(t: Table, r: Table, done: seq<string>, x: string, w: int, tag: string)
    requires WellFormed(r)
    requires forall n :: TagsOf(r, n) == TagsOf(t, n) + Repeat(tag, Count(done, n))
    ensures forall n :: TagsOf(Bump(r, x, w, tag), n) == TagsOf(t, n) + Repeat(tag, Count(done + [x], n))
  {
    forall n ensures TagsOf(Bump(r, x, w, tag), n) == TagsOf(t, n) + Repeat(tag, Count(done + [x], n)) {
      BumpTagsAt(t, r, done, x, w, tag, n);
    }
  }

  lemma BumpTagsAt(t: Table, r: Table, done: seq<string>, x: string, w: int, tag: string, n: string)
    requires WellFormed(r)
    requires TagsOf(r, n) == TagsOf(t, n) + Repeat(tag, Count(done, n))
    ensures TagsOf(Bump(r, x, w, tag), n) == TagsOf(t, n) + Repeat(tag, Count(done + [x], n))
  {
    CountSnoc(done, x, n);
    if n == x {
      BumpTagsHit(TagsOf(t, n), TagsOf(r, n), TagsOf(Bump(r, x, w, tag), n), tag, Count(done, n));
    } else {
      assert TagsOf(Bump(r, x, w, tag), n) == TagsOf(r, n) + [];
    }
  }

  lemma BumpTagsHit(base: seq<string>, before: seq<string>, after: seq<string>, tag: string, c: nat)
    requires before == base + Repeat(tag, c) && after == before + [tag]
    ensures after == base + Repeat(tag, c + 1)
  {
  }

  /**
   r is t after the numbers in `done` were added with weight w and tag: the keys are
   those of t followed by the new numbers in first-occurrence order, each number's score
   grew by w per occurrence and its evidence by one tag per occurrence.
   */
  ghost predicate Accumulated(t: Table, r: Table, done: seq<string>, w: int, tag: string) {
    && r.keys == Distinct(t.keys + done)
    && (forall n :: ScoreOf(r, n) == ScoreOf(t, n) + w * Count(done, n))
    && (forall n :: TagsOf(r, n) == TagsOf(t, n) + Repeat(tag, Count(done, n)))
  }

  lemma AddNothing(t: Table, w: int, tag: string)
    requires WellFormed(t)
    ensures Accumulated(t, t, [], w, tag)
  {
    DistinctOfNoDup(t.keys);
    assert t.keys + [] == t.keys;
    forall n ensures TagsOf(t, n) + Repeat(tag, Count([], n)) == TagsOf(t, n) {
      assert TagsOf(t, n) + [] == TagsOf(t, n);
    }
  }

  lemma AddStep(t: Table, r: Table, done: seq<string>, x: string, w: int, tag: string)
    requires Accumulated(t, r, done, w, tag)
    ensures Accumulated(t, Bump(r, x, w, tag), done + [x], w, tag)
  {
    BumpScores(t, r, done, x, w, tag);
    BumpTags(t, r, done, x, w, tag);
    assert t.keys + (done + [x]) == (t.keys + done) + [x];
    DistinctSnoc(t.keys + done, x);
  }

  /**
   `for n in nums: scores[n] += w; evidence.setdefault(n, []).append(tag)`.
   Every occurrence adds w and one copy of tag; new numbers are keyed in first-occurrence order.
   */
  method AddAll(t: Table, nums: seq<string>, w: int, tag: string) returns (r: Table)
    requires WellFormed(t)
    ensures WellFormed(r)
    ensures Accumulated(t, r, nums, w, tag)
  {
    r := t;
    AddNothing(t, w, tag);
    PrefixAll(nums, 0);
    var i := 0;
    while i < |nums|
      invariant 0 <= i <= |nums|
      invariant Accumulated(t, r, nums[..i], w, tag)
    {
      AddStep(t, r, nums[..i], nums[i], w, tag);
      PrefixSnoc(nums, i);
      r := Bump(r, nums[i], w, tag);
      i := i + 1;
    }
    PrefixAll(nums, i);
  }

  // ---------------------------------------------------------------------------
  // Stable descending ranking
  // ---------------------------------------------------------------------------

  /** One (number, score) pair of `scores.items()`. */
  datatype Scored = Scored(number: string, score: int)

  /** scores.items(), in key order. */
  function Items(t: Table): seq<Scored> {
    seq(|t.keys|, i requires 0 <= i < |t.keys| => Scored(t.keys[i], ScoreOf(t, t.keys[i])))
  }

  predicate SortedDesc(s: seq<Scored>) {
    forall i, j :: 0 <= i < j < |s| ==> s[i].score >= s[j].score
  }

  /** The entries of s scoring exactly v, in their order in s. */
  function WithScore(s: seq<Scored>, v: int): seq<Scored> {
    if s == [] then []
    else (if s[0].score == v then [s[0]] else []) + WithScore(s[1..], v)
  }

  /** Puts p ahead of every entry that does not score more than it. */
  function Insert(p: Scored, s: seq<Scored>): seq<Scored> {
    if s == [] || p.score >= s[0].score then [p] + s else [s[0]] + Insert(p, s[1..])
  }

  /** sorted(s, key=score, reverse=True): Python's sort is stable, so ties keep their order. */
  function SortDesc(s: seq<Scored>): seq<Scored> {
    if s == [] then [] else Insert(s[0], SortDesc(s[1..]))
  }

  /** `most_common(k)` / `sorted(items, key=score, reverse=True)[:k]`. */
  function Rank(items: seq<Scored>, k: nat): seq<Scored> {
    Take(SortDesc(items), k)
  }

  /** Numbers of a sequence of entries. */
  function NumbersOf(s: seq<Scored>): seq<string> {
    seq(|s|, i requires 0 <= i < |s| => s[i].number)
  }

  lemma {:induction false} InsertPermutes(p: Scored, s: seq<Scored>)
    ensures multiset(Insert(p, s)) == multiset([p] + s)
  {
    if s != [] && p.score < s[0].score {
      InsertPermutes(p, s[1..]);
      assert s == [s[0]] + s[1..];
    }
  }

  lemma {:induction false} InsertSorted(p: Scored, s: seq<Scored>)
    requires SortedDesc(s)
    ensures SortedDesc(Insert(p, s))
  {
    if s != [] && p.score < s[0].score {
      var rest := Insert(p, s[1..]);
      InsertSorted(p, s[1..]);
      InsertPermutes(p, s[1..]);
      forall j | 0 <= j < |rest| ensures s[0].score >= rest[j].score {
        assert rest[j] in multiset([p] + s[1..]);
        if rest[j] != p {
          assert rest[j] in s[1..];
        }
      }
    }
  }

  lemma {:induction false} InsertStable(p: Scored, s: seq<Scored>, v: int)
    ensures WithScore(Insert(p, s), v) == (if p.score == v then [p] else []) + WithScore(s, v)
    decreases |s|
  {
    var head := if p.score == v then [p] else [];
    if s == [] || p.score >= s[0].score {
      assert Insert(p, s) == [p] + s;
      assert ([p] + s)[0] == p && ([p] + s)[1..] == s;
    } else {
      var rest := Insert(p, s[1..]);
      var first := if s[0].score == v then [s[0]] else [];
      InsertStable(p, s[1..], v);
      assert Insert(p, s) == [s[0]] + rest;
      assert ([s[0]] + rest)[0] == s[0] && ([s[0]] + rest)[1..] == rest;
      assert WithScore(Insert(p, s), v) == first + WithScore(rest, v);
      assert WithScore(rest, v) == head + WithScore(s[1..], v);
      assert WithScore(s, v) == first + WithScore(s[1..], v);
      if p.score == v {
        assert s[0].score != v;
        assert first == [];
        assert [] + (head + WithScore(s[1..], v)) == head + ([] + WithScore(s[1..], v));
      } else {
        assert head == [];
        assert first + ([] + WithScore(s[1..], v)) == [] + (first + WithScore(s[1..], v));
      }
    }
  }

  /** SortDesc sorts, permutes, and keeps entries of equal score in their original order. */
  lemma {:induction false} SortDescCorrect(s: seq<Scored>)
    ensures SortedDesc(SortDesc(s))
    ensures multiset(SortDesc(s)) == multiset(s)
    ensures forall v :: WithScore(SortDesc(s), v) == WithScore(s, v)
  {
    if s != [] {
      SortDescCorrect(s[1..]);
      InsertSorted(s[0], SortDesc(s[1..]));
      InsertPermutes(s[0], SortDesc(s[1..]));
      assert s == [s[0]] + s[1..];
      forall v ensures WithScore(SortDesc(s), v) == WithScore(s, v) {
        InsertStable(s[0], SortDesc(s[1..]), v);
      }
    }
  }

  lemma {:induction false} WithScoreAppend(a: seq<Scored>, b: seq<Scored>, v: int)
    ensures WithScore(a + b, v) == WithScore(a, v) + WithScore(b, v)
    decreases |a|
  {
    if a == [] {
      assert a + b == b;
    } else {
      var head := if a[0].score == v then [a[0]] else [];
      WithScoreAppend(a[1..], b, v);
      assert (a + b)[0] == a[0] && (a + b)[1..] == a[1..] + b;
      assert WithScore(a + b, v) == head + WithScore(a[1..] + b, v);
      assert WithScore(a, v) == head + WithScore(a[1..], v);
      assert head + (WithScore(a[1..], v) + WithScore(b, v)) == (head + WithScore(a[1..], v)) + WithScore(b, v);
    }
  }

  lemma {:induction false} MultisetCount<T>(s: seq<T>, x: T)
    ensures multiset(s)[x] == Count(s, x)
    decreases |s|
  {
    if s != [] {
      var s' := s[..|s| - 1];
      assert s == s' + [s[|s| - 1]];
      MultisetCount(s', x);
    }
  }

  /** A rearrangement of a sequence without duplicates has none either. */
  lemma NoDupPermutation<T>(a: seq<T>, b: seq<T>)
    requires NoDup(a) && multiset(a) == multiset(b)
    ensures NoDup(b)
  {
    forall i, j | 0 <= i < j < |b| ensures b[i] != b[j] {
      if b[i] == b[j] {
        var x := b[i];
        assert b == b[..j] + b[j..];
        CountAppend(b[..j], b[j..], x);
        assert x in b[..j];
        assert x in b[j..];
        CountPositive(b[..j], x);
        CountPositive(b[j..], x);
        MultisetCount(a, x);
        MultisetCount(b, x);
        CountNoDup(a, x);
        assert false;
      }
    }
  }

  /** The items of a table list each key once, with its score. */
  lemma ItemsOfTable(t: Table)
    requires WellFormed(t)
    ensures NumbersOf(Items(t)) == t.keys
    ensures NoDup(NumbersOf(Items(t)))
  {
    assert NumbersOf(Items(t)) == t.keys;
  }

  /** Ranking keeps min(k, #items) entries, sorted, each one of the items. */
  lemma RankEntries(items: seq<Scored>, k: nat)
    ensures |Rank(items, k)| == if |items| < k then |items| else k
    ensures SortedDesc(Rank(items, k))
    ensures forall i :: 0 <= i < |Rank(items, k)| ==> Rank(items, k)[i] in items
  {
    var s := SortDesc(items);
    var r := Rank(items, k);
    SortDescCorrect(items);
    assert |s| == |items| by {
      assert |multiset(s)| == |multiset(items)|;
    }
    forall i | 0 <= i < |r| ensures r[i] in items {
      assert r[i] == s[i];
      assert s[i] in multiset(items);
    }
  }

  /** No number is ranked twice, and with at most k items every item is ranked. */
  lemma RankDistinct(items: seq<Scored>, k: nat)
    requires NoDup(NumbersOf(items))
    ensures NoDup(NumbersOf(Rank(items, k)))
    ensures |items| <= k ==> multiset(Rank(items, k)) == multiset(items)
  {
    var s := SortDesc(items);
    var r := Rank(items, k);
    SortDescCorrect(items);
    assert NoDup(items) by {
      forall i, j | 0 <= i < j < |items| ensures items[i] != items[j] {
        assert NumbersOf(items)[i] != NumbersOf(items)[j];
      }
    }
    NoDupPermutation(items, s);
    assert |s| == |items| by {
      assert |multiset(s)| == |multiset(items)|;
    }
    forall i, j | 0 <= i < j < |r| ensures NumbersOf(r)[i] != NumbersOf(r)[j] {
      assert r[i] == s[i] && r[j] == s[j];
      assert s[i] in multiset(items) && s[j] in multiset(items);
      var p :| 0 <= p < |items| && items[p] == s[i];
      var q :| 0 <= q < |items| && items[q] == s[j];
      assert p != q;
      assert NumbersOf(items)[p] != NumbersOf(items)[q];
    }
  }

  /** The cut at k is a true top k: an item left out scores no more than any ranked entry. */
  lemma RankIsTop(items: seq<Scored>, k: nat, x: Scored, i: int)
    requires x in items && x !in Rank(items, k) && 0 <= i < |Rank(items, k)|
    ensures x.score <= Rank(items, k)[i].score
  {
    var s := SortDesc(items);
    var r := Rank(items, k);
    SortDescCorrect(items);
    assert x in multiset(s);
    var p :| 0 <= p < |s| && s[p] == x;
    assert p >= |r|;
    assert r[i] == s[i];
  }

  /**
   Ties go in first-scored order: the ranked entries of any one score are the first
   entries of that score in item order.
   */
  lemma RankTies(items: seq<Scored>, k: nat, v: int)
    ensures WithScore(Rank(items, k), v) <= WithScore(items, v)
  {
    var s := SortDesc(items);
    var r := Rank(items, k);
    SortDescCorrect(items);
    assert s == r + s[|r|..];
    WithScoreAppend(r, s[|r|..], v);
  }

  /** When every entry has the same score, ranking keeps the item order: the first k items. */
  lemma {:induction false} SortDescAllTied(s: seq<Scored>, v: int)
    requires forall i :: 0 <= i < |s| ==> s[i].score == v
    ensures SortDesc(s) == s
  {
    if s != [] {
      SortDescAllTied(s[1..], v);
      assert [s[0]] + s[1..] == s;
    }
  }
}
