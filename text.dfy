/**
 The string and integer helpers the engines rely on, written as Python computes them:
 str(n) of a non-negative int, zfill / "02d" padding, negative slicing s[-2:],
 str.split(sep), and the counting and first-occurrence ordering that
 Counter and insertion-ordered dicts give.
 */
module Text {

  // ---------------------------------------------------------------------------
  // Digits and decimal strings
  // ---------------------------------------------------------------------------

  predicate IsDigit(c: char) {
    '0' <= c <= '9'
  }

  predicate AllDigits(s: string) {
    forall i :: 0 <= i < |s| ==> IsDigit(s[i])
  }

  function DigitChar(d: nat): (c: char)
    requires d < 10
    ensures IsDigit(c) && c as int - '0' as int == d
  {
    ('0' as int + d) as char
  }

  function DigitValue(c: char): (d: nat)
    requires IsDigit(c)
    ensures d < 10
  {
    c as int - '0' as int
  }

  /** The number a string of decimal digits denotes (leading zeros allowed), as int(s) reads it. */
  function DecimalValue(s: string): nat
    requires AllDigits(s)
  {
    if s == [] then 0 else 10 * DecimalValue(s[..|s| - 1]) + DigitValue(s[|s| - 1])
  }

  function Pow10(k: nat): (p: nat)
    ensures p >= 1
  {
    if k == 0 then 1 else 10 * Pow10(k - 1)
  }

  /** A string of k digits denotes a number below 10^k. */
  lemma {:induction false} DecimalValueBound(s: string)
    requires AllDigits(s)
    ensures DecimalValue(s) < Pow10(|s|)
    decreases |s|
  {
    if s != [] {
      DecimalValueBound(s[..|s| - 1]);
    }
  }

  /** A non-digit character does not occur in a digit string. */
  lemma NonDigitAbsent(s: string, c: char)
    requires AllDigits(s) && !IsDigit(c)
    ensures c !in s
  {
    forall i | 0 <= i < |s| ensures s[i] != c {
    }
  }

  /** Python's str(n) for a non-negative int: shortest decimal form, no padding. */
  function NatToString(n: nat): (s: string)
    ensures 1 <= |s| && AllDigits(s)
    ensures |s| == 1 <==> n < 10
    ensures DecimalValue(s) == n
    decreases n
  {
    if n < 10 then [DigitChar(n)]
    else
      var s := NatToString(n / 10) + [DigitChar(n % 10)];
      assert s[..|s| - 1] == NatToString(n / 10);
      s
  }

  /** Leading zeros do not change the value of a digit string. */
  lemma {:induction false} LeadingZero(s: string)
    requires AllDigits(s)
    ensures AllDigits("0" + s) && DecimalValue("0" + s) == DecimalValue(s)
    decreases |s|
  {
    var z := "0" + s;
    if s != [] {
      assert z[..|z| - 1] == "0" + s[..|s| - 1];
      LeadingZero(s[..|s| - 1]);
    }
  }

  /** s left-padded with '0' to width w, as str.zfill(w) and the "0wd" format do for digit strings. */
  function ZeroPad(s: string, w: nat): (r: string)
    ensures |r| == if |s| < w then w else |s|
    ensures r[|r| - |s|..] == s
    ensures forall i :: 0 <= i < |r| - |s| ==> r[i] == '0'
    decreases w - |s|
  {
    if |s| >= w then s
    else
      var z := "0" + s;
      var r := ZeroPad(z, w);
      var k := |r| - |z|;
      assert r[k..] == z;
      assert r[k + 1..] == r[k..][1..] == s;
      assert r[k] == z[0] == '0';
      r
  }

  lemma {:induction false} ZeroPadValue(s: string, w: nat)
    requires AllDigits(s)
    ensures AllDigits(ZeroPad(s, w)) && DecimalValue(ZeroPad(s, w)) == DecimalValue(s)
    decreases w - |s|
  {
    if |s| < w {
      LeadingZero(s);
      ZeroPadValue("0" + s, w);
    }
  }

  /** f"{n:02d}" and str(n).zfill(2) for a non-negative int. */
  function Pad2(n: nat): string {
    ZeroPad(NatToString(n), 2)
  }

  /** Python's s[-2:]: the last two characters, or all of s when it is shorter. */
  function Last2(s: string): string {
    if |s| >= 2 then s[|s| - 2..] else s
  }

  // ---------------------------------------------------------------------------
  // str.split
  // ---------------------------------------------------------------------------

  /** Python's s.split(sep) for a one-character separator: always at least one field. */
  function Split(s: string, sep: char): (r: seq<string>)
    ensures |r| >= 1
  {
    if s == [] then [""]
    else
      var rest := Split(s[1..], sep);
      if s[0] == sep then [""] + rest else [[s[0]] + rest[0]] + rest[1..]
  }

  lemma {:induction false} SplitNoSep(s: string, sep: char)
    requires sep !in s
    ensures Split(s, sep) == [s]
  {
    if s != [] {
      SplitNoSep(s[1..], sep);
      assert [s[0]] + s[1..] == s;
    }
  }

  /** Splitting a + sep + b, where a holds no separator, yields a and then the fields of b. */
  lemma {:induction false} SplitJoin(a: string, b: string, sep: char)
    requires sep !in a
    ensures Split(a + [sep] + b, sep) == [a] + Split(b, sep)
  {
    var s := a + [sep] + b;
    if a == [] {
      assert s[1..] == b;
    } else {
      assert s[1..] == a[1..] + [sep] + b;
      SplitJoin(a[1..], b, sep);
      assert [a[0]] + a[1..] == a;
    }
  }

  /** Splitting a + sep + b + sep + c, none of which holds sep, yields exactly a, b and c. */
  lemma SplitThree(a: string, b: string, c: string, sep: char)
    requires sep !in a && sep !in b && sep !in c
    ensures Split(a + [sep] + b + [sep] + c, sep) == [a, b, c]
  {
    assert a + [sep] + b + [sep] + c == a + [sep] + (b + [sep] + c);
    SplitJoin(a, b + [sep] + c, sep);
    SplitJoin(b, c, sep);
    SplitNoSep(c, sep);
  }

  // ---------------------------------------------------------------------------
  // Counting, repetition, first-occurrence order
  // ---------------------------------------------------------------------------

  /** Number of occurrences of x in s. */
  function Count<T(==)>(s: seq<T>, x: T): nat
    decreases |s|
  {
    if s == [] then 0 else Count(s[..|s| - 1], x) + (if s[|s| - 1] == x then 1 else 0)
  }

  lemma CountSnoc<T>(s: seq<T>, y: T, x: T)
    ensures Count(s + [y], x) == Count(s, x) + (if y == x then 1 else 0)
  {
    assert (s + [y])[..|s|] == s;
  }

  lemma {:induction false} CountAppend<T>(a: seq<T>, b: seq<T>, x: T)
    ensures Count(a + b, x) == Count(a, x) + Count(b, x)
    decreases |b|
  {
    if b != [] {
      var b' := b[..|b| - 1];
      assert a + b == (a + b') + [b[|b| - 1]];
      assert b == b' + [b[|b| - 1]];
      CountSnoc(a + b', b[|b| - 1], x);
      CountSnoc(b', b[|b| - 1], x);
      CountAppend(a, b', x);
    } else {
      assert a + b == a;
    }
  }

  lemma {:induction false} CountPositive<T>(s: seq<T>, x: T)
    ensures Count(s, x) > 0 <==> x in s
    decreases |s|
  {
    if s != [] {
      var s' := s[..|s| - 1];
      assert s == s' + [s[|s| - 1]];
      CountPositive(s', x);
    }
  }

  /** Count of an element of a sequence without duplicates is at most one. */
  lemma {:induction false} CountNoDup<T>(s: seq<T>, x: T)
    requires NoDup(s)
    ensures Count(s, x) == if x in s then 1 else 0
    decreases |s|
  {
    if s != [] {
      var s' := s[..|s| - 1];
      assert s == s' + [s[|s| - 1]];
      CountNoDup(s', x);
    }
  }

  /** n copies of x. */
  function Repeat<T>(x: T, n: nat): (r: seq<T>)
    ensures |r| == n
  {
    if n == 0 then [] else Repeat(x, n - 1) + [x]
  }

  lemma {:induction false} RepeatOnly<T>(x: T, n: nat, y: T)
    requires y in Repeat(x, n)
    ensures y == x
  {
    if n > 0 && y != x {
      assert y in Repeat(x, n - 1);
      RepeatOnly(x, n - 1, y);
    }
  }

  predicate NoDup<T(==)>(s: seq<T>) {
    forall i, j :: 0 <= i < j < |s| ==> s[i] != s[j]
  }

  /**
   The elements of s without repetitions, in order of first occurrence: the key order
   of a Python dict or Counter filled from s.
   */
  function Distinct<T(==,!new)>(s: seq<T>): (r: seq<T>)
    ensures NoDup(r)
    ensures forall x :: x in r <==> x in s
    decreases |s|
  {
    if s == [] then []
    else
      var d := Distinct(s[..|s| - 1]);
      assert s == s[..|s| - 1] + [s[|s| - 1]];
      if s[|s| - 1] in d then d else d + [s[|s| - 1]]
  }

  lemma DistinctSnoc<T(!new)>(s: seq<T>, y: T)
    ensures Distinct(s + [y]) == if y in s then Distinct(s) else Distinct(s) + [y]
  {
    assert (s + [y])[..|s|] == s;
  }

  lemma {:induction false} DistinctOfNoDup<T(!new)>(s: seq<T>)
    requires NoDup(s)
    ensures Distinct(s) == s
    decreases |s|
  {
    if s != [] {
      var s' := s[..|s| - 1];
      assert s == s' + [s[|s| - 1]];
      DistinctOfNoDup(s');
    }
  }

  /** Deduplicating a prefix first changes nothing: Distinct(Distinct(a) + b) == Distinct(a + b). */
  lemma {:induction false} DistinctAbsorb<T(!new)>(a: seq<T>, b: seq<T>)
    ensures Distinct(Distinct(a) + b) == Distinct(a + b)
    decreases |b|
  {
    if b == [] {
      assert a + b == a;
      assert Distinct(a) + b == Distinct(a);
      DistinctOfNoDup(Distinct(a));
    } else {
      var b' := b[..|b| - 1];
      var y := b[|b| - 1];
      assert b == b' + [y];
      assert Distinct(a) + b == (Distinct(a) + b') + [y];
      assert a + b == (a + b') + [y];
      DistinctAbsorb(a, b');
      DistinctSnoc(Distinct(a) + b', y);
      DistinctSnoc(a + b', y);
    }
  }

  /** s with every occurrence of x removed (a `continue` on x inside a loop). */
  function Without<T(==,!new)>(s: seq<T>, x: T): (r: seq<T>)
    ensures x !in r
    ensures forall y :: y != x ==> Count(r, y) == Count(s, y)
    decreases |s|
  {
    if s == [] then []
    else
      var w := Without(s[..|s| - 1], x);
      var last := s[|s| - 1];
      var r := if last == x then w else w + [last];
      assert forall y :: Count(w + [last], y) == Count(w, y) + (if last == y then 1 else 0) by {
        forall y { CountSnoc(w, last, y); }
      }
      r
  }

  /** The position of the first occurrence of x in s. */
  function IndexOf<T(==)>(s: seq<T>, x: T): (i: nat)
    requires x in s
    ensures i < |s| && s[i] == x && x !in s[..i]
  {
    if s[0] == x then 0 else 1 + IndexOf(s[1..], x)
  }

  /** "".join(s). */
  function Concat(s: seq<string>): string {
    if s == [] then "" else s[0] + Concat(s[1..])
  }

  lemma PrefixSnoc<T>(s: seq<T>, i: int)
    requires 0 <= i < |s|
    ensures s[..i + 1] == s[..i] + [s[i]]
  {
  }

  lemma PrefixAll<T>(s: seq<T>, i: int)
    requires i == 0 || i == |s|
    ensures i == 0 ==> s[..i] == []
    ensures i == |s| ==> s[..i] == s
  {
  }

  /** s[:k] in Python: the first min(k, |s|) elements. */
  function Take<T>(s: seq<T>, k: nat): (r: seq<T>)
    ensures |r| == if |s| < k then |s| else k
    ensures r == s[..|r|]
  {
    if |s| <= k then s else s[..k]
  }
}
