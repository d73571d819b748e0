/**
 The draw history both engines keep: newest-first records {"date": "DD-MM-YYYY",
 "number": "NN"}, the insert-if-new step of synchronisation, and the month filter the
 seasonal factor applies to the stored dates.
 */
module History {
  import opened Text
  import opened Calendar
  import opened DateFormat

  /** One stored draw result. */
  datatype Record = Record(date: string, number: string)

  /** [d['number'] for d in h]. */
  function Numbers(h: seq<Record>): (ns: seq<string>)
    ensures |ns| == |h|
  {
    seq(|h|, i requires 0 <= i < |h| => h[i].number)
  }

  /** any(d['date'] == date for d in h). */
  predicate HasDate(h: seq<Record>, date: string) {
    exists i :: 0 <= i < |h| && h[i].date == date
  }

  /** No two records share a date. */
  predicate DatesDistinct(h: seq<Record>) {
    forall i, j :: 0 <= i < j < |h| ==> h[i].date != h[j].date
  }

  /**
   The insert step of synchronisation: `if not any(...): history.insert(0, rec)`.
   Afterwards the date is present. A new date adds exactly one record, at index 0, in
   front of the unchanged old history; a known date changes nothing.
   */
  function InsertIfNew(h: seq<Record>, rec: Record): (r: seq<Record>)
    ensures HasDate(r, rec.date)
    ensures HasDate(h, rec.date) ==> r == h
    ensures !HasDate(h, rec.date) ==> |r| == |h| + 1 && r[0] == rec && r[1..] == h
  {
    if HasDate(h, rec.date) then h
    else
      assert ([rec] + h)[0] == rec;
      [rec] + h
  }

  /** Inserting the same record again changes nothing. */
  lemma InsertIdempotent(h: seq<Record>, rec: Record)
    ensures InsertIfNew(InsertIfNew(h, rec), rec) == InsertIfNew(h, rec)
  {
  }

  /**
   Inserting keeps the dates distinct, so afterwards exactly one record carries rec's
   date (InsertIfNew guarantees there is one).
   */
  lemma InsertKeepsDatesDistinct(h: seq<Record>, rec: Record)
    requires DatesDistinct(h)
    ensures DatesDistinct(InsertIfNew(h, rec))
  {
    var r := InsertIfNew(h, rec);
    if !HasDate(h, rec.date) {
      forall i, j | 0 <= i < j < |r| ensures r[i].date != r[j].date {
        if i == 0 {
          assert r[j] == h[j - 1];
        } else {
          assert r[i] == h[i - 1] && r[j] == h[j - 1];
        }
      }
    }
  }

  /** Every stored date has a second '-' field, so `date.split('-')[1]` does not raise. */
  predicate MonthFieldsPresent(h: seq<Record>) {
    forall i :: 0 <= i < |h| ==> |Split(h[i].date, '-')| >= 2
  }

  /** d['date'].split('-')[1]. */
  function MonthField(date: string): string
    requires |Split(date, '-')| >= 2
  {
    Split(date, '-')[1]
  }

  /** [d['number'] for d in h if d['date'].split('-')[1] == tm]. */
  function SeasonalNumbers(h: seq<Record>, tm: string): seq<string>
    requires MonthFieldsPresent(h)
  {
    if h == [] then []
    else (if MonthField(h[0].date) == tm then [h[0].number] else []) + SeasonalNumbers(h[1..], tm)
  }

  /** Dropping the newest record keeps every month field present. */
  lemma MonthFieldsTail(h: seq<Record>)
    requires h != [] && MonthFieldsPresent(h)
    ensures MonthFieldsPresent(h[1..])
  {
    forall i | 0 <= i < |h[1..]| ensures |Split(h[1..][i].date, '-')| >= 2 {
      assert h[1..][i] == h[i + 1];
    }
  }

  /** One flag per record: whether it lies in month tm and holds n. */
  function MonthHits(h: seq<Record>, tm: string, n: string): (f: seq<bool>)
    requires MonthFieldsPresent(h)
    ensures |f| == |h|
  {
    seq(|h|, i requires 0 <= i < |h| => MonthField(h[i].date) == tm && h[i].number == n)
  }

  /** The seasonal list holds n exactly once per record of month tm whose number is n. */
  lemma {:induction false} SeasonalHits(h: seq<Record>, tm: string, n: string)
    requires MonthFieldsPresent(h)
    ensures Count(SeasonalNumbers(h, tm), n) == Count(MonthHits(h, tm, n), true)
  {
    if h != [] {
      MonthFieldsTail(h);
      SeasonalHits(h[1..], tm, n);
      SeasonalHitsStep(h, tm, n);
    }
  }

  /** The newest record's flag comes first, then the flags of the rest. */
  lemma MonthHitsCons(h: seq<Record>, tm: string, n: string)
    requires h != [] && MonthFieldsPresent(h) && MonthFieldsPresent(h[1..])
    ensures MonthHits(h, tm, n) ==
              [MonthField(h[0].date) == tm && h[0].number == n] + MonthHits(h[1..], tm, n)
  {
    var f, g := MonthHits(h, tm, n), MonthHits(h[1..], tm, n);
    forall i | 1 <= i < |f| ensures f[i] == g[i - 1] {
      assert h[1..][i - 1] == h[i];
    }
  }

  /** One step of SeasonalHits: the newest record contributes the same on both sides. */
  lemma SeasonalHitsStep(h: seq<Record>, tm: string, n: string)
    requires h != [] && MonthFieldsPresent(h) && MonthFieldsPresent(h[1..])
    requires Count(SeasonalNumbers(h[1..], tm), n) == Count(MonthHits(h[1..], tm, n), true)
    ensures Count(SeasonalNumbers(h, tm), n) == Count(MonthHits(h, tm, n), true)
  {
    var inMonth := MonthField(h[0].date) == tm;
    var head := if inMonth then [h[0].number] else [];
    var hit := inMonth && h[0].number == n;
    assert SeasonalNumbers(h, tm) == head + SeasonalNumbers(h[1..], tm);
    MonthHitsCons(h, tm, n);
    CountAppend(head, SeasonalNumbers(h[1..], tm), n);
    CountAppend([hit], MonthHits(h[1..], tm, n), true);
    assert Count(head, n) == Count([hit], true) by {
      if inMonth {
        assert head == [h[0].number];
      } else {
        assert head == [];
      }
    }
  }

  /**
   The seasonal list keeps a number at most as often as the history holds it, and
   exactly as often when every record is in month tm.
   */
  lemma {:induction false} SeasonalCount(h: seq<Record>, tm: string, n: string)
    requires MonthFieldsPresent(h)
    ensures Count(SeasonalNumbers(h, tm), n) <= Count(Numbers(h), n)
    ensures (forall i :: 0 <= i < |h| ==> MonthField(h[i].date) == tm) ==>
              Count(SeasonalNumbers(h, tm), n) == Count(Numbers(h), n)
  {
    if h != [] {
      var head := if MonthField(h[0].date) == tm then [h[0].number] else [];
      MonthFieldsTail(h);
      SeasonalCount(h[1..], tm, n);
      assert Numbers(h) == [h[0].number] + Numbers(h[1..]);
      CountAppend(head, SeasonalNumbers(h[1..], tm), n);
      CountAppend([h[0].number], Numbers(h[1..]), n);
      assert Count(head, n) <= Count([h[0].number], n) by {
        if head == [h[0].number] {
        } else {
          assert head == [];
        }
      }
      if forall i :: 0 <= i < |h| ==> MonthField(h[i].date) == tm {
        assert head == [h[0].number];
        assert forall i :: 0 <= i < |h[1..]| ==> MonthField(h[1..][i].date) == tm by {
          forall i | 0 <= i < |h[1..]| ensures MonthField(h[1..][i].date) == tm {
            assert h[1..][i] == h[i + 1];
          }
        }
      }
    }
  }

  /** Pad2 is one-to-one. */
  lemma Pad2Injective(a: nat, b: nat)
    requires Pad2(a) == Pad2(b)
    ensures a == b
  {
    ZeroPadValue(NatToString(a), 2);
    ZeroPadValue(NatToString(b), 2);
  }

  /**
   A date stored in "%d-%m-%Y" form has a month field, and that field equals the padded
   month the seasonal factor compares against exactly when the months agree.
   */
  lemma SeasonalMatchesMonth(d: Date, m: nat)
    requires ValidDate(d)
    ensures |Split(FormatDate(d), '-')| >= 2
    ensures MonthField(FormatDate(d)) == Pad2(m) <==> d.month == m
  {
    FormatDateFields(d);
    if MonthField(FormatDate(d)) == Pad2(m) {
      Pad2Injective(d.month, m);
    }
  }

  /** Prepending a record with a stored-form date keeps every month field present. */
  lemma InsertKeepsMonthFields(h: seq<Record>, d: Date, number: string)
    requires ValidDate(d) && MonthFieldsPresent(h)
    ensures MonthFieldsPresent(InsertIfNew(h, Record(FormatDate(d), number)))
  {
    FormatDateFields(d);
    var r := InsertIfNew(h, Record(FormatDate(d), number));
    forall i | 0 <= i < |r| ensures |Split(r[i].date, '-')| >= 2 {
      if i > 0 && r != h {
        assert r[i] == h[i - 1];
      }
    }
  }
}
