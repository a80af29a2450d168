/**
  What `getPairRates` promises, proved about its specification `PairRates`
  and the functions it is built from: the walk over the range, the series
  it collects, the sort, the routing of today's request, and the single
  error.
 */
module RatesProperties {
  import opened Calendar
  import opened DateFormat
  import opened Rates

  predicate InRange(d: Date, start: Date, end: Date) {
    !Before(d, start) && !Before(end, d)
  }

  predicate Ascending(days: seq<Day>) {
    forall i, j :: 0 <= i < j < |days| ==> Before(days[i], days[j])
  }

  /** Strictly ascending by date string, hence no date twice. */
  predicate StrictlyByDate(pts: seq<Point>) {
    forall i, j :: 0 <= i < j < |pts| ==> StrLess(pts[i].date, pts[j].date)
  }

  // ---------------------------------------------------------------------
  // The walk

  /** The loop visits days of the range only, in strictly ascending order, and none when start is after end. */
  lemma {:induction false} VisitedOrdered(start: Day, end: Day)
    ensures |Visited(start, end)| == 0 <==> Before(end, start)
    ensures forall i :: 0 <= i < |Visited(start, end)| ==> InRange(Visited(start, end)[i], start, end)
    ensures Ascending(Visited(start, end))
    decreases Rank(end) - Rank(start)
  {
    if !Before(end, start) {
      var next := NextDay(start);
      RankMonotonic(start, next);
      VisitedOrdered(next, end);
      assert Visited(start, end) == [start] + Visited(next, end);
    }
  }

  /** The loop visits every day of the range. */
  lemma {:induction false} VisitedComplete(start: Day, end: Day, d: Day)
    requires InRange(d, start, end)
    ensures d in Visited(start, end)
    decreases Rank(end) - Rank(start)
  {
    if d != start {
      var next := NextDay(start);
      NextDayAdjacent(start, d);
      RankMonotonic(start, next);
      VisitedComplete(next, end, d);
      assert Visited(start, end) == [start] + Visited(next, end);
    }
  }

  // ---------------------------------------------------------------------
  // The series collected over a sequence of days

  /** Every point comes from a visited day whose snapshot held a usable quote. */
  lemma {:induction false} SeriesOrigin(days: seq<Day>, q: Query, i: nat) returns (k: nat)
    requires i < |Series(days, q)|
    ensures k < |days| && DayOutcome(days[k], q).Rate?
    ensures Series(days, q)[i] == Point(Format(days[k]), Round6(DayOutcome(days[k], q).rate))
    decreases |days|
  {
    var init := days[..|days| - 1];
    if i < |Series(init, q)| {
      k := SeriesOrigin(init, q, i);
      assert init[k] == days[k];
    } else {
      k := |days| - 1;
    }
  }

  /** Every visited day whose snapshot held a usable quote contributes its point. */
  lemma {:induction false} SeriesContains(days: seq<Day>, q: Query, k: nat)
    requires k < |days| && DayOutcome(days[k], q).Rate?
    ensures Point(Format(days[k]), Round6(DayOutcome(days[k], q).rate)) in Series(days, q)
    decreases |days|
  {
    var init := days[..|days| - 1];
    if k < |days| - 1 {
      SeriesContains(init, q, k);
      assert init[k] == days[k];
    }
  }

  /** Nothing is collected exactly when every visited day is a gap. */
  lemma {:induction false} SeriesEmpty(days: seq<Day>, q: Query)
    ensures |Series(days, q)| == 0 <==> forall k :: 0 <= k < |days| ==> DayOutcome(days[k], q).Gap?
    decreases |days|
  {
    if |days| > 0 {
      var init := days[..|days| - 1];
      SeriesEmpty(init, q);
      if forall k :: 0 <= k < |days| ==> DayOutcome(days[k], q).Gap? {
        assert forall k :: 0 <= k < |init| ==> init[k] == days[k];
      } else {
        var k :| 0 <= k < |days| && DayOutcome(days[k], q).Rate?;
        SeriesContains(days, q, k);
      }
    }
  }

  /** Days visited in ascending order, all with four-digit years, give points strictly ascending by date string. */
  lemma {:induction false} SeriesIncreasing(days: seq<Day>, q: Query)
    requires Ascending(days)
    requires forall i :: 0 <= i < |days| ==> days[i].year <= MaxFourDigitYear
    ensures StrictlyByDate(Series(days, q))
    decreases |days|
  {
    if |days| > 0 {
      var init, last := days[..|days| - 1], days[|days| - 1];
      SeriesIncreasing(init, q);
      var pre, pts := Series(init, q), Series(days, q);
      assert pts == pre + Contribution(last, q);
      forall i, j | 0 <= i < j < |pts| ensures StrLess(pts[i].date, pts[j].date) {
        if |pre| <= j {
          var k := SeriesOrigin(init, q, i);
          assert pts[i] == pre[i];
          assert init[k] == days[k];
          FormatOrder(days[k], last);
        }
      }
    }
  }

  // ---------------------------------------------------------------------
  // The sort

  /** Sorting points already strictly ascending by date leaves them as they are. */
  lemma {:induction false} SortKeepsStrictOrder(pts: seq<Point>)
    requires StrictlyByDate(pts)
    ensures SortByDate(pts) == pts
    decreases |pts|
  {
    if |pts| > 0 {
      SortKeepsStrictOrder(pts[1..]);
      if |pts| > 1 {
        assert StrLess(pts[0].date, pts[1].date);
        StrLessIrreflexive(pts[0].date);
        if StrLess(pts[1].date, pts[0].date) {
          StrLessTransitive(pts[0].date, pts[1].date, pts[0].date);
        }
      }
      assert pts == [pts[0]] + pts[1..];
    }
  }

  // ---------------------------------------------------------------------
  // The call

  /** The call fails, with the one user-facing message, exactly when every day of the range is a gap. */
  lemma FailsIffEveryDayGaps(base: string, quote: string, start: Day, end: Day, today: Day, fetch: string -> Reply)
    ensures PairRates(base, quote, start, end, today, fetch).Failure? <==>
      forall d: Day :: InRange(d, start, end) ==> DayOutcome(d, QueryOf(base, quote, today, fetch)).Gap?
    ensures PairRates(base, quote, start, end, today, fetch).Failure? ==>
      PairRates(base, quote, start, end, today, fetch).error == UserMessage
  {
    var q, days := QueryOf(base, quote, today, fetch), Visited(start, end);
    SeriesEmpty(days, q);
    VisitedOrdered(start, end);
    forall d: Day | InRange(d, start, end) ensures d in days {
      VisitedComplete(start, end, d);
    }
  }

  /** A range whose start is after its end makes the call fail. */
  lemma EmptyRangeFails(base: string, quote: string, start: Day, end: Day, today: Day, fetch: string -> Reply)
    requires Before(end, start)
    ensures PairRates(base, quote, start, end, today, fetch) == Failure(UserMessage)
  {
  }

  /** Every returned point is the rounded rate of a day in the range whose snapshot held a usable quote. */
  lemma PointOrigin(base: string, quote: string, start: Day, end: Day, today: Day, fetch: string -> Reply, p: Point)
    returns (d: Day)
    requires PairRates(base, quote, start, end, today, fetch).Success?
    requires p in PairRates(base, quote, start, end, today, fetch).value
    ensures InRange(d, start, end)
    ensures DayOutcome(d, QueryOf(base, quote, today, fetch)).Rate?
    ensures p == Point(Format(d), Round6(DayOutcome(d, QueryOf(base, quote, today, fetch)).rate))
  {
    var q, days := QueryOf(base, quote, today, fetch), Visited(start, end);
    var pts := Series(days, q);
    assert p in multiset(SortByDate(pts));
    var i :| 0 <= i < |pts| && pts[i] == p;
    var k := SeriesOrigin(days, q, i);
    VisitedOrdered(start, end);
    d := days[k];
  }

  /**
    For ranges ending by year 9999 the sort changes nothing: the points come
    back in visiting order, strictly ascending by date, no date twice.
   */
  lemma Chronological(base: string, quote: string, start: Day, end: Day, today: Day, fetch: string -> Reply)
    requires end.year <= MaxFourDigitYear
    ensures PairRates(base, quote, start, end, today, fetch).Success? ==>
      PairRates(base, quote, start, end, today, fetch).value == Series(Visited(start, end), QueryOf(base, quote, today, fetch))
    ensures PairRates(base, quote, start, end, today, fetch).Success? ==>
      StrictlyByDate(PairRates(base, quote, start, end, today, fetch).value)
  {
    var q, days := QueryOf(base, quote, today, fetch), Visited(start, end);
    VisitedOrdered(start, end);
    SeriesIncreasing(days, q);
    SortKeepsStrictOrder(Series(days, q));
  }

  /** A day of the range whose snapshot held a usable quote has its point in the result. */
  lemma DayContributes(base: string, quote: string, start: Day, end: Day, today: Day, fetch: string -> Reply, d: Day)
    requires InRange(d, start, end)
    requires DayOutcome(d, QueryOf(base, quote, today, fetch)).Rate?
    ensures PairRates(base, quote, start, end, today, fetch).Success?
    ensures Point(Format(d), Round6(DayOutcome(d, QueryOf(base, quote, today, fetch)).rate))
      in PairRates(base, quote, start, end, today, fetch).value
  {
    var q, days := QueryOf(base, quote, today, fetch), Visited(start, end);
    var pts := Series(days, q);
    VisitedComplete(start, end, d);
    var k :| 0 <= k < |days| && days[k] == d;
    SeriesContains(days, q, k);
    assert Point(Format(d), Round6(DayOutcome(d, q).rate)) in multiset(pts);
  }

  /**
    For ranges ending by year 9999, a day of the range has a point in the
    result exactly when its snapshot held a usable quote, and that point
    carries the quote rounded to six decimals.
   */
  lemma DayContributesIff(base: string, quote: string, start: Day, end: Day, today: Day, fetch: string -> Reply, d: Day)
    requires end.year <= MaxFourDigitYear && InRange(d, start, end)
    ensures (PairRates(base, quote, start, end, today, fetch).Success? &&
             Format(d) in Dates(PairRates(base, quote, start, end, today, fetch).value))
            <==> DayOutcome(d, QueryOf(base, quote, today, fetch)).Rate?
    ensures DayOutcome(d, QueryOf(base, quote, today, fetch)).Rate? ==>
      Point(Format(d), Round6(DayOutcome(d, QueryOf(base, quote, today, fetch)).rate))
        in PairRates(base, quote, start, end, today, fetch).value
  {
    var q := QueryOf(base, quote, today, fetch);
    var r := PairRates(base, quote, start, end, today, fetch);
    if DayOutcome(d, q).Rate? {
      DayContributes(base, quote, start, end, today, fetch, d);
      var i :| 0 <= i < |r.value| && r.value[i] == Point(Format(d), Round6(DayOutcome(d, q).rate));
      assert Dates(r.value)[i] == Format(d);
    }
    if r.Success? && Format(d) in Dates(r.value) {
      var i :| 0 <= i < |r.value| && Dates(r.value)[i] == Format(d);
      var e := PointOrigin(base, quote, start, end, today, fetch, r.value[i]);
      FormatOrder(e, d);
    }
  }

  // ---------------------------------------------------------------------
  // Requests

  /** The URL template is injective in the endpoint. */
  lemma RequestUrlInjective(e1: string, e2: string, baseKey: string)
    ensures RequestUrl(e1, baseKey) == RequestUrl(e2, baseKey) <==> e1 == e2
  {
    var head, tail := ProviderRoot + "@", "/v1/currencies/" + baseKey + ".json";
    assert RequestUrl(e1, baseKey) == head + e1 + tail;
    assert RequestUrl(e2, baseKey) == head + e2 + tail;
    if RequestUrl(e1, baseKey) == RequestUrl(e2, baseKey) {
      assert e1 == (head + e1 + tail)[|head|..|head| + |e1|];
      assert e2 == (head + e2 + tail)[|head|..|head| + |e2|];
    }
  }

  /**
    Each visited day is read from the 'latest' snapshot exactly when it is
    today, and from its own dated snapshot otherwise; the 'latest' snapshot
    is requested exactly when today lies in the range.
   */
  lemma TodayRouting(start: Day, end: Day, q: Query)
    ensures forall i :: 0 <= i < |Visited(start, end)| ==>
      (Requests(Visited(start, end), q)[i] == RequestUrl(Latest, q.baseKey) <==> Visited(start, end)[i] == q.today)
    ensures forall i :: 0 <= i < |Visited(start, end)| && Visited(start, end)[i] != q.today ==>
      Requests(Visited(start, end), q)[i] == RequestUrl(Format(Visited(start, end)[i]), q.baseKey)
    ensures RequestUrl(Latest, q.baseKey) in Requests(Visited(start, end), q) <==> InRange(q.today, start, end)
  {
    var days, reqs := Visited(start, end), Requests(Visited(start, end), q);
    forall i | 0 <= i < |days|
      ensures reqs[i] == RequestUrl(Latest, q.baseKey) <==> days[i] == q.today
    {
      RequestUrlInjective(Endpoint(days[i], q.today), Latest, q.baseKey);
    }
    VisitedOrdered(start, end);
    if InRange(q.today, start, end) {
      VisitedComplete(start, end, q.today);
      var i :| 0 <= i < |days| && days[i] == q.today;
      assert reqs[i] == RequestUrl(Latest, q.baseKey);
    }
  }

  /** For ranges ending by year 9999, no URL is requested twice in one call. */
  lemma RequestsDistinct(start: Day, end: Day, q: Query)
    requires end.year <= MaxFourDigitYear
    ensures forall i, j :: 0 <= i < j < |Visited(start, end)| ==>
      Requests(Visited(start, end), q)[i] != Requests(Visited(start, end), q)[j]
  {
    var days, reqs := Visited(start, end), Requests(Visited(start, end), q);
    VisitedOrdered(start, end);
    forall i, j | 0 <= i < j < |days| ensures reqs[i] != reqs[j] {
      var a, b := days[i], days[j];
      RequestUrlInjective(Endpoint(a, q.today), Endpoint(b, q.today), q.baseKey);
      FormatOrder(a, b);
    }
  }

  // ---------------------------------------------------------------------
  // Currency codes

  /** `a` and `b` spell the same code up to the case of ASCII letters. */
  predicate SameIgnoringCase(a: string, b: string) {
    |a| == |b| &&
    forall i :: 0 <= i < |a| ==>
      a[i] == b[i]
      || ('A' <= a[i] <= 'Z' && b[i] as int == a[i] as int + 32)
      || ('A' <= b[i] <= 'Z' && a[i] as int == b[i] as int + 32)
  }

  /** Codes that differ only in the case of ASCII letters give the same lookup key. */
  lemma SameKey(a: string, b: string)
    requires SameIgnoringCase(a, b)
    ensures Lower(a) == Lower(b)
  {
  }

  /** The call treats currency codes case-insensitively: 'TWD' and 'twd' give the same answer. */
  lemma CaseInsensitiveCodes(base1: string, quote1: string, base2: string, quote2: string,
                             start: Day, end: Day, today: Day, fetch: string -> Reply)
    requires SameIgnoringCase(base1, base2) && SameIgnoringCase(quote1, quote2)
    ensures PairRates(base1, quote1, start, end, today, fetch) == PairRates(base2, quote2, start, end, today, fetch)
    ensures Requests(Visited(start, end), QueryOf(base1, quote1, today, fetch))
         == Requests(Visited(start, end), QueryOf(base2, quote2, today, fetch))
  {
    SameKey(base1, base2);
    SameKey(quote1, quote2);
  }
}
