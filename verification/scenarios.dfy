/**
  Two concrete calls of `getPairRates` for TWD/JPY against stub providers.
 */
module RatesScenarios {
  import opened Calendar
  import opened DateFormat
  import opened Rates
  import opened RatesProperties

  /** A table holding one quote for the base currency 'twd'. */
  function TwdTable(quoteKey: string, rate: real): Reply {
    Response(200, Json(map["twd" := map[quoteKey := rate]]))
  }

  /**
    Serves 4.5 for the dated 2024-01-01 snapshot, 4.6 for the 'latest'
    snapshot, and HTTP 500 for anything else.
   */
  function PartialProvider(url: string): Reply {
    if url == RequestUrl("2024-01-01", "twd") then TwdTable("jpy", 4.5)
    else if url == RequestUrl(Latest, "twd") then TwdTable("jpy", 4.6)
    else Response(500, Unparsable)
  }

  lemma LowerTwdJpy()
    ensures Lower("TWD") == "twd" && Lower("JPY") == "jpy"
  {
  }

  lemma FormatOf(y: nat, m: nat, d: nat)
    requires 1000 <= y <= 9999 && 1 <= m <= 9 && 1 <= d <= 9
    ensures Format(Date(y, m, d)) ==
      [DigitChar(y / 1000), DigitChar(y / 100 % 10), DigitChar(y / 10 % 10), DigitChar(y % 10), '-',
       '0', DigitChar(m), '-', '0', DigitChar(d)]
  {
    assert Decimal(y, 4) == Decimal(y / 10, 3) + [DigitChar(y % 10)];
    assert Decimal(y / 10, 3) == Decimal(y / 100, 2) + [DigitChar(y / 10 % 10)];
    assert Decimal(y / 100, 2) == Decimal(y / 1000, 1) + [DigitChar(y / 100 % 10)];
    assert Decimal(m, 2) == Decimal(0, 1) + [DigitChar(m)];
    assert Decimal(d, 2) == Decimal(0, 1) + [DigitChar(d)];
  }

  lemma ThreeDayWalk()
    ensures Visited(Date(2024, 1, 1), Date(2024, 1, 3)) == [Date(2024, 1, 1), Date(2024, 1, 2), Date(2024, 1, 3)]
  {
  }

  lemma JanuaryDates()
    ensures Format(Date(2024, 1, 1)) == "2024-01-01"
    ensures Format(Date(2024, 1, 2)) == "2024-01-02"
    ensures Format(Date(2024, 1, 3)) == "2024-01-03"
  {
    FormatOf(2024, 1, 1);
    FormatOf(2024, 1, 2);
    FormatOf(2024, 1, 3);
  }

  lemma PartialOutcomes(q: Query)
    requires q == QueryOf("TWD", "JPY", Date(2024, 1, 3), PartialProvider)
    ensures DayOutcome(Date(2024, 1, 1), q) == Rate(4.5)
    ensures DayOutcome(Date(2024, 1, 2), q) == Gap
    ensures DayOutcome(Date(2024, 1, 3), q) == Rate(4.6)
  {
    LowerTwdJpy();
    JanuaryDates();
    RequestUrlInjective("2024-01-02", "2024-01-01", "twd");
    RequestUrlInjective("2024-01-02", Latest, "twd");
  }

  lemma PartialSeries(q: Query)
    requires q == QueryOf("TWD", "JPY", Date(2024, 1, 3), PartialProvider)
    ensures Series([Date(2024, 1, 1), Date(2024, 1, 2), Date(2024, 1, 3)], q)
         == [Point("2024-01-01", 4.5), Point("2024-01-03", 4.6)]
  {
    var d1, d2, d3 := Date(2024, 1, 1), Date(2024, 1, 2), Date(2024, 1, 3);
    var days := [d1, d2, d3];
    JanuaryDates();
    PartialOutcomes(q);
    assert Round6(4.5) == 4.5 && Round6(4.6) == 4.6;
    assert days[..2] == [d1, d2] && [d1, d2][..1] == [d1] && [d1][..0] == [];
    assert Contribution(d1, q) == [Point("2024-01-01", 4.5)];
    assert Contribution(d2, q) == [];
    assert Contribution(d3, q) == [Point("2024-01-03", 4.6)];
    assert Series([d1], q) == Series([], q) + Contribution(d1, q);
    assert Series([d1, d2], q) == Series([d1], q) + Contribution(d2, q);
    assert Series(days, q) == Series([d1, d2], q) + Contribution(d3, q);
  }

  /**
    Three days, the last of them today: the first is served, the second
    fails with HTTP 500 and is skipped, the third comes from 'latest'.
   */
  lemma PartialSuccess()
    ensures PairRates("TWD", "JPY", Date(2024, 1, 1), Date(2024, 1, 3), Date(2024, 1, 3), PartialProvider)
         == Success([Point("2024-01-01", 4.5), Point("2024-01-03", 4.6)])
  {
    var d1, d3 := Date(2024, 1, 1), Date(2024, 1, 3);
    ThreeDayWalk();
    PartialSeries(QueryOf("TWD", "JPY", d3, PartialProvider));
    Chronological("TWD", "JPY", d1, d3, d3, PartialProvider);
  }

  /** Every snapshot of a two-day range lists only 'usd' for 'twd': the call fails. */
  lemma MissingQuoteFails()
    ensures PairRates("TWD", "JPY", Date(2024, 1, 1), Date(2024, 1, 2), Date(2024, 1, 5),
                      (url: string) => TwdTable("usd", 0.03))
         == Failure(UserMessage)
  {
    var fetch := (url: string) => TwdTable("usd", 0.03);
    var q := QueryOf("TWD", "JPY", Date(2024, 1, 5), fetch);
    LowerTwdJpy();
    assert "jpy" != "usd";
    forall d: Day | InRange(d, Date(2024, 1, 1), Date(2024, 1, 2)) ensures DayOutcome(d, q).Gap? {
    }
    FailsIffEveryDayGaps("TWD", "JPY", Date(2024, 1, 1), Date(2024, 1, 2), Date(2024, 1, 5), fetch);
  }
}
