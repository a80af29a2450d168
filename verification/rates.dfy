/**
  The daily rate fetcher of `src/services/rates.js`.

  `GetPairRates` walks every day from the start day to the end day, asks the
  currency provider for that day's snapshot of the base currency's table,
  keeps one point per day whose snapshot holds a usable quote, and returns
  the points sorted by date, or the one user-facing error when it kept none.

  The network is an oracle `fetch` from request URL to reply, and the clock
  is the `today` parameter, read once per call.
 */
module Rates {
  import opened Calendar
  import opened DateFormat

  datatype Result<T> = Success(value: T) | Failure(error: string)

  // ---------------------------------------------------------------------
  // The provider

  /**
    A parsed JSON body: the object-valued members of the top-level object,
    each a table from lower-case currency code to numeric rate. A member
    that is not an object, and a body that is not an object, have no table.
   */
  datatype Body = Unparsable | Json(tables: map<string, map<string, real>>)

  /** What `fetch(url)` gives: a rejected promise, or a response. */
  datatype Reply = NetworkError | Response(status: int, body: Body)

  /** `Response.ok`: the status is in the range 200-299. */
  predicate IsOk(status: int) {
    200 <= status <= 299
  }

  /** JavaScript truthiness of a number decoded from JSON (which cannot be NaN). */
  predicate Truthy(x: real) {
    x != 0.0
  }

  const ProviderRoot := "https://cdn.jsdelivr.net/npm/@fawazahmed0/currency-api"
  const Latest := "latest"

  /** The snapshot a day is read from: the floating one for today, the frozen one otherwise. */
  function Endpoint(d: Day, today: Day): (e: string)
    ensures e == Latest <==> d == today
    ensures d != today ==> e == Format(d)
  {
    if d == today then Latest
    else
      assert Format(d)[0] == Decimal(d.year, 4)[0];
      Format(d)
  }

  function RequestUrl(endpoint: string, baseKey: string): string {
    ProviderRoot + "@" + endpoint + "/v1/currencies/" + baseKey + ".json"
  }

  function LowerChar(c: char): char {
    if 'A' <= c <= 'Z' then ((c as int) + 32) as char else c
  }

  /** `String.prototype.toLowerCase` on the ASCII letters. */
  function Lower(s: string): (r: string)
    ensures |r| == |s|
    ensures forall i :: 0 <= i < |s| ==> !('A' <= r[i] <= 'Z')
    ensures forall i :: 0 <= i < |s| && 'A' <= s[i] <= 'Z' ==> r[i] as int == s[i] as int + 32
    ensures forall i :: 0 <= i < |s| && !('A' <= s[i] <= 'Z') ==> r[i] == s[i]
  {
    seq(|s|, i requires 0 <= i < |s| => LowerChar(s[i]))
  }

  // ---------------------------------------------------------------------
  // One day

  /** Everything a call fixes before its loop starts. */
  datatype Query = Query(baseKey: string, quoteKey: string, today: Day, fetch: string -> Reply)

  /** The query of a call: the currency codes lower-cased, today read once. */
  function QueryOf(base: string, quote: string, today: Day, fetch: string -> Reply): Query {
    Query(Lower(base), Lower(quote), today, fetch)
  }

  datatype Outcome = Rate(rate: real) | Gap

  /**
    The rate a reply yields for the pair, or `Gap` for a rejected fetch, a
    non-ok status, an unparsable body, or a missing or falsy quote.
   */
  function Classify(reply: Reply, baseKey: string, quoteKey: string): Outcome {
    match reply
    case NetworkError => Gap
    case Response(status, body) =>
      if !IsOk(status) then Gap
      else match body
        case Unparsable => Gap
        case Json(tables) =>
          if baseKey in tables && quoteKey in tables[baseKey] && Truthy(tables[baseKey][quoteKey])
          then Rate(tables[baseKey][quoteKey])
          else Gap
  }

  function DayRequest(d: Day, q: Query): string {
    RequestUrl(Endpoint(d, q.today), q.baseKey)
  }

  function DayOutcome(d: Day, q: Query): Outcome {
    Classify(q.fetch(DayRequest(d, q)), q.baseKey, q.quoteKey)
  }

  /**
    `Number(x.toFixed(6))` on exact reals: the nearest multiple of 10^-6,
    ties away from zero.
   */
  function Round6(x: real): (r: real)
    ensures (r * 1000000.0).Floor as real == r * 1000000.0
    ensures x >= 0.0 ==> x * 1000000.0 - 0.5 < r * 1000000.0 <= x * 1000000.0 + 0.5
    ensures x < 0.0 ==> x * 1000000.0 - 0.5 <= r * 1000000.0 < x * 1000000.0 + 0.5
  {
    var k := if x >= 0.0 then RoundUp(x * 1000000.0) else -RoundUp(-x * 1000000.0);
    var r := k as real / 1000000.0;
    assert r * 1000000.0 == k as real;
    assert (k as real).Floor == k;
    r
  }

  /** The integer nearest to `y`, ties upward. */
  function RoundUp(y: real): (k: int)
    ensures y - 0.5 < k as real <= y + 0.5
  {
    (y + 0.5).Floor
  }

  datatype Point = Point(date: string, value: real)

  /** The point a day adds to the series: none, or one. */
  function Contribution(d: Day, q: Query): seq<Point> {
    match DayOutcome(d, q)
    case Rate(x) => [Point(Format(d), Round6(x))]
    case Gap => []
  }

  // ---------------------------------------------------------------------
  // The walk over the range

  /** The days the loop visits, in the order it visits them. */
  function Visited(start: Day, end: Day): seq<Day>
    decreases Rank(end) - Rank(start)
  {
    if Before(end, start) then []
    else
      RankMonotonic(start, NextDay(start));
      [start] + Visited(NextDay(start), end)
  }

  /** The points collected over `days`, in visiting order. */
  function Series(days: seq<Day>, q: Query): seq<Point> {
    if |days| == 0 then []
    else Series(days[..|days| - 1], q) + Contribution(days[|days| - 1], q)
  }

  /** The URLs requested over `days`, in visiting order. */
  function Requests(days: seq<Day>, q: Query): (urls: seq<string>)
    ensures |urls| == |days|
  {
    seq(|days|, i requires 0 <= i < |days| => DayRequest(days[i], q))
  }

  // ---------------------------------------------------------------------
  // Sorting by date string

  function Dates(pts: seq<Point>): (ds: seq<string>)
    ensures |ds| == |pts|
  {
    seq(|pts|, i requires 0 <= i < |pts| => pts[i].date)
  }

  predicate SortedByDate(pts: seq<Point>) {
    forall i, j :: 0 <= i < j < |pts| ==> !StrLess(pts[j].date, pts[i].date)
  }

  /** Places `p` before the first point whose date is not below its own. */
  function Insert(p: Point, pts: seq<Point>): (r: seq<Point>)
    requires SortedByDate(pts)
    ensures SortedByDate(r)
    ensures multiset(r) == multiset(pts) + multiset{p}
  {
    if |pts| == 0 || !StrLess(pts[0].date, p.date) then
      InsertFrontSorted(p, pts);
      [p] + pts
    else
      var rest := Insert(p, pts[1..]);
      assert pts == [pts[0]] + pts[1..];
      InsertBehindSorted(pts[0], p, pts[1..], rest);
      [pts[0]] + rest
  }

  lemma InsertFrontSorted(p: Point, pts: seq<Point>)
    requires SortedByDate(pts)
    requires |pts| == 0 || !StrLess(pts[0].date, p.date)
    ensures SortedByDate([p] + pts)
  {
    var r := [p] + pts;
    forall i, j | 0 <= i < j < |r| ensures !StrLess(r[j].date, r[i].date) {
      if i == 0 && j > 1 && StrLess(r[j].date, p.date) {
        StrLessTotal(pts[0].date, p.date);
        if pts[0].date != p.date {
          StrLessTransitive(r[j].date, p.date, pts[0].date);
        }
      }
    }
  }

  lemma InsertBehindSorted(h: Point, p: Point, tail: seq<Point>, rest: seq<Point>)
    requires SortedByDate([h] + tail) && SortedByDate(rest)
    requires StrLess(h.date, p.date)
    requires multiset(rest) == multiset(tail) + multiset{p}
    ensures SortedByDate([h] + rest)
  {
    var r := [h] + rest;
    forall j | 1 <= j < |r| ensures !StrLess(r[j].date, h.date) {
      var x := r[j];
      assert x == rest[j - 1];
      assert x in multiset(rest);
      if x == p {
        StrLessIrreflexive(h.date);
        if StrLess(p.date, h.date) { StrLessTransitive(h.date, p.date, h.date); }
      } else {
        assert x in multiset(tail);
        assert x in tail;
        var k :| 0 <= k < |tail| && tail[k] == x;
        assert ([h] + tail)[0] == h && ([h] + tail)[k + 1] == x;
      }
    }
    forall i, j | 0 <= i < j < |r| ensures !StrLess(r[j].date, r[i].date) {
      if i > 0 {
        assert r[i] == rest[i - 1] && r[j] == rest[j - 1];
      }
    }
  }

  /** `Array.prototype.sort` with `(a, b) => a.date.localeCompare(b.date)`. */
  function SortByDate(pts: seq<Point>): (r: seq<Point>)
    ensures SortedByDate(r)
    ensures multiset(r) == multiset(pts)
  {
    if |pts| == 0 then []
    else
      assert pts == [pts[0]] + pts[1..];
      Insert(pts[0], SortByDate(pts[1..]))
  }

  // ---------------------------------------------------------------------
  // The call

  /** The message of the error the inner check throws when no point was kept. */
  const NoDataMessage := "無法取得匯率資料"
  /** The message of the one error a caller ever sees. */
  const UserMessage := "無法取得匯率資料，請稍後再試"

  /** What `getPairRates(base, quote, start, end)` resolves or rejects with. */
  function PairRates(base: string, quote: string, start: Day, end: Day, today: Day, fetch: string -> Reply)
    : (r: Result<seq<Point>>)
    ensures r.Failure? ==> r.error == UserMessage
    ensures r.Success? ==> |r.value| > 0 && SortedByDate(r.value)
  {
    var pts := Series(Visited(start, end), QueryOf(base, quote, today, fetch));
    if |pts| == 0 then Failure(UserMessage) else Success(SortByDate(pts))
  }

  /**
    `getPairRates`. Besides the result it yields, as a ghost, the URLs it
    requested, in order.
   */
  method GetPairRates(base: string, quote: string, startDate: Day, endDate: Day, today: Day, fetch: string -> Reply)
    returns (r: Result<seq<Point>>, ghost requests: seq<string>)
    ensures r == PairRates(base, quote, startDate, endDate, today, fetch)
    ensures requests == Requests(Visited(startDate, endDate), QueryOf(base, quote, today, fetch))
  {
    var baseLower := Lower(base);
    var quoteLower := Lower(quote);
    var results;
    results, requests := CollectPoints(baseLower, quoteLower, startDate, endDate, today, fetch);

    // The inner error is caught by the surrounding handler, which replaces
    // it with the user-facing message.
    var outcome: Result<seq<Point>> :=
      if |results| == 0 then Failure(NoDataMessage) else Success(SortByDate(results));
    r := if outcome.Failure? then Failure(UserMessage) else outcome;
  }

  /**
    The day loop of `getPairRates`: visit every day from `startDate` to
    `endDate`, request its snapshot, and keep the points that come back.
   */
  method CollectPoints(baseLower: string, quoteLower: string, startDate: Day, endDate: Day, today: Day,
                       fetch: string -> Reply)
    returns (results: seq<Point>, ghost requests: seq<string>)
    ensures results == Series(Visited(startDate, endDate), Query(baseLower, quoteLower, today, fetch))
    ensures requests == Requests(Visited(startDate, endDate), Query(baseLower, quoteLower, today, fetch))
  {
    ghost var q := Query(baseLower, quoteLower, today, fetch);
    results := [];
    requests := [];
    ghost var visited: seq<Day> := [];
    var current := startDate;
    while Before(current, endDate) || current == endDate
      invariant Visited(startDate, endDate) == visited + Visited(current, endDate)
      invariant results == Series(visited, q)
      invariant requests == Requests(visited, q)
      decreases Rank(endDate) - Rank(current)
    {
      var dateStr := Format(current);
      var isToday := current == today;
      var endpoint := if isToday then Latest else dateStr;
      var url := RequestUrl(endpoint, baseLower);
      requests := requests + [url];
      var gained := ReadDay(fetch, url, dateStr, baseLower, quoteLower);
      results := results + gained;

      assert url == DayRequest(current, q) && gained == Contribution(current, q) by {
        assert endpoint == Endpoint(current, today);
      }
      WalkStep(startDate, endDate, visited, current, q);
      visited := visited + [current];
      current := NextDay(current);
    }
    assert Visited(current, endDate) == [];
    assert visited == Visited(startDate, endDate);
  }

  /**
    The body of the per-day `try` block: fetch one URL and return the point
    it yields for `dateStr`, if any. A non-ok status returns early; a
    rejected fetch or an unparsable body is caught and yields nothing.
   */
  method ReadDay(fetch: string -> Reply, url: string, dateStr: string, baseLower: string, quoteLower: string)
    returns (gained: seq<Point>)
    ensures gained == match Classify(fetch(url), baseLower, quoteLower)
                      case Rate(x) => [Point(dateStr, Round6(x))]
                      case Gap => []
  {
    var reply := fetch(url);
    if reply.NetworkError? {
      return [];
    }
    if !IsOk(reply.status) {
      return [];
    }
    match reply.body
    case Unparsable =>
      return [];
    case Json(tables) =>
      if baseLower in tables && quoteLower in tables[baseLower] && Truthy(tables[baseLower][quoteLower]) {
        return [Point(dateStr, Round6(tables[baseLower][quoteLower]))];
      }
      return [];
  }

  /** One turn of the day loop, seen through the specification functions. */
  lemma WalkStep(start: Day, end: Day, visited: seq<Day>, current: Day, q: Query)
    requires !Before(end, current)
    requires Visited(start, end) == visited + Visited(current, end)
    ensures Visited(start, end) == (visited + [current]) + Visited(NextDay(current), end)
    ensures Series(visited + [current], q) == Series(visited, q) + Contribution(current, q)
    ensures Requests(visited + [current], q) == Requests(visited, q) + [DayRequest(current, q)]
    ensures Rank(current) < Rank(NextDay(current))
  {
  }

  /** `getYenRates`: the TWD/JPY pair. */
  method GetYenRates(startDate: Day, endDate: Day, today: Day, fetch: string -> Reply)
    returns (r: Result<seq<Point>>, ghost requests: seq<string>)
    ensures r == PairRates("TWD", "JPY", startDate, endDate, today, fetch)
    ensures requests == Requests(Visited(startDate, endDate), QueryOf("TWD", "JPY", today, fetch))
  {
    r, requests := GetPairRates("TWD", "JPY", startDate, endDate, today, fetch);
  }
}
