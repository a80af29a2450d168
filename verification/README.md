# Daily exchange-rate series

A Dafny model of the rate fetcher in `src/services/rates.js`.

`getPairRates(base, quote, startDate, endDate)` walks every calendar day
from `startDate` to `endDate`, inclusive. For each day it requests one
snapshot of the base currency's table from the fawazahmed0 currency API on
jsDelivr. The snapshot is the floating `latest` one when the day is today,
and the frozen snapshot named after the day ('YYYY-MM-DD') otherwise. The
fetcher keeps one point `{date, value}` for every day whose reply is ok,
parses, and holds a truthy rate for the quote currency. The value is that
rate rounded to six decimals. Every other day is skipped silently. With no
point kept, the call rejects with the single user-facing error
'無法取得匯率資料，請稍後再試'. Otherwise it returns the points sorted by
their date strings. `getYenRates` is the TWD/JPY pair.

The project has five modules:

- `Calendar` (`calendar.dfy`): calendar days, the order `isBefore`, and the step `add(1, 'day')`.
- `DateFormat` (`dateformat.dfy`): the 'YYYY-MM-DD' rendering and the string order the sort uses. It proves that comparing two rendered days gives the same answer as comparing the days, for years up to 9999.
- `Rates` (`rates.dfy`): the fetcher itself.
  - `GetPairRates` is the call and `CollectPoints` its day loop; both are methods.
  - `ReadDay` is the per-day `try` block.
  - `PairRates` is the function the methods are proved equal to. It is built from `Visited`, the days the loop visits, and `Series`, the points those days add.
  - Both methods also return, as a ghost, the URLs they requested, in order. These are proved equal to `Requests`.
- `RatesProperties` (`properties.dfy`): what a call promises. This covers containment, order, uniqueness, the per-day condition, today routing, case-insensitive currency codes, and the single error.
- `RatesScenarios` (`scenarios.dfy`): two concrete calls against stub providers.

The network is a parameter `fetch: string -> Reply`, from request URL to
reply. A reply is either a rejected fetch or a status with a body, and the
body is either unparsable or a JSON object. The clock is a parameter
`today`. The source reads it once, before the loop, and every day of the
call is compared with that one value.

Two details of the code, as modelled:

- The request URL joins the provider root and the snapshot name with '@' (`currency-api@latest/...`).
- The inner 'no data' error carries '無法取得匯率資料'; the caller only ever sees '無法取得匯率資料，請稍後再試'.

## Model

| member | source | states |
|---|---|---|
| Rates.GetPairRates | src/services/rates.js:6-63 | The call returns exactly `PairRates` of its arguments. The URLs it requests are exactly `Requests` over the visited days, using one `today` for the whole call. The inner 'no data' error comes out as the user-facing message. |
| Rates.CollectPoints | src/services/rates.js:13-51 | The day loop visits `Visited(start, end)` in order. It accumulates exactly `Series` of those days and requests exactly `Requests` of them. It terminates because every step moves to a later day. |
| Rates.ReadDay | src/services/rates.js:26-45 | One day's request yields the point `(dateStr, Round6(rate))` when `Classify` of its reply is a rate, and nothing otherwise. A non-ok status returns early; a rejected fetch or an unparsable body is caught. |
| Rates.PairRates | src/services/rates.js:53-61 | A failure always carries the user-facing message '無法取得匯率資料，請稍後再試'. A success is non-empty and sorted by date string. |
| Rates.GetYenRates | src/services/rates.js:66-68 | Same result and same requests as `PairRates("TWD", "JPY", ...)`. |
| Rates.Endpoint | src/services/rates.js:22-23 | The snapshot is 'latest' exactly when the day is today. Otherwise it is the day's 'YYYY-MM-DD' rendering. |
| Rates.Lower | src/services/rates.js:9-10 | The lower-cased code has the same length; each ASCII letter 'A'-'Z' becomes its lower-case letter, every other character is kept, and no upper-case ASCII letter is left. |
| Rates.Round6 | src/services/rates.js:40 | The stored value is a multiple of 10^-6 within half a unit of the raw rate. Ties go away from zero. |
| Rates.Insert | src/services/rates.js:57 | Inserting a point into a sorted list keeps it sorted. The result holds exactly the old points plus the new one. |
| Rates.SortByDate | src/services/rates.js:57 | The result is sorted by date string and is a permutation of the input. |
| Rates.WalkStep | src/services/rates.js:17-47 | Loop-step unfolding used by `CollectPoints`, not a property of its own: one loop turn appends the current day to the visited days. It also appends that day's point, if any, to `Series` and its URL to `Requests`, and the rank of the day strictly grows. |
| Calendar.NextDay | src/services/rates.js:47 | The next day is a valid day, strictly after the current one. |
| Calendar.NextDayAdjacent | src/services/rates.js:47 | No day lies strictly between a day and the next one. So the walk skips no day. |
| DateFormat.DecimalOrder | src/services/rates.js:19 | Fixed-width zero-padded decimals compare as strings the way the numbers compare. Equal strings mean equal numbers. |
| DateFormat.FormatOrder | src/services/rates.js:19-57 | For years up to 9999, one day is before another exactly when its 'YYYY-MM-DD' string is lexicographically smaller. Two days are equal exactly when their strings are. |
| RatesProperties.VisitedOrdered | src/services/rates.js:17-47 | The walk is empty exactly when start is after end. Every visited day lies in [start, end], and the visited days strictly ascend. |
| RatesProperties.VisitedComplete | src/services/rates.js:17-47 | Every day of [start, end] is visited. |
| RatesProperties.SeriesOrigin | src/services/rates.js:37-41 | Every collected point comes from a visited day whose outcome is a rate. The point is that day's rendering and its rounded rate. |
| RatesProperties.SeriesContains | src/services/rates.js:37-41 | A visited day whose outcome is a rate has its point among the collected ones. |
| RatesProperties.SeriesEmpty | src/services/rates.js:37-53 | Nothing is collected exactly when every visited day is a gap. |
| RatesProperties.SeriesIncreasing | src/services/rates.js:17-47 | Points collected over strictly ascending days of years up to 9999 have strictly ascending date strings. |
| RatesProperties.SortKeepsStrictOrder | src/services/rates.js:57 | The sort leaves points with strictly ascending dates unchanged. |
| RatesProperties.FailsIffEveryDayGaps | src/services/rates.js:53-61 | The call fails exactly when every day of the range is a gap: a rejected fetch, a non-ok status, an unparsable body, or a missing or falsy quote. It then fails with the user-facing message. |
| RatesProperties.EmptyRangeFails | src/services/rates.js:17-61 | A range whose start is after its end makes the call fail with the user-facing message. |
| RatesProperties.PointOrigin | src/services/rates.js:17-41 | Every returned point belongs to a day in [start, end] whose reply held a usable quote. Its value is that quote rounded to six decimals. |
| RatesProperties.Chronological | src/services/rates.js:18-57 | For ranges ending by year 9999, a success lists the points in visiting order. Their dates strictly ascend, so no date appears twice. |
| RatesProperties.DayContributes | src/services/rates.js:26-42 | A day in range whose reply held a usable quote makes the call succeed, and its rounded point is in the result. |
| RatesProperties.DayContributesIff | src/services/rates.js:26-45 | For ranges ending by year 9999, a day in range has its date in a successful result exactly when its reply is ok, parses, and holds a truthy quote. |
| RatesProperties.RequestUrlInjective | src/services/rates.js:24 | Two request URLs for the same base currency are equal exactly when their snapshot names are. |
| RatesProperties.TodayRouting | src/services/rates.js:14-24 | Each visited day is requested from 'latest' exactly when it is today, and from its own dated snapshot otherwise. 'latest' is requested exactly when today lies in the range. |
| RatesProperties.RequestsDistinct | src/services/rates.js:18-24 | For ranges ending by year 9999, a call never requests the same URL twice. |
| RatesProperties.SameKey | src/services/rates.js:9-10 | Two codes that differ only in the case of ASCII letters lower-case to the same key. |
| RatesProperties.CaseInsensitiveCodes | src/services/rates.js:9-37 | Currency codes are case-insensitive: codes differing only in ASCII case give the same result and request the same URLs. |
| RatesScenarios.PartialSuccess | src/services/rates.js:6-63 | The TWD/JPY call over 2024-01-01..2024-01-03, with today 2024-01-03, returns `[(2024-01-01, 4.5), (2024-01-03, 4.6)]`. The provider serves 4.5 for the dated first day, HTTP 500 for the second, and 4.6 under 'latest'. |
| RatesScenarios.MissingQuoteFails | src/services/rates.js:35-61 | A provider whose 'twd' table lists only 'usd' makes a two-day TWD/JPY call fail with the user-facing message. |

## Left out

- The network: `fetch`, HTTP and JSON decoding are an oracle from URL to reply. A JSON member that is not an object, and a quote that is not a number, are treated as absent. A provider answering differently for the same URL within one call is not modelled.
- Round6: computed on exact reals. It does not model IEEE-754 doubles, the binary rounding of `toFixed(6)`, the exponential form `toFixed` uses from 10^21 up, or the `Number(...)` parse-back of the fixed-point string.
- Dates: days carry no time of day, time zone or daylight-saving shift. Years are non-negative. Parsing `startDate` and `endDate` with dayjs, including invalid dates, is not modelled; the call takes valid days.
- Chronological, DayContributesIff, RequestsDistinct: they require the range to end by year 9999. From year 10000 on, 'YYYY' renders five digits and the date strings no longer sort chronologically.
- Lower: lower-cases ASCII letters only, not the full Unicode mapping of `toLowerCase`. A non-string code, which makes `toLowerCase` throw before the `try`, is outside the model because the codes are strings.
- SortByDate: `localeCompare` is modelled as plain character-by-character order. On the ASCII digits and '-' of 'YYYY-MM-DD' it is assumed to agree with the locale's collation. The sort is a pure function, not `Array.prototype.sort` in place.
- The 50 ms pause between days, and the fact that the non-ok branch skips it, are timing only and are not modelled. The same goes for `console.warn` and `console.error`, and for the promise machinery of the `async` functions.
- An exception escaping from inside the outer `try` other than the 'no data' error, such as a failing date computation, is not modelled. Every error the model produces carries the user-facing message.
