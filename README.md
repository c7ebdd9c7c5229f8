# Oireachtas bill queries, modelled in Dafny

This project models `oireachtas_api.py`, a small client of the Oireachtas (Irish parliament) open-data
service. The client answers two questions:

- which bills a member sponsored (`filter_bills_sponsored_by`);
- which bills were last updated within a date window (`filter_bills_by_last_updated`).

The network is replaced by a function argument `get: string -> Response<T>`, which gives the server's
answer to a GET of a uri. Everything the client does with that answer is modelled:

- `Endpoint.GetEndpointData` classifies a response. A 400–599 status is the fatal `InvalidUri` error,
  a content type without `application/json` is `NotJson`, and anything else hands back `results`.
- `Members` does the first-match search of a pId. A pId that no member has gives `UnknownMember(pId)`.
- `Queries` builds the two legislation query uris by plain concatenation. The member uri goes in
  verbatim, and `MemberIdOf` reads it back out.
- `Dates` parses the `lastUpdated` timestamps. It cuts at the first `T` and reads `YYYY-MM-DD` as
  `strptime` does, and `FormatDate` (`date.isoformat`) is its inverse.
- `Bills` is the specification of the date filter. A bill is kept iff it is the first in-range
  occurrence of its `billNo`, in upstream order. The window is `since < date <= until`.
- `OireachtasApi` holds the two entry points. `FilterBillsByLastUpdated` fetches the bills, and its
  loop `KeepBillsInWindow` grows `billNos` and `billsWithinDateRange` as the source does. The loop is
  proved equal to the specification in `Bills`.

The exceptions the model covers are constructors of `Errors.ApiError`, returned in a `Result`:

- the `SystemExit` raised for a bad status (`oireachtas_api.py:36`);
- the `ValueError` for a response that is not JSON (`:34`);
- the `StopIteration` for an unknown pId (`:57`);
- the `ValueError` that `strptime` raises for a bad date (`:91`);
- the range `ValueError` the tests expect.

The other errors the code can raise are listed under "Left out".

Where the code's doc comment or its tests say something other than what the code does, the model
follows the code:

- `raise_for_status` raises only for statuses 400–599, so a JSON response with status 302 is a
  success (`Endpoint.ClassificationExamples`).
- The lower bound of the window is strict (`>` at `oireachtas_api.py:93`). The doc comment at
  `oireachtas_api.py:70-71` says "greater than or equal".
- The code does not check the window for `since > until`. `FilterBillsByLastUpdated` models that
  behaviour, and `BillsUpdatedBetween` adds the check the tests expect (see Findings).

## Model

| member | source | states |
|---|---|---|
| `Dates.DatePart` | oireachtas_api.py:88 | the result is the prefix of the timestamp before its first `T`, and holds no `T`; the whole string when there is no `T` |
| `Dates.ParseDate` | oireachtas_api.py:91 | a date that parses is always a real calendar date in years 1..9999; anything else is refused |
| `Dates.ExtractDate` | oireachtas_api.py:88-91 | a date read from a timestamp is always a valid date, and a timestamp without `T` is parsed whole |
| `Dates.ParseDateExactly` | oireachtas_api.py:91 | parsing succeeds with date d iff d is a real calendar date in years 1..9999 and the text is exactly d written `YYYY-MM-DD` (parse and isoformat are inverse) |
| `Dates.ExtractDateIgnoresTime` | oireachtas_api.py:87-91 | for a date text without `T`, whatever follows an appended `T` is ignored: the timestamp denotes the same date or the same failure as the bare date |
| `Dates.DaysInMonth` | oireachtas_api.py:91 | every month has 28 to 31 days, and 29 exactly for February of a leap year (the day range `strptime` accepts) |
| `Dates.FormatDateExample` | test_oireachtas_api.py:103-104 | 4 March 2019 is written `"2019-03-04"`, the form the range-error message uses for its dates |
| `Dates.ParseDateExample` | oireachtas_api.py:91 | `"2019-03-04"` reads as 4 March 2019 |
| `Dates.ExtractDateExample` | oireachtas_api.py:87-91 | `"2019-03-04"` followed by any `T...` time, e.g. `"2019-03-04T12:00:00Z"`, denotes the same date as `"2019-03-04"`, namely 4 March 2019 |
| `Dates.ExtractDateRejectsFebruary29` | oireachtas_api.py:91 | `"2019-02-29"` is refused, as `strptime` raises for a day the month does not have |
| `Dates.BeforeIsStrictTotalOrder` | oireachtas_api.py:93 | the (year, month, day) order on dates is irreflexive, transitive and total |
| `Errors.Message` | oireachtas_api.py:33-57 | the bad-status and not-JSON messages contain the queried uri, and the not-found message contains the pId exactly as given |
| `Errors.RangeErrorNamesDates` | test_oireachtas_api.py:96-104 | the range-error message contains both dates in isoformat |
| `Endpoint.RaisesForStatus` | oireachtas_api.py:31 | a status raises iff its hundreds digit is 4 or 5 (client or server error); no status below 400, so no 2xx or 3xx, raises |
| `Endpoint.GetEndpointData` | oireachtas_api.py:21-42 | a 400–599 status gives `InvalidUri(status, uri)` whatever the content type; otherwise success iff the content type contains `application/json`, and then the `results` are returned unchanged; otherwise `NotJson(uri)` |
| `Endpoint.ClassificationExamples` | oireachtas_api.py:30-36 | a 404 with an HTML body is the fatal error (bad status wins over bad content type); a 200 HTML response is `NotJson`; a 302 JSON response passes |
| `Members.FirstWithPId` | oireachtas_api.py:54-55 | returns the index of the first member whose pId matches, with no earlier match, or None iff no member matches |
| `Members.ResolveMember` | oireachtas_api.py:53-59 | fails with `UnknownMember(pId)` iff no member has the pId; otherwise returns the uri of the first member with it |
| `Queries.SponsorQuery` | oireachtas_api.py:62-63 | the query is the legislation endpoint, then the status filter and `&member_id=`, then the member uri verbatim, then `&lang=en` |
| `Queries.MemberIdRoundTrip` | oireachtas_api.py:62-63 | the member uri is read back unchanged from the sponsor query built around it, whatever characters it holds (no encoding) |
| `Queries.QueriesDistinguishMembers` | oireachtas_api.py:80-81 | sponsor queries are equal iff their member uris are; the unscoped query `UnscopedQuery` carries no member and differs from every sponsor query |
| `Bills.KeptIndices` | oireachtas_api.py:86-97 | the kept positions lie among the bills read so far and are strictly increasing, so the result keeps upstream order |
| `Bills.KeptIndicesAreFirst` | oireachtas_api.py:93-97 | position i is kept iff bill i is in range and no earlier in-range bill has its billNo; a later in-range duplicate is dropped even if its lastUpdated differs |
| `Bills.Kept` | oireachtas_api.py:84-97 | the list the loop builds from the first n bills holds at most n bills (its contents are given by `KeptAtIndices` and `KeptIndicesAreFirst`) |
| `Bills.BillNos` | oireachtas_api.py:95-97 | the `billNos` list holds, position by position, the billNo of each kept bill |
| `Bills.KeptAtIndices` | oireachtas_api.py:95-97 | the kept list holds exactly the bills at the kept positions, in that order |
| `Bills.FirstUnreadable` | oireachtas_api.py:86-91 | the loop's abort position is the first bill whose date `strptime` refuses (every earlier date parses), or the length when all parse |
| `Bills.Selected` | oireachtas_api.py:84-99 | the selection is never longer than the fetched list |
| `Bills.UpdatedWithin` | oireachtas_api.py:84-99 | filtering succeeds iff every bill's date parses; a failure is always a date error |
| `Bills.FailsAtFirstBadDate` | oireachtas_api.py:86-91 | when bill i is the first whose date does not parse, the result is `BadDate` carrying that bill's date text, whatever the later bills hold |
| `Bills.SucceedsWhenAllDatesRead` | oireachtas_api.py:84-99 | when every date parses, the result is the list of selected bills |
| `Bills.KeptNos` | oireachtas_api.py:84-97 | a billNo is among those kept from the first n bills iff one of those n bills is in range with that billNo |
| `Bills.KeepTest` | oireachtas_api.py:93-97 | the loop's test (in range, billNo not yet in `billNos`) holds exactly for the bills that are the first in-range occurrence of their billNo |
| `Bills.LoopStep` | oireachtas_api.py:93-97 | one turn of the loop on a parsed date appends the bill, and its billNo, exactly when the date is in the window and the billNo is new; otherwise nothing changes |
| `Bills.SelectedInRange` | oireachtas_api.py:93 | every kept bill satisfies `since < date <= until` |
| `Bills.SelectedUnique` | oireachtas_api.py:95-97 | no two kept bills share a billNo |
| `Bills.SelectedComplete` | oireachtas_api.py:93-97 | every in-range bill has its billNo in the result, even when an earlier bill with that billNo was out of range |
| `Bills.EmptyWindowKeepsNothing` | oireachtas_api.py:93 | when since is not before until the result is empty, and a reversed window is never reported as an error |
| `Bills.RefilterIsIdentity` | oireachtas_api.py:84-99 | filtering a result again with the same window returns it unchanged |
| `OireachtasApi.BillsSponsoredBy` | oireachtas_api.py:44-64 | the only failures are the two fetch errors and the unknown-pId error; the bills of a member are never filtered by date |
| `OireachtasApi.SponsoredByContract` | oireachtas_api.py:44-64 | a failed member fetch is passed on; an unknown pId gives `UnknownMember(pId)` whose message names it; otherwise the result is exactly the classified answer to the sponsor query carrying the first matching member's uri, with no local filtering |
| `OireachtasApi.FilterBillsByLastUpdated` | oireachtas_api.py:67-99 | fetches the unscoped query; a fetch error is returned as is, and otherwise the result is the filter specification `UpdatedWithin` of the fetched bills |
| `OireachtasApi.KeepBillsInWindow` | oireachtas_api.py:84-99 | the loop that appends to `billNos` and `billsWithinDateRange` returns exactly `UpdatedWithin` of its input; its invariant keeps `billNos` equal to the billNos of the kept list |
| `OireachtasApi.BillsUpdatedBetween` | test_oireachtas_api.py:96-104 | a window with since after until fails with `BadRange(since, until)` whatever the server would answer; any other window behaves as `FilterBillsByLastUpdated` |

## Findings

| source | as written | input that shows it | evidently intended | confidence | as-written member | corrected member |
|---|---|---|---|---|---|---|
| oireachtas_api.py:67-99 | a window whose start is after its end is filtered like any other and yields an empty list | `since = date.today() + 1 day`, `until = date.today()`; the test at test_oireachtas_api.py:96-104 expects `ValueError("Start Date {since} is greater than end date {until}")` | reject `since > until` with that error before fetching anything | medium; not executed | `Bills.EmptyWindowKeepsNothing` | `OireachtasApi.BillsUpdatedBetween` |

## Left out

- The network (`requests.get`) is the function argument `get`. The model assumes it always returns a response.
- JSON decoding (`response.json()`) is not modelled, and neither is a body without a `results` key. `Response.results` is already the decoded list.
- The `{"bill": ...}` / `{"member": ...}` envelopes are flattened into `Bill` and `Member`, so the `KeyError` raised by a record missing a field is not modelled.
- The `Failed to connect` branch (`oireachtas_api.py:37-38`) is not modelled. It cannot be reached, because `requests.get` sits outside the `try`.
- Process termination by `SystemExit` is the error value `InvalidUri`.
- A response with no `content-type` header, which raises `TypeError` at `oireachtas_api.py:33`, is not modelled; every response has a content type.
- The defaults of `since` and `until` are not modelled: the 1990-01-01 default, and `date.today()`, which is evaluated once at definition time. Both dates are explicit arguments.
- `Dates.ParseDate` accepts only the exact form `DDDD-DD-DD` with ASCII digits. `strptime` also accepts one-digit months and days, a space-padded day and non-ASCII decimal digits.
- The text of `strptime`'s own `ValueError` is not modelled. `BadDate` carries the date text that was refused.
- The commented-out driver calls (`oireachtas_api.py:102-106`) are not modelled.
- The tests against the live service (`test_oireachtas_api.py:23-48`, `72-75`, `89-94`) are not modelled. They only check that real data can be reached.
- The upstream `date_start`/`date_end` parameters are not modelled, because this code never sends them.
- The service is trusted to apply the `member_id` scope. The model does not check that each returned bill lists the member among its sponsors.
- Logging and profiling are not modelled; this code has none.
