# Mobile broadband usage report: a verified model

The script `mobile_broadband_usage/main.py` builds a CSV report of mobile-broadband
connections and their month-to-date usage from the Nextpertise REST API. It does four things:

1. It obtains a bearer token once per process. `get_access_token` is wrapped in
   `lru_cache(maxsize=1)`, so only a successful exchange is cached.
2. It lists the active connections, optionally filtered by a debtor-code prefix. It requests
   pages 1, 2, 3, … and stops at the first empty page, or after the first page shorter than
   `page_size`.
3. For each connection it fetches the month-to-date usage, with an optional `billing_cycle`
   parameter.
4. It writes one `;`-separated row per connection under a fixed eight-column header, using
   `QUOTE_NONNUMERIC` quoting. The file is `mobile_connection_details.csv`, or `mobile_connection_details_<code>.csv` with
   the debtor code lower-cased.

This Dafny project models those steps:

- The network calls are oracles, passed in as functions: the credential exchange
  (`Credentials -> LoginResponse`), the page fetch (`ListingRequest -> ListingResponse`) and
  the usage fetch (`UsageRequest -> UsageResponse`).
- The token memo is a class (`Auth.TokenCache`). It has an optional-token field and a ghost
  count of the credential exchanges made.
- The pagination loop is a method with a `while` loop (`Listing.Paginate`). It is proved equal
  to a recursive specification, `Listing.ListFrom`, and the listing properties are proved about
  `ListFrom`.
- The report loop writes into a string buffer class (`Csv.CsvBuffer`), which stands for the
  `StringIO`. It is proved against `Report.UsageRows`.
- Each string builder has an inverse parser and a round-trip lemma: the filter query, the page
  URL, the usage URL, the file name and the CSV row.

Modules: `Wrappers` (Option, Result), `Text` (decimal rendering, ASCII lower-casing, splitting
at a character), `Api` (the decoded records and the errors), `Auth`, `Listing`, `Usage`, `Csv`
and `Report`.

Three points about the code that the model follows:

- The header row is quoted like every other text row (`"uuid";"nid";…`), because the writer
  uses `QUOTE_NONNUMERIC`.
- The credentials come from `NEXTPERTISE_API_USERNAME` and `NEXTPERTISE_API_PASSWORD`. In the
  model they are a parameter.
- `get_access_token` makes no status check. A failed log-in with a JSON body shows up only as a body without
  `access_token`, which raises `ValueError('Invalid credentials: ' + text)`.

## Model

| member | source | states |
|---|---|---|
| Api.Truthy | mobile_broadband_usage/main.py:31 | Python's `if x:` on an optional string: `None` and `""` are false. It is also used for the tests at lines 65 and 96. `ListingQueryCharacterised`, `UsageUrlParameter` and `FileNameCharacterised` show each builder adds its part exactly when the value is truthy. |
| Api.Normalize | mobile_broadband_usage/main.py:31 | The argument with every falsy value collapsed to none. It is none exactly when the argument is falsy, and otherwise the argument itself. |
| Auth.TokenOf | mobile_broadband_usage/main.py:17-21 | The exchange succeeds exactly when the response has `access_token`, and the token is that value. Otherwise the error is `InvalidCredentials`, whose message is `Invalid credentials: ` followed by the response text. |
| Auth.Acquire | mobile_broadband_usage/main.py:13-21 | The result of a call given the cache content: the cached token, or else the exchange's outcome (`TokenOf`). Its meaning is stated by `AcquireAgreesWithSlot`, `CachedTokenIsStable` and `TokenCache.GetAccessToken`. |
| Auth.SlotAfter | mobile_broadband_usage/main.py:13-21 | The cache content after a call: only a successful exchange fills an empty cache. Its meaning is stated by `AcquireAgreesWithSlot` and `CachedTokenIsStable`. |
| Auth.TokenCache.GetAccessToken | mobile_broadband_usage/main.py:13-21 | With a cached token: returns it, makes no exchange, leaves the cache as it is. With an empty cache: makes exactly one exchange, returns its outcome, and caches the token only on success. |
| Auth.AcquireAgreesWithSlot | mobile_broadband_usage/main.py:13-21 | A call succeeds exactly when the cache is full afterwards, and it returns the cached token. A full cache is never changed. |
| Auth.CachedTokenIsStable | mobile_broadband_usage/main.py:13-21 | Once a token is cached, every later call returns that same token and keeps the cache, whatever the exchange would answer. |
| Auth.CallTwice | mobile_broadband_usage/main.py:13-21 | Two calls in a row: if the first succeeds, the second returns the same token, with at most one exchange in all. If the first fails, the cache was empty and stays empty. |
| Listing.ListingQuery | mobile_broadband_usage/main.py:30-32 | The filter query. It is `is_active:true`, with ` AND organization.debtor_code:<code>*` added for a truthy code. Its meaning is stated by `ParseListingQueryInverts` and `ListingQueryCharacterised`. |
| Listing.ParseListingQueryInverts | mobile_broadband_usage/main.py:30-32 | The filter query can be read back: `is_active:true` gives no debtor code, and `is_active:true AND organization.debtor_code:<code>*` gives `<code>`, for every truthy code. |
| Listing.ListingQueryCharacterised | mobile_broadband_usage/main.py:30-32 | The query is exactly `is_active:true` iff the debtor code is falsy (None or empty). Two codes give the same query iff they are equal once falsy values are collapsed. |
| Listing.ListingUrl | mobile_broadband_usage/main.py:38 | The page URL, with the query inserted as it is. `ParseListingUrlInverts` shows that it determines the request, so keying the page oracle by `ListingRequest` is keying it by URL. |
| Listing.IsHttpError | mobile_broadband_usage/main.py:41 | `raise_for_status`: a status from 400 to 599. The error it causes is stated by `ListFromOutcome` and `JoinStep`. |
| Listing.Results | mobile_broadband_usage/main.py:45 | `data.get('results', [])`: a missing key is the empty list. The stop rule built on it is stated by `ListFromStops`. |
| Listing.Final | mobile_broadband_usage/main.py:41-53 | The loop's exit test: an error status, an empty page or a page shorter than `page_size`. `ListFromStops` shows that exactly the last page requested passes it. |
| Listing.ListFrom | mobile_broadband_usage/main.py:34-56 | The traversal from a given page. The requests, the stop rule and the outcome are stated by `ListFromRequests`, `ListFromStops` and `ListFromOutcome`, and `Paginate` is proved equal to it. |
| Listing.ParseListingUrlInverts | mobile_broadband_usage/main.py:38 | The page URL `…/connections/?page_size=<n>&page=<p>&query=<q>` determines the page size, the page number and the query, whatever characters the query contains. |
| Listing.ListFromRequests | mobile_broadband_usage/main.py:35-54 | Pages are requested as 1, 2, 3, … in order with no gaps. Every request has the same page size and query. There is at least one request, and none beyond the bound. |
| Listing.ListFromStops | mobile_broadband_usage/main.py:46-53 | Every page before the last one was non-empty, had at least `page_size` items and did not fail. The last page failed, was empty or was short. |
| Listing.ListFromOutcome | mobile_broadband_usage/main.py:41-56 | If the last page requested has an error status, the listing fails with that status. Otherwise the result is the in-order concatenation of all pages requested: the short last page is included and an empty one adds nothing. |
| Listing.ListFromOutcomeFinal | mobile_broadband_usage/main.py:41-53 | A page that ends the loop is the only request. The outcome is its HTTP error, or its items, none for an empty page. |
| Listing.ListFromBoundIrrelevant | mobile_broadband_usage/main.py:34-56 | The traversal does not depend on which terminating page bounds the recursion. |
| Listing.FirstPageFinal | mobile_broadband_usage/main.py:46-53 | If the first page ends the loop, it is the only request, and the result is its items (or its HTTP error). |
| Listing.JoinEmpty | mobile_broadband_usage/main.py:34-35 | The loop's start state (no requests, empty accumulator) adds nothing to the remaining traversal. |
| Listing.JoinStep | mobile_broadband_usage/main.py:41-54 | One loop iteration: an error status ends the listing with that error; a final page is appended and ends it; any other page is appended and the traversal continues with the next page. |
| Listing.Paginate | mobile_broadband_usage/main.py:34-56 | The `while True` loop returns exactly the requests and the outcome of the specification `ListFrom` from page 1. |
| Listing.GetActiveMobileConnections | mobile_broadband_usage/main.py:24-56 | A token failure aborts before any page is requested. Otherwise the function paginates with the query built from the debtor code. The cache is updated as by `get_access_token`. |
| Usage.UsageUrl | mobile_broadband_usage/main.py:64-66 | The usage URL, with `?billing_cycle=<bc>` added for a truthy billing cycle. Its meaning is stated by `ParseUsageUrlInverts` and `UsageUrlParameter`. |
| Usage.ParseUsageUrlInverts | mobile_broadband_usage/main.py:64-66 | The usage URL determines the connection uuid and the billing cycle, for every uuid without `?`. A falsy billing cycle reads back as none. |
| Usage.UsageUrlParameter | mobile_broadband_usage/main.py:64-66 | The URL always starts with `…/connections/<uuid>/usage/month-to-date/`. It is exactly that iff the billing cycle is falsy; otherwise `?billing_cycle=<bc>` is appended. |
| Csv.RenderField | mobile_broadband_usage/main.py:78 | `QUOTE_NONNUMERIC` for one field: text in double quotes with inner quotes doubled, a number as a bare decimal. Its meaning is stated by `ReadQuotedEscape` and `ParseRenderedField`. |
| Csv.RenderRow | mobile_broadband_usage/main.py:78-79 | A row: the fields joined by `;`, then `\r\n`. `ParseRenderedFields` shows that the row reads back as its fields. |
| Csv.ReadQuotedEscape | mobile_broadband_usage/main.py:78 | A quoted text field, with its inner quotes doubled, reads back as its text, and the reader stops right after the closing quote. |
| Csv.ParseRenderedField | mobile_broadband_usage/main.py:78 | A text field (quoted) or a numeric field (bare decimal), followed by `;` or the end, reads back as itself. |
| Csv.ParseRenderedFields | mobile_broadband_usage/main.py:78 | Every `;`-delimited row of quoted text and bare numbers reads back as the same fields, in order. |
| Csv.CsvBuffer.WriteRow | mobile_broadband_usage/main.py:92 | `writerow` appends the rendered row and its `\r\n` terminator to the buffer. |
| Report.HeaderRow | mobile_broadband_usage/main.py:76-79 | The header row: the eight column names, each a text field, so the writer quotes them. |
| Report.Row | mobile_broadband_usage/main.py:83-91 | A data row has exactly as many fields as the header has columns. |
| Report.RowFollowsHeader | mobile_broadband_usage/main.py:76-91 | Field i of a row is the value of header column i, looked up by name (`uuid`, `carrier.nid`, `carrier.imsi`, `carrier.sim.iccid`, `carrier.tags`, `data.usage_in_bytes`, `data.i18n_usage`, `sms.usage`). The first five fields are text and the last three numeric. |
| Report.ProjectRow | mobile_broadband_usage/main.py:83-91 | A row is built exactly when the usage body has `data` with `usage_in_bytes` and `i18n_usage`, and `sms` with `usage`. Otherwise the error is a KeyError on the first missing key, in the order `data`, `usage_in_bytes`, `i18n_usage`, `sms`, `usage`. |
| Report.UsageLookup | mobile_broadband_usage/main.py:64-67 | The usage lookup key of a connection. It gives the same URL as `get_month_to_date_usage(uuid, billing_cycle)`, and a falsy billing cycle becomes none, so calls that send one URL use one key. |
| Report.RowFor | mobile_broadband_usage/main.py:82-91 | One connection's usage lookup followed by `ProjectRow`. Its meaning is stated by `ProjectRow` and `WriteUsageRow`. |
| Report.UsageRows | mobile_broadband_usage/main.py:81-92 | The rows of the report body in listing order; the first failing row aborts the body. Its meaning is stated by `UsageRowsOk` and `UsageRowsFirstError`, and `WriteUsageRows` is proved against it. |
| Report.UsageRowsOk | mobile_broadband_usage/main.py:81-92 | The report body succeeds iff every connection's row does. It then has one row per listed connection, in listing order. |
| Report.UsageRowsFirstError | mobile_broadband_usage/main.py:81-92 | A failed body carries the error of the first connection whose row fails; all rows before it succeeded. |
| Report.UsageRowsPrefixErr | mobile_broadband_usage/main.py:81-92 | Once the rows of a prefix of the listing fail, the whole report fails with the same error. |
| Report.UsageRowsStep | mobile_broadband_usage/main.py:81-92 | One step of the report loop: a failing row fails the whole body; a successful one is appended. |
| Report.WriteUsageRow | mobile_broadband_usage/main.py:82-92 | One connection: the cached token is reused (no exchange), the usage is fetched for that uuid and billing cycle, and the row is written only if it can be built. |
| Report.WriteUsageRows | mobile_broadband_usage/main.py:81-92 | The loop succeeds iff its specification `UsageRows` does, appends exactly the rendered rows in listing order, and makes no credential exchange. |
| Report.FileName | mobile_broadband_usage/main.py:95-98 | The file name: the stem, `_` and the lower-cased code if the code is truthy, then `.csv`. Its meaning is stated by `ParseFileNameInverts`, `FileNameCharacterised` and `ScriptDefaults`. |
| Report.ParseFileNameInverts | mobile_broadband_usage/main.py:95-98 | The file name reads back as the lower-cased debtor code, or as none when the code is falsy. |
| Report.FileNameCharacterised | mobile_broadband_usage/main.py:95-97 | The name is exactly `mobile_connection_details.csv` iff the debtor code is falsy. Two codes give the same name iff they agree after lower-casing. The suffix has no upper-case letter. |
| Report.ScriptDefaults | mobile_broadband_usage/main.py:64-98 | With the script's settings the file is `mobile_connection_details.csv`, the query is `is_active:true`, and every usage URL ends in `?billing_cycle=2024-06-01`. The debtor code `NP` would give `mobile_connection_details_np.csv`. |
| Report.ReportShape | mobile_broadband_usage/main.py:76-99 | A successful report is named after the debtor code and is the header row followed by one eight-field row per listed connection, each starting with that connection's uuid. |
| Report.BuildReport | mobile_broadband_usage/main.py:76-99 | The report section writes the header row and then the rows, and names the file. Its result is the specification `ReportFor`, and it makes no credential exchange. |
| Report.ReportFor | mobile_broadband_usage/main.py:76-99 | The report for a listing: the header row followed by the usage rows, in a file named after the debtor code. Its meaning is stated by `ReportShape`, and `BuildReport` is proved equal to it. |
| Report.RunOutcome | mobile_broadband_usage/main.py:71-99 | The whole run: the token, then the listing, then the report. Its meaning is stated by `RunOutcomeFirstFailure`, and `MonthToDateReport` is proved equal to it. |
| Report.RunOutcomeFirstFailure | mobile_broadband_usage/main.py:71-99 | The run fails with the token's error, else the listing's error, else the first failing row's error. It succeeds exactly when the token and the listing succeed and every listed connection's row can be built, and then the file holds the header row followed by those rows. |
| Report.MonthToDateReport | mobile_broadband_usage/main.py:71-99 | The whole run is the token, then the listing, then the report, and the first failure aborts it. The run makes at most one credential exchange, and only when no token was cached. |
| Text.ParseNatToString | mobile_broadband_usage/main.py:38 | The decimal rendering of a page number or page size reads back as that number. |
| Text.IntToString | mobile_broadband_usage/main.py:78 | The decimal text of a number, with a leading `-` for a negative one. `ParseIntToString` shows it reads back as that number. |
| Text.ParseIntToString | mobile_broadband_usage/main.py:78 | The decimal rendering of an integer (a minus sign for negatives) reads back as that integer. |
| Text.AsciiLower | mobile_broadband_usage/main.py:97 | `str.lower()` on ASCII. It keeps the length; `AsciiLowerProperties` shows it leaves no upper-case letter and is idempotent. |
| Text.AsciiLowerProperties | mobile_broadband_usage/main.py:97 | Lower-casing leaves no upper-case ASCII letter and is idempotent. |

## Left out

- HTTP transport: the `requests.get` calls, the headers (including the bearer and basic-auth
  headers) and network exceptions. The three endpoints are oracles. `raise_for_status` is the
  status check `400 <= status < 600` on a listing response.
- Percent-encoding of the query string by `requests`: the model inserts the query as it is, as
  the f-string does.
- JSON decoding: responses are modelled as decoded records. A body that is not JSON, a listing
  item without `uuid` or `carrier`, and a `results` value of `null` are not modelled.
- Auth.TokenOf: a log-in body of `{"access_token": null}` is not modelled. The source returns
  `None` for it without raising, `lru_cache` caches it, and the run goes on with `Bearer None`.
- Report.ProjectRow: only keys of the usage body may be missing. A connection whose `carrier`
  lacks `nid`, `imsi`, `sim`, `iccid` or `tags` (also a KeyError in the source, raised before
  the usage keys), a `null` at any key the row reads, and a numeric `nid`, `imsi` or `iccid`
  (which `QUOTE_NONNUMERIC` would write bare) are not modelled. Carrier values are always text.
- Environment variables: the credentials are a parameter.
- The page and usage oracles are keyed by the request (`ListingRequest`, `UsageRequest`), not the
  URL text. The round-trip lemmas show that the URL determines the request, for usage only when
  the uuid has no `?`.
- The credential exchange is a fixed function of the credentials. After a failure, a retry
  therefore gets the same answer; a server whose answer changes over time is not modelled.
- `lru_cache` internals: only one-slot caching on success is modelled. `exchanges` is a ghost
  counter, not program state.
- Python's `str()` of the `tags` list: `tags` is opaque text.
- Numeric usage values are integers. Floats and booleans, which the writer also leaves
  unquoted, are not modelled.
- The `csv` module beyond its documented defaults for this writer. Modelled: `;` as delimiter,
  text in double quotes with inner quotes doubled, bare numbers, `\r\n` after each row.
- The UTF-8 encoding and the file write: the report is a name plus text.
- `str.lower()`: only ASCII letters are lower-cased.
- A negative `page_size`: page sizes are natural numbers.
- Listing.Paginate: the termination bound is a ghost page whose response ends the loop. The loop
  itself does not use it, and a listing that never ends is not modelled.
- Report.WriteUsageRows: when a usage lookup fails, the contract does not say which rows reached
  the buffer. The script never writes that buffer to a file.
- Usage.ParseUsageUrlInverts: holds only for connection uuids without `?`.
