# SensCritique collection exporter, modelled in Dafny

The exporter fetches a SensCritique user's rated films from the site's
GraphQL endpoint, one page of 50 at a time, flattens each product into a
five-field record and writes the records to a CSV file under the header
`Title,Year,Directors,Rating10,WatchedDate`. This project models its control
logic and its record mapping:

- `Shapes` (shapes.dfy): the response of the `UserCollection` query, the raw
  product, the flat record and the request variables. Every JSON field that
  may be missing or null is an `Option`. The endpoint is a `Server`, a
  deterministic function from request variables to a response; `Failed`
  stands for the nil that the HTTP call returns on a non-200 status, a
  network error or a body that is not JSON.
- `DateFormat` (date_format.dfy): `Time.parse` is a parameter
  (`TimeParser`, None where it raises `ArgumentError`); `strftime('%Y-%m-%d')`
  is written out (the year padded to four digits, `-0001` style for negative
  years) together with a reader `ParseYmd` that recovers the day.
- `Mapper` (mapper.dfy): `parse_movie` and `format_date`, and a reader
  `SplitNames` for the joined Directors field.
- `Pagination` (pagination.dfy): the loop of `fetch_all_movies` as the
  function `Fetch` of the server's answers, and the lemmas about it.
- `CsvLayout` and `Exporter` (exporter.dfy): the row layout, the class
  `SensCritiqueExporter` whose field `movies` is `@movies`, with the loop as
  the method `FetchAllMovies` proved against `Fetch`, `WriteCsv` and the
  empty-collection gate `ExportToCsv`, proved against the function `Export`.

Behaviour of the code that is easy to miss:

- A user whose `collection` is null does not simply stop the loop. While no
  total is known, line 84 reads `total` from nil and raises; once a total is
  known, the `&.` on line 86 turns the page into an empty one and the loop
  stops. The model has both: the stop reason `Raised(NilCollection)` and
  `NoProducts`.
- A first non-empty page without `total` does not stop cleanly either: the
  comparison on line 96 raises. The model reports `Raised(NilTotal)`, with
  that page already appended. `export_to_csv` then writes nothing
  (`Crashed`).
- A GraphQL `errors` value stops the loop even when it is an empty array
  (an empty array is truthy in Ruby).
- `export_to_csv` does not reset `@movies`: a second call on the same object
  appends to the first call's records. `Export` and `ExportToCsv` take the
  previous contents into account.

## Model

| member | source | states |
|---|---|---|
| `Pagination.Fetch` | sens_critique_exporter.rb:55-99 | every run issues at least one request, the first at the starting offset, and a total already known is never replaced |
| `Pagination.Inspect` | sens_critique_exporter.rb:65-88 | an iteration that gets past every check has a non-empty page, exactly the `products` of the response; a check that fires never counts as appending a last page; a total already known is kept |
| `Pagination.CheckOrder` | sens_critique_exporter.rb:65-88 | the checks fire in the order nil response, `errors`, missing user, empty page; the first that fires ends the loop after that single request and appends nothing |
| `Pagination.RequestOffsets` | sens_critique_exporter.rb:56-95 | the i-th request asks for user, universe `movie`, limit 50 and offset `start + 50 * i` |
| `Pagination.RequestsIncrease` | sens_critique_exporter.rb:95 | request offsets strictly increase |
| `Pagination.RecordsArePages` | sens_critique_exporter.rb:88-92 | the records are the mapped products of the processed pages, concatenated in request order (every page but a stopping one; the last too when it had been appended) |
| `Pagination.RecordCount` | sens_critique_exporter.rb:90-92 | the number of records is the sum of the sizes of the processed pages: no dedup, no loss |
| `Pagination.TotalFromFirstPage` | sens_critique_exporter.rb:83-84 | the total remembered is the one the first page declares; later pages' totals are never read |
| `Pagination.ContinuedBelowTotal` | sens_critique_exporter.rb:94-96 | every iteration but the last continued because offset + 50 was below the total; a stop at the total happens only once offset + 50 reaches it |
| `Pagination.IterationBound` | sens_critique_exporter.rb:95-96 | the loop ends, after at most max(1, ceil(total / 50)) requests, and after exactly one if no total was ever known |
| `Exporter.SensCritiqueExporter.FetchAllMovies` | sens_critique_exporter.rb:55-105 | the loop appends exactly `Fetch`'s records to `movies` and returns its stop reason and the requests it issued |
| `Exporter.SensCritiqueExporter.CheckResponse` | sens_critique_exporter.rb:63-88 | the nested checks of the loop body, with `total ||= collection['total']`, decide exactly the step `Inspect` specifies |
| `Exporter.SensCritiqueExporter.Iterate` | sens_critique_exporter.rb:63-96 | one pass of the loop body appends a page to `movies` and either breaks, matching a run of `Fetch` that ends after that request, or advances the offset by 50 while it stays below the known total, matching `Fetch` continued from the next offset |
| `Exporter.SensCritiqueExporter.AppendPage` | sens_critique_exporter.rb:90-92 | appending a page adds the mapped products to the end of `movies`, in order |
| `Exporter.SensCritiqueExporter.WriteCsv` | sens_critique_exporter.rb:168-180 | the file has the fixed header and one row per record, the i-th row being the i-th record's row |
| `Exporter.SensCritiqueExporter.ExportToCsv` | sens_critique_exporter.rb:40-51 | fetching then writing gives `Export`'s outcome: nothing written if the loop raised or `movies` is empty, otherwise the table of all of `movies` |
| `Exporter.SensCritiqueExporter.constructor` | sens_critique_exporter.rb:35-38 | a new exporter keeps the username and starts with no records |
| `Exporter.FirstRequestFails` | sens_critique_exporter.rb:44-47 | a failed first request leaves a fresh exporter with nothing to write |
| `Exporter.WrittenFileNotEmpty` | sens_critique_exporter.rb:44-49 | a written file always has the header and at least one row, and one is written whenever the loop ended without raising and records exist |
| `Exporter.TwoPageExport` | sens_critique_exporter.rb:84-96 | pages of 50 and 13 under a total of 63 give 63 rows, a file of 64 lines |
| `CsvLayout.Row` | sens_critique_exporter.rb:171-177 | each row has exactly as many fields as the header |
| `CsvLayout.RowRoundTrip` | sens_critique_exporter.rb:169-177 | a row reads back as its record: the five fields are title, year, directors, rating, watched date, in header order |
| `CsvLayout.TableRoundTrip` | sens_critique_exporter.rb:169-179 | the data rows read back as the records in their order |
| `Mapper.ParseMovie` | sens_critique_exporter.rb:146-159 | title and year are copied unchanged, nil included; missing directors give `""`; missing `otherUserInfos` gives nil rating and nil date |
| `Mapper.UserInfosFields` | sens_critique_exporter.rb:149-157 | with `otherUserInfos` present, the rating is copied and the date is `format_date` of `dateDone` |
| `Mapper.DirectorsField` | sens_critique_exporter.rb:150-155 | the Directors field splits back at `", "` into the directors' names in order (a null name as `""`), when no name holds a comma |
| `Mapper.Join` | sens_critique_exporter.rb:155 | joining no names gives `""`, one name gives that name |
| `Mapper.SplitJoinedNames` | sens_critique_exporter.rb:155 | splitting a `", "`-joined list of comma-free names gives the list back |
| `Mapper.JoinLength` | sens_critique_exporter.rb:155 | the joined length is the names' total length plus one separator per gap |
| `Mapper.ParsePage` | sens_critique_exporter.rb:90-91 | a page maps to exactly one record per product |
| `Mapper.FormatDate` | sens_critique_exporter.rb:161-166 | nil exactly for a nil or empty string; the string unchanged where `Time.parse` fails |
| `Mapper.FormatDateNormalises` | sens_critique_exporter.rb:161-166 | a date `Time.parse` reads comes out as `YYYY-MM-DD` (ten characters for years 0 to 9999) and reads back as that same day; an unreadable one passes through |
| `DateFormat.StrftimeRoundTrip` | sens_critique_exporter.rb:163 | `%Y-%m-%d` output reads back as the day it was written from |
| `DateFormat.StrftimeShape` | sens_critique_exporter.rb:163 | for years 0 to 9999 the output is four digits, dash, two digits, dash, two digits |
| `DateFormat.StrftimeExample` | sens_critique_exporter.rb:163 | 15 March 2024 is written `2024-03-15` |
| `DateFormat.Decimal` | sens_critique_exporter.rb:163 | the digits of a number below 100 fit a two-digit field, of one below 10000 a four-digit field |
| `DateFormat.ValueOfDecimal` | sens_critique_exporter.rb:163 | the digits written for a number read back as that number |
| `DateFormat.ValueOfLeadingZeros` | sens_critique_exporter.rb:163 | zero padding does not change a field's value |

## Left out

- `make_graphql_request` (lines 107-144): the HTTP POST, its headers, timeouts, JSON encoding and decoding. The endpoint is the `Server` parameter; every way the call returns nil is the one response `Failed`.
- `Time.parse`: Ruby's date parser, including its time zones and its use of the current date for partial input, is the `TimeParser` parameter.
- CSV quoting and escaping inside `CSV.open`, the file system and file-open failures: the model stops at the header and the fields of each row, in order.
- `sleep(0.3)`, the progress dots and every `puts` diagnostic (lines 41, 45, 50, 61-62, 66, 71, 77, 101-103), and the command-line block (lines 183-192).
- Ratings are integers here; a rating the JSON sends as a non-integer number is not modelled.
- JSON values of unexpected types (a `user` that is `false`, a non-string director name) and a null product or director entry, which raises `NoMethodError` in `parse_movie` (lines 91 and 155), are not modelled: each field is either absent or of its documented type.
