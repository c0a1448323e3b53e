# Dashboard table, export and route guard — a Dafny model

This project models the three pieces of logic in the equipment-rental dashboard
that are more than markup:

- **The dashboard table** (`components/DashboardTable.tsx`). The table filters
  the account records (admin view) or rental records (lender view). It filters
  first by role or status, then by a case-insensitive substring search over the
  searchable fields. It counts pages of ten and clamps the current page into
  range, writing the page back only when it was out of range. It slices the
  visible page and computes the "Showing X to Y of N entries" line. It builds
  the windowed list of page numbers with ellipses and guards page changes. On
  export it projects the filtered records onto the export fields.
  `currentPage` is a field of the class `DashboardTable`. The record sets are
  given to the constructor, and the filter props are passed to each render.
- **The export utilities** (`utils/export.ts`). `arrayToCSV` writes a header
  row and one row per object. A field that holds `,`, `"` or a line feed is
  quoted, with inner quotes doubled. `exportData` warns and stops on empty
  input and throws on an unknown format. Otherwise it downloads
  `<filename>.<format>` with the matching MIME type. `exportRentals` and
  `exportUsers` name the file after the date part of the current ISO
  timestamp. The browser is a `Browser` object whose event log records
  warnings and downloads.
- **The route guard** (`utils/supabase/middleware.ts:30-60`). This is the
  pass-or-redirect decision of `updateSession`. The user lookup and the profile
  lookup are replaced by their results.

JavaScript built-ins are modelled explicitly in module `Text`. `toLowerCase`
is modelled on ASCII. `includes` is a substring test. `trim` strips the
ECMAScript white-space and line-terminator code points. `split('T')[0]` takes
the text before the first `T`. An independent CSV reader (module `CsvReader`)
acts as the partner of the writer: reading an export back gives the header
keys and every object's values.

Modules: `Wrappers` (Option, Result), `Text`, `Sequences` (a generic filter
and the subsequence relation), `Export`, `CsvReader`, `Dashboard`, `Middleware`.

## Model

| member | source | states |
|---|---|---|
| Text.Lower | components/DashboardTable.tsx:149 | `toLowerCase` on ASCII keeps the length and leaves no upper-case letter. Each character is unchanged, or is an upper-case letter moved to its lower-case form. |
| Text.Includes | components/DashboardTable.tsx:150-153 | `s.includes(q)`: `q` is a prefix of `s` or occurs in its tail. `IncludesIffOccurs` proves this means "occurs at some position". |
| Text.IncludesIffOccurs | components/DashboardTable.tsx:150-153 | `s.includes(q)` holds exactly when `q` occurs in `s` at some position. |
| Text.Trim | components/DashboardTable.tsx:148 | `s.trim()`: strips leading and trailing white space. `TrimEmptyIffBlank` proves it is empty exactly for all-white-space strings. |
| Text.TrimEmptyIffBlank | components/DashboardTable.tsx:148 | `searchQuery.trim()` is empty exactly when every character of the query is JavaScript white space. |
| Text.BeforeFirst | utils/export.ts:109 | `split('T')[0]` is a prefix of the string free of the separator. It ends at the first separator, if there is one. |
| Text.BeforeFirstUpTo | utils/export.ts:109 | Suppose the first `k` characters hold no separator and position `k` is the end or a separator. Then `split(sep)[0]` is exactly those `k` characters. |
| Sequences.Filter | components/DashboardTable.tsx:145 | `filter` returns no more elements than it got, and every one it returns is drawn from the input and satisfies the predicate. |
| Sequences.FilterIsSubsequence | components/DashboardTable.tsx:140-177 | A filtered list is an order-preserving subsequence of its input. |
| Sequences.FilterCount | components/DashboardTable.tsx:140-177 | An element satisfying the predicate occurs in the result as often as in the input. Any other element does not occur at all. |
| Sequences.FilterTwice | components/DashboardTable.tsx:144-155 | Filtering by `p` and then by `q` is filtering once by "`p` and `q`". |
| Sequences.FilterAgree | components/DashboardTable.tsx:144-155 | Filters by predicates that agree on every element give the same result. |
| Sequences.FilterKeepsAll | components/DashboardTable.tsx:148-155 | A filter every element passes returns its input unchanged. |
| Dashboard.FilteredUsers | components/DashboardTable.tsx:141-157 | The accounts `filteredData` keeps are no more than the record set. Each is drawn from it and passes `KeepUser`: role filter `all` or matching, and blank trimmed query or a search hit. |
| Dashboard.FilteredRentals | components/DashboardTable.tsx:158-176 | The rentals `filteredData` keeps are no more than the record set. Each is drawn from it and passes `KeepRental`. |
| Dashboard.DefaultPropsKeepEverything | components/DashboardTable.tsx:132 | With the default props (`'all'`, `'all'`, `''`) the table keeps every record, in order. |
| Dashboard.FilteredUsersIsOneFilter | components/DashboardTable.tsx:141-157 | The two-stage account filter (role, then search when the trimmed query is not empty) is one filter by `KeepUser`. `KeepUser` means: the role filter is `all` or equals the role, and the trimmed query is empty or name, email or location contains the lower-cased, untrimmed query. |
| Dashboard.FilteredRentalsIsOneFilter | components/DashboardTable.tsx:158-176 | The two-stage rental filter is one filter by `KeepRental`. `KeepRental` uses the status filter and searches name, email, equipment and location. |
| Dashboard.FilteredUsersSpec | components/DashboardTable.tsx:141-157 | The filtered accounts are an order-preserving subsequence of the record set. An account occurs in them as often as in the record set exactly when it passes both filters, and not at all otherwise. |
| Dashboard.FilteredRentalsSpec | components/DashboardTable.tsx:158-176 | The same statement for rentals and the status filter. |
| Dashboard.DashboardTable.FilteredData | components/DashboardTable.tsx:140-177 | `filteredData` (also what `getFilteredData()` returns, line 252) holds accounts exactly for an admin and rentals otherwise, never more than the record set it came from. |
| Dashboard.TotalPages | components/DashboardTable.tsx:180-181 | `max(1, ceil(n / 10))` is at least 1. Its pages hold all `n` items, and it is the fewest pages that do. |
| Dashboard.ClampPage | components/DashboardTable.tsx:184 | The clamped page lies in `[1, totalPages]`. It equals the current page when that is in range. It is 1 below the range and `totalPages` above it. |
| Dashboard.ClampIdempotent | components/DashboardTable.tsx:183-189 | Clamping an already clamped page changes nothing. |
| Dashboard.Slice | components/DashboardTable.tsx:193 | `slice(start, end)` with bounds cut to the length has `max(0, min(end, n) - start)` items, item `i` being item `start + i` of the input. |
| Dashboard.PageSlice | components/DashboardTable.tsx:191-193 | `paginatedData` is the slice from `(p-1)*10` to `p*10`. `PageSliceSpec` and `ItemOnItsPage` give its contents. |
| Dashboard.PageSliceSpec | components/DashboardTable.tsx:191-193 | For a valid page the slice is `items[(p-1)*10 .. min(p*10, n)]`. It holds at most ten items, and it is not empty when there are items. |
| Dashboard.ItemOnItsPage | components/DashboardTable.tsx:191-193 | Item `k` is entry `k % 10` of page `k / 10 + 1`, which is a valid page. So every item is shown on some page. |
| Dashboard.ShowingRange | components/DashboardTable.tsx:371 | The "Showing" numbers: 0 with no items, else `start+1`, and `min(end, n)`. `ShowingMatchesPage` proves they bound the visible page. |
| Dashboard.ShowingMatchesPage | components/DashboardTable.tsx:371 | "Showing" reports 0 to 0 with no items. Otherwise it reports `from` to `to` with `1 <= from <= to <= n`, and the visible page is exactly items `from` to `to`. |
| Dashboard.PageWindow | components/DashboardTable.tsx:202-234 | The page list of `getPageNumbers`, per branch. Its shape, cover, order and current-page properties are the lemmas below. |
| Dashboard.GetPageNumbers | components/DashboardTable.tsx:202-234 | The loops of `getPageNumbers` build exactly the window `PageWindow(totalPages, validCurrentPage)`. |
| Dashboard.SmallWindowListsAll | components/DashboardTable.tsx:206-209 | With at most five pages the window is `1..totalPages`. |
| Dashboard.LargeWindowShape | components/DashboardTable.tsx:210-232 | With more than five pages the window has 6 or 7 entries. It starts with page 1 and ends with `totalPages`. |
| Dashboard.WindowShowsCurrent | components/DashboardTable.tsx:202-234 | The current page is always in the window. |
| Dashboard.WindowIsOrderedCover | components/DashboardTable.tsx:202-234 | Every number in the window is a page, and adjacent numbers are consecutive pages. Every ellipsis lies strictly between two numbers that differ by more than one. |
| Dashboard.WindowStrictlyIncreasing | components/DashboardTable.tsx:202-234 | The numbers in the window strictly increase from left to right. |
| Dashboard.RentalExportFieldAt | components/DashboardTable.tsx:246-248 | The i-th export key of a projected rental holds the rental's own value for that property. |
| Dashboard.UserExportFieldAt | components/DashboardTable.tsx:241-243 | The i-th export key of a projected account holds the account's own value for that property. |
| Dashboard.RentalExportFields | components/DashboardTable.tsx:246-248 | A projected rental has exactly the eight export properties, each with the rental's value. `statusText` and every other name read as `undefined`. |
| Dashboard.UserExportFields | components/DashboardTable.tsx:241-243 | A projected account has exactly the six export properties, each with the account's value. `roleText` and every other name read as `undefined`. |
| Dashboard.ProjectRental | components/DashboardTable.tsx:246-248 | The rental export record takes id, name, equipment, date, duration, location, email and status. `RentalExportFields` proves the exported object has exactly those keys with the rental's values. |
| Dashboard.ProjectUser | components/DashboardTable.tsx:241-243 | The account export record takes id, name, email, date, location and role. `UserExportFields` proves the exported object has exactly those keys with the account's values. |
| Dashboard.RentalsCsvReadsBack | components/DashboardTable.tsx:245-249 | Reading back the CSV export of the projected rentals gives the rental header, then one row per rental. The rows keep the count and order, and each holds exactly that rental's export fields. |
| Dashboard.UsersCsvReadsBack | components/DashboardTable.tsx:240-244 | The same statement for accounts and the user header. |
| Dashboard.TwelveRecordsMakeTwoPages | components/DashboardTable.tsx:180-193 | Twelve records make two pages: records 1-10, then 11-12, shown as "1 to 10" and "11 to 12". |
| Dashboard.NarrowedFilterClampsToFirstPage | components/DashboardTable.tsx:183-189 | A filter narrowing 25 records to 3 while page 3 is shown clamps the table to page 1. |
| Dashboard.ManilaQueryKeepsManilaRentals | components/DashboardTable.tsx:165-172 | The query `manila` keeps every rental located in "Manila", as both sample rentals are. |
| Dashboard.DashboardTable.constructor | components/DashboardTable.tsx:135 | The table starts on page 1. |
| Dashboard.DashboardTable.Render | components/DashboardTable.tsx:179-193 | The new `currentPage` is the clamped old one, and it is unchanged when the old one was in range. The view shows that page's slice, the "Showing" range, the item and page counts, and the page window when there is more than one page. |
| Dashboard.DashboardTable.HandlePageChange | components/DashboardTable.tsx:195-199 | A page in `[1, totalPages]` becomes the current page. Any other request leaves it unchanged. |
| Dashboard.DashboardTable.ExportData | components/DashboardTable.tsx:239-251 | The format is `csv` when omitted. Admins export the projected filtered accounts as `users`, and lenders the projected filtered rentals as `rentals`. The whole filtered set is exported, not the page, with the effects of `exportData`. |
| Export.Keys | utils/export.ts:19 | `Object.keys(o)` lists every property name, in the object's order. |
| Export.Get | utils/export.ts:27 | `item[key]`: the value of the first entry with that key. `GetMissing` proves a missing key gives `undefined`. |
| Export.Join | utils/export.ts:22 | `parts.join(sep)`. `SplitJoin` proves splitting the join gives the parts back. |
| Export.GetMissing | utils/export.ts:27 | A key the object does not have reads as `undefined`. |
| Export.SplitJoin | utils/export.ts:36 | Splitting a line-feed join on line feeds gives the parts back when no part holds a line feed. |
| Export.CollapseDoubleQuotes | utils/export.ts:30 | Collapsing `""` to `"` undoes doubling every `"`. |
| Export.DoubleQuotes | utils/export.ts:30 | `replace(/"/g, '""')` never shortens a value and leaves a value without quotes unchanged. `CollapseDoubleQuotes` proves it can be undone. |
| Export.EscapeField | utils/export.ts:29-32 | One cell: quoted with inner quotes doubled when the value holds `,`, `"` or a line feed, the value itself otherwise, empty when absent. `EscapeRoundTrip` and `ReadFieldRoundTrip` prove it reads back. |
| Export.EscapeRoundTrip | utils/export.ts:29-32 | Stripping the outer quotes of an escaped field and collapsing doubled quotes recovers the value. |
| Export.CsvLines | utils/export.ts:19-34 | The export has a header line plus one line per object. |
| Export.ArrayToCsv | utils/export.ts:15-37 | The CSV text is empty exactly when there is no data. |
| Export.CsvLineCount | utils/export.ts:22-36 | When no key or value holds a line feed, the text splits on line feeds into the header row and one row per object, `1 + data.length` lines. |
| Export.Browser.Warn | utils/export.ts:67 | `console.warn` appends one warning to the browser log. |
| Export.Browser.DownloadFile | utils/export.ts:42-55 | `downloadFile` appends one download with the given content, file name and MIME type. |
| Export.ExportEffect | utils/export.ts:60-92 | Empty data gives only the warning "No data to export", whatever the format. The call fails exactly when there is data and the format is neither `csv` nor `json`, and the error is "Unsupported export format: " + format. Otherwise it makes one download named `filename.format`, with the CSV text and `text/csv;charset=utf-8;`, or the JSON text and `application/json`. |
| Export.ExportData | utils/export.ts:60-92 | `exportData` returns and appends what `ExportEffect` describes. When it throws, it appends nothing. |
| Export.ExportFilename | utils/export.ts:109-113 | `<entity>-export-` followed by the part of the ISO timestamp before `T`. `ExportFilenameOfIso` pins it down for `<date>T<time>`. |
| Export.ExportFilenameOfIso | utils/export.ts:109-113 | For a timestamp `<date>T<time>` the file name is `<entity>-export-<date>`. |
| Export.RentalObj | utils/export.ts:111 | `{ ...item }` of a rental export record has the keys id, name, equipment, date, duration, location, email, status, in that order. |
| Export.UserObj | utils/export.ts:133 | `{ ...item }` of a user export record has the keys id, name, email, date, location, role, in that order. |
| Export.ExportRentals | utils/export.ts:108-116 | `exportRentals` (format `csv` when omitted) has the effects of `exportData` on the rental objects with the file name `rentals-export-<date part>`. |
| Export.ExportUsers | utils/export.ts:130-137 | `exportUsers` (format `csv` when omitted) has the effects of `exportData` on the user objects with the file name `users-export-<date part>`. |
| CsvReader.ReadQuotedRoundTrip | utils/export.ts:29-30 | A quoted field with doubled inner quotes reads back as the original value. |
| CsvReader.ReadBareRoundTrip | utils/export.ts:32 | A value free of `,`, `"` and line feeds, written as it is, reads back as itself. |
| CsvReader.ReadFieldRoundTrip | utils/export.ts:27-32 | Every escaped cell reads back as its value, and an absent value reads back as the empty string. |
| CsvReader.ReadRecordRoundTrip | utils/export.ts:25-33 | A comma-joined row of escaped cells reads back as the row's cell texts. |
| CsvReader.ReadRecordsRoundTrip | utils/export.ts:36 | Rows joined by line feeds read back row by row. |
| CsvReader.CsvRoundTrip | utils/export.ts:15-37 | Reading an export back gives the header keys, then each object's values in key order, whatever commas, quotes or line feeds the values hold. The keys must hold none of those characters, because the header row is not escaped. |
| Middleware.EffectiveRole | utils/supabase/middleware.ts:44 | `profile?.role \|\| 'farmer'` is never empty: it is the stored role or `farmer`. |
| Middleware.RouteDecision | utils/supabase/middleware.ts:30-60 | Paths outside `/dashboard` pass, and a dashboard path without a user redirects to `/login`. For a signed-in user a dashboard path passes exactly when the role may open it, and redirects to `/dashboard` otherwise. An admin may open anything but the lender zone, and a lender anything but the admin zone. Anyone else may open neither zone and not the overview. |
| Middleware.NoRedirectLoop | utils/supabase/middleware.ts:32-59 | Following a redirect never leads to a second redirect. |
| Middleware.MissingRoleIsFarmer | utils/supabase/middleware.ts:44 | A missing profile or role and an empty role are all treated as `farmer`. |
| Middleware.ZonesAreExclusive | utils/supabase/middleware.ts:46-59 | A signed-in user passes into the admin zone exactly when admin, into the lender zone exactly when lender, and onto `/dashboard/overview` exactly when admin or lender. |

## Left out

- JSX rendering, icons, badge colours and the table markup (`components/DashboardTable.tsx:107-129`, `255-425`): these are presentation. Only the numbers the markup shows are modelled, in `View`.
- Router navigation from the table rows: this is presentation.
- React's re-render on `setCurrentPage` during render: `Render` writes the clamped page back in one step.
- The sample fixtures `rentalData` and `userData`: the record sets are constructor parameters. The sample query `manila` is checked in `ManilaQueryKeepsManilaRentals`.
- The Blob, object URL and link click of `downloadFile`: a download is one event in the `Browser` log.
- `JSON.stringify(data, null, 2)`: a library serialiser, passed in as a function parameter `json`.
- `new Date().toISOString()`: the clock is read outside the model and passed in as `isoTimestamp`.
- The Supabase client, its cookie callbacks, `getUser` and the profile query in `utils/supabase/middleware.ts`: these are network calls, replaced by the inputs `signedIn` and `profileRole`. The returned `response` object is `Pass`.
- proxy.ts, Analytics.tsx, app-sidebar.tsx, NavLinks.tsx, AuthButton.tsx and types/index.ts are not part of this model: they are wrappers, charts, navigation or bare types.
- Text.Lower: only ASCII upper-case letters are lowered. Unicode case mapping is not modelled.
- Export values are strings or `undefined`, as every exported field is a string. The non-string branch of `value ?? ''` is not modelled.
- CsvReader.CsvRoundTrip: it holds only for keys without `,`, `"` or line feeds, because `arrayToCSV` writes the header row unescaped. It also needs at least one key: a first object without properties exports a blank header line and reads back as rows holding one empty cell each. The export keys of both entities meet both conditions.
- A bare carriage return does not cause quoting (`utils/export.ts:29`). The model keeps this, and the reader treats `\r` as an ordinary character.
