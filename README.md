# Ticket-allocation dashboard: read-through cache and dashboard helpers

This project is a Dafny model of two parts of a small ticket-allocation dashboard.

The first part is the backend's in-memory **read-through cache**, `dataCache` in `server.js`. The cache holds:
- the last full read of the allocation table;
- a clock stamp, where 0 means "invalidated";
- the flag for an in-flight refresh;
- a five-minute lifetime.

The data route serves the cached records in one of three ways:
- fresh from the cache;
- stale, while it starts a background refresh;
- after waiting for a synchronous refresh.

The refresh pages through the data service with an `offset` token. The flag keeps it to a single run at a time. On success it replaces the records wholesale. On failure it falls back to the old snapshot. The update route and the restore route invalidate the cache.

The second part is the **dashboard helpers** of `app.js`:
- the projection of records to rows;
- the `DD/MM/YYYY` date parser;
- the dashboard's own paging fetch;
- the sorted city list and the city filter;
- the fill-rate colour buckets and the delta bar;
- the optimistic edit of a number cell and its rollback.

The model replaces the outside world with parameters:
- The clock is a `now` or `doneAt` integer.
- "API key and base id configured" is a boolean.
- Every upstream answer is a scripted value. The paginated list call is a sequence of `Page` responses, and a write is answered by a `WriteResponse`.
- The event loop is explicit. `refreshDataInBackground` runs synchronously up to its first request (`Cache.BeginRefresh`, `Server.RefreshBegin`). It resumes once every page has been answered (`Cache.FinishRefresh`, `Server.RefreshFinish`). Between those two steps any number of other requests can arrive (`CacheProperties.Replay`).

Modules:
- `Json` holds values, records, `Option` and `Result`.
- `Columns` holds the column catalogue.
- `Paging` holds the scripted pages and the pages a loop reads.
- `Cache` is the cache as a state machine of pure functions, and `CacheProperties` proves its properties.
- `Server` holds the `DataCache` class and the handler methods. Each method is proved equal to its `Cache` function.
- `Backups` models list-backups.
- `Rows` models `transformData` and `parseAirtableDate`.
- `Cities` models the city list and the filter.
- `Dashboard` holds the `AirtableDashboard` class with its fetch loop, load and filters.
- `Cells` holds the fill-rate and delta cells.
- `EditCell` holds the editable cell as functions and as the `EditableCell` class.

Behaviour of the code that the model keeps as written:
- **A request that arrives during the first load gets JSON `null`.** It does not wait. `refreshDataInBackground` returns the current records while the flag is set, and they are still null (server.js:182, 195). See `CacheProperties.JoinDuringFirstLoadServesNull`.
- **`/api/trigger-recovery` does not exist in `server.js`.** It is not part of this model.
- **`/api/update-record` has no `recordId` guard.** Only the restore route answers 400 for a missing id.
- **The restore route invalidates the cache before it reads the webhook's body.** An accepted restore whose body cannot be read therefore answers 500 with the cache already invalidated.
- **Invalidation is lost if a write lands while a refresh is in flight.** When that refresh completes, it stamps the clock, so the next read can be a fresh hit on records that may predate the write (`CacheProperties.InvalidationDuringRefreshIsLost`).

## Model

| member | source | states |
|---|---|---|
| Cache.BeginRefresh | server.js:194-203 | no contract of its own; characterised by `CacheProperties.SingleRun`, `CacheProperties.MissingCredentialsRefresh` and `CacheProperties.ReadChangesOnlyByFetching` |
| Cache.ServerFetch | server.js:212-235 | no contract of its own; characterised by `Cache.ServerFetchReadsConsumedPages` |
| Cache.FinishRefresh | server.js:212-250 | no contract of its own; characterised by `CacheProperties.RefreshSuccess`, `CacheProperties.RefreshFailure` and `CacheProperties.SnapshotIsWholesale` |
| Cache.PathOf | server.js:166-183 | no contract of its own; characterised by `CacheProperties.ReadPaths` |
| Cache.HandleRead | server.js:161-189 | no contract of its own; characterised by `CacheProperties.FreshHit`, `CacheProperties.StaleHit`, `CacheProperties.SingleRun`, `CacheProperties.ReadChangesOnlyByFetching` and `CacheProperties.AtMostOneFetch` |
| Cache.HandleReadToEnd | server.js:161-189 | no contract of its own; characterised by `CacheProperties.FirstLoad` |
| Cache.HandleUpdate | server.js:373-426 | no contract of its own; characterised by `CacheProperties.UpdateInvalidatesOnlyOnSuccess` |
| Cache.HandleRestore | server.js:299-339 | no contract of its own; characterised by `CacheProperties.RestoreInvalidatesOnAcceptance` |
| Server.DataCache.constructor | server.js:110-115 | the cache starts with no records, clock 0, no refresh in flight, and a lifetime of 300000 ms |
| Cache.Fallback | server.js:243-247 | a failed refresh propagates its error exactly when no records were ever loaded; otherwise it yields the old records |
| Paging.Consumed | server.js:212-235 | the pages a `do … while (offset)` loop reads: a non-empty prefix of the script that ends at the first page without a non-empty token, where every earlier page carries one |
| Cache.ServerFetchReadsConsumedPages | server.js:212-235 | the paging loop succeeds exactly when the page that stops it is an ok page. The result is then the in-order concatenation of the records of every page read; otherwise it is the stopping page's error |
| Server.FetchAll | server.js:212-235 | the `do … while` loop that accumulates `allRecords` returns exactly the result characterised above |
| Server.RefreshBegin | server.js:194-203 | while a refresh is in flight, the current records are returned and nothing changes. Without credentials it fails at once and the flag is cleared again. Otherwise the flag is set and the first request goes out |
| Server.RefreshFinish | server.js:237-250 | on success the records are replaced and the clock is stamped; on failure it falls back; the flag is always cleared |
| Server.GetData | server.js:161-189 | the data handler's synchronous part sets the cache to exactly the next state of the read state machine |
| Server.GetDataToEnd | server.js:161-189 | a data request run to its reply gives the state machine's reply and next state |
| Server.UpdateRecord | server.js:373-426 | the cache is changed only by `lastUpdate := 0`, and only after an accepted, readable upstream answer. The reply is given for each error path |
| Server.TriggerRestore | server.js:299-339 | 400 without a record id. Nothing changes on a rejected or failed webhook call. An accepted call invalidates the cache before its body is read |
| Cache.Invalidate | server.js:331 | the clock becomes 0; the records, the flag and the lifetime are unchanged |
| CacheProperties.ReadPaths | server.js:166-183 | each of the three paths is characterised by an if-and-only-if. Freshness is strict: an age equal to the lifetime is stale. `force` and clock 0 both rule out both cache paths |
| CacheProperties.FreshHit | server.js:167-170 | a fresh hit replies with exactly the cached records, starts no fetch and leaves the cache unchanged |
| CacheProperties.FreshReadsAreIdentical | server.js:167-170 | any number of non-forced reads within the lifetime all get the same records, none of them fetches, and the cache is unchanged |
| CacheProperties.StaleHit | server.js:175-179 | a stale hit replies with the old records at once. With credentials it sets the flag, because a refresh has started; without them the cache is unchanged |
| CacheProperties.StaleThenRevalidated | server.js:175-179 | after a stale hit and the completion of its background refresh, the next read within the lifetime is a fresh hit on the new records |
| CacheProperties.InvalidatedReadWaits | server.js:167-182 | with clock 0 a non-forced read always takes the waiting path, and with credentials and no refresh in flight it starts a refresh |
| CacheProperties.ForcedReadWaits | server.js:164-182 | a forced read never takes a cache path |
| CacheProperties.SingleRun | server.js:195 | while a refresh is in flight, a refresh call returns the current records and changes nothing, and so does every data request, forced or not |
| CacheProperties.JoinDuringFirstLoadServesNull | server.js:182-183 | a request that arrives while the first load is in flight is answered with JSON null |
| CacheProperties.ReadChangesOnlyByFetching | server.js:161-189 | a data request changes the cache only when it starts a fetch, and then it only sets the flag |
| CacheProperties.AtMostOneFetch | server.js:194-197 | across any burst of requests before a refresh completes, at most one request fetches, none does if a refresh is already in flight, and the flag is the only change |
| CacheProperties.BurstDuringRefresh | server.js:195 | every request of a burst that arrives during a refresh is answered at once with the current records |
| CacheProperties.MissingCredentialsRefresh | server.js:197-203 | without credentials the refresh settles with the fallback for a missing-credentials error and leaves the cache unchanged |
| CacheProperties.RefreshSuccess | server.js:205-242 | a successful refresh sets the records to the concatenation of all the pages read, sets the clock to the completion time, and clears the flag |
| CacheProperties.RefreshFailure | server.js:243-250 | a failed refresh keeps the records and the clock and clears the flag. The error reaches the caller only on a first load; otherwise the old records are returned |
| CacheProperties.SnapshotIsWholesale | server.js:237-247 | after a refresh the records are either the previous snapshot or exactly the records of all the pages read |
| CacheProperties.FirstLoad | server.js:181-187 | from process start, a read fetches and waits. Success makes the cache fresh with the new records; failure is a 500 and leaves the start state |
| CacheProperties.UpdateInvalidatesOnlyOnSuccess | server.js:382-421 | the update succeeds if and only if credentials are configured and the answer is accepted and readable. Exactly then the cache is invalidated; otherwise it is unchanged |
| CacheProperties.RestoreInvalidatesOnAcceptance | server.js:301-334 | the cache is invalidated if and only if a record id is given and the webhook accepts. A missing id gives 400. The reply succeeds if and only if the accepted body is readable |
| CacheProperties.WriteThenReadRefreshes | server.js:419 | after a successful write, the next non-forced read performs a synchronous refresh |
| CacheProperties.InvalidationDuringRefreshIsLost | server.js:239 | a write during an in-flight refresh invalidates, but the refresh then stamps the clock, so a later read within the lifetime is a fresh hit |
| Columns.TargetFieldsAreDisplayColumns | server.js:118-158 | the fields the refresh asks for are exactly the dashboard's 39 columns in display order, starting with Date and Ville |
| Backups.ToBackups | server.js:285-289 | one backup entry per record, in order, with `id`, `Date` and `Id du backup` taken from that record |
| Backups.ToBackupsAppend | server.js:285-289 | the mapping commutes with concatenation |
| Backups.ListBackups | server.js:254-296 | 500 without credentials. An ok answer gives exactly the mapped list. A rejected answer is passed on with its status and body. A failed request is a 500 with its message, or 'Internal Server Error' when the message is empty |
| Rows.FirstDmy | app.js:196 | the leftmost position at or after `i` where `dd/dd/dddd` matches, or None when there is none |
| Rows.ParseAirtableDate | app.js:192-201 | empty text gives null. Otherwise the leftmost `DD/MM/YYYY` match gives day, month − 1 and year. Text without a match is left to the ISO branch |
| Rows.ParseFormattedDate | app.js:196-200 | the parser inverts `DD/MM/YYYY` formatting: the date comes back with the month shifted to a 0-based index |
| Rows.TransformRecord | app.js:177-188 | the row keeps the record's id. Every catalogue column is present, with a missing or null field mapped to null. A parsed date is present exactly when `Date` is truthy, and it then holds `parseAirtableDate` of it |
| Rows.TransformData | app.js:176-190 | the transform succeeds exactly when every entry is a record without a numeric date; the result then keeps length and order, one row per record |
| Rows.TransformRoundTrip | app.js:177-182 | reading a row back gives the record restricted to the catalogue columns, without its null fields |
| Cities.Insert | app.js:457 | inserting into a strictly sorted list keeps it strictly sorted and adds exactly the new element |
| Cities.CityList | app.js:457 | the city list is strictly sorted, so it has no duplicates, and it contains exactly the truthy `Ville` values of the data |
| Cities.LexLessTransitive | app.js:457 | the order used by `sort()` is transitive |
| Cities.LexLessTotal | app.js:457 | two distinct strings are ordered one way or the other |
| Cities.SortedListsAreUnique | app.js:457 | a strictly sorted list is determined by its elements, so the city list is the unique sorted list of the cities |
| Cities.Keep | app.js:474-507 | no contract of its own; the city clause `villeFilter && row['Ville'] !== villeFilter` and the given date clause, used by `Cities.FilterRows` |
| Cities.FilterRows | app.js:474-507 | the filter's result is an order-preserving subsequence of the data. It contains only rows that pass the city and date clauses, and every such row as many times as the data holds it |
| Cities.FilterWithoutCriteriaKeepsAll | app.js:474-480 | with no city and no date clause, the filter returns the data unchanged |
| Cities.ListedCityHasRows | app.js:456-480 | with no date clause set, choosing any offered city shows at least one row of that city |
| Dashboard.ClientRest | app.js:160-170 | no contract of its own; characterised by `Dashboard.ClientRestReadsConsumedPages` |
| Dashboard.ClientFetch | app.js:143-174 | no contract of its own; characterised by `Dashboard.ClientFetchReadsConsumedPages` |
| Dashboard.Load | app.js:121-140 | no contract of its own; characterised by `Dashboard.LaterRejectionFailsLoad` and `Dashboard.SuccessfulLoad` |
| Dashboard.ClientRestReadsConsumedPages | app.js:160-170 | the later pages give every record read, in order, plus one undefined entry when a rejected page stopped the loop. A failed page is an error |
| Dashboard.ClientFetchReadsConsumedPages | app.js:143-174 | the fetch fails on a rejected first answer and on any failed read. Otherwise it gives every record of every page read, in order, with one undefined entry after a rejected later page |
| Dashboard.FetchAirtableData | app.js:143-174 | the `while (offset)` loop returns exactly that result |
| Dashboard.LaterRejectionFailsLoad | app.js:160-181 | when the loop stops at a rejected later page, the load always fails |
| Dashboard.SuccessfulLoad | app.js:124-127 | a load that reads only ok pages shows one row per record read, in order |
| Dashboard.AirtableDashboard.constructor | app.js:2-6 | the dashboard starts with no rows and no filter |
| Dashboard.AirtableDashboard.LoadData | app.js:120-140 | on success the rows are replaced and shown unfiltered, and the city select is rebuilt and reset. On failure only the error is shown. Both keep the city-select invariant |
| Dashboard.AirtableDashboard.ApplyFilters | app.js:469-507 | the shown rows become the rows that pass the current city and date clauses; nothing else changes |
| Dashboard.AirtableDashboard.SelectCity | app.js:26 | choosing an offered city, or "all", sets the filter and shows the matching rows |
| Dashboard.AirtableDashboard.SelectDates | app.js:27-28 | changing the date clause shows exactly the rows that match the city filter and the new clause |
| Dashboard.AirtableDashboard.ResetFilters | app.js:113-119 | the filters are cleared and every row is shown, in order |
| Dashboard.ResetThenFilterKeepsAll | app.js:113-117 | after a reset, filtering again keeps every row |
| Cells.JsRound | app.js:435-437 | `Math.round` gives the integer within half of its argument, with halves rounded up |
| Cells.FillPercent | app.js:434-438 | a value up to 1 gives the integer nearest to 100 times it; a larger value gives the integer nearest to itself |
| Cells.Bucket | app.js:442-451 | green exactly at 100 or more, yellow exactly strictly between 0 and 100, red exactly at 0 or less |
| Cells.FillRateCell | app.js:422-454 | a missing or empty value shows '-'. A number shows its percentage with that percentage's colour. Text shows NaN |
| Cells.FractionBounds | app.js:434-451 | a fraction in [0, 1] shows a percentage in [0, 100]; 1 is a green 100 and a near-zero fraction is a red 0 |
| Cells.ScalesAreDiscontinuousAtOne | app.js:434-438 | 1.0 shows as a green 100 % while 1.2 shows as a yellow 1 % |
| Cells.NumberOr | app.js:278-279 | `parseFloat(v) \|\| d` is the number when it is a non-zero number, else the fallback |
| Cells.Clamp | app.js:281 | the result lies in [0, 100], is the identity inside that range, and gives the nearest bound outside it |
| Cells.DeltaCellOf | app.js:269-295 | a null delta shows '-'. Otherwise the bar width lies in [0, 100], the shown value is the delta or 0, and a negative quota gives width 0 |
| Cells.DeltaBarMeaning | app.js:278-281 | with a positive quota the bar is full exactly when the delta reaches the quota, empty exactly when the delta is not positive, and otherwise the delta's percentage of the quota |
| Cells.ZeroQuotaCountsAsOne | app.js:279-281 | a missing or zero quota counts as 1 |
| EditCell.NewCell | app.js:313-317 | no contract of its own; characterised by `EditCell.NewCellSync` and `EditCell.NullCellQuirks` |
| EditCell.TypeInput | app.js:326-328 | no contract of its own; the user's typing replaces only the input's value, used by `EditCell.EscapeRestores` and `EditCell.FailedSaveRollsBack` |
| EditCell.DoubleClick | app.js:319-328 | a double-click while editing does nothing. Otherwise it captures the stored value as the original, clears the text and fills the input |
| EditCell.Escape | app.js:353-356 | Escape ends the edit and shows the original's formatting; the stored value is untouched |
| EditCell.Revert | app.js:347-349 | a failed save puts back the original as stored value and text |
| EditCell.Enter | app.js:333-352 | Enter always makes a save call with the parsed input. On success the input is stored and shown; on failure the original is stored and shown |
| EditCell.Blur | app.js:361-391 | a blur outside an edit does nothing. A blur during an edit makes a save call exactly when the value changed, sending null for an empty input and the parsed number otherwise. An unchanged value leaves the stored value. A successful save stores the input and shows '-' or the parsed number; a failed save gives back the original |
| EditCell.NewCellSync | app.js:313-317 | a new cell's text agrees with its stored value exactly when it holds a number |
| EditCell.EscapeRestores | app.js:319-356 | for a cell holding a number, double-click, any typing and Escape give back exactly the cell as it was shown |
| EditCell.FailedSaveRollsBack | app.js:333-391 | for a cell holding a number, a failed save by Enter or by blur gives back exactly the cell as it was shown |
| EditCell.UntouchedNumberBlurMakesNoCall | app.js:361-369 | a blur that leaves a number as it was makes no save call and restores the view |
| EditCell.NullCellQuirks | app.js:316-369 | a cell made from null shows '-'. Escape then shows NaN, and a blur without typing sends null |
| EditCell.EditableCell.constructor | app.js:313-317 | a new cell is in the state `NewCell` describes |
| EditCell.EditableCell.OnDoubleClick | app.js:319-328 | the handler's assignments give exactly the `DoubleClick` state |
| EditCell.EditableCell.OnType | app.js:326-328 | typing changes only the input |
| EditCell.EditableCell.OnEscape | app.js:353-356 | the handler gives exactly the `Escape` state |
| EditCell.EditableCell.OnEnter | app.js:333-352 | the optimistic update and its rollback give exactly the `Enter` state and call |
| EditCell.EditableCell.OnBlur | app.js:361-391 | the blur handler gives exactly the `Blur` state and call |

## Left out

- Express routing and the `res.status(...).json(...)` plumbing are left out: each handler is modelled by its reply value. Also left out are the static file middleware, `app.listen`, and the `/config.js` template route (server.js:7-105). Reading environment variables is reduced to a "credentials configured" boolean.
- `/api/save-snapshot` is left out. It forwards a body to a webhook and does not touch the cache.
- `/api/trigger-recovery` is not part of this model. The route does not exist in `server.js`.
- All network I/O is left out. The data service and the webhooks are scripted answers, and a request that throws is a `PageFailed` or `Failed` value. The query string (`view`, `fields[]`) is left out. The requested fields are shown to match the column catalogue.
- Cache.ServerFetch, Dashboard.ClientFetch: a script whose every page carries a token would make the source request pages for ever. The model requires a script that contains a stopping page (`Paging.Ends`).
- The event loop is reduced to two steps: the synchronous part of a refresh, and its completion. Interleaving between individual page requests is not modelled, nor is a write arriving between two pages; a write before completion is shown by `CacheProperties.InvalidationDuringRefreshIsLost`.
- Backups.ListBackups: the sort by date and the 20-record cap are done by the data service from the query string, so the model does not capture them.
- Rows.ParseAirtableDate: the ISO fallback (`new Date(dateStr)`) is returned as an unparsed text. JavaScript's normalisation of out-of-range days and months is not modelled.
- Rows.TransformData: a truthy numeric `Date` makes `dateStr.match` throw; the model reports that as a failed transform and does not model the exception's message.
- Cities.FilterRows, Dashboard.AirtableDashboard.SelectDates: the date-range and single-date clauses compare JavaScript dates in the local time zone. They are a given `Row -> bool` parameter, not modelled.
- Cities.CityList: only text `Ville` values are cities. A numeric `Ville` is left out. Strings are compared by code point, whereas `sort()` compares UTF-16 code units.
- Cells.FillRateCell, Cells.DeltaCellOf: values are exact reals. For text, `parseFloat`'s numeric-prefix parsing is treated as NaN. IEEE rounding, `toFixed`, colour styles and `Intl.NumberFormat` are not modelled.
- Cells: `createPercentageCell` (`toFixed(0)` of a percentage) is display formatting and is left out.
- EditCell: cell values are numbers or null. `dataset.value`, the input's value and number formatting are represented by what the number conversions make of them. The reload after a successful save, the `td-saving` class and its timer, the `alert`, and the PATCH request (app.js:400-420) are left out; the save's outcome is a boolean parameter. A second edit started while a save is still pending is not modelled.
- Dashboard: `setInterval` polling, the loading spinner, table rendering, the sidebar, `saveSnapshot` and `loadHistory` are left out. `loadHistory` calls a route that `server.js` does not define.
