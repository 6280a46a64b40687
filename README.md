# Semantic column map of the ExcelWizPro add-in, in Dafny

This project models the front-end core of the ExcelWizPro spreadsheet add-in and proves properties of that model. The add-in builds a plain-text "semantic column map" of the open workbook, which is sent as context to a formula-generation service. The map holds:

- one `Sheet:` line per worksheet;
- one `<name> = '<sheet>'!<L><start>:<L><last>` descriptor per labelled column;
- the `Table:` blocks with one `<name> = <table>[<header>]` descriptor per truthy header value;
- the `PivotSource:` markers;
- the `NamedRange:` pairs.

The map is cached with a time-to-live, invalidated on workbook changes, and delivered over a small publish/subscribe bus. A retrying fetch wrapper reaches the back end.

The model has five modules, one per file:

- `Config` (`config.dfy`): the constants the core reads. They are the cache TTL of 90 s, the cap of 50000 data rows per column, and the 3 back-end attempts.
- `Utils` (`utils.dfy`): `columnIndexToLetter` and `normalizeName`, with the JavaScript coercions they rely on. Truthiness and `String(v)` are modelled on a small `JsValue` type. `trim`, `toLowerCase` and `\s` are modelled on ASCII.
- `EventBus` (`eventbus.dfy`): the `listeners` map of insertion-ordered handler sets, as a class `Bus` with `On`, `Off`, `Unsubscribe` and `Emit`.
- `Network` (`network.dfy`): the offline check of `safeFetch` and the bounded retry loop of `fetchWithRetry`. The environment of each attempt (online or not, and what the transport does) is an input. The waits the loop would perform are an output.
- `ColumnMapper` (`columnmapper.dfy`): `buildColumnMapInternal` over an already-resolved workbook snapshot, and the cache controller. The controller is a class holding `columnMapCache`, `lastColumnMapBuild` and `refreshInProgress`, with `autoRefreshColumnMap`, `getCurrentColumnMap` and the `workbook:changed` handler.

The builder is specified in two layers:

- `Entries(wb)` lists, in output order, the marker lines and the named descriptors the walk produces. Each descriptor carries its normalized base name and its target.
- `Run` folds the shared name-count dictionary over that list.

The imperative methods follow the source's loops:

- `HeaderTexts` fills an array;
- `PrimaryLabel` scans bottom-up with `break`;
- `CombinedLabel` scans top-down;
- `PushDescriptor` dedups and pushes;
- the column, table, pivot, sheet and named-range loops.

Each method is proved equal to the specification. `BuildColumnMapInternal` therefore returns exactly `ColumnMapOf(wb)`.

Three behaviours of the code that one might not expect:

- **Descriptors need at least four rows.** The header block is always `min(3, rowCount)` rows. A used range of two or three rows, which the sheet loop does not skip, yields no column descriptors (`HasDataRows`). A five-row range starting at row 1 gives `A4:A5`, not `A2:A5` (`FiveRowsExample`). Its second and third rows are read as header rows.
- **Names are not globally unique.** The name-count dictionary counts occurrences per base token. A raw header normalizing to `x__2` produces the same name as the second `x` (`DedupCollision`). What the model proves is the counter property (`RunIsRender`).
- **Retry waits.** A non-ok HTTP status moves on to the next attempt without waiting, because `continue` skips the wait. A thrown error, including while offline, waits `300 * attempt`, even after the final attempt. All three attempts throwing gives the waits `[300, 600, 900]` (`AllThrownDelays`).

## Model

| member | source | states |
|---|---|---|
| Utils.ColumnIndexToLetter | frontend/src/core/utils.js:12-21 | the while loop over `n` returns the bijective base-26 numeral `ColumnLetters(index + 1)`, which is "" for a negative index |
| Utils.ColumnLettersAlphabet | frontend/src/core/utils.js:13-19 | for every index >= 0 the letters are non-empty and drawn from 'A'..'Z' |
| Utils.ColumnLettersRoundTrip | frontend/src/core/utils.js:13-18 | reading the letters back as Σ (c - 'A' + 1)·26^k gives the number they were computed from |
| Utils.ColumnLettersOnto | frontend/src/core/utils.js:13-18 | every string of capital letters is the numeral of its own value, so the mapping is onto |
| Utils.ColumnLettersInjective | frontend/src/core/utils.js:13-18 | distinct indices get distinct letters |
| Utils.ColumnLetterExamples | frontend/src/core/utils.js:12-20 | 0 → A, 25 → Z, 26 → AA, 51 → AZ, 52 → BA |
| Utils.NormalizeFalsy | frontend/src/core/utils.js:24 | `normalizeName` of null, undefined, "", 0 or false is "" |
| Utils.NormalizeShape | frontend/src/core/utils.js:24-27 | the result holds no whitespace and no upper-case letter |
| Utils.NormalizeIdempotent | frontend/src/core/utils.js:24-27 | normalizing a normalized name changes nothing |
| Utils.NormalizeIsJoinedWords | frontend/src/core/utils.js:25-27 | the result is the lower-cased maximal whitespace-free words of the input, joined by one `_` each, so leading and trailing whitespace leave no `_` |
| Utils.NormalizeTwoWords | frontend/src/core/utils.js:25-27 | two words with any whitespace around and between them give `w1_w2`, lower-cased |
| Utils.NormalizeExample | frontend/src/core/utils.js:23-28 | `"  Net   Sales "` normalizes to `"net_sales"` |
| Utils.NormalizeNonEmpty | frontend/src/core/utils.js:24-27 | a string with a non-whitespace character normalizes to a non-empty name |
| Utils.TrimShape | frontend/src/core/utils.js:25 | the trimmed text neither starts nor ends with whitespace |
| Utils.Lower | frontend/src/core/utils.js:26 | keeps the length and the whitespace positions, leaves no upper-case letter, and leaves a string without upper-case letters unchanged |
| Utils.NatToStringRoundTrip | frontend/src/core/columnMapper.js:92 | the decimal text of a count or row number reads back as that number |
| Utils.NatToStringDigits | frontend/src/core/columnMapper.js:101 | the decimal text of a row number is made of digits only |
| EventBus.AddSpec | frontend/src/core/eventBus.js:5-6 | adding keeps the handler set duplicate-free and adds exactly the new handler; adding the same handler twice leaves one entry |
| EventBus.RemoveSpec | frontend/src/core/eventBus.js:13 | deleting removes exactly that handler, keeps every other one and keeps the set duplicate-free |
| EventBus.RemoveAt | frontend/src/core/eventBus.js:13 | deleting a registered handler keeps every other handler in its registration order, which is the order `emit` calls them in |
| EventBus.RemoveAbsent | frontend/src/core/eventBus.js:13 | deleting a handler that is not registered changes nothing |
| EventBus.RemoveAdd | frontend/src/core/eventBus.js:4-14 | registering a new handler and then unregistering it restores the handler list, order included |
| EventBus.Bus.constructor | frontend/src/core/eventBus.js:2 | the registry starts empty |
| EventBus.Bus.On | frontend/src/core/eventBus.js:4-8 | creates the event's set when absent and adds the handler; other events are unchanged; returns the unsubscribe handle for that event and handler |
| EventBus.Bus.Off | frontend/src/core/eventBus.js:10-14 | a no-op for an event never registered; otherwise removes only that handler from only that event |
| EventBus.Bus.Unsubscribe | frontend/src/core/eventBus.js:7 | calling the handle returned by `on` has exactly the effect of `off(event, handler)` |
| EventBus.Bus.Emit | frontend/src/core/eventBus.js:16-26 | calls every registered handler once with the payload, in registration order, and nothing for an unknown event; a throwing handler is logged and the later handlers still run |
| Network.SafeFetch | frontend/src/core/network.js:13-21 | offline it throws `OFFLINE` and sends no request; online the request is sent and a response carries the transport's status |
| Network.FetchWithRetry | frontend/src/core/network.js:23-43 | at most `MaxBackendRetries` attempts; the first ok response is returned at once with its status and all earlier attempts failed; otherwise every attempt was made and the error is the last attempt's (`HTTP <status>` or what was thrown); the waits and the number of requests sent are those of the attempts made |
| Network.DelaysBounded | frontend/src/core/network.js:40 | at most one wait per attempt, none longer than 300 ms times the number of attempts |
| Network.DelaysIncreasing | frontend/src/core/network.js:40 | the waits grow strictly (linear backoff) |
| Network.DelaysAreThrownWaits | frontend/src/core/network.js:34-40 | every wait is `300 * k` for an attempt k whose call threw |
| Network.ThrownIsWaited | frontend/src/core/network.js:34-40 | every attempt k whose call threw is followed by a wait of `300 * k`, including the final attempt |
| Network.AllThrownDelays | frontend/src/core/network.js:25-42 | when every attempt throws, the waits are 300, 600 and 900 ms, the last one after the final attempt |
| Network.NonOkNoDelay | frontend/src/core/network.js:28-31 | non-ok responses are retried without any wait |
| Network.OfflineSendsNothing | frontend/src/core/network.js:14-18 | while offline no request is ever issued |
| ColumnMapper.CellText | frontend/src/core/columnMapper.js:66-68 | null, undefined and "" header cells have the empty text |
| ColumnMapper.CellTextShape | frontend/src/core/columnMapper.js:68 | a header text neither starts nor ends with whitespace |
| ColumnMapper.HeaderRowsOf | frontend/src/core/columnMapper.js:36 | the header block is the whole range when it has fewer than three rows, and three rows otherwise |
| ColumnMapper.PrimaryIsBottomMost | frontend/src/core/columnMapper.js:71-77 | the primary label is the non-empty text with only empty texts below it |
| ColumnMapper.PrimaryEmptyIff | frontend/src/core/columnMapper.js:71-78 | a column has no primary label exactly when all its header texts are empty |
| ColumnMapper.CombinedSpec | frontend/src/core/columnMapper.js:80-86 | the label is the primary itself when no upper row is non-empty and different from it; otherwise it is `<first such row> - <primary>`, so at most one prefix is added |
| ColumnMapper.LastRow | frontend/src/core/columnMapper.js:54-60 | the last data row is within the used range, the span from the start row is at most 50000 rows, and when the span is not empty it ends at the range's end or at the cap |
| ColumnMapper.HasDataRows | frontend/src/core/columnMapper.js:54-62 | `lastRow >= startRow` holds exactly when the used range has at least four rows |
| ColumnMapper.UnescapeEscape | frontend/src/core/columnMapper.js:98 | doubling the quotes loses nothing: the sheet name reads back from the reference |
| ColumnMapper.EscapeNoQuotes | frontend/src/core/columnMapper.js:98 | a sheet name without quotes is used as is |
| ColumnMapper.SheetLine | frontend/src/core/columnMapper.js:26-28 | the line starts with `Sheet: <name>` and carries a suffix exactly when the visibility is not "Visible" |
| ColumnMapper.SkippedSheetOnlyLine | frontend/src/core/columnMapper.js:25-34 | a sheet with no used range or fewer than two used rows emits its `Sheet:` line and nothing else, and counts nothing |
| ColumnMapper.RunIsRender | frontend/src/core/columnMapper.js:90-95 | the counter property of the dictionary shared with 128-133 and 162-167: output line i is entry i; a descriptor is named by its base at the first occurrence and `<base>__k` at the k-th; the dictionary holds every base seen with its number of occurrences |
| ColumnMapper.DedupCollision | frontend/src/core/columnMapper.js:90-95 | two `x` descriptors followed by an `x__2` one emit `x`, `x__2` and `x__2`: names are not unique |
| ColumnMapper.ColumnNamesNonEmpty | frontend/src/core/columnMapper.js:64-88 | every column descriptor has a non-empty name |
| ColumnMapper.ColumnMapStart | frontend/src/core/columnMapper.js:25-28 | a workbook with a sheet or a named range yields a non-empty map that starts with the first sheet's line, or with the first `NamedRange:` line when there is no sheet |
| ColumnMapper.EmptyWorkbookMap | frontend/src/core/columnMapper.js:171 | a workbook without sheets and names yields "" |
| ColumnMapper.FiveRowsExample | frontend/src/core/columnMapper.js:53-60 | rows 1-5 of a sheet give the first column the data range `'<sheet>'!A4:A5` |
| ColumnMapper.JoinLines | frontend/src/core/columnMapper.js:171 | the joined text starts with the first line, and is that line alone when it is the only one |
| ColumnMapper.PushDescriptor | frontend/src/core/columnMapper.js:90-95 | looks the token up, suffixes it with its incremented count when it was seen before, counts a new token once, and pushes `<name> = <target>` |
| ColumnMapper.HeaderTexts | frontend/src/core/columnMapper.js:64-69 | the array filled per header row equals the column's header texts |
| ColumnMapper.PrimaryLabel | frontend/src/core/columnMapper.js:71-78 | the bottom-up scan with `break` returns the primary label |
| ColumnMapper.CombinedLabel | frontend/src/core/columnMapper.js:80-86 | the top-down scan with its early exit returns the combined label |
| ColumnMapper.EmitColumn | frontend/src/core/columnMapper.js:64-102 | one pass of the column loop emits the column's descriptor, or nothing when it has no label |
| ColumnMapper.EmitColumns | frontend/src/core/columnMapper.js:63-103 | the column loop emits the columns' descriptors left to right |
| ColumnMapper.EmitTableHeader | frontend/src/core/columnMapper.js:125-139 | a falsy header value emits nothing; a truthy one emits `<norm(table.h)> = <table>[<h>]` through the shared counter |
| ColumnMapper.EmitTableHeaders | frontend/src/core/columnMapper.js:124-139 | one table's header values are emitted in order |
| ColumnMapper.EmitTable | frontend/src/core/columnMapper.js:122-139 | a table emits `Table: <name>` and then its header descriptors |
| ColumnMapper.EmitTables | frontend/src/core/columnMapper.js:121-140 | the tables are emitted in order |
| ColumnMapper.EmitPivots | frontend/src/core/columnMapper.js:143 | one `PivotSource:` line per pivot table, in order; the counts are untouched |
| ColumnMapper.EmitSheetBody | frontend/src/core/columnMapper.js:36-143 | after the row arithmetic, a sheet that is not skipped emits its columns when `lastRow >= startRow`, then its tables, then its pivots |
| ColumnMapper.EmitSheet | frontend/src/core/columnMapper.js:25-144 | one pass of the sheet loop emits the sheet's line and, unless the sheet is skipped, its body |
| ColumnMapper.EmitSheets | frontend/src/core/columnMapper.js:25-144 | the sheets are emitted in order |
| ColumnMapper.EmitNamedRange | frontend/src/core/columnMapper.js:159-169 | a named range emits `NamedRange: <name>` and then `<norm(name)> = <address>` through the shared counter |
| ColumnMapper.EmitNamedRanges | frontend/src/core/columnMapper.js:147-169 | the named ranges are emitted in order, after all sheets |
| ColumnMapper.BuildColumnMapInternal | frontend/src/core/columnMapper.js:14-173 | the build returns exactly `ColumnMapOf(wb)`: the sheets' lines, then the named ranges', with one name-count dictionary for all of them, joined by newlines |
| ColumnMapper.Refresh | frontend/src/core/columnMapper.js:175-196 | a refresh in progress changes nothing; an unforced call with a non-empty cache younger than the TTL changes nothing; otherwise a successful build stores the map and its timestamp and emits `columnMap:updated`, and a failed one keeps the cache and timestamp and emits the error toast; the in-progress flag is clear afterwards |
| ColumnMapper.RefreshWithinTtlIsCached | frontend/src/core/columnMapper.js:178-187 | after a successful build of a non-empty map, an unforced call within the TTL of the build's timestamp does not build again |
| ColumnMapper.EmptyMapIsNotCached | frontend/src/core/columnMapper.js:179 | an empty map is never served from the cache: the next unforced call builds |
| ColumnMapper.InvalidatedRebuilds | frontend/src/core/columnMapper.js:203-207 | after `workbook:changed` the next unforced call builds, whatever the clock says |
| ColumnMapper.ColumnMapController.constructor | frontend/src/core/columnMapper.js:10-12 | the cache starts empty, the timestamp at 0 and no refresh in progress |
| ColumnMapper.ColumnMapController.StartRefresh | frontend/src/core/columnMapper.js:176-184 | returns whether the call builds and, if so, sets the in-progress flag; otherwise nothing changes |
| ColumnMapper.ColumnMapController.FinishRefresh | frontend/src/core/columnMapper.js:186-195 | stores the built map with the second clock reading and emits `columnMap:updated`, or keeps the state and emits the toast; clears the flag in both cases |
| ColumnMapper.ColumnMapController.AutoRefresh | frontend/src/core/columnMapper.js:175-196 | the new state and the emitted events are those of `Refresh` applied to the old state and the snapshot's map |
| ColumnMapper.ColumnMapController.GetCurrentColumnMap | frontend/src/core/columnMapper.js:198-200 | returns the cached map and changes nothing |
| ColumnMapper.ColumnMapController.OnWorkbookChanged | frontend/src/core/columnMapper.js:203-207 | clears the cache and resets the timestamp to 0; the in-progress flag is untouched |

## Left out

- The Excel host API is left out: `Excel.run`, `ctx.sync`, `load`, `getUsedRangeOrNullObject`, `getRangeByIndexes`, `getHeaderRowRange`, `getRange`. The builder reads an already-resolved `Workbook` snapshot instead. The two host batching loops (`tableMeta`, `meta`) are merged into the loops that emit the lines, since they only load data.
- The error path of `safeExcelRun` is left out. It emits its own "Excel not ready" toast before rethrowing. excelApi.js is not part of this model, so a failing build shows only the controller's own error toast.
- The clock is left out: `Date.now()` becomes the parameters `now` and `finishedAt`.
- Interleavings across `await` are left out. `refreshInProgress` is modelled as state. `StartRefresh` and `FinishRefresh` split the refresh at the build's `await`, but concurrent callers are not modelled.
- Events are not dispatched. `columnMap:updated` and `ui:toast` are returned as a list of `Event`s rather than published on the `EventBus` module. The handler registration at module load is modelled as the `OnWorkbookChanged` method.
- Console logging is left out, including the warning `emit` logs for a throwing handler. The handlers that threw are returned instead.
- The network transport is left out: `timeoutSignal`, `AbortController`, real `fetch` and the real `delay`. Each attempt's outcome is an input `Probe`, and the waits are returned as data.
- Network.FetchWithRetry: requires at least `MaxBackendRetries` probes; the loop never looks past that many.
- JavaScript values in cells are modelled as null, undefined, strings, integers and booleans. Floating-point numbers, NaN and dates are left out. `String(v)` goes through the `ToStr` integer and boolean renderings.
- Unicode whitespace and case mapping are left out. `trim`, `\s` and `toLowerCase` act on ASCII.
- Header cells outside the loaded header block read as undefined. The host always returns a full block, so the source never meets this case.
- Handlers that change the handler set while `emit` iterates over it are left out. `Emit` iterates over the set as registered when the call starts.
- The UI and bootstrap code (mainUI.js, toast.js, errorPanel.js, index.js), backendClient.js, diagnostics.js and the remaining helpers of utils.js (`delay`, `getEl`, `parseQueryParams`) are not part of this model.
