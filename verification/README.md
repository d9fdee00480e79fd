# price-optima front end: batch-result pipeline and session handlers

This project models the logic of the React front end of price-optima
(`frontend/src/App.js`). The operator asks a remote pricing service for price
recommendations, one ride at a time or for a whole CSV file. The model covers
four parts:

- the **result normaliser** `normalizeRowsFromServer`, which turns the
  untrusted `rows` of a batch response into table rows;
- the **chart projector** `chartData`, which keeps the rows without an error
  and numbers them `#1`, `#2`, … for the charts;
- the **session state**, that is the `useState` slots `health`, `rows`, `kpis`,
  `loading`, `singleResponse`, `serverError`, `healthLoading` and the form;
- the **handlers** `checkHealth`, `handleInputChange`, `handleTestSingle` and
  `onUpload`, including their two error-message classifiers.

Files, one module each:

- `wrappers.dfy` (`Wrappers`): `Option` and `Result`.
- `js_value.dfy` (`JsValue`): JSON-shaped JavaScript values and the parts of
  JavaScript the handlers rely on. These are truthiness, property reads,
  `Number.isFinite` and `Number(...)`, including the TypeError `Number(...)`
  throws for an object whose own `toString` key hides the callable one.
- `text.dfy` (`Text`): decimal printing (for `#${i + 1}` and axios' messages)
  and `String.prototype.includes`.
- `normalize.dfy` (`Normalize`): the normaliser.
- `chart.dfy` (`Chart`): the chart projector and the upload's success/error
  tally.
- `http.dfy` (`Http`): what a request comes back with, the error object axios
  rejects with, and the two classifiers.
- `session.dfy` (`Session`): the pure part of each handler's `try` block
  (`SingleAttempt`, `UploadAttempt`) and the class `App` holding the slots.
- `scenario.dfy` (`Scenario`): a worked batch of three records.

Each network call is a `Reply` parameter: `Ok(body)` for a 2xx body, or
`Fail(HttpError(status, data) | NetworkError | Timeout)`. Each awaiting
handler is split at its `await`. `Start…` runs the setters before the
request, `Finish…` runs the rest (the `try`, `catch` and `finally`), and the
handler method runs the two in sequence. The state between the two is the
state the page shows while the request is pending. The string-to-number
conversion used by `Number("…")` is a parameter `parse`.

Three behaviours of the code are easy to miss:

- The handlers themselves test no in-flight flag; both share the one
  `loading` slot. `Session.InterleavedRequests` shows an upload started
  while a single request is pending, and the single request's `finally`
  clearing `loading` while the upload is still pending. Whether the page's
  buttons let that second request start is up to the UI components, which
  are not part of this model.
- `checkHealth` never sets `serverError`; a failed health check only sets
  `health` to `null`.
- A row's `index` is any finite number the server sends (negative or
  fractional included), not only a non-negative integer.

## Model

| member | source | states |
|---|---|---|
| `JsValue.ToNumberThrowsIff` | frontend/src/App.js:268-273 | `Number(v)` throws exactly when `v` (or an element of an array `v`) is an object with its own `toString` key; a number converts to itself |
| `Normalize.NormalizeRow` | frontend/src/App.js:264-276 | a converted row always has a `null` or truthy `error`; the callback throws only the TypeError of reading `index` on a null/undefined record or of converting an unconvertible field |
| `Normalize.NormalizeRows` | frontend/src/App.js:263-277 | a successful normalisation returns exactly as many rows as records |
| `Normalize.NormalizeRowsPointwise` | frontend/src/App.js:263-277 | the normaliser succeeds iff every record's callback succeeds; it then returns one row per record in input order, row `i` depending only on record `i` and `i`; otherwise it throws the error of the first failing record |
| `Normalize.NormalizeRowThrowsIff` | frontend/src/App.js:264-275 | a record makes the normaliser throw iff it is null/undefined or one of its present numeric fields cannot be converted to a primitive |
| `Normalize.RowFollowsRecord` | frontend/src/App.js:264-275 | row `i`'s index is the record's finite numeric `index`, else `i`; each of the six numeric fields is absent exactly when the record lacks it (never 0 or null) and otherwise equals `Number(value)`, NaN included; `error` is the record's truthy error, else `null` |
| `Normalize.NormalizedRowsAreNormal` | frontend/src/App.js:263-277 | every produced row has a `null` or truthy error; a thrown error is one of the callback's two TypeErrors |
| `Normalize.NormalizeEncodedRow` | frontend/src/App.js:264-276 | a normalised row, read back as an object, normalises to itself at any position |
| `Normalize.NormalizeIdempotent` | frontend/src/App.js:263-277 | normalising the rows of a successful normalisation again succeeds and returns the same rows, whatever the string conversion |
| `Chart.TallyAddsUp` | frontend/src/App.js:301-302 | success count + error count = number of rows |
| `Chart.SucceededInOrder` | frontend/src/App.js:254 | the kept rows are the rows read at strictly increasing positions, and a position is kept exactly when its row has no truthy error |
| `Chart.ChartDataFollowsRows` | frontend/src/App.js:252-260 | with N rows of which K failed the chart has N−K points; point j is labelled `#(j+1)`, labels are distinct, and it carries the price and margin of the j-th kept row (null when absent) and its completion × 100 (null when absent) |
| `Text.DecimalRoundTrip` | frontend/src/App.js:256 | reading back the printed decimal of `n` gives `n` |
| `Text.DecimalInjective` | frontend/src/App.js:256 | distinct positions print as distinct labels |
| `Http.SingleErrorMessage` | frontend/src/App.js:161-173 | the single handler's message is always truthy (so it is shown), and it is the server's `detail` whenever that is truthy |
| `Http.UploadErrorMessage` | frontend/src/App.js:310-322 | the upload handler's message is always truthy, and it is the server's `detail` whenever that is truthy |
| `Http.SingleFailureMessage` | frontend/src/App.js:163-171 | for a failed request the single handler shows the truthy `detail` of an error response, else "Server error"; "Cannot connect to API server" when no response came; the timeout text after the 30 s timeout |
| `Http.UploadFailureMessage` | frontend/src/App.js:312-320 | for a failed request the upload handler shows the truthy `detail`, else "Failed to process CSV"; "Cannot connect to API server" when no response came; the upload timeout text after the 120 s timeout (`ECONNABORTED`) |
| `Http.InvalidSingleText` | frontend/src/App.js:155-171 | the "Invalid response from server" error matches neither the network-error nor the timeout test |
| `Http.ScriptErrorMessage` | frontend/src/App.js:312-320 | an error without response or code whose message contains no capital `N` (so cannot include "Network Error") is shown by the upload handler as "Failed to process CSV" |
| `Session.SingleAttempt` | frontend/src/App.js:147-159 | a reply is accepted iff it is 2xx with a non-null body whose `price_recommended` is truthy (0 or missing is a failure), and the accepted value is that body; a failed request throws axios' error |
| `Session.SingleMalformedMessage` | frontend/src/App.js:155-171 | a 2xx body with a falsy price fails with "Invalid response from server" and is shown as "Server error" |
| `Session.SingleThrow` | frontend/src/App.js:147-160 | the try block throws nothing exactly when the body is accepted and its price can be printed; otherwise it throws the request's own error, or the conversion TypeError after the body was stored |
| `Session.SingleUnprintablePrice` | frontend/src/App.js:155-171 | a 2xx body with a truthy price whose own `toString` is not a function is accepted, then throws the conversion TypeError, shown as "Server error" |
| `Http.ConvertErrorMessage` | frontend/src/App.js:163-171 | the conversion TypeError mentions neither "Network Error" nor "timeout", so the single handler shows "Server error" |
| `Session.UploadAttempt` | frontend/src/App.js:283-299 | a reply is accepted iff it is 2xx with a non-null body whose `rows` is an array that normalises; the batch is then the normalised rows and `kpis || null` |
| `Session.UploadMalformedMessage` | frontend/src/App.js:292-320 | every rejected 2xx reply (null body, `rows` not an array, a record that throws) is shown as "Failed to process CSV" |
| `Session.App.constructor` | frontend/src/App.js:63-85 | the initial slots: no health, no rows, no KPIs, not loading, no response, no error, the default ride record |
| `Session.App.StartCheckHealth` | frontend/src/App.js:117 | only `healthLoading` turns on |
| `Session.App.FinishCheckHealth` | frontend/src/App.js:118-127 | `health` becomes the body on success and `null` on failure, `healthLoading` turns off, nothing else changes |
| `Session.App.CheckHealth` | frontend/src/App.js:116-128 | the net effect of the health check: `health` as above, `healthLoading` off, every other slot unchanged |
| `Session.App.HandleInputChange` | frontend/src/App.js:135-140 | only the named form field changes (it is added if new); all other fields and slots stay |
| `Session.App.StartTestSingle` | frontend/src/App.js:144-146 | before the request: `loading` on, `serverError` and `singleResponse` cleared, nothing else changes |
| `Session.App.FinishTestSingle` | frontend/src/App.js:147-177 | after the request: an accepted body goes into `singleResponse`; whatever the try block threw (the rejection, the "invalid response" error, or the TypeError of printing an accepted but unprintable price into the toast) is classified into `serverError`; `loading` off; nothing else changes |
| `Session.App.HandleTestSingle` | frontend/src/App.js:143-178 | the response is the accepted body, else null; the error is truthy exactly when the try block threw and null otherwise, so an unprintable price leaves both the body and "Server error"; `loading` off; rows, KPIs, health, form unchanged |
| `Session.App.StartUpload` | frontend/src/App.js:281-282 | before the upload: `loading` on and `serverError` cleared; rows, KPIs and the single response stay |
| `Session.App.FinishUpload` | frontend/src/App.js:283-326 | success: rows and KPIs replaced together and tallied (successes + errors = rows); failure: rows and KPIs untouched, error set; `loading` off; health, response, form unchanged |
| `Session.App.OnUpload` | frontend/src/App.js:280-328 | the net effect of an upload: as `FinishUpload`, with the error null after success and truthy after failure |
| `Session.InterleavedRequests` | frontend/src/App.js:143-178 | an upload started while a single request is pending is left with `loading` false once the single request finishes: the handlers test no in-flight flag |
| `Session.ValidChartKeepsNullErrors` | frontend/src/App.js:254 | for the rows of a valid page, `!row.error` holds exactly when the error is `null`: the chart keeps exactly the rows whose error is `null` |
| `Scenario.MixedBatch` | frontend/src/App.js:252-277 | records `{price:"100.5", gm:12}`, `{error:"timeout"}`, `{index:5, price:200}` normalise to indices 0, 1, 5 with absent fields left absent, and chart as `#1` (100.5) and `#2` (200) |
| `Scenario.MixedChart` | frontend/src/App.js:252-260 | of the rows `0`, failed `1` and `5`, the chart skips the failed one and numbers the others `#1` and `#2`, completion left null where absent |

`Session.App.Valid` is the class invariant every handler keeps. It says
each slot is `null` or holds what its handler accepts: rows whose error is
`null` or truthy, a truthy KPI snapshot, a truthy message, and a response
with a truthy price.

## Left out

- Rendering: JSX, themes, the table columns, menus, layout, toasts and
  `console` output. The `darkMode`, `collapsed` and `activeTab` slots are
  presentation only.
- `frontend/src/services/api.js` is a thin axios wrapper that nothing in
  `App.js` uses. `frontend/src/utils/constants.js` holds static data only.
  The form keeps the ride record as a map from field name to value, as the
  source does.
- Transport: the URL (`API_BASE`), headers, the request payload
  `{ record: formData }` and multipart encoding. Only the timeouts enter the
  model, through axios' timeout message.
- Axios itself is not part of this model. `Http.Rejection` writes out the
  error shape axios documents: its message texts, its `code` values, and
  `response.data`.
- IEEE floating point: finite numbers are exact reals. Rounding, negative
  zero and overflow of `* 100` are not modelled.
- `Number("…")` on strings is the parameter `parse`; the engine's parsing
  rules are not modelled.
- `parseInt(...) || 0` in the form inputs is not modelled;
  `HandleInputChange` takes the already converted value.
- Scheduling by React is not modelled. This covers the `useEffect` health
  check on mount, the `useMemo` recomputation (`ChartData` is a function of
  `rows`), the batching of state updates, and handlers that read a stale
  `formData`.
- `onUpload` returns `false`, which only tells the upload widget not to send
  the file itself. The model does not return it.
- Session.SingleMalformedMessage: covers 2xx bodies that are not `null` or
  `undefined`. For a literal `null` body the handler throws the engine's
  TypeError, and its text (modelled with V8's wording in
  `JsValue.ReadError`) is not proved to avoid the "timeout" test.
- Reading a property of a string, number, boolean or array yields
  `undefined` in the model (`JsValue.Get`). This holds for every key the
  handlers read.
