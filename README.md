# VisionPro detection core, modelled in Dafny

VisionPro is a browser dashboard over a license-plate and object detection server. This
project models three pieces of its sequential logic and proves their contracts:

- **The live-camera coordinator** (`livecam.dfy`, module `LiveCam`). The view has two
  channels: plates and objects. Each channel holds a camera URL, a loading flag, an error,
  the last processed image and detection time, a payload (a plate list or a label-to-count
  map), `{total, successful}` statistics and an auto-detect toggle. The class
  `LiveCamView` holds both channels as fields. `DetectPlates` and `DetectObjects` copy the
  source's `while (retries > 0)` loop. They read the answer of each request from a
  sequence `fetch` and return how many requests they made and how many milliseconds they
  waited. Each is proved equal to a declarative specification (`DetectPlatesSpec`,
  `DetectObjectsSpec`): a rejected call only sets the channel's error; otherwise the call
  stops at the first successful attempt among at most three, or ends in terminal failure.
  Lemmas about these specifications prove the guard, retry, statistics, payload, image and
  loading contracts. URL acceptance, the toggle, the auto-detect tick and the success rate
  are modelled too.
- **The server's record logic** (`backend.dfy`, module `Backend`). This covers OCR
  candidate cleaning and selection (`get_ocr_text`), the plate-acceptance and
  vehicle-counting loops of `get_ip_camera_frame`, the ten-second duplicate suppression
  of `update_excel`, and the filter-then-paginate search of `search_number_plate`. The
  OCR engine, YOLO and the spreadsheet are replaced by sequences of their results and
  rows.
- **The records page** (`events.dfy`, module `Events`). `getFilteredAndSortedData` is a
  case-insensitive substring filter followed by a comparator sort, modelled as an insertion
sort. The header click
  is a transition of the sorting state.

`text.dfy` (module `Text`) holds the ASCII character classes, lowercasing, substring
search, the string order that stands in for `localeCompare`, and decimal rendering of the
HTTP status. `wrappers.dfy` holds `Option`.

The model follows the code as written, including these behaviours a reader may not
expect:

- After a successful request the channel stays loading. The `finally` block clears
  `loading` only when `retries` is 0, and that happens only on terminal failure.
  `SuccessLeavesPlatesLoading` proves the consequence: after a plate success, every object
  call is rejected, and the plate channel's own tick no longer fires.
- A successful plate response with an empty `plates` list counts toward `total` only.
  A successful object response counts as successful whenever `object_count` is present,
  even when it is empty.
- Clearing the URL does not switch auto-detect off.
- A terminal failure adds exactly one to `total`. There is no double increment.

## Model

| member | source | states |
|---|---|---|
| `LiveCam.LiveCamView.constructor` | vision-pro/src/Livecam.jsx:14-29 | both channels start empty, idle, without error or image, and with zero statistics |
| `LiveCam.ValidateCameraUrl` | vision-pro/src/Livecam.jsx:32-39 | an accepted URL starts with a letter and has a colon after it (the scheme test that `new URL` applies first) |
| `LiveCam.SchemeDecidesValidity` | vision-pro/src/Livecam.jsx:32-39 | a letter, scheme characters and a colon make any continuation accepted |
| `LiveCam.UrlChanged` | vision-pro/src/Livecam.jsx:42-49 | an empty or valid URL is stored and the error cleared; any other URL leaves the URL unchanged and sets "Invalid camera URL format"; nothing else changes |
| `LiveCam.LiveCamView.ChangeCameraUrl` | vision-pro/src/Livecam.jsx:42-49 | the named channel becomes `UrlChanged` of its old state, and the other channel is untouched |
| `LiveCam.NotAUrlRejected` | vision-pro/src/Livecam.jsx:31-39 | "not a url" is not accepted |
| `LiveCam.HttpUrlAccepted` | vision-pro/src/Livecam.jsx:31-39 | an http camera URL is accepted |
| `LiveCam.UrlChangeExamples` | vision-pro/src/Livecam.jsx:42-49 | "not a url" keeps the URL and sets the format error; "" clears both the URL and the error; auto-detect is kept in both cases |
| `LiveCam.LiveCamView.ToggleAutoDetect` | vision-pro/src/Livecam.jsx:322-324 | the toggle flips auto-detect only when the URL is non-empty; nothing else changes |
| `LiveCam.FirstSuccess` | vision-pro/src/Livecam.jsx:63-104 | the index of the first successful attempt within the budget, or the budget if none succeeded: all earlier attempts failed |
| `LiveCam.FailureMessage` | vision-pro/src/Livecam.jsx:77-107 | a thrown error keeps its message; a non-2xx status gives "API responded with status: " followed by decimal digits whose value is the status; a 2xx answer without success gives its `error` field, or "Detection failed" when that is empty |
| `LiveCam.DetectPlatesSpec` | vision-pro/src/Livecam.jsx:52-126 | at most 3 requests with one wait fewer than requests; no request exactly when the object channel is loading or the URL is empty; URL and auto-detect unchanged; the channel ends loading while the object channel is loading only if it was loading already |
| `LiveCam.DetectObjectsSpec` | vision-pro/src/Livecam.jsx:129-203 | the same for the object channel |
| `LiveCam.LiveCamView.DetectPlates` | vision-pro/src/Livecam.jsx:52-126 | the retry loop leaves the plate channel, the request count and the time waited equal to `DetectPlatesSpec`; the object channel is untouched and the class invariant is kept |
| `LiveCam.LiveCamView.DetectObjects` | vision-pro/src/Livecam.jsx:129-203 | the same for the object channel and `DetectObjectsSpec` |
| `LiveCam.DetectPlatesRejected` | vision-pro/src/Livecam.jsx:53-61 | when the object channel is loading, or the URL is empty, the call makes no request, sets only its own error ("Please wait for object detection to complete" or "Please enter a valid camera URL") and changes nothing else |
| `LiveCam.DetectObjectsRejected` | vision-pro/src/Livecam.jsx:130-138 | the same for the object channel, with "Please wait for plate detection to complete" |
| `LiveCam.DetectPlatesRetries` | vision-pro/src/Livecam.jsx:63-125 | past the guards: 1 to 3 requests; there is one 1000 ms wait fewer than requests; every request but the last failed; the last one succeeded unless all three were used; loading stays true exactly on success |
| `LiveCam.DetectObjectsRetries` | vision-pro/src/Livecam.jsx:140-202 | the same for the object channel |
| `LiveCam.DetectPlatesStats` | vision-pro/src/Livecam.jsx:86-118 | a rejected call keeps the statistics; otherwise `total` rises by exactly 1; `successful` rises by 1 iff an attempt succeeded with a non-empty `plates`, and otherwise stays; `successful <= total` is preserved |
| `LiveCam.DetectObjectsStats` | vision-pro/src/Livecam.jsx:163-195 | the same, except that `successful` rises iff the successful response carried an `object_count` |
| `LiveCam.DetectPlatesOutcome` | vision-pro/src/Livecam.jsx:83-118 | on success: the image is the response's; the time changes only if the response has one; the payload is the plates or ["No plates detected"]; the error is cleared. On terminal failure: image and time are kept, the error is "Detection failed: " plus the last failure's message, and the payload is ["Error: Detection failed"]. The URL and auto-detect never change |
| `LiveCam.DetectObjectsOutcome` | vision-pro/src/Livecam.jsx:160-195 | the same for objects, with the object count (or {}) as the payload on success and {} on terminal failure |
| `LiveCam.FailTwiceThenSucceed` | vision-pro/src/Livecam.jsx:63-125 | two failures and then a success with plates: 3 requests, 2 waits, `total` and `successful` both rise by 1 |
| `LiveCam.FailThreeTimes` | vision-pro/src/Livecam.jsx:140-202 | three failures: 3 requests, 2 waits, the error is set, the payload is {}, only `total` rises, and loading is cleared |
| `LiveCam.SuccessLeavesPlatesLoading` | vision-pro/src/Livecam.jsx:104-133 | after a successful plate call the plate channel is still loading, its tick no longer fires, and an object call is rejected |
| `LiveCam.CallsKeepExclusion` | vision-pro/src/Livecam.jsx:53-66 | if the two channels are not both loading before a call, they are not both loading after it |
| `LiveCam.TickSkippedWhileLoading` | vision-pro/src/Livecam.jsx:206-224 | no tick starts a call while its own channel is loading |
| `LiveCam.LiveCamView.TickPlates` | vision-pro/src/Livecam.jsx:206-214 | the tick calls detect exactly when auto-detect is on, the URL is non-empty and the channel is not loading; otherwise nothing changes |
| `LiveCam.LiveCamView.TickObjects` | vision-pro/src/Livecam.jsx:216-224 | the same for the object channel |
| `LiveCam.SuccessRate` | vision-pro/src/Livecam.jsx:258 | 0 when `total` is 0; otherwise rate × total = 100 × successful; the rate lies between 0 and 100 whenever `successful <= total` |
| `Text.NatToString` | vision-pro/src/Livecam.jsx:78 | the HTTP status is rendered as a non-empty string of digits without a leading zero |
| `Text.NatToStringValue` | vision-pro/src/Livecam.jsx:78 | the rendered digits have the status's own value |
| `Backend.CleanText` | vision-pro/src/x.py:180 | cleaning keeps only alphanumeric and whitespace characters, never lengthens the text, and leaves text that is already clean unchanged |
| `Backend.CleanTextAppend` | vision-pro/src/x.py:180 | cleaning distributes over concatenation, so kept characters stay in order |
| `Backend.CleanTextChar` | vision-pro/src/x.py:180 | one character is kept iff it is alphanumeric or whitespace; with `CleanTextAppend` this fixes the cleaned text of every input |
| `Backend.Candidates` | vision-pro/src/x.py:177-186 | every collected candidate is clean, at least 5 long, contains a digit and has confidence above 0.4 |
| `Backend.CandidatesExact` | vision-pro/src/x.py:177-186 | every read whose cleaned text passes the rules is collected; every candidate comes from such a read; the list is empty iff no read passes |
| `Backend.BestOf` | vision-pro/src/x.py:188-190 | the chosen candidate has the greatest confidence, and every earlier candidate has a strictly smaller one (Python `max` keeps the first of equals) |
| `Backend.OcrText` | vision-pro/src/x.py:164-195 | the reading is ("", 0.0) or a valid collected candidate |
| `Backend.GetOcrText` | vision-pro/src/x.py:164-195 | the loop returns `OcrText`; ("", 0.0) iff no read passes the rules; otherwise the cleaned text of a passing read, valid, whose confidence is at least that of every passing read |
| `Backend.OcrTextChoice` | vision-pro/src/x.py:169-192 | the returned text is empty, with confidence 0, iff no read passes the rules; otherwise it is the cleaned text of a passing read, satisfies every validation rule, no passing read is more confident, and no earlier candidate is as confident |
| `Backend.BestBeatsPassing` | vision-pro/src/x.py:188-190 | the most confident candidate is at least as confident as every read that passes the rules |
| `Backend.ProcessPlateBoxes` | vision-pro/src/x.py:294-329 | the plate loop keeps `AcceptedPlates` (OCR of the enhanced region, the raw region only as a fallback, text non-empty, detection confidence above 0.6) and logs each kept plate with confidence min(detection, OCR) |
| `Backend.AcceptedPlates` | vision-pro/src/x.py:294-322 | no more plates than boxes, each with non-empty text and a detection confidence above 0.6 |
| `Backend.LogDetections` | vision-pro/src/x.py:324-329 | logging the kept plates only appends: the old table is a prefix and at most one row per plate is added |
| `Backend.LogDetectionsSnoc` | vision-pro/src/x.py:324-329 | logging one more plate is one more `update_excel` call with confidence min(detection, OCR), the camera URL as location, "Unknown" vehicle type and "Automatic" |
| `Backend.AcceptedPlatesSound` | vision-pro/src/x.py:305-322 | every kept plate has a valid non-empty text and a detection confidence above 0.6 |
| `Backend.AcceptedPlatesAppend` | vision-pro/src/x.py:294-322 | keeping plates distributes over concatenation of the boxes, so kept plates are in detection order |
| `Backend.AcceptedPlatesSingle` | vision-pro/src/x.py:305-309 | one box is kept iff its reading has text and its detection confidence is above 0.6; the raw region's reading is used only when the enhanced region gave no text |
| `Backend.PlateTexts` | vision-pro/src/x.py:347 | the response's `plates` list has one text per kept plate, in the same order |
| `Backend.CountVehicles` | vision-pro/src/x.py:332-338 | the count map's keys are only car, truck, bus and motorcycle; each value is the number of boxes with that label; every vehicle label that occurs is a key |
| `Backend.AnalyzeFrame` | vision-pro/src/x.py:284-351 | the success response lists the kept plates' texts in box order and the vehicle counts, and the table has every kept plate logged |
| `Backend.LastSighting` | vision-pro/src/x.py:224-226 | finds the last row with the plate, or shows that no row has it |
| `Backend.UpdateExcel` | vision-pro/src/x.py:221-237 | the table is unchanged iff the plate was last written at most 10 s ago; otherwise one row is appended, holding the plate (or "Unknown") and the time in whole seconds |
| `Backend.UpdateExcelAppends` | vision-pro/src/x.py:221-237 | exactly one row is appended at the end iff no row has the plate or its last row is more than 10 s older than now; otherwise the table is unchanged; an empty plate, location or vehicle type is stored as "Unknown" |
| `Backend.UpdateExcelRepeatIsNoOp` | vision-pro/src/x.py:221-229 | writing the same non-empty plate again at the same moment leaves the table as the first write left it |
| `Backend.FilterByPlateExact` | vision-pro/src/x.py:408-410 | the plate filter keeps exactly the rows whose plate contains the search text, case-insensitively |
| `Backend.FilterByPlate` | vision-pro/src/x.py:408-410 | no more rows than the table, each matching the search text case-insensitively |
| `Backend.FilterByPlateAppend` | vision-pro/src/x.py:408-410 | filtering distributes over concatenation, so kept rows stay in table order |
| `Backend.Matching` | vision-pro/src/x.py:408-410 | an absent or empty plate keeps the whole table; a non-empty one keeps only matching rows |
| `Backend.Paginate` | vision-pro/src/x.py:412-418 | a page never has more than `limit` rows |
| `Backend.PaginateWindow` | vision-pro/src/x.py:412-418 | the page is empty iff it starts at or past the end; otherwise it holds min(limit, total - start) rows taken from `(page-1)*limit` on |
| `Backend.RowOnItsPage` | vision-pro/src/x.py:412-418 | row i appears on page i / limit + 1, at position i mod limit |
| `Backend.SearchNumberPlate` | vision-pro/src/x.py:366-449 | a missing database file gives the "Database file not found" error; an empty table gives success with no data and total 0; a page has at most `limit` rows and echoes `page` and `limit` |
| `Backend.SearchAnswer` | vision-pro/src/x.py:408-441 | on an existing table, `total` is the number of rows passing the filter and `data` is the requested page of them; an absent or empty plate keeps every row |
| `Text.Lower` | vision-pro/src/Events.jsx:59 | lowercasing keeps the length, maps each character to its lowercase (A-Z shift by 32, everything else is kept) and leaves no upper-case letter |
| `Text.ContainsEmpty` | vision-pro/src/Events.jsx:59-60 | every string contains "" |
| `Text.Compare` | vision-pro/src/Events.jsx:68-70 | the comparison is 0 iff the strings are equal, and non-positive iff the first does not sort after the second |
| `Text.CompareFlip` | vision-pro/src/Events.jsx:68-70 | swapping the two strings negates the comparison |
| `Text.LexLeTotal` | vision-pro/src/Events.jsx:68-70 | any two strings are ordered one way or the other |
| `Text.LexLeAntisymmetric` | vision-pro/src/Events.jsx:68-70 | strings ordered both ways are equal |
| `Text.LexLeTransitive` | vision-pro/src/Events.jsx:68-70 | the order is transitive |
| `Text.LexLeReflexive` | vision-pro/src/Events.jsx:68-70 | every string is ordered with itself |
| `Events.FilterRecordsExact` | vision-pro/src/Events.jsx:57-61 | the filter keeps exactly the records whose lowercased plate contains the lowercased plate filter and whose timestamp contains the date filter; records missing either field are dropped |
| `Events.FilterRecords` | vision-pro/src/Events.jsx:57-61 | no more records than fetched, each passing both filters |
| `Events.FilterRecordsAppend` | vision-pro/src/Events.jsx:57-61 | filtering distributes over concatenation, so kept records stay in their order |
| `Events.EmptyFiltersKeepComplete` | vision-pro/src/Events.jsx:15-18 | with the initial empty filters, a record passes iff it has both a plate and a timestamp |
| `Events.ComparatorFlip` | vision-pro/src/Events.jsx:62-71 | the sort comparator is antisymmetric |
| `Events.InsertFacts` | vision-pro/src/Events.jsx:62-71 | inserting one record adds exactly that record and keeps an ordered list ordered |
| `Events.SortRecords` | vision-pro/src/Events.jsx:62-71 | the sort returns a permutation of its input in comparator order |
| `Events.NoFieldKeepsOrder` | vision-pro/src/Events.jsx:63 | with no sort field the comparator is 0 and the sort keeps the original order |
| `Events.DisplayedAreFiltered` | vision-pro/src/Events.jsx:56-72 | the output is a permutation of exactly the records that pass the filter |
| `Events.FilteredAndSorted` | vision-pro/src/Events.jsx:56-72 | no more records are displayed than fetched, and each passes the filters |
| `Events.DisplayedAreSorted` | vision-pro/src/Events.jsx:65-70 | with 'asc', consecutive output keys are non-decreasing; with 'desc' they are non-increasing; a missing value counts as '' |
| `Events.UnsortedDisplayKeepsOrder` | vision-pro/src/Events.jsx:63 | with no sort field the output is the filtered records in their original order |
| `Events.ClickHeader` | vision-pro/src/Events.jsx:145-155 | a header click sorts by that column and flips the direction, even when switching columns |
| `Events.ClickTwiceRestoresDirection` | vision-pro/src/Events.jsx:145-155 | two clicks restore the original direction, whatever the columns |

## Left out

- Rendering, routing and styling: the cards, tables and badges; `App.jsx`, `Dashboard.jsx`, `Services.jsx`, `SideBar.jsx`, `TopNav.jsx`, `index.jsx` and `vite.config.js`. These are presentation only.
- The 2 s overlay timer that shows the processed frame (vision-pro/src/Livecam.jsx:242-250). It is display state only.
- The manual Detect button's `disabled` condition (vision-pro/src/Livecam.jsx:305). It only gates the UI. The model's detect methods can be called in any state that satisfies the class invariant `Valid()`.
- The argument wiring at vision-pro/src/Livecam.jsx:270. It passes `null` or an undefined identifier as the error setter. `ChangeCameraUrl` uses the channel's real error setter instead.
- Network I/O. Each request is an `Attempt` value taken from `fetch`. The request URL, the 10 s timeout, and the Express proxy in `server.js` are not modelled. `axios` fetching and the XLSX export in `Events.jsx` are left out too.
- Timers and concurrency. Intervals are explicit tick calls, and a backoff is counted in milliseconds rather than waited. React state batching, stale closures and interleaving of the two async handlers are not modelled: each invocation runs as one sequential step.
- LiveCam.LiveCamView.DetectPlates: requires at least three answers in `fetch`, one per possible attempt. This bounds the environment, not the caller. `DetectObjects`, `TickPlates`, `TickObjects`, `DetectPlatesSpec` and `DetectObjectsSpec` carry the same requirement.
- LiveCam.ValidateCameraUrl: weaker than the WHATWG URL parser behind `new URL`. It accepts any string that starts with a scheme followed by ':'. It does not strip surrounding spaces, does not remove the tabs and newlines that WHATWG parsing deletes from inside a URL (so "ht\ttp://x" is rejected here and accepted by `new URL`), and does not check the host that special schemes need.
- Text.Compare: `localeCompare` is modelled as lexicographic order on code points, not a locale collation.
- Text.Lower: `toLowerCase` and pandas `case=False` are modelled on ASCII only.
- Backend.CleanText: Python's Unicode `isalnum`, `isspace` and `isdigit` are modelled on ASCII only. Other characters count as neither alphanumeric nor space.
- Backend.FilterByPlate: pandas `str.contains` treats the search text as a regular expression. The model treats it as a literal substring.
- Events.SortRecords: stability for records with equal keys under an active sort field is not proved. Only the no-field case is (`NoFieldKeepsOrder`).
- Backend.UpdateExcelAppends: a row's timestamp is kept as whole seconds, not as the formatted `%Y-%m-%d %H:%M:%S` text. The clock is the real parameter `now`, read once per frame instead of once per call.
- Backend.GetOcrText: a missing or empty image is modelled by an empty result list. The exception handler that returns ("", 0.0) is not modelled.
- Backend.AnalyzeFrame: only the success path is modelled. The error responses for an empty URL, a camera that cannot be opened and a failed capture are left out, because their message text depends on the web framework's exception formatting.
- OpenCV preprocessing, drawing, JPEG and base64 encoding, YOLO and EasyOCR inference, and device setup. These are external libraries. Boxes, labels and OCR results are inputs instead.
- Backend.SearchNumberPlate: requires `page >= 1` and `limit >= 1`. The query parameters are declared with `ge=1` (vision-pro/src/x.py:369-370), so the web framework rejects smaller values before the handler runs. The generic exception handler that returns `str(e)` is not modelled.
- Spreadsheet reading and writing, `fillna`, backup files, logging and `NumpyEncoder`. The table is a sequence of complete rows.
- `toFixed(1)` rounding of the success rate. Rates, confidences and times are reals.
- `vision-pro/src/main.py`. It is a thin inference wrapper and is not part of this model.
