# DorkRecon, modelled in Dafny

DorkRecon is a small desktop tool. It runs a search-engine "dork" query on DuckDuckGo or
through the googlesearch package (the "SerpAPI" option), shows the result records and
exports them as CSV or JSON. This project models the logic of `dork_recon.py`. The Qt
widgets are reduced to the values they hold.

- `py_text.dfy` (module `PyText`) covers the Python string behaviour the program relies
  on: `str.isspace`, `str.strip` with no argument, `str.startswith`, and `str(n)` of a
  count. It proves the shape of `strip`, that `strip` is idempotent, and that `str(n)`
  reads back as `n`.
- `search_thread.dfy` (module `DorkSearch`) covers `DorkSearchThread`, the class. The two
  providers are parameters: functions of the query and the result limit. Each returns a
  value describing what the adapter observes: a list of result dictionaries, or a lazily
  yielded sequence of hits, where any step may raise. Raising is a `Raise` step, so the
  adapters' `try`/`except` is modelled as a value. The signals a thread emits are
  appended to its `emitted` log. Both adapters share the loop that appends one record per
  result until the first exception (`Collect`). That loop is proved against the
  specification function `Collected`.
- `dork_recon_app.dfy` (module `DorkRecon`) covers `DorkReconApp`, the class. The model
  contains:
  - the dork-file filter;
  - the decisions of the Search button, as a pure `PlanSearch`, and the method that
    applies them to the window state;
  - the two slots the thread's signals reach;
  - CSV and JSON export, with their gating and the content written, proved to round-trip.

  Message boxes are appended to the window's `shown` log. Dialog answers, the dork file's
  lines and file-write failures are parameters.

One behaviour of the dork filter deserves mention. The comprehension at
`dork_recon.py:153` tests `line.startswith('#')` on the raw line and `line.strip()` for
emptiness. A comment indented by whitespace is therefore offered as a dork, '#' and all
(`IndentedCommentKept`). The model keeps this behaviour.

Behaviour of the code worth noting, which the model keeps:
- SerpAPI progress messages carry no check or cross glyph, only "Found N results" and
  "SerpAPI Search Error: ...".
- A failed adapter returns the records it appended before the exception, not always an
  empty list. With DuckDuckGo the list is materialised first, so records survive only when
  reading a later result raises. With googlesearch, hits yielded before the exception
  survive. `search` is called without `advanced=True`, and with the googlesearch-python
  package that yields plain URL strings, so `result.url` raises at the first hit and the
  SerpAPI path then gives no records and the error message. The model covers this case as
  a `Raise` at the first step; it does not fix the provider's shape.
- Any dork file in which no line passes the filter (all comments or blank lines, or no
  lines at all) gives the 'No Dorks' warning box, whose text calls the file empty.
- The DuckDuckGo checkbox is stored but never read; the engine depends only on the SerpAPI
  box.
- The SerpAPI adapter's key check is Python truthiness of `api_key` (None or "").

## Model

| member | source | states |
|---|---|---|
| PyText.IsSpace | dork_recon.py:153 | the characters Python's `str.isspace()` accepts, which `strip()` removes; used through StripShape and StripExact |
| PyText.StripLeading | dork_recon.py:153 | `str.lstrip()`; its properties are stated by StripLeadingShape and StripLeadingSkipsBlank |
| PyText.StripTrailing | dork_recon.py:153 | `str.rstrip()`; its properties are stated by StripTrailingShape and StripTrailingSkipsBlank |
| PyText.Strip | dork_recon.py:153 | `str.strip()` as used at 153, 167 and 181; characterised by StripShape and StripExact, idempotent by StripIdempotent |
| PyText.StartsWith | dork_recon.py:153 | `str.startswith`; for the comment mark it is the raw first-character test stated by FilterDorksLine |
| PyText.StripLeadingShape | dork_recon.py:153 | `lstrip` removes exactly a whitespace prefix; what remains is a suffix of the input that is empty or starts with a non-space |
| PyText.StripTrailingShape | dork_recon.py:153 | `rstrip` removes exactly a whitespace suffix; what remains is a prefix that is empty or ends with a non-space |
| PyText.StripShape | dork_recon.py:153 | `s.strip()` is empty if and only if every character of `s` is whitespace; otherwise the result neither starts nor ends with whitespace |
| PyText.StripLeadingSkipsBlank | dork_recon.py:153 | whitespace in front of a string not starting with whitespace is exactly what `lstrip` removes |
| PyText.StripTrailingSkipsBlank | dork_recon.py:153 | whitespace behind a string not ending with whitespace is exactly what `rstrip` removes |
| PyText.StripExact | dork_recon.py:153 | whitespace around a core that has non-space ends strips to that core |
| PyText.StripIdempotent | dork_recon.py:153 | stripping an already stripped string changes nothing |
| PyText.DigitChar | dork_recon.py:48 | a digit below ten is rendered as the character '0'..'9' whose code is 48 plus the digit |
| PyText.DecimalString | dork_recon.py:48 | `str(n)` is a non-empty string of decimal digits without a leading zero (other than "0" itself) |
| PyText.DecimalRoundTrip | dork_recon.py:48 | reading back the decimal string of `n` gives `n` |
| DorkSearch.DdgRecord | dork_recon.py:44-47 | the record of one DuckDuckGo dict: 'title' or "No Title", 'href' or ""; stated per result by DuckDuckGoNormalizes |
| DorkSearch.SerpRecord | dork_recon.py:62-65 | the record of one googlesearch hit: its title and url; stated per hit through CollectedPointwise |
| DorkSearch.FoundMessage | dork_recon.py:48 | "✅ Found N results"; FoundMessageReportsCount proves it announces exactly N |
| DorkSearch.SerpFoundMessage | dork_recon.py:66 | "Found N results" without a glyph; SerpApiKeyGate proves it is the message exactly when nothing raised |
| DorkSearch.DuckDuckGoOutcome | dork_recon.py:38-51 | the records and message of the DuckDuckGo adapter; characterised by DuckDuckGoSoftFails and DuckDuckGoNormalizes, and implemented by PerformDuckDuckGoSearch |
| DorkSearch.DdgWalkOutcome | dork_recon.py:43-50 | the outcome once `ddgs.text` returned a list; characterised by DuckDuckGoSoftFails |
| DorkSearch.IsFalsy | dork_recon.py:55 | Python's `not api_key`: None or the empty string; used by SerpApiOutcome, SerpApiKeyGate and PlanSearchDecides |
| DorkSearch.SerpApiOutcome | dork_recon.py:53-69 | the records and message of the SerpAPI adapter; characterised by SerpApiKeyGate, and implemented by PerformSerpApiSearch |
| DorkSearch.Dispatch | dork_recon.py:71-75 | the adapter chosen by engine name; stated by RunCompletesOnce |
| DorkSearch.RunSignals | dork_recon.py:71-76 | the signals of one run; RunCompletesOnce proves one progress message, then exactly one completion, last |
| DorkSearch.Completed | dork_recon.py:43-47 | the number of results read before the first exception is at most the number of steps, and the step it stops at raises |
| DorkSearch.CompletedItems | dork_recon.py:61-65 | every step before the first exception yields a result |
| DorkSearch.CompletedAll | dork_recon.py:43-47 | a walk in which no step raises reads every result |
| DorkSearch.Collected | dork_recon.py:43-47 | the adapters' loops append exactly one record per result read before the first exception |
| DorkSearch.CollectedPointwise | dork_recon.py:43-47 | record `i` is built from result `i`, in provider order, for every result read |
| DorkSearch.CollectedStep | dork_recon.py:61-65 | a result read at position `i` contributes its record after those appended so far |
| DorkSearch.CollectedStop | dork_recon.py:61-65 | once a step raises, or the results run out, nothing more is appended |
| DorkSearch.CollectedDone | dork_recon.py:61-65 | when the loop stops, the records appended so far are all the records collected |
| DorkSearch.Collect | dork_recon.py:43-47 | the loop appends exactly the records `Collected` describes and stops at the index of the step that raised, or at the end |
| DorkSearch.DuckDuckGoNormalizes | dork_recon.py:38-48 | when every result is a readable dictionary, one record per result, in order, with title = 'title' or "No Title" and url = 'href' or "", and the message announces that count |
| DorkSearch.FoundMessageReportsCount | dork_recon.py:48 | the success message "✅ Found N results" announces exactly N |
| DorkSearch.DuckDuckGoSoftFails | dork_recon.py:38-51 | the message announces a count if and only if nothing raised, and then it is the number of records; it starts with "❌ DuckDuckGo Search Error: " if and only if something raised, followed by the exception text; a failed call returns no records; records read before a failure are kept |
| DorkSearch.SerpApiKeyGate | dork_recon.py:53-69 | without a key (None or "") nothing is returned and the message is "SerpAPI requires an API key", whatever the provider would answer; with a key, the records are those collected, and the message is "Found N results" if and only if nothing raised, otherwise the error text |
| DorkSearch.RunCompletesOnce | dork_recon.py:71-76 | a run emits exactly one progress message and exactly one completion, the completion last, carrying the records of the adapter the engine name selects ('serpapi' selects SerpAPI, any other name DuckDuckGo) |
| DorkSearch.DorkSearchThread.constructor | dork_recon.py:31-36 | the request fields are stored as given, with defaults 50, 'duckduckgo' and no key, and nothing has been emitted |
| DorkSearch.DorkSearchThread.PerformDuckDuckGoSearch | dork_recon.py:38-51 | returns the records of `DuckDuckGoOutcome` for the provider's answer and emits exactly its progress message |
| DorkSearch.DorkSearchThread.PerformSerpApiSearch | dork_recon.py:53-69 | returns the records of `SerpApiOutcome` and emits exactly its progress message; without a key the provider is not consulted |
| DorkSearch.DorkSearchThread.Run | dork_recon.py:71-76 | appends exactly the signals `RunSignals` describes for the thread's own request: progress, then completion |
| DorkRecon.IsDorkLine | dork_recon.py:153 | the comprehension's test on a raw line; FilterDorksLine states it as "not all whitespace and first character not '#'" |
| DorkRecon.FilterDorks | dork_recon.py:153 | the filter offers at most as many dorks as the file has lines |
| DorkRecon.FilterDorksLine | dork_recon.py:153 | a single line is offered, stripped, if and only if it is not all whitespace and its raw first character is not '#' |
| DorkRecon.FilterDorksAppend | dork_recon.py:153 | the filter works line by line and keeps the file's order: filtering a concatenation is concatenating the filtered parts |
| DorkRecon.FilterDorksCons | dork_recon.py:153 | the first line's dork, if any, comes ahead of those of the remaining lines |
| DorkRecon.FilterDorksSource | dork_recon.py:153 | every offered dork is the stripped form of a line that passes the test |
| DorkRecon.FilterDorksOffers | dork_recon.py:153 | every line that passes the test is offered, stripped |
| DorkRecon.FilterDorksStripped | dork_recon.py:153 | every offered dork is non-empty and neither starts nor ends with whitespace |
| DorkRecon.FilterDorksStripIdempotent | dork_recon.py:153 | every offered dork is its own `strip()` |
| DorkRecon.IndentedCommentKept | dork_recon.py:153 | a '#' comment indented by whitespace is offered, with its '#', because the comment test looks at the raw line |
| DorkRecon.PlanSearch | dork_recon.py:167-188 | the Search button's decisions on the query, the SerpAPI box, the key and the spin value; characterised by PlanSearchDecides, applied by PerformDorkSearch |
| DorkRecon.PlanSearchDecides | dork_recon.py:166-190 | a blank query is rejected, if and only if it is blank; a SerpAPI search with a blank key is refused, if and only if the query is not blank; otherwise the thread gets the stripped query, the spin value and 'serpapi' with the stripped non-empty key, or 'duckduckgo' with no key |
| DorkRecon.RecordRows | dork_recon.py:214 | one row per record, in order, holding its title and url |
| DorkRecon.CsvRows | dork_recon.py:212-214 | the file's rows are the header `title,url` followed by the record rows |
| DorkRecon.RecordRowsRoundTrip | dork_recon.py:214 | reading the record rows back gives the batch |
| DorkRecon.CsvRoundTrip | dork_recon.py:211-214 | reading a CSV export back, header skipped, gives the batch in order |
| DorkRecon.RecordObject | dork_recon.py:228 | one record as a JSON object with members 'title' and 'url'; reads back by ReadRecordObject |
| DorkRecon.JsonDocument | dork_recon.py:228 | the exported array of record objects; reads back as the batch by JsonRoundTrip |
| DorkRecon.RecordObjects | dork_recon.py:228 | one JSON object per record, in order, with members 'title' and 'url' |
| DorkRecon.ReadRecordObject | dork_recon.py:228 | one exported object reads back as its record |
| DorkRecon.RecordObjectsRoundTrip | dork_recon.py:228 | the exported array's elements read back as the batch |
| DorkRecon.JsonRoundTrip | dork_recon.py:227-228 | reading a JSON export back gives the batch, same order and field values |
| DorkRecon.ResultLine | dork_recon.py:201 | the paragraph "Title: t\nURL: u\n---" for one record; used pointwise by ResultLines |
| DorkRecon.ResultLines | dork_recon.py:200-201 | one paragraph per record, in order: "Title: t\nURL: u\n---" |
| DorkRecon.Clamp | dork_recon.py:124-125 | the stored spin value lies in [lo, hi]; a value in range is kept, and one outside is moved to the nearer bound |
| DorkRecon.DorkReconApp.Valid | dork_recon.py:124 | the spin box value lies in its range [10, 200]; established by the constructor and SetResultsSpin, kept by PerformDorkSearch |
| DorkRecon.DorkReconApp.constructor | dork_recon.py:79-125 | the window starts with no results, an empty query and key, DuckDuckGo checked, SerpAPI unchecked, and the spin box at 50 |
| DorkRecon.DorkReconApp.SetResultsSpin | dork_recon.py:123-125 | the spin box keeps the clamped value, so it stays within [10, 200] |
| DorkRecon.DorkReconApp.LoadDorksFromFile | dork_recon.py:149-164 | a missing file shows 'File Not Found'; a file with no dork shows 'No Dorks'; otherwise the dialog is offered the filtered dorks, and the query field takes the choice only if OK was pressed and the choice is not empty |
| DorkRecon.DorkReconApp.PerformDorkSearch | dork_recon.py:166-193 | a blank query shows 'Invalid Query' and changes nothing else; otherwise results and both panes are cleared before the key check; a blank SerpAPI key then shows 'API Key Required' and starts no thread; otherwise a fresh thread is created with the request `PlanSearch` decides; the spin range invariant is kept |
| DorkRecon.DorkReconApp.UpdateStatus | dork_recon.py:195-196 | the message is appended to the status pane |
| DorkRecon.DorkReconApp.DisplaySearchResults | dork_recon.py:198-201 | the batch replaces the results wholesale, and one paragraph per record is appended to the results pane, in order |
| DorkRecon.DorkReconApp.Deliver | dork_recon.py:191-192 | a progress signal reaches only the status pane; a completion signal reaches only the results and the results pane |
| DorkRecon.DorkReconApp.RunSearchThread | dork_recon.py:71-76 | after the started thread runs, the results are the selected adapter's records, the status pane gained its one message, and the results pane its paragraphs |
| DorkRecon.DorkReconApp.ExportToCsv | dork_recon.py:203-217 | no results: 'No Results' and no file; a cancelled dialog: nothing; a write failure: 'Export Error' with the exception text and no file; otherwise the file holds `CsvRows(results)` and 'Export Successful' names it |
| DorkRecon.DorkReconApp.ExportToJson | dork_recon.py:219-231 | the same gating; the file holds the array of record objects |

## Left out

- The Qt layout, the stylesheet and the widgets themselves are not modelled. Widget values are fields, and dialog answers are parameters.
- QThread scheduling and cross-thread signal delivery are not modelled. `RunSearchThread` runs a started thread to its end and delivers its two signals in emission order. The race between two searches running at once is not modelled, and neither is a fix for it.
- The network libraries are not modelled. `DDGS().text` and `googlesearch.search` are parameters, and their answers are values.
- CSV quoting and JSON text are not modelled. An export is the rows of fields, or the JSON value tree.
- Partial files left by a failed write are not modelled. A failed export is recorded as writing nothing.
- Logging is not modelled.
- The dork file's path and decoding are not modelled. The file's lines are a parameter, with `None` standing for `FileNotFoundError`. Other exceptions from `open`, such as a decoding error, are not modelled.
- DorkSearch.DdgRecord: DuckDuckGo results are dictionaries from strings to strings, so a present key with a non-string value is not modelled.
- DorkSearch.DorkSearchThread.PerformDuckDuckGoSearch and DorkSearch.DorkSearchThread.PerformSerpApiSearch: the result limit is passed to the provider, but the model does not bound the provider's answer by it.
- DorkRecon.DorkReconApp.PerformDorkSearch: `requires Valid()` stands for the spin box's own range [10, 200].
- DorkRecon.DorkReconApp.PerformDorkSearch: connecting the signals and `start()` are modelled by `RunSearchThread`.
- `main` and the application event loop are not modelled.
