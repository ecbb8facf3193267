/** The window of DorkRecon (`DorkReconApp`) reduced to its state: the widget values it
    reads, the current result batch, the search thread it started, the two text panes it
    appends to and the message boxes it shows. Dialog answers, the dork file's lines and
    file-write failures are parameters. */
module DorkRecon {
  import opened PyText
  import opened DorkSearch

  /** A message box, in the order shown: its kind, title and text. */
  datatype MessageBox =
    | Warning(title: string, text: string)
    | Critical(title: string, text: string)
    | Information(title: string, text: string)

  /** The answer of the 'Select Dork' dialog: the chosen text and whether OK was pressed. */
  datatype Choice = Choice(item: string, ok: bool)

  /** A JSON value, as far as the export needs one. */
  datatype JsonValue =
    | JString(text: string)
    | JArray(elements: seq<JsonValue>)
    | JObject(members: seq<(string, JsonValue)>)

  /** A file written by an export: the path and its content, as CSV rows of fields or as
      one JSON document. */
  datatype ExportFile =
    | CsvFile(path: string, rows: seq<seq<string>>)
    | JsonFile(path: string, document: JsonValue)

  /** What the Search button decides before any thread exists. */
  datatype SearchPlan =
    | RejectQuery
    | RequireApiKey
    | StartThread(query: string, maxResults: int, engine: string, apiKey: Option<string>)

  const InvalidQueryBox: MessageBox := Warning("Invalid Query", "Please enter a valid search query.")
  const ApiKeyBox: MessageBox := Warning("API Key Required", "Please enter a SerpAPI key.")
  const FileNotFoundBox: MessageBox := Critical("File Not Found", "dorks.txt was not found! Create the file first.")
  const NoDorksBox: MessageBox := Warning("No Dorks", "The dorks.txt file is empty!")
  const NoResultsBox: MessageBox := Warning("No Results", "No search results to export.")
  const ExportErrorTitle: string := "Export Error"
  const ExportErrorPrefix: string := "Failed to export results: "
  const ExportSuccessTitle: string := "Export Successful"
  const ExportSuccessPrefix: string := "Results exported to "
  const CommentMark: string := "#"
  const UrlKey: string := "url"
  const TitleLabel: string := "Title: "
  const UrlLabel: string := "\nURL: "
  const RecordSeparator: string := "\n---"
  const MinResults: int := 10
  const MaxResults: int := 200
  const DefaultResults: int := 50
  const CsvHeader: seq<string> := [TitleKey, UrlKey]

  // ---------------------------------------------------------------- dork file

  /** The test of the comprehension in `load_dorks_from_file`: the stripped line is not
      empty, and the line AS READ does not start with '#'. */
  predicate IsDorkLine(line: string) {
    Strip(line) != [] && !StartsWith(line, CommentMark)
  }

  /** `[line.strip() for line in f if line.strip() and not line.startswith('#')]`. */
  function FilterDorks(lines: seq<string>): (dorks: seq<string>)
    ensures |dorks| <= |lines|
  {
    if lines == [] then []
    else (if IsDorkLine(lines[0]) then [Strip(lines[0])] else []) + FilterDorks(lines[1..])
  }

  /** One line on its own: kept, stripped, exactly when it is not blank and its first raw
      character is not '#'. */
  lemma FilterDorksLine(line: string)
    ensures FilterDorks([line]) ==
      if !IsBlank(line) && !(|line| > 0 && line[0] == '#') then [Strip(line)] else []
  {
    StripShape(line);
    assert [line][1..] == [];
    assert StartsWith(line, CommentMark) <==> |line| > 0 && line[0] == '#' by {
      if |line| > 0 && line[0] == '#' { assert line[..1] == CommentMark; }
    }
  }

  /** The filter works line by line and keeps the order of the file. */
  lemma {:induction false} FilterDorksAppend(a: seq<string>, b: seq<string>)
    ensures FilterDorks(a + b) == FilterDorks(a) + FilterDorks(b)
  {
    if a == [] {
      assert a + b == b;
    } else {
      assert a + b == [a[0]] + (a[1..] + b);
      assert a == [a[0]] + a[1..];
      FilterDorksCons(a[0], a[1..] + b);
      FilterDorksCons(a[0], a[1..]);
      FilterDorksAppend(a[1..], b);
    }
  }

  /** The first line contributes its dork, if any, ahead of the rest. */
  lemma FilterDorksCons(line: string, rest: seq<string>)
    ensures FilterDorks([line] + rest) == FilterDorks([line]) + FilterDorks(rest)
  {
    assert ([line] + rest)[1..] == rest;
    assert [line][1..] == [];
  }

  /** `line` is kept by the filter and offered as `d`. */
  predicate Offers(line: string, d: string) {
    IsDorkLine(line) && d == Strip(line)
  }

  /** Every offered dork comes from a line the filter keeps: `i` is one such line. */
  lemma {:induction false} FilterDorksSource(lines: seq<string>, d: string) returns (i: nat)
    requires d in FilterDorks(lines)
    ensures i < |lines| && Offers(lines[i], d)
  {
    if Offers(lines[0], d) {
      i := 0;
    } else {
      var j := FilterDorksSource(lines[1..], d);
      i := j + 1;
    }
  }

  /** Every line the filter keeps is offered, stripped. */
  lemma {:induction false} FilterDorksOffers(lines: seq<string>, i: nat)
    requires i < |lines| && IsDorkLine(lines[i])
    ensures Strip(lines[i]) in FilterDorks(lines)
  {
    if i > 0 {
      assert lines[1..][i - 1] == lines[i];
      FilterDorksOffers(lines[1..], i - 1);
    }
  }

  /** Every offered dork is a non-empty string that neither starts nor ends with
      whitespace. */
  lemma FilterDorksStripped(lines: seq<string>)
    ensures forall d :: d in FilterDorks(lines) ==> d != [] && !IsSpace(d[0]) && !IsSpace(d[|d| - 1])
  {
    forall d | d in FilterDorks(lines)
      ensures d != [] && !IsSpace(d[0]) && !IsSpace(d[|d| - 1])
    {
      var i := FilterDorksSource(lines, d);
      StripShape(lines[i]);
    }
  }

  /** Offered dorks are already stripped, so a dork chosen from the file and put in the
      query field is searched exactly as offered. */
  lemma FilterDorksStripIdempotent(lines: seq<string>)
    ensures forall d :: d in FilterDorks(lines) ==> Strip(d) == d
  {
    forall d | d in FilterDorks(lines) ensures Strip(d) == d {
      var i := FilterDorksSource(lines, d);
      StripIdempotent(lines[i]);
    }
  }

  /** The '#' test looks at the raw line, not the stripped one: a comment indented by
      whitespace is offered, '#' and all, with the indentation and line end stripped. */
  lemma IndentedCommentKept(indent: string, comment: string, end: string)
    requires indent != [] && IsBlank(indent) && IsBlank(end)
    requires comment != [] && comment[0] == '#' && !IsSpace(comment[|comment| - 1])
    ensures FilterDorks([indent + comment + end]) == [comment]
  {
    var line := indent + comment + end;
    assert line[0] == indent[0];
    StripExact(indent, comment, end);
    FilterDorksLine(line);
  }

  // ---------------------------------------------------------------- search request

  /** The decisions of `perform_dork_search`, from the query text, the SerpAPI checkbox,
      the key text and the spin box value. The DuckDuckGo checkbox is not an input. */
  function PlanSearch(queryText: string, serpapiChecked: bool, keyText: string, spinValue: int): SearchPlan {
    var query := Strip(queryText);
    if query == [] then RejectQuery
    else if serpapiChecked then
      (var key := Strip(keyText);
       if key == [] then RequireApiKey else StartThread(query, spinValue, SerpApiEngine, Some(key)))
    else StartThread(query, spinValue, DuckDuckGoEngine, None)
  }

  /** A blank query is rejected first; a SerpAPI request with a blank key is refused next;
      otherwise the thread gets the stripped query, the spin box value, 'serpapi' with the
      stripped (non-blank) key when the SerpAPI box is checked, and 'duckduckgo' with no
      key when it is not. */
  lemma PlanSearchDecides(queryText: string, serpapiChecked: bool, keyText: string, spinValue: int)
    ensures var p := PlanSearch(queryText, serpapiChecked, keyText, spinValue);
      (p.RejectQuery? <==> IsBlank(queryText)) &&
      (p.RequireApiKey? <==> !IsBlank(queryText) && serpapiChecked && IsBlank(keyText)) &&
      (p.StartThread? ==>
        p.query == Strip(queryText) && p.query != [] && p.maxResults == spinValue &&
        (p.engine == SerpApiEngine <==> serpapiChecked) &&
        (serpapiChecked ==> p.apiKey == Some(Strip(keyText)) && !IsFalsy(p.apiKey)) &&
        (!serpapiChecked ==> p.engine == DuckDuckGoEngine && p.apiKey == None))
  {
    StripShape(queryText);
    StripShape(keyText);
  }

  /** The `search_thread` field after a search started with this plan. */
  predicate ThreadMatches(t: DorkSearchThread, p: SearchPlan)
    reads t
  {
    p.StartThread? && t.query == p.query && t.maxResults == p.maxResults &&
    t.searchEngine == p.engine && t.apiKey == p.apiKey && t.emitted == []
  }

  // ---------------------------------------------------------------- export

  /** The data rows `writer.writerows(self.results)` writes, one per record, in order. */
  function RecordRows(batch: seq<Record>): (rows: seq<seq<string>>)
    ensures |rows| == |batch|
    ensures forall i :: 0 <= i < |batch| ==> rows[i] == [batch[i].title, batch[i].url]
  {
    if batch == [] then [] else [[batch[0].title, batch[0].url]] + RecordRows(batch[1..])
  }

  /** The rows of a CSV export: the header row `title,url`, then one row per record. */
  function CsvRows(batch: seq<Record>): (rows: seq<seq<string>>)
    ensures |rows| == |batch| + 1 && rows[0] == CsvHeader
    ensures rows[1..] == RecordRows(batch)
  {
    [CsvHeader] + RecordRows(batch)
  }

  /** Reading data rows of two fields back as records. */
  function ReadRecordRows(rows: seq<seq<string>>): Option<seq<Record>> {
    if rows == [] then Some([])
    else if |rows[0]| != 2 then None
    else match ReadRecordRows(rows[1..])
      case None => None
      case Some(rest) => Some([Record(rows[0][0], rows[0][1])] + rest)
  }

  /** Reading a CSV export back: the header row, then the records. */
  function ReadCsv(rows: seq<seq<string>>): Option<seq<Record>> {
    if rows != [] && rows[0] == CsvHeader then ReadRecordRows(rows[1..]) else None
  }

  lemma {:induction false} RecordRowsRoundTrip(batch: seq<Record>)
    ensures ReadRecordRows(RecordRows(batch)) == Some(batch)
  {
    if batch != [] {
      RecordRowsRoundTrip(batch[1..]);
      assert RecordRows(batch)[1..] == RecordRows(batch[1..]);
      assert [batch[0]] + batch[1..] == batch;
    }
  }

  /** Parsing the CSV written from a batch, header excluded, gives the batch back in order. */
  lemma CsvRoundTrip(batch: seq<Record>)
    ensures ReadCsv(CsvRows(batch)) == Some(batch)
  {
    RecordRowsRoundTrip(batch);
  }

  /** A record as `json.dump` writes a dict with keys 'title' and 'url'. */
  function RecordObject(r: Record): JsonValue {
    JObject([(TitleKey, JString(r.title)), (UrlKey, JString(r.url))])
  }

  /** The objects of the exported array, one per record, in order. */
  function RecordObjects(batch: seq<Record>): (objects: seq<JsonValue>)
    ensures |objects| == |batch|
    ensures forall i :: 0 <= i < |batch| ==> objects[i] == RecordObject(batch[i])
  {
    if batch == [] then [] else [RecordObject(batch[0])] + RecordObjects(batch[1..])
  }

  /** The document `json.dump(self.results, ...)` writes: an array of record objects. */
  function JsonDocument(batch: seq<Record>): JsonValue {
    JArray(RecordObjects(batch))
  }

  /** The value of the first member named `key`, as a JSON reader's dict lookup sees it. */
  function Lookup(members: seq<(string, JsonValue)>, key: string): Option<JsonValue> {
    if members == [] then None
    else if members[0].0 == key then Some(members[0].1)
    else Lookup(members[1..], key)
  }

  /** Reading one exported object back as a record. */
  function ReadRecord(v: JsonValue): Option<Record> {
    if !v.JObject? then None
    else match (Lookup(v.members, TitleKey), Lookup(v.members, UrlKey))
      case (Some(JString(t)), Some(JString(u))) => Some(Record(t, u))
      case _ => None
  }

  function ReadRecordList(elements: seq<JsonValue>): Option<seq<Record>> {
    if elements == [] then Some([])
    else match (ReadRecord(elements[0]), ReadRecordList(elements[1..]))
      case (Some(r), Some(rest)) => Some([r] + rest)
      case _ => None
  }

  /** Reading a JSON export back as a list of records. */
  function ReadJson(doc: JsonValue): Option<seq<Record>> {
    if doc.JArray? then ReadRecordList(doc.elements) else None
  }

  /** An exported object reads back as the record it was written from. */
  lemma ReadRecordObject(r: Record)
    ensures ReadRecord(RecordObject(r)) == Some(r)
  {
    var m := RecordObject(r).members;
    assert UrlKey != TitleKey by { assert UrlKey[0] != TitleKey[0]; }
    assert m[1..] == [(UrlKey, JString(r.url))];
    assert Lookup(m, UrlKey) == Lookup(m[1..], UrlKey);
  }

  lemma {:induction false} RecordObjectsRoundTrip(batch: seq<Record>)
    ensures ReadRecordList(RecordObjects(batch)) == Some(batch)
  {
    if batch != [] {
      RecordObjectsRoundTrip(batch[1..]);
      assert RecordObjects(batch)[1..] == RecordObjects(batch[1..]);
      ReadRecordObject(batch[0]);
      assert [batch[0]] + batch[1..] == batch;
    }
  }

  /** Reading the JSON written from a batch gives the batch back, same order and fields. */
  lemma JsonRoundTrip(batch: seq<Record>)
    ensures ReadJson(JsonDocument(batch)) == Some(batch)
  {
    RecordObjectsRoundTrip(batch);
  }

  // ---------------------------------------------------------------- results pane

  /** The paragraph `display_search_results` appends for one record. */
  function ResultLine(r: Record): string {
    TitleLabel + r.title + UrlLabel + r.url + RecordSeparator
  }

  /** The paragraphs appended for a batch, one per record, in order. */
  function ResultLines(batch: seq<Record>): (lines: seq<string>)
    ensures |lines| == |batch|
    ensures forall i :: 0 <= i < |batch| ==> lines[i] == ResultLine(batch[i])
  {
    if batch == [] then [] else ResultLines(batch[..|batch| - 1]) + [ResultLine(batch[|batch| - 1])]
  }

  /** Python's `max(lo, min(n, hi))`, which is what `QSpinBox.setValue` stores. */
  function Clamp(n: int, lo: int, hi: int): (r: int)
    requires lo <= hi
    ensures lo <= r <= hi
    ensures lo <= n <= hi ==> r == n
    ensures n < lo ==> r == lo
    ensures n > hi ==> r == hi
  {
    if n < lo then lo else if n > hi then hi else n
  }

  // ---------------------------------------------------------------- the window

  class DorkReconApp {
    var dorkInput: string
    var duckduckgoChecked: bool
    var serpapiChecked: bool
    var serpapiKeyInput: string
    var resultsSpin: int
    var results: seq<Record>
    var searchThread: DorkSearchThread?
    var statusText: seq<string>
    var resultsText: seq<string>
    var shown: seq<MessageBox>

    /** The spin box never holds a value outside its range. */
    ghost predicate Valid()
      reads this
    {
      MinResults <= resultsSpin <= MaxResults
    }

    /** The window as `__init__` leaves it. */
    constructor ()
      ensures Valid()
      ensures dorkInput == "" && duckduckgoChecked && !serpapiChecked && serpapiKeyInput == ""
      ensures resultsSpin == DefaultResults && results == [] && searchThread == null
      ensures statusText == [] && resultsText == [] && shown == []
    {
      dorkInput := "";
      duckduckgoChecked := true;
      serpapiChecked := false;
      serpapiKeyInput := "";
      resultsSpin := DefaultResults;
      results := [];
      searchThread := null;
      statusText := [];
      resultsText := [];
      shown := [];
    }

    /** The operator sets the results spin box; it keeps the value clamped to [10, 200]. */
    method SetResultsSpin(n: int)
      modifies this`resultsSpin
      ensures Valid()
      ensures resultsSpin == Clamp(n, MinResults, MaxResults)
    {
      resultsSpin := Clamp(n, MinResults, MaxResults);
    }

    /** 'Load Dorks': filter the file's lines and let the operator pick one. `lines` is
        None when opening the file raised `FileNotFoundError`; `getItem` is the dialog. */
    method LoadDorksFromFile(lines: Option<seq<string>>, getItem: seq<string> -> Choice)
      modifies this`dorkInput, this`shown
      ensures lines.None? ==>
        dorkInput == old(dorkInput) &&
        shown == old(shown) + [FileNotFoundBox]
      ensures lines.Some? && FilterDorks(lines.value) == [] ==>
        dorkInput == old(dorkInput) &&
        shown == old(shown) + [NoDorksBox]
      ensures lines.Some? && FilterDorks(lines.value) != [] ==>
        var c := getItem(FilterDorks(lines.value));
        shown == old(shown) &&
        dorkInput == if c.ok && c.item != "" then c.item else old(dorkInput)
    {
      if lines.None? {
        shown := shown + [FileNotFoundBox];
        return;
      }
      var dorks := FilterDorks(lines.value);
      if dorks == [] {
        shown := shown + [NoDorksBox];
        return;
      }
      var choice := getItem(dorks);
      if choice.ok && choice.item != "" {
        dorkInput := choice.item;
      }
    }

    /** 'Search': validate the query, clear the previous results, pick the engine and
        create the search thread. */
    method PerformDorkSearch()
      requires Valid()
      modifies this`results, this`resultsText, this`statusText, this`searchThread, this`shown
      ensures Valid()
      ensures var p := PlanSearch(old(dorkInput), old(serpapiChecked), old(serpapiKeyInput), old(resultsSpin));
        match p
        case RejectQuery =>
          results == old(results) && searchThread == old(searchThread) &&
          statusText == old(statusText) && resultsText == old(resultsText) &&
          shown == old(shown) + [InvalidQueryBox]
        case RequireApiKey =>
          results == [] && statusText == [] && resultsText == [] &&
          searchThread == old(searchThread) &&
          shown == old(shown) + [ApiKeyBox]
        case StartThread(_, _, _, _) =>
          results == [] && statusText == [] && resultsText == [] &&
          searchThread != null && fresh(searchThread) && ThreadMatches(searchThread, p) &&
          shown == old(shown)
    {
      var query := Strip(dorkInput);
      var maxResults := resultsSpin;
      var serpapi := serpapiChecked;
      var keyText := serpapiKeyInput;
      if query == [] {
        shown := shown + [InvalidQueryBox];
        return;
      }
      results := [];
      resultsText := [];
      statusText := [];
      var searchEngine, apiKey;
      if serpapi {
        var key := Strip(keyText);
        if key == [] {
          shown := shown + [ApiKeyBox];
          return;
        }
        searchEngine, apiKey := SerpApiEngine, Some(key);
      } else {
        searchEngine, apiKey := DuckDuckGoEngine, None;
      }
      searchThread := new DorkSearchThread(query, maxResults, searchEngine, apiKey);
    }

    /** The `search_progress` slot: append the message to the status pane. */
    method UpdateStatus(message: string)
      modifies this`statusText
      ensures statusText == old(statusText) + [message]
    {
      statusText := statusText + [message];
    }

    /** The `search_complete` slot: the batch replaces the current results, and one
        paragraph per record is appended to the results pane. */
    method DisplaySearchResults(batch: seq<Record>)
      modifies this`results, this`resultsText
      ensures results == batch
      ensures resultsText == old(resultsText) + ResultLines(batch)
    {
      results := batch;
      for i := 0 to |batch|
        invariant results == batch
        invariant resultsText == old(resultsText) + ResultLines(batch[..i])
      {
        assert batch[..i + 1][..i] == batch[..i];
        resultsText := resultsText + [ResultLine(batch[i])];
      }
      assert batch[..|batch|] == batch;
    }

    /** The started thread runs to its end and its signals reach their slots, in the
        order emitted. `ddgsText` and `search` stand for the two providers. */
    method RunSearchThread(ddgsText: (string, int) -> DdgCall, search: (string, int) -> seq<Step<SerpHit>>)
      requires searchThread != null
      modifies this`results, this`resultsText, this`statusText, searchThread`emitted
      ensures var t := searchThread;
        var o := Dispatch(t.searchEngine, t.apiKey, ddgsText(t.query, t.maxResults), search(t.query, t.maxResults));
        t.emitted == old(t.emitted) + RunSignals(t.searchEngine, t.apiKey,
                                                 ddgsText(t.query, t.maxResults), search(t.query, t.maxResults)) &&
        results == o.records &&
        statusText == old(statusText) + [o.status] &&
        resultsText == old(resultsText) + ResultLines(o.records)
    {
      var t := searchThread;
      var before := |t.emitted|;
      t.Run(ddgsText, search);
      var signals := t.emitted[before..];
      Deliver(signals[0]);
      Deliver(signals[1]);
    }

    /** A queued signal reaches the slot it is connected to. */
    method Deliver(signal: Signal)
      modifies this`results, this`resultsText, this`statusText
      ensures signal.SearchProgress? ==>
        statusText == old(statusText) + [signal.message] &&
        results == old(results) && resultsText == old(resultsText)
      ensures signal.SearchComplete? ==>
        statusText == old(statusText) &&
        results == signal.batch && resultsText == old(resultsText) + ResultLines(signal.batch)
    {
      match signal
      case SearchProgress(message) => UpdateStatus(message);
      case SearchComplete(batch) => DisplaySearchResults(batch);
    }

    /** 'Export CSV': refused while there are no results; otherwise, once a file name is
        chosen (`filename` is "" when the dialog is cancelled), write the header and one
        row per record. `writeError` is the exception opening or writing the file raised. */
    method ExportToCsv(filename: string, writeError: Option<string>) returns (written: Option<ExportFile>)
      modifies this`shown
      ensures results == [] ==>
        written == None && shown == old(shown) + [NoResultsBox]
      ensures results != [] && filename == "" ==> written == None && shown == old(shown)
      ensures results != [] && filename != "" && writeError.Some? ==>
        written == None &&
        shown == old(shown) + [Critical(ExportErrorTitle, ExportErrorPrefix + writeError.value)]
      ensures results != [] && filename != "" && writeError.None? ==>
        written == Some(CsvFile(filename, CsvRows(results))) &&
        shown == old(shown) + [Information(ExportSuccessTitle, ExportSuccessPrefix + filename)]
    {
      written := None;
      if results == [] {
        shown := shown + [NoResultsBox];
        return;
      }
      if filename != "" {
        if writeError.Some? {
          shown := shown + [Critical(ExportErrorTitle, ExportErrorPrefix + writeError.value)];
        } else {
          written := Some(CsvFile(filename, CsvRows(results)));
          shown := shown + [Information(ExportSuccessTitle, ExportSuccessPrefix + filename)];
        }
      }
    }

    /** 'Export JSON': the same gating as the CSV export; the file holds the array of
        record objects. */
    method ExportToJson(filename: string, writeError: Option<string>) returns (written: Option<ExportFile>)
      modifies this`shown
      ensures results == [] ==>
        written == None && shown == old(shown) + [NoResultsBox]
      ensures results != [] && filename == "" ==> written == None && shown == old(shown)
      ensures results != [] && filename != "" && writeError.Some? ==>
        written == None &&
        shown == old(shown) + [Critical(ExportErrorTitle, ExportErrorPrefix + writeError.value)]
      ensures results != [] && filename != "" && writeError.None? ==>
        written == Some(JsonFile(filename, JsonDocument(results))) &&
        shown == old(shown) + [Information(ExportSuccessTitle, ExportSuccessPrefix + filename)]
    {
      written := None;
      if results == [] {
        shown := shown + [NoResultsBox];
        return;
      }
      if filename != "" {
        if writeError.Some? {
          shown := shown + [Critical(ExportErrorTitle, ExportErrorPrefix + writeError.value)];
        } else {
          written := Some(JsonFile(filename, JsonDocument(results)));
          shown := shown + [Information(ExportSuccessTitle, ExportSuccessPrefix + filename)];
        }
      }
    }
  }
}
