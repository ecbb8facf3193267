/** The background search of DorkRecon (`DorkSearchThread`): two backend adapters
    that turn a provider's answer into result records plus one progress message,
    and `run`, which picks the adapter by engine name and announces completion.

    The providers (`DDGS().text` and `googlesearch.search`) are parameters: each is a
    function of the query and the result limit whose value describes everything the
    adapter observes, including where it raises. Qt signals become the `emitted` log of
    the thread object, in emission order. */
module DorkSearch {
  import opened PyText

  datatype Option<T> = None | Some(value: T)

  /** A result record: both fields are always present. */
  datatype Record = Record(title: string, url: string)

  /** One step of walking over a provider's results: the next item, or the exception
      raised while producing or reading it (`str(e)`). Walking stops at the first `Raise`. */
  datatype Step<T> = Item(value: T) | Raise(error: string)

  /** A DuckDuckGo result as the provider hands it over: a dictionary of string fields. */
  type DdgResult = map<string, string>

  /** What `list(ddgs.text(query, max_results=...))` does: raise, or return the whole list
      at once. An element that cannot be read with `.get` is a `Raise` step carrying the
      message of the exception the read raises. */
  datatype DdgCall = DdgRaised(error: string) | DdgReturned(results: seq<Step<DdgResult>>)

  /** One result object yielded by `googlesearch.search`, with its `title` and `url`. */
  datatype SerpHit = SerpHit(title: string, url: string)

  /** What an adapter hands back: the records collected and the progress message emitted. */
  datatype Outcome = Outcome(records: seq<Record>, status: string)

  /** A signal emitted by the thread. */
  datatype Signal = SearchProgress(message: string) | SearchComplete(batch: seq<Record>)

  const DuckDuckGoEngine: string := "duckduckgo"
  const SerpApiEngine: string := "serpapi"
  const SerpKeyRequired: string := "SerpAPI requires an API key"
  const FoundPrefix: string := "\U{2705} Found "
  const FoundSuffix: string := " results"
  const DdgErrorPrefix: string := "\U{274C} DuckDuckGo Search Error: "
  const SerpErrorPrefix: string := "SerpAPI Search Error: "
  const SerpFoundPrefix: string := "Found "
  const TitleKey: string := "title"
  const HrefKey: string := "href"
  const NoTitle: string := "No Title"

  /** How many steps are taken before the first one that raises. */
  function Completed<T>(steps: seq<Step<T>>): (n: nat)
    ensures n <= |steps|
    ensures n < |steps| ==> steps[n].Raise?
  {
    if steps == [] || steps[0].Raise? then 0 else 1 + Completed(steps[1..])
  }

  /** Every step before the first raise yields an item. */
  lemma {:induction false} CompletedItems<T>(steps: seq<Step<T>>)
    ensures forall i :: 0 <= i < Completed(steps) ==> steps[i].Item?
  {
    if steps != [] && steps[0].Raise? {
    } else if steps != [] {
      CompletedItems(steps[1..]);
      assert forall i :: 1 <= i < Completed(steps) ==> steps[i] == steps[1..][i - 1];
    }
  }

  /** The record built from one DuckDuckGo dictionary: `result.get('title', 'No Title')`
      and `result.get('href', '')`. */
  function DdgRecord(result: DdgResult): Record {
    Record(if TitleKey in result then result[TitleKey] else NoTitle,
           if HrefKey in result then result[HrefKey] else "")
  }

  /** The record built from one googlesearch result: its `title` and `url`. */
  function SerpRecord(hit: SerpHit): Record {
    Record(hit.title, hit.url)
  }

  /** The records a `for` loop appends, one per item, until the first step that raises. */
  function Collected<T>(steps: seq<Step<T>>, toRecord: T -> Record): (r: seq<Record>)
    ensures |r| == Completed(steps)
  {
    if steps == [] || steps[0].Raise? then []
    else [toRecord(steps[0].value)] + Collected(steps[1..], toRecord)
  }

  /** The records collected are those of the completed items, one per item, in order. */
  lemma {:induction false} CollectedPointwise<T>(steps: seq<Step<T>>, toRecord: T -> Record)
    ensures forall i :: 0 <= i < Completed(steps) ==>
      steps[i].Item? && Collected(steps, toRecord)[i] == toRecord(steps[i].value)
  {
    CompletedItems(steps);
    if steps != [] && steps[0].Item? {
      CollectedPointwise(steps[1..], toRecord);
      assert forall i :: 1 <= i < Completed(steps) ==>
        Collected(steps, toRecord)[i] == Collected(steps[1..], toRecord)[i - 1] && steps[i] == steps[1..][i - 1];
    }
  }

  /** Walking on from position `i`: an item there contributes its record next. */
  lemma CollectedStep<T>(steps: seq<Step<T>>, toRecord: T -> Record, i: nat, done: seq<Record>)
    requires i < |steps| && steps[i].Item?
    requires done + Collected(steps[i..], toRecord) == Collected(steps, toRecord)
    ensures (done + [toRecord(steps[i].value)]) + Collected(steps[i + 1..], toRecord) == Collected(steps, toRecord)
  {
    var rest := Collected(steps[i + 1..], toRecord);
    assert steps[i..][1..] == steps[i + 1..];
    assert Collected(steps[i..], toRecord) == [toRecord(steps[i].value)] + rest;
    assert (done + [toRecord(steps[i].value)]) + rest == done + ([toRecord(steps[i].value)] + rest);
  }

  /** Walking stops at a raise or at the end. */
  lemma CollectedStop<T>(steps: seq<Step<T>>, toRecord: T -> Record, i: nat)
    requires i <= |steps| && (i < |steps| ==> steps[i].Raise?)
    ensures Collected(steps[i..], toRecord) == []
  {
    if i == |steps| { assert steps[i..] == []; }
  }

  /** Nothing is left to collect: the records so far are all of them. */
  lemma CollectedDone<T>(steps: seq<Step<T>>, toRecord: T -> Record, i: nat, done: seq<Record>)
    requires i <= |steps| && (i < |steps| ==> steps[i].Raise?)
    requires done + Collected(steps[i..], toRecord) == Collected(steps, toRecord)
    ensures done == Collected(steps, toRecord)
  {
    CollectedStop(steps, toRecord, i);
    assert done + [] == done;
  }

  /** The success message of the DuckDuckGo adapter for `n` records. */
  function FoundMessage(n: nat): string {
    FoundPrefix + DecimalString(n) + FoundSuffix
  }

  /** The success message of the SerpAPI adapter for `n` records (no glyph). */
  function SerpFoundMessage(n: nat): string {
    SerpFoundPrefix + DecimalString(n) + FoundSuffix
  }

  /** The record count a DuckDuckGo progress message announces, if it is a success message. */
  function ReportedCount(message: string): Option<nat> {
    if |message| > |FoundPrefix| + |FoundSuffix|
       && message[..|FoundPrefix|] == FoundPrefix
       && message[|message| - |FoundSuffix|..] == FoundSuffix
       && IsDigits(message[|FoundPrefix|..|message| - |FoundSuffix|])
    then Some(DecimalValue(message[|FoundPrefix|..|message| - |FoundSuffix|]))
    else None
  }

  /** `perform_duckduckgo_search` on values: the records and the progress message. */
  function DuckDuckGoOutcome(call: DdgCall): Outcome {
    match call
    case DdgRaised(e) => Outcome([], DdgErrorPrefix + e)
    case DdgReturned(steps) => DdgWalkOutcome(steps)
  }

  /** The loop over the list `ddgs.text` returned, and the message after it. */
  function DdgWalkOutcome(steps: seq<Step<DdgResult>>): Outcome {
    var records := Collected(steps, DdgRecord);
    if |records| < |steps| then Outcome(records, DdgErrorPrefix + steps[|records|].error)
    else Outcome(records, FoundMessage(|records|))
  }

  /** Python's `not api_key` for an optional string. */
  predicate IsFalsy(apiKey: Option<string>) {
    apiKey.None? || apiKey.value == ""
  }

  /** `perform_serpapi_search` on values. */
  function SerpApiOutcome(apiKey: Option<string>, steps: seq<Step<SerpHit>>): Outcome {
    if IsFalsy(apiKey) then Outcome([], SerpKeyRequired)
    else
      var records := Collected(steps, SerpRecord);
      if |records| < |steps| then Outcome(records, SerpErrorPrefix + steps[|records|].error)
      else Outcome(records, SerpFoundMessage(|records|))
  }

  /** The adapter `run` selects for an engine name: 'serpapi' selects SerpAPI, any
      other name DuckDuckGo. */
  function Dispatch(engine: string, apiKey: Option<string>, ddg: DdgCall, serp: seq<Step<SerpHit>>): Outcome {
    if engine == SerpApiEngine then SerpApiOutcome(apiKey, serp) else DuckDuckGoOutcome(ddg)
  }

  /** The signals one `run` emits: the adapter's progress message, then completion. */
  function RunSignals(engine: string, apiKey: Option<string>, ddg: DdgCall, serp: seq<Step<SerpHit>>): seq<Signal> {
    var o := Dispatch(engine, apiKey, ddg, serp);
    [SearchProgress(o.status), SearchComplete(o.records)]
  }

  /** The batches announced by the completion signals of a log, in order. */
  function Completions(signals: seq<Signal>): seq<seq<Record>> {
    if signals == [] then []
    else (if signals[0].SearchComplete? then [signals[0].batch] else []) + Completions(signals[1..])
  }

  /** The messages of the progress signals of a log, in order. */
  function ProgressMessages(signals: seq<Signal>): seq<string> {
    if signals == [] then []
    else (if signals[0].SearchProgress? then [signals[0].message] else []) + ProgressMessages(signals[1..])
  }

  /** When every DuckDuckGo result is a readable dictionary, the adapter returns one record
      per result, in provider order, with the 'No Title' / '' defaults for missing keys. */
  lemma DuckDuckGoNormalizes(steps: seq<Step<DdgResult>>)
    requires forall i :: 0 <= i < |steps| ==> steps[i].Item?
    ensures var o := DuckDuckGoOutcome(DdgReturned(steps));
      |o.records| == |steps| &&
      (forall i :: 0 <= i < |steps| ==>
        o.records[i].title == (if TitleKey in steps[i].value then steps[i].value[TitleKey] else NoTitle) &&
        o.records[i].url == (if HrefKey in steps[i].value then steps[i].value[HrefKey] else "")) &&
      ReportedCount(o.status) == Some(|steps|)
  {
    CompletedAll(steps);
    CollectedPointwise(steps, DdgRecord);
    FoundMessageReportsCount(|steps|);
  }

  /** A walk over steps that never raise completes. */
  lemma {:induction false} CompletedAll<T>(steps: seq<Step<T>>)
    requires forall i :: 0 <= i < |steps| ==> steps[i].Item?
    ensures Completed(steps) == |steps|
  {
    if steps != [] {
      assert forall i :: 0 <= i < |steps| - 1 ==> steps[1..][i] == steps[i + 1];
      CompletedAll(steps[1..]);
    }
  }

  /** The success message announces exactly the number it was built from. */
  lemma FoundMessageReportsCount(n: nat)
    ensures ReportedCount(FoundMessage(n)) == Some(n)
  {
    var m := FoundMessage(n);
    var d := DecimalString(n);
    assert m[..|FoundPrefix|] == FoundPrefix;
    assert m[|m| - |FoundSuffix|..] == FoundSuffix;
    assert m[|FoundPrefix|..|m| - |FoundSuffix|] == d;
    DecimalRoundTrip(n);
  }

  /** A DuckDuckGo progress message announces a count exactly when the search did not
      fail, and then it announces the number of records returned; a failure message starts
      with the cross mark and carries the exception text, and the records returned are
      the ones appended before the failure ([] when the provider call itself raised). */
  lemma DuckDuckGoSoftFails(call: DdgCall)
    ensures var o := DuckDuckGoOutcome(call);
      var failed := call.DdgRaised? || Completed(call.results) < |call.results|;
      (ReportedCount(o.status) == if failed then None else Some(|o.records|)) &&
      (failed <==> StartsWith(o.status, DdgErrorPrefix)) &&
      (call.DdgRaised? ==> o == Outcome([], DdgErrorPrefix + call.error)) &&
      (call.DdgReturned? ==> o.records == Collected(call.results, DdgRecord)) &&
      (call.DdgReturned? && failed ==>
        o.status == DdgErrorPrefix + call.results[Completed(call.results)].error)
  {
    var o := DuckDuckGoOutcome(call);
    var failed := call.DdgRaised? || Completed(call.results) < |call.results|;
    if failed {
      assert o.status[..|DdgErrorPrefix|] == DdgErrorPrefix;
      assert o.status[0] != FoundPrefix[0];
      assert ReportedCount(o.status) == None;
    } else {
      FoundMessageReportsCount(|o.records|);
      assert o.status[0] != DdgErrorPrefix[0];
    }
  }

  /** Without a key SerpAPI returns nothing and says so, whatever the provider would
      have answered; with a key, the records and the message follow the provider. */
  lemma SerpApiKeyGate(apiKey: Option<string>, steps: seq<Step<SerpHit>>, other: seq<Step<SerpHit>>)
    ensures IsFalsy(apiKey) ==>
      SerpApiOutcome(apiKey, steps) == SerpApiOutcome(apiKey, other) == Outcome([], SerpKeyRequired)
    ensures !IsFalsy(apiKey) ==>
      var o := SerpApiOutcome(apiKey, steps);
      o.records == Collected(steps, SerpRecord) &&
      (Completed(steps) == |steps| <==> o.status == SerpFoundMessage(|o.records|)) &&
      (Completed(steps) < |steps| ==> o.status == SerpErrorPrefix + steps[Completed(steps)].error)
  {
    if !IsFalsy(apiKey) {
      var o := SerpApiOutcome(apiKey, steps);
      if Completed(steps) < |steps| {
        assert o.status[0] == 'S' && SerpFoundMessage(|o.records|)[0] == 'F';
      }
    }
  }

  /** `run` emits exactly one completion, last, after exactly one progress message; the
      completion carries the selected adapter's records. 'serpapi' selects SerpAPI and
      every other engine name selects DuckDuckGo. */
  lemma RunCompletesOnce(engine: string, apiKey: Option<string>, ddg: DdgCall, serp: seq<Step<SerpHit>>)
    ensures var signals := RunSignals(engine, apiKey, ddg, serp);
      var o := if engine == SerpApiEngine then SerpApiOutcome(apiKey, serp) else DuckDuckGoOutcome(ddg);
      Completions(signals) == [o.records] &&
      ProgressMessages(signals) == [o.status] &&
      signals[|signals| - 1] == SearchComplete(o.records)
  {
    var signals := RunSignals(engine, apiKey, ddg, serp);
    assert signals[1..][1..] == [];
    assert Completions(signals[1..]) == [signals[1].batch] + Completions(signals[1..][1..]);
    assert ProgressMessages(signals[1..]) == ProgressMessages(signals[1..][1..]);
  }

  /** A `for` loop over provider results that appends one record per item: the records
      appended and the index of the step that raised (`|steps|` when none did). */
  method Collect<T>(steps: seq<Step<T>>, toRecord: T -> Record) returns (results: seq<Record>, i: nat)
    ensures results == Collected(steps, toRecord) && i == |results|
    ensures i <= |steps| && (i < |steps| ==> steps[i].Raise?)
  {
    results, i := [], 0;
    while i < |steps| && steps[i].Item?
      invariant i <= |steps|
      invariant |results| == i
      invariant results + Collected(steps[i..], toRecord) == Collected(steps, toRecord)
    {
      CollectedStep(steps, toRecord, i, results);
      results := results + [toRecord(steps[i].value)];
      i := i + 1;
    }
    CollectedDone(steps, toRecord, i, results);
  }

  /** The search thread: its request is fixed at construction; running it emits signals. */
  class DorkSearchThread {
    const query: string
    const maxResults: int
    const searchEngine: string
    const apiKey: Option<string>
    var emitted: seq<Signal>

    constructor (query: string, maxResults: int := 50, searchEngine: string := DuckDuckGoEngine,
                 apiKey: Option<string> := None)
      ensures this.query == query && this.maxResults == maxResults
      ensures this.searchEngine == searchEngine && this.apiKey == apiKey
      ensures emitted == []
    {
      this.query := query;
      this.maxResults := maxResults;
      this.searchEngine := searchEngine;
      this.apiKey := apiKey;
      emitted := [];
    }

    /** Query DuckDuckGo, append one record per result, emit one progress message. */
    method PerformDuckDuckGoSearch(ddgsText: (string, int) -> DdgCall) returns (results: seq<Record>)
      modifies this`emitted
      ensures var o := DuckDuckGoOutcome(ddgsText(query, maxResults));
        results == o.records && emitted == old(emitted) + [SearchProgress(o.status)]
    {
      var call := ddgsText(query, maxResults);
      if call.DdgRaised? {
        results := [];
        emitted := emitted + [SearchProgress(DdgErrorPrefix + call.error)];
        return;
      }
      var steps := call.results;
      var i;
      results, i := Collect(steps, DdgRecord);
      if i < |steps| {
        emitted := emitted + [SearchProgress(DdgErrorPrefix + steps[i].error)];
      } else {
        emitted := emitted + [SearchProgress(FoundMessage(|results|))];
      }
    }

    /** Query googlesearch if a key is set, append one record per yielded result, emit one
        progress message. */
    method PerformSerpApiSearch(search: (string, int) -> seq<Step<SerpHit>>) returns (results: seq<Record>)
      modifies this`emitted
      ensures var o := SerpApiOutcome(apiKey, search(query, maxResults));
        results == o.records && emitted == old(emitted) + [SearchProgress(o.status)]
    {
      if IsFalsy(apiKey) {
        results := [];
        emitted := emitted + [SearchProgress(SerpKeyRequired)];
        return;
      }
      var steps := search(query, maxResults);
      var i;
      results, i := Collect(steps, SerpRecord);
      if i < |steps| {
        emitted := emitted + [SearchProgress(SerpErrorPrefix + steps[i].error)];
      } else {
        emitted := emitted + [SearchProgress(SerpFoundMessage(|results|))];
      }
    }

    /** `run`: route to the adapter named by the engine, then emit completion once. */
    method Run(ddgsText: (string, int) -> DdgCall, search: (string, int) -> seq<Step<SerpHit>>)
      modifies this`emitted
      ensures emitted == old(emitted) +
        RunSignals(searchEngine, apiKey, ddgsText(query, maxResults), search(query, maxResults))
    {
      var results;
      if searchEngine == SerpApiEngine {
        results := PerformSerpApiSearch(search);
      } else {
        results := PerformDuckDuckGoSearch(ddgsText);
      }
      emitted := emitted + [SearchComplete(results)];
    }
  }
}
