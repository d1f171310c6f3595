/** The research client of research_assistant/client.py: `research` searches,
    fetches the top pages with a certificate retry, and asks the server for
    its summarising prompt; `research_and_summarize` sends that prompt to the
    text-generation model, switches to the default model once, and builds a
    report locally when no model answers. */
module ResearchClient {
  import opened Python
  import opened Text
  import opened Oracle
  import opened Retry
  import Envelope
  import Payload
  import Server

  // ---------------------------------------------------------------------
  // Fetching the top pages

  /** The `fetch_url` call of `research`. */
  function FetchCall(url: Value, insecure: bool): Call
  {
    Tool("fetch_url", map["url" := url, "max_chars" := Int(8000), "insecure" := Bool(insecure)])
  }

  /** A page that was kept: the 1-based index of its search result, that
      result's url, and the decoded page. */
  datatype Kept = Kept(rank: int, url: Value, page: map<string, Value>)

  /** `{"rank": i + 1, "url": url, **page}`: keys of the page itself win. */
  function Record(k: Kept): (r: Value)
    ensures r.Dict? && r.entries.Keys == {"rank", "url"} + k.page.Keys
    ensures "rank" !in k.page ==> r.entries["rank"] == Int(k.rank)
    ensures "url" !in k.page ==> r.entries["url"] == k.url
    ensures forall key :: key in k.page ==> r.entries[key] == k.page[key]
  {
    Dict(map["rank" := Int(k.rank), "url" := k.url] + k.page)
  }

  /** How many results the loop visits: `min(5, len(results))`. */
  function Visited(results: seq<Value>): nat
  {
    if |results| < 5 then |results| else 5
  }

  /** One url: the fetch with its certificate retry, then the page decoder;
      a failed fetch or a page that is not a dictionary is skipped. */
  function FetchPage(rt: Runtime, w: World, url: Value, insecure: bool, rank: int): (s: Step<seq<Kept>>)
    ensures var a := Attempt(w, FetchCall(url, insecure), FetchCall(url, true), CertificateMessage);
      && s.world == a.world
      && (|s.value| == 1 <==> a.value.Answered? && Payload.ResearchPage(rt, a.value.value).Dict?)
      && (|s.value| == 1 ==> s.value[0] == Kept(rank, url, Payload.ResearchPage(rt, a.value.value).entries))
    ensures |s.value| <= 1
  {
    var a := Attempt(w, FetchCall(url, insecure), FetchCall(url, true), CertificateMessage);
    match a.value
    case Failed(_) => Step([], a.world)
    case Answered(page) =>
      var parsed := Payload.ResearchPage(rt, page);
      if parsed.Dict? then Step([Kept(rank, url, parsed.entries)], a.world) else Step([], a.world)
  }

  /** The loop from index `i` on: `r.get("url")` raises on a result that is
      not a dictionary, a falsy url is skipped. */
  function Visit(rt: Runtime, w: World, results: seq<Value>, i: nat, insecure: bool): (s: Step<Outcome<seq<Kept>>>)
    requires i <= Visited(results)
    ensures w.trace <= s.world.trace && s.world.replies == w.replies
    ensures var added := s.world.trace[|w.trace|..];
      && ToolCalls(added, "fetch_url") <= 2 * (Visited(results) - i)
      && ToolCalls(added, "search_web") == 0
      && Generations(added) == 0
    decreases Visited(results) - i
  {
    if i == Visited(results) then
      assert w.trace[|w.trace|..] == [];
      Step(Done([]), w)
    else
      match Get(results[i], "url", Null)
      case Raised(e) =>
        assert w.trace[|w.trace|..] == [];
        Step(Raised(e), w)
      case Done(url) =>
        if !Truthy(url) then Visit(rt, w, results, i + 1, insecure)
        else
          var one := FetchPage(rt, w, url, insecure, i + 1);
          var rest := Visit(rt, one.world, results, i + 1, insecure);
          FetchPageCalls(rt, w, url, insecure, i + 1);
          CountsSplit(w.trace, one.world.trace, rest.world.trace, "fetch_url");
          CountsSplit(w.trace, one.world.trace, rest.world.trace, "search_web");
          match rest.value
          case Raised(e) => Step(Raised(e), rest.world)
          case Done(pages) => Step(Done(one.value + pages), rest.world)
  }


  /** The loop completes exactly when every visited result is a dictionary. */
  lemma {:induction false} VisitCompletes(rt: Runtime, w: World, results: seq<Value>, i: nat, insecure: bool)
    requires i <= Visited(results)
    ensures Visit(rt, w, results, i, insecure).value.Done? <==> forall j :: i <= j < Visited(results) ==> results[j].Dict?
    decreases Visited(results) - i
  {
    if i < Visited(results) && results[i].Dict? {
      var url := DictGet(results[i].entries, "url", Null);
      var next := if Truthy(url) then FetchPage(rt, w, url, insecure, i + 1).world else w;
      assert Visit(rt, w, results, i, insecure).value.Done? == Visit(rt, next, results, i + 1, insecure).value.Done?;
      VisitCompletes(rt, next, results, i + 1, insecure);
      assert (forall j :: i <= j < Visited(results) ==> results[j].Dict?)
          == (forall j :: i + 1 <= j < Visited(results) ==> results[j].Dict?);
    }
  }

  /** Kept `url` and `rank` belong together: the rank is the 1-based index of
      the result whose non-empty url was fetched, whatever pages were skipped
      before, and ranks strictly increase. */
  predicate RankedFrom(results: seq<Value>, i: nat, kept: seq<Kept>)
  {
    && (forall j :: 0 <= j < |kept| ==> KeptFrom(results, i, kept[j]))
    && (forall j, l :: 0 <= j < l < |kept| ==> kept[j].rank < kept[l].rank)
  }

  /** A kept page past index `i` names, by its rank, the visited result whose
      truthy url it was fetched from. */
  predicate KeptFrom(results: seq<Value>, i: nat, k: Kept)
  {
    && i < k.rank <= Visited(results)
    && results[k.rank - 1].Dict?
    && k.url == DictGet(results[k.rank - 1].entries, "url", Null)
    && Truthy(k.url)
  }

  lemma {:induction false} VisitRanks(rt: Runtime, w: World, results: seq<Value>, i: nat, insecure: bool)
    requires i <= Visited(results)
    requires Visit(rt, w, results, i, insecure).value.Done?
    ensures RankedFrom(results, i, Visit(rt, w, results, i, insecure).value.value)
    decreases Visited(results) - i
  {
    if i < Visited(results) {
      var url := DictGet(results[i].entries, "url", Null);
      if !Truthy(url) {
        VisitRanks(rt, w, results, i + 1, insecure);
        RankedCons(results, i, [], Visit(rt, w, results, i + 1, insecure).value.value);
        assert [] + Visit(rt, w, results, i + 1, insecure).value.value == Visit(rt, w, results, i + 1, insecure).value.value;
      } else {
        var one := FetchPage(rt, w, url, insecure, i + 1);
        VisitRanks(rt, one.world, results, i + 1, insecure);
        var pages := Visit(rt, one.world, results, i + 1, insecure).value.value;
        assert Visit(rt, w, results, i, insecure).value.value == one.value + pages;
        RankedCons(results, i, one.value, pages);
      }
    }
  }

  /** A page kept at index `i` goes in front of those kept after it. */
  lemma RankedCons(results: seq<Value>, i: nat, head: seq<Kept>, rest: seq<Kept>)
    requires i < Visited(results) && results[i].Dict?
    requires |head| <= 1
    requires |head| == 1 ==>
               head[0].rank == i + 1 && head[0].url == DictGet(results[i].entries, "url", Null) && Truthy(head[0].url)
    requires RankedFrom(results, i + 1, rest)
    ensures RankedFrom(results, i, head + rest)
  {
    var all := head + rest;
    forall j | 0 <= j < |all|
      ensures KeptFrom(results, i, all[j])
    {
      if j < |head| { assert all[j] == head[j]; } else { assert all[j] == rest[j - |head|]; }
    }
    forall j, l | 0 <= j < l < |all|
      ensures all[j].rank < all[l].rank
    {
      if j < |head| {
        assert all[j] == head[0] && all[l] == rest[l - |head|];
      } else {
        assert all[j] == rest[j - |head|] && all[l] == rest[l - |head|];
      }
    }
  }

  /** One page costs one `fetch_url` call, two when the certificate retry
      fires, and nothing else. */
  lemma FetchPageCalls(rt: Runtime, w: World, url: Value, insecure: bool, rank: int)
    ensures var s := FetchPage(rt, w, url, insecure, rank);
      var a := s.world.trace[|w.trace|..];
      && w.trace <= s.world.trace
      && ToolCalls(a, "fetch_url") <= 2 && ToolCalls(a, "search_web") == 0 && Generations(a) == 0
  {
    var s := FetchPage(rt, w, url, insecure, rank);
    var a := s.world.trace[|w.trace|..];
    var first, second := FetchCall(url, insecure), FetchCall(url, true);
    assert [first][1..] == [] && [second][1..] == [];
    if Retries(w, CertificateMessage) {
      assert a == [first] + [second];
      CountsAppend([first], [second], "fetch_url");
      CountsAppend([first], [second], "search_web");
    } else {
      assert a == [first];
    }
  }

  /** A certificate failure reported in the message is retried with
      verification off, any other failure is not. */
  lemma FetchRetryTrigger(rt: Runtime, w: World, url: Value, insecure: bool, rank: int)
    ensures var s := FetchPage(rt, w, url, insecure, rank);
      && (Retries(w, CertificateMessage) ==> s.world.trace == w.trace + [FetchCall(url, insecure), FetchCall(url, true)])
      && (!Retries(w, CertificateMessage) ==> s.world.trace == w.trace + [FetchCall(url, insecure)])
  {
  }

  // ---------------------------------------------------------------------
  // research

  /** What `research` returns: the prompt, the results, the page records. */
  datatype Findings = Findings(prompt: Value, results: seq<Value>, pages: seq<Value>)

  /** The client reads back the server's template text unchanged, so the
      topic and the findings reach the model verbatim. */
  lemma PromptReachesModel(rt: Runtime, topic: string, findingsJson: string, listed: bool)
    ensures var p := Server.ResearchPrompt(topic, findingsJson);
      && Envelope.PromptText(rt, Envelope.PromptResult(p, listed)) == Done(Str(p))
      && Contains(p, topic) && Contains(p, findingsJson)
  {
  }

  function Pages(kept: seq<Kept>): (r: seq<Value>)
    ensures |r| == |kept|
    ensures forall j :: 0 <= j < |kept| ==> r[j] == Record(kept[j])
  {
    seq(|kept|, j requires 0 <= j < |kept| => Record(kept[j]))
  }

  /** The `search_web` call that opens `research`. */
  function SearchCall(topic: string, maxResults: int): Call
  {
    Tool("search_web", map["query" := Str(topic), "max_results" := Int(maxResults)])
  }

  /** The `get_prompt("research_summarize", …)` call, carrying the topic and
      the findings serialised as `{"results": …, "pages": …}`. */
  function SummarizeCall(rt: Runtime, topic: string, results: seq<Value>, pages: seq<Value>): Call
  {
    var findings := rt.dumps(Dict(map["results" := List(results), "pages" := List(pages)]));
    Prompt("research_summarize", map["topic" := Str(topic), "findings_json" := Str(findings)])
  }

  function Research(rt: Runtime, w: World, topic: string, maxResults: int, insecure: bool): (s: Step<Outcome<Findings>>)
    ensures w.trace <= s.world.trace && |s.world.trace| > |w.trace|
    ensures s.world.replies == w.replies
    ensures s.world.trace[|w.trace|] == SearchCall(topic, maxResults)
    ensures s.value.Done? ==>
              var f := s.value.value;
              && |w.remote| > 0 && w.remote[0].Answered?
              && Payload.ResearchResults(rt, w.remote[0].value) == Done(f.results)
              && |f.pages| <= Visited(f.results)
    ensures s.value.Done? ==>
              var f := s.value.value;
              var searched := World(w.replies, w.remote[1..], w.trace + [SearchCall(topic, maxResults)]);
              var v := Visit(rt, searched, f.results, 0, insecure);
              && v.value.Done?
              && f.pages == Pages(v.value.value)
              && RankedFrom(f.results, 0, v.value.value)
              && s.world.trace == v.world.trace + [SummarizeCall(rt, topic, f.results, f.pages)]
              && |v.world.remote| > 0 && v.world.remote[0].Answered?
              && Envelope.PromptText(rt, v.world.remote[0].value) == Done(f.prompt)
  {
    var search := Remotely(w, SearchCall(topic, maxResults));
    match search.value
    case Failed(f) => Step(Raised(RemoteFailed(f.message)), search.world)
    case Answered(env) =>
      match Payload.ResearchResults(rt, env)
      case Raised(e) => Step(Raised(e), search.world)
      case Done(results) =>
        var v := Visit(rt, search.world, results, 0, insecure);
        match v.value
        case Raised(e) => Step(Raised(e), v.world)
        case Done(kept) =>
          VisitRanks(rt, search.world, results, 0, insecure);
          assert |kept| <= Visited(results) by {
            RanksBound(kept, Visited(results));
          }
          var pages := Pages(kept);
          var tpl := Remotely(v.world, SummarizeCall(rt, topic, results, pages));
          match tpl.value
          case Failed(f) => Step(Raised(RemoteFailed(f.message)), tpl.world)
          case Answered(t) =>
            match Envelope.PromptText(rt, t)
            case Raised(e) => Step(Raised(e), tpl.world)
            case Done(prompt) => Step(Done(Findings(prompt, results, pages)), tpl.world)
  }

  /** Strictly increasing ranks in 1..n leave room for at most n pages. */
  lemma {:induction false} RanksBound(kept: seq<Kept>, n: nat)
    requires forall j :: 0 <= j < |kept| ==> 0 < kept[j].rank <= n
    requires forall j, l :: 0 <= j < l < |kept| ==> kept[j].rank < kept[l].rank
    ensures |kept| <= n
    decreases |kept|
  {
    if |kept| > 0 {
      var last := kept[|kept| - 1].rank;
      var init := kept[..|kept| - 1];
      forall j | 0 <= j < |init|
        ensures 0 < init[j].rank <= last - 1
      {
        assert init[j] == kept[j];
      }
      RanksBound(init, last - 1);
    }
  }

  // ---------------------------------------------------------------------
  // research_and_summarize

  const ReportNote := "_Note: Gemini summarization was unavailable (e.g., quota). This is a locally constructed summary from search results and page previews._"

  function Overview(topic: string): string
  {
    "This brief summarizes public information related to '" + topic
    + "'. It aggregates top search results and quick page extracts as a snapshot."
  }

  /** A key finding: title, else snippet, else url; listed when non-empty. */
  function FindingLine(rt: Runtime, r: map<string, Value>): (line: Option<string>)
    ensures line.Some? <==>
              Truthy(DictGet(r, "title", Null)) || Truthy(DictGet(r, "snippet", Null)) || Truthy(DictGet(r, "url", Str("")))
    ensures Truthy(DictGet(r, "title", Null)) ==>
              line == Some("- " + ToStr(rt, DictGet(r, "title", Null)) + " (" + ToStr(rt, DictGet(r, "url", Str(""))) + ")")
    ensures !Truthy(DictGet(r, "title", Null)) && Truthy(DictGet(r, "snippet", Null)) ==>
              line == Some("- " + ToStr(rt, DictGet(r, "snippet", Null)) + " (" + ToStr(rt, DictGet(r, "url", Str(""))) + ")")
    ensures !Truthy(DictGet(r, "title", Null)) && !Truthy(DictGet(r, "snippet", Null)) && line.Some? ==>
              var url := ToStr(rt, DictGet(r, "url", Str("")));
              line.value == "- " + url + " (" + url + ")"
  {
    var title := Or(Or(DictGet(r, "title", Null), DictGet(r, "snippet", Null)), DictGet(r, "url", Str("")));
    if Truthy(title) then Some("- " + ToStr(rt, title) + " (" + ToStr(rt, DictGet(r, "url", Str(""))) + ")") else None
  }

  /** A source: the url, listed when non-empty. */
  function SourceLine(rt: Runtime, r: map<string, Value>): (line: Option<string>)
    ensures line.Some? <==> Truthy(DictGet(r, "url", Str("")))
    ensures line.Some? ==> line.value == "- " + ToStr(rt, DictGet(r, "url", Str("")))
  {
    var src := DictGet(r, "url", Str(""));
    if Truthy(src) then Some("- " + ToStr(rt, src)) else None
  }

  /** `text.strip()[:500]` */
  function Preview(text: string): (r: string)
    ensures |r| <= 500 && r <= Strip(text)
    ensures |Strip(text)| <= 500 ==> r == Strip(text)
  {
    Slice(Strip(text), 500)
  }

  /** A page preview; `.strip()` raises on a truthy text that is not a
      string. */
  function PreviewLine(rt: Runtime, p: map<string, Value>): (line: Outcome<Option<string>>)
    ensures line.Done? <==> Or(DictGet(p, "text", Null), Str("")).Str?
    ensures line.Done? ==> line.value.Some?
    ensures line.Done? ==>
              var title := DictGet(p, "title", Null);
              "- " + (if Truthy(title) then ToStr(rt, title) else "(no title)") + " \U{2014} " <= line.value.value
    ensures line.Done? ==>
              EndsWith(line.value.value, "\n  \n  " + Preview(Or(DictGet(p, "text", Null), Str("")).s) + "\U{2026}")
  {
    var text := Or(DictGet(p, "text", Null), Str(""));
    if !text.Str? then Raised(AttributeError)
    else
      var title := DictGet(p, "title", Null);
      var head := "- " + ToStr(rt, Or(title, Str("(no title)"))) + " \U{2014} ";
      assert head == "- " + (if Truthy(title) then ToStr(rt, title) else "(no title)") + " \U{2014} ";
      var url := ToStr(rt, DictGet(p, "url", Str("")));
      var tail := "\n  \n  " + Preview(text.s) + "\U{2026}";
      Framed(head, url, tail);
      Done(Some(head + url + tail))
  }

  /** The key findings, at most one line per result, in result order. */
  function KeyFindings(rt: Runtime, top: seq<Value>): (r: Outcome<seq<string>>)
    ensures r.Done? <==> forall i :: 0 <= i < |top| ==> top[i].Dict?
    ensures r.Done? ==> |r.value| <= |top|
  {
    EachDict(top, (e: map<string, Value>) => Done(FindingLine(rt, e)))
  }

  /** One preview line per page. */
  function PreviewLines(rt: Runtime, pages: seq<Value>): (r: Outcome<seq<string>>)
    ensures r.Done? <==>
              forall i :: 0 <= i < |pages| ==> pages[i].Dict? && Or(DictGet(pages[i].entries, "text", Null), Str("")).Str?
    ensures r.Done? ==> |r.value| == |pages|
  {
    var line := (e: map<string, Value>) => PreviewLine(rt, e);
    assert forall i :: 0 <= i < |pages| && pages[i].Dict? ==>
             && (line(pages[i].entries).Done? <==> Or(DictGet(pages[i].entries, "text", Null), Str("")).Str?)
             && (line(pages[i].entries).Done? ==> line(pages[i].entries).value.Some?);
    EachDict(pages, line)
  }

  /** The sources: exactly the results with a non-empty url, none when no
      result has one. */
  function SourceLines(rt: Runtime, top: seq<Value>): (r: Outcome<seq<string>>)
    ensures r.Done? <==> forall i :: 0 <= i < |top| ==> top[i].Dict?
    ensures r.Done? ==> |r.value| <= |top|
    ensures r.Done? ==> (r.value == [] <==> forall i :: 0 <= i < |top| ==> !Truthy(DictGet(top[i].entries, "url", Str(""))))
  {
    EachDict(top, (e: map<string, Value>) => Done(SourceLine(rt, e)))
  }

  function ReportLines(topic: string, findings: seq<string>, previews: seq<string>, sources: seq<string>): (r: seq<string>)
    ensures |r| == 12 + |findings| + |previews| + |sources|
    ensures r[0] == "# Research Brief: " + topic && r[|r| - 1] == ReportNote
  {
    var head := ["# Research Brief: " + topic, "", "## Overview", Overview(topic), "", "## Key Findings (titles)"];
    var body := findings + ["", "## Extracted Page Previews"] + previews + ["", "## Sources"] + sources;
    var r := head + body + ["", ReportNote];
    assert r[0] == head[0] && r[|r| - 1] == ReportNote;
    r
  }

  /** The locally built report over `results[:max_results]` and the pages:
      it raises only where a loop calls `.get` or `.strip` on the wrong
      kind of value. */
  function LocalReport(rt: Runtime, topic: string, results: seq<Value>, pages: seq<Value>, maxResults: int): (r: Outcome<string>)
    ensures r.Done? <==> KeyFindings(rt, Slice(results, maxResults)).Done? && PreviewLines(rt, pages).Done?
    ensures r.Done? ==>
              r.value == Join("\n", ReportLines(topic, KeyFindings(rt, Slice(results, maxResults)).value,
                                                PreviewLines(rt, pages).value,
                                                SourceLines(rt, Slice(results, maxResults)).value))
    ensures r.Done? ==> "# Research Brief: " + topic <= r.value
  {
    var top := Slice(results, maxResults);
    match KeyFindings(rt, top)
    case Raised(e) => Raised(e)
    case Done(findings) =>
      match PreviewLines(rt, pages)
      case Raised(e) => Raised(e)
      case Done(previews) =>
        Done(Join("\n", ReportLines(topic, findings, previews, SourceLines(rt, top).value)))
  }

  /** The report: the preferred model's reply, else the default model's
      when it differs, else the local report.  The research calls consume
      no reply, so the first replies are the ones the models give. */
  function ResearchAndSummarize(rt: Runtime, w: World, topic: string, maxResults: int, insecure: bool,
                                env: Option<string>, arg: Option<string>): (s: Step<Outcome<string>>)
    ensures var data := Research(rt, w, topic, maxResults, insecure);
      data.value.Raised? ==> s == Step(Raised(data.value.error), data.world)
    ensures var data := Research(rt, w, topic, maxResults, insecure);
      data.value.Done? ==>
        var f := data.value.value;
        var p := ToStr(rt, f.prompt);
        var model := ChooseModel(env, arg);
        var r := w.replies;
        var first := |r| > 0 && r[0].Said?;
        var retried := !first && model != DefaultModel;
        var second := retried && |r| > 1 && r[1].Said?;
        && s.world.trace == data.world.trace + (if retried then [Generate(model, p), Generate(DefaultModel, p)] else [Generate(model, p)])
        && (first ==> s.value == Done(r[0].text))
        && (second ==> s.value == Done(r[1].text))
        && (!first && !second ==> s.value == LocalReport(rt, topic, f.results, f.pages, maxResults))
  {
    var data := Research(rt, w, topic, maxResults, insecure);
    match data.value
    case Raised(e) => Step(Raised(e), data.world)
    case Done(f) =>
      var gen := WithFallback(data.world, ChooseModel(env, arg), ToStr(rt, f.prompt));
      match gen.value
      case Some(report) => Step(Done(report), gen.world)
      case None => Step(LocalReport(rt, topic, f.results, f.pages, maxResults), gen.world)
  }

  /** With the default model preferred, one failed generation is enough for
      the local report; with another model, the default is asked first. */
  lemma LocalReportAfter(rt: Runtime, w: World, topic: string, maxResults: int, insecure: bool,
                         env: Option<string>, arg: Option<string>)
    requires Research(rt, w, topic, maxResults, insecure).value.Done?
    ensures var data := Research(rt, w, topic, maxResults, insecure);
      var f := data.value.value;
      var s := ResearchAndSummarize(rt, w, topic, maxResults, insecure, env, arg);
      var r := data.world.replies;
      var model := ChooseModel(env, arg);
      && (model == DefaultModel && !(|r| > 0 && r[0].Said?) ==>
            && s.value == LocalReport(rt, topic, f.results, f.pages, maxResults)
            && s.world.trace == data.world.trace + [Generate(DefaultModel, ToStr(rt, f.prompt))])
      && (model != DefaultModel && !(|r| > 0 && r[0].Said?) && !(|r| > 1 && r[1].Said?) ==>
            && s.value == LocalReport(rt, topic, f.results, f.pages, maxResults)
            && s.world.trace == data.world.trace + [Generate(model, ToStr(rt, f.prompt)), Generate(DefaultModel, ToStr(rt, f.prompt))])
  {
  }
}
