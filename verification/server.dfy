/** The research MCP server (research_assistant/server.py): its two tools
    and its prompt template.  The DuckDuckGo provider and BeautifulSoup are
    inputs: the provider's hits, and the title and text extracted from a
    page's HTML. */
module Server {
  import opened Python
  import opened Text
  import opened Oracle
  import Envelope
  import Payload
  import Retry

  // ---------------------------------------------------------------------
  // search_web

  /** One provider hit renamed to the record the clients read. */
  function SearchRecord(hit: map<string, Value>): (r: Value)
    ensures r.Dict? && r.entries.Keys == {"title", "url", "snippet"}
    ensures r.entries["title"] == DictGet(hit, "title", Null)
    ensures r.entries["url"] == DictGet(hit, "href", Null)
    ensures r.entries["snippet"] == DictGet(hit, "body", Null)
  {
    Dict(map[
      "title" := DictGet(hit, "title", Null),
      "url" := DictGet(hit, "href", Null),
      "snippet" := DictGet(hit, "body", Null)])
  }

  /** One record per hit, in the provider's order. */
  function SearchRecords(hits: seq<map<string, Value>>): (r: seq<Value>)
    ensures |r| == |hits|
    ensures forall i :: 0 <= i < |hits| ==> r[i] == SearchRecord(hits[i])
  {
    if |hits| == 0 then [] else [SearchRecord(hits[0])] + SearchRecords(hits[1..])
  }

  /** The tool's return value: the records as JSON text. */
  function SearchWeb(rt: Runtime, hits: seq<map<string, Value>>): string
  {
    rt.dumps(List(SearchRecords(hits)))
  }

  // ---------------------------------------------------------------------
  // fetch_url: the page record

  /** What BeautifulSoup yields for a page: `soup.title.string` (None when
      there is no title or it has no single string) and `soup.get_text(" ")`
      after script, style and noscript are removed. */
  datatype Soup = Soup(title: string -> Option<string>, text: string -> string)

  datatype PageRecord = PageRecord(title: string, text: string, length: int)

  /** The stripped title, or "" when there is none. */
  function PageTitle(title: Option<string>): (r: string)
    ensures title.None? ==> r == ""
    ensures title.Some? ==> r == Strip(title.value)
    ensures |r| > 0 ==> !IsSpace(r[0]) && !IsSpace(r[|r| - 1])
  {
    if title.Some? && |title.value| > 0 then Strip(title.value) else ""
  }

  /** The normalised text cut to `maxChars`, and the length before cutting. */
  function BuildPage(title: Option<string>, extracted: string, maxChars: int): (p: PageRecord)
    ensures p.title == PageTitle(title)
    ensures p.length == |Normalize(extracted)|
    ensures p.text <= Normalize(extracted)
    ensures maxChars >= 0 ==> |p.text| == Min(maxChars, p.length)
    ensures |p.text| <= p.length
    ensures maxChars >= p.length ==> p.text == Normalize(extracted)
  {
    var text := Normalize(extracted);
    PageRecord(PageTitle(title), Slice(text, maxChars), |text|)
  }

  /** The record as the dictionary the tool serialises. */
  function PageValue(p: PageRecord): Value
  {
    Dict(map["title" := Str(p.title), "text" := Str(p.text), "length" := Int(p.length)])
  }

  /** The text field starts with a word and never holds two whitespace
      characters in a row; any whitespace in it is a single ' '. */
  lemma PageTextClean(title: Option<string>, extracted: string, maxChars: int)
    ensures IsNormalizedPrefix(BuildPage(title, extracted, maxChars).text)
  {
    NormalizeShape(extracted);
    NormalizedPrefix(Normalize(extracted), BuildPage(title, extracted, maxChars).text);
  }

  // ---------------------------------------------------------------------
  // fetch_url: the download with its SSL fallback

  /** The body of a scripted HTTP response. */
  function Body(rt: Runtime, v: Value): string
  {
    ToStr(rt, v)
  }

  /** GET with verification as asked; on `ssl.SSLError` exactly one more GET
      with verification off, whose failure propagates; any other error
      propagates at once.  The html is the body of the reply the last GET
      received. */
  function DownloadHtml(rt: Runtime, w: World, url: string, insecure: bool): (s: Step<Outcome<string>>)
    ensures s.world.replies == w.replies
    ensures !Retry.Retries(w, Retry.SslFault) ==> s.world.trace == w.trace + [Http(url, !insecure)]
    ensures Retry.Retries(w, Retry.SslFault) ==> s.world.trace == w.trace + [Http(url, !insecure), Http(url, false)]
    ensures var d := Retry.Delivered(w, Retry.SslFault);
      && (d.Answered? ==> s.value == Done(Body(rt, d.value)))
      && (d.Failed? ==> s.value == Raised(RemoteFailed(d.fault.message)))
  {
    var first := HttpGet(w, url, !insecure);
    match first.value
    case Answered(v) => Step(Done(Body(rt, v)), first.world)
    case Failed(f) =>
      if f.kind == SslError then
        var second := HttpGet(first.world, url, false);
        assert second.world.trace == w.trace + [Http(url, !insecure), Http(url, false)];
        match second.value
        case Answered(v) => Step(Done(Body(rt, v)), second.world)
        case Failed(g) => Step(Raised(RemoteFailed(g.message)), second.world)
      else
        Step(Raised(RemoteFailed(f.message)), first.world)
  }

  /** The download is the certificate retry whose trigger is the SSL
      exception class. */
  lemma DownloadIsSslRetry(rt: Runtime, w: World, url: string, insecure: bool)
    ensures var d := DownloadHtml(rt, w, url, insecure);
      var a := Retry.Attempt(w, Http(url, !insecure), Http(url, false), Retry.SslFault);
      && d.world == a.world
      && (d.value.Done? <==> a.value.Answered?)
      && (a.value.Answered? ==> d.value.value == Body(rt, a.value.value))
  {
  }

  /** The whole tool: download, extract, build the record.  The record is
      built from the reply the last GET received, and a failed download
      raises that reply's error. */
  function FetchUrl(rt: Runtime, soup: Soup, w: World, url: string, maxChars: int, insecure: bool): (s: Step<Outcome<PageRecord>>)
    ensures s.world.replies == w.replies
    ensures !Retry.Retries(w, Retry.SslFault) ==> s.world.trace == w.trace + [Http(url, !insecure)]
    ensures Retry.Retries(w, Retry.SslFault) ==> s.world.trace == w.trace + [Http(url, !insecure), Http(url, false)]
    ensures var d := Retry.Delivered(w, Retry.SslFault);
      && (s.value.Done? <==> d.Answered?)
      && (d.Failed? ==> s.value == Raised(RemoteFailed(d.fault.message)))
      && (d.Answered? ==>
            var html := Body(rt, d.value);
            && s.value.value == BuildPage(soup.title(html), soup.text(html), maxChars)
            && s.value.value.text <= Normalize(soup.text(html))
            && s.value.value.length == |Normalize(soup.text(html))|)
  {
    var d := DownloadHtml(rt, w, url, insecure);
    match d.value
    case Done(html) => Step(Done(BuildPage(soup.title(html), soup.text(html), maxChars)), d.world)
    case Raised(e) => Step(Raised(e), d.world)
  }

  // ---------------------------------------------------------------------
  // research_summarize prompt

  const PromptHead := "You are a precise AI research assistant focused on AI-related topics.\nSummarize the latest information for the topic below.\n\nTopic: "
  const PromptMiddle := "\n\nEvidence (JSON array of search results and page extracts):\n"
  const PromptTail := "\n\nInstructions:\n- Produce a concise, well-structured report.\n- Use headings, bullet points, and short paragraphs.\n- Include inline citations as [n] that map to the Sources list.\n- End with a Sources section with title and URL for each source.\n"

  /** The template with the topic and the findings inserted verbatim, the
      topic first. */
  function ResearchPrompt(topic: string, findingsJson: string): (r: string)
    ensures |r| == |PromptHead| + |topic| + |PromptMiddle| + |findingsJson| + |PromptTail|
    ensures OccursAt(r, topic, |PromptHead|)
    ensures OccursAt(r, findingsJson, |PromptHead| + |topic| + |PromptMiddle|)
    ensures Contains(r, topic) && Contains(r, findingsJson)
  {
    OccursTwice(PromptHead, topic, PromptMiddle, findingsJson, PromptTail);
    PromptHead + topic + PromptMiddle + findingsJson + PromptTail
  }

  // ---------------------------------------------------------------------
  // The clients read back what the server wrote

  /** A string-returning tool's result as the MCP client delivers it. */
  function TextResult(t: string): Value
  {
    Obj(map["content" := List([Envelope.TextItem(t)])])
  }

  /** Every accessor the clients try finds the text of a text result. */
  lemma TextResultReads(rt: Runtime, t: string)
    ensures Envelope.UnwrapResult(TextResult(t)) == Str(t)
    ensures Envelope.ExtractText(rt, TextResult(t)) == t
    ensures GetAttr(TextResult(t), "result") == Null
  {
    var env := TextResult(t);
    assert GetAttr(env, "content") == List([Envelope.TextItem(t)]);
  }

  predicate RoundTrips(rt: Runtime, v: Value)
  {
    rt.loads(rt.dumps(v)) == Some(v)
  }

  /** Every client variant recovers the server's search records. */
  lemma SearchRoundTrip(rt: Runtime, hits: seq<map<string, Value>>)
    requires RoundTrips(rt, List(SearchRecords(hits)))
    ensures Payload.SearchLlm(rt, TextResult(SearchWeb(rt, hits))) == List(SearchRecords(hits))
    ensures StrippedStartsWith(SearchWeb(rt, hits), {'['}) ==>
              && Payload.SearchSk(rt, TextResult(SearchWeb(rt, hits))) == List(SearchRecords(hits))
              && Payload.ResearchResults(rt, TextResult(SearchWeb(rt, hits))) == Done(SearchRecords(hits))
  {
    var t := SearchWeb(rt, hits);
    ListTextLlm(rt, t, SearchRecords(hits));
    if StrippedStartsWith(t, {'['}) {
      ListTextSk(rt, t, SearchRecords(hits));
      ListTextResearch(rt, t, SearchRecords(hits));
    }
  }

  /** JSON text of a list, as each client decodes it. */
  lemma ListTextLlm(rt: Runtime, t: string, items: seq<Value>)
    requires rt.loads(t) == Some(List(items))
    ensures Payload.SearchLlm(rt, TextResult(t)) == List(items)
  {
    TextResultReads(rt, t);
  }

  lemma ListTextSk(rt: Runtime, t: string, items: seq<Value>)
    requires rt.loads(t) == Some(List(items)) && StrippedStartsWith(t, {'['})
    ensures Payload.SearchSk(rt, TextResult(t)) == List(items)
  {
    TextResultReads(rt, t);
  }

  lemma ListTextResearch(rt: Runtime, t: string, items: seq<Value>)
    requires rt.loads(t) == Some(List(items)) && StrippedStartsWith(t, {'['})
    ensures Payload.ResearchResults(rt, TextResult(t)) == Done(items)
  {
    TextResultReads(rt, t);
    assert StrippedStartsWith(t, {'[', '{'});
  }

  /** Every client variant recovers the server's page record. */
  lemma PageRoundTrip(rt: Runtime, p: PageRecord)
    requires RoundTrips(rt, PageValue(p))
    ensures Payload.FetchLlm(rt, TextResult(rt.dumps(PageValue(p)))) == PageValue(p)
    ensures StrippedStartsWith(rt.dumps(PageValue(p)), {'{'}) ==>
              && Payload.FetchSk(rt, TextResult(rt.dumps(PageValue(p)))) == PageValue(p)
              && Payload.ResearchPage(rt, TextResult(rt.dumps(PageValue(p)))) == PageValue(p)
  {
    TextResultReads(rt, rt.dumps(PageValue(p)));
  }
}
