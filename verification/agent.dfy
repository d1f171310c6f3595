/** The planner-driven agent of research_assistant/llm_driven_client.py:
    one generation decides on an action, the reply is cleaned of code fences
    and parsed, and the agent dispatches to `search_web`, to `fetch_url`, or
    answers with the reply itself.  The model, the tool server and
    `json.loads` are scripted (see Oracle and Python.Runtime). */
module LlmAgent {
  import opened Python
  import opened Text
  import opened Oracle
  import Payload

  // ---------------------------------------------------------------------
  // Cleaning and parsing the planner's reply

  /** The characters `.strip("` \n")` removes. */
  predicate FenceJunk(c: char)
  {
    c == '`' || c == ' ' || c == '\n'
  }

  /** Every fence marker removed, then backticks, spaces and newlines
      trimmed from both ends. */
  function CleanDecision(d: string): (r: string)
    ensures |r| <= |d|
    ensures |r| > 0 ==> !FenceJunk(r[0]) && !FenceJunk(r[|r| - 1])
    ensures r == [] <==> AllDrop(RemoveFences(d), FenceJunk)
  {
    Trim(RemoveFences(d), FenceJunk)
  }

  lemma TrimShorter(s: string, drop: char -> bool)
    ensures |Trim(s, drop)| <= |s|
  {
  }

  /** A reply wrapped in a fenced block, tagged `json` in any case or not
      tagged, cleans to what the bare reply cleans to. */
  lemma CleanFenced(b: string, tag: string)
    requires tag == "" || IsJsonTag(tag)
    ensures CleanDecision("```" + tag + "\n" + b + "\n```") == CleanDecision(b)
  {
    var inner := "\n" + b + "\n```";
    var s := "```" + tag + "\n" + b + "\n```";
    assert s == "```" + tag + inner;
    calc {
      CleanDecision(s);
      Trim(RemoveFences(s), FenceJunk);
      { OpeningFence(tag, inner); FencedBody(b); }
      Trim("\n" + RemoveFences(b) + "\n", FenceJunk);
      { assert AllDrop("\n", FenceJunk); TrimPadding("\n", RemoveFences(b), "\n", FenceJunk); }
      Trim(RemoveFences(b), FenceJunk);
      CleanDecision(b);
    }
  }

  /** Between the markers, only the two newlines are kept around the
      cleaned reply. */
  lemma FencedBody(b: string)
    ensures RemoveFences("\n" + b + "\n```") == "\n" + RemoveFences(b) + "\n"
  {
    var inner := "\n" + b + "\n```";
    assert FenceLength(inner) == 0;
    assert inner[1..] == b + "\n```";
    RemoveFencesAppend(b, "\n```");
    ClosingFence();
  }

  /** An opening marker, tagged `json` or not, before a newline is removed
      whole. */
  lemma OpeningFence(tag: string, inner: string)
    requires tag == "" || IsJsonTag(tag)
    requires |inner| > 0 && inner[0] == '\n'
    ensures RemoveFences("```" + tag + inner) == RemoveFences(inner)
  {
    var s := "```" + tag + inner;
    assert TickRunAt(s, 0);
    if tag == "" {
      assert s[3] == '\n';
      assert s[3..] == inner;
    } else {
      assert s[3..7] == tag;
      assert s[7..] == inner;
    }
  }

  /** The closing newline and marker leave only the newline. */
  lemma ClosingFence()
    ensures RemoveFences("\n```") == "\n"
  {
    assert FenceLength("\n```") == 0;
    assert "\n```"[1..] == "```";
    assert FenceLength("```") == 3;
    assert "```"[3..] == [];
  }

  /** What the parsed reply asks for. */
  datatype Plan =
    | Unparsed                                 // not JSON
    | NotObject                                // JSON, but `action.get` raises
    | SearchWeb(action: map<string, Value>)
    | FetchUrl(action: map<string, Value>)
    | Reply                                    // any other object

  function Decide(rt: Runtime, decision: string): (p: Plan)
    ensures p.Unparsed? <==> rt.loads(CleanDecision(decision)).None?
    ensures p.NotObject? <==> rt.loads(CleanDecision(decision)).Some? && !rt.loads(CleanDecision(decision)).value.Dict?
    ensures (p.SearchWeb? || p.FetchUrl?) ==> Some(Dict(p.action)) == rt.loads(CleanDecision(decision))
    ensures p.SearchWeb? ==> DictGet(p.action, "action", Null) == Str("search_web")
    ensures p.FetchUrl? ==> DictGet(p.action, "action", Null) == Str("fetch_url")
    ensures p.Reply? ==> rt.loads(CleanDecision(decision)).Some? && rt.loads(CleanDecision(decision)).value.Dict?
    ensures p.Reply? ==> DictGet(rt.loads(CleanDecision(decision)).value.entries, "action", Null) !in {Str("search_web"), Str("fetch_url")}
  {
    match rt.loads(CleanDecision(decision))
    case None => Unparsed
    case Some(action) =>
      if !action.Dict? then NotObject
      else if DictGet(action.entries, "action", Null) == Str("search_web") then SearchWeb(action.entries)
      else if DictGet(action.entries, "action", Null) == Str("fetch_url") then FetchUrl(action.entries)
      else Reply
  }

  /** A fenced reply is understood exactly as the bare one. */
  lemma DecideIgnoresFences(rt: Runtime, b: string, tag: string)
    requires tag == "" || IsJsonTag(tag)
    ensures Decide(rt, "```" + tag + "\n" + b + "\n```") == Decide(rt, b)
  {
    CleanFenced(b, tag);
  }

  // ---------------------------------------------------------------------
  // The search_web branch

  const DirectPrompt := "Write a concise paragraph explaining the topic in simple terms: "
  const SearchPrompt := "Write a concise paragraph explaining the topic based on these search results:\n\n"
  const FetchPrompt := "Summarize this webpage into a clear paragraph:\n\n"

  /** A result is quoted when its title or its snippet is non-empty. */
  predicate HasSnippet(r: map<string, Value>)
  {
    Truthy(DictGet(r, "title", Str(""))) || Truthy(DictGet(r, "snippet", Str("")))
  }

  /** `f"{title}: {snippet}"` */
  function SnippetLine(rt: Runtime, r: map<string, Value>): string
  {
    ToStr(rt, DictGet(r, "title", Str(""))) + ": " + ToStr(rt, DictGet(r, "snippet", Str("")))
  }

  function Quote(rt: Runtime, r: map<string, Value>): Option<string>
  {
    if HasSnippet(r) then Some(SnippetLine(rt, r)) else None
  }

  /** The snippet lines of a list of results, at most one per result; `.get`
      raises on an entry that is not a dictionary. */
  function Snippets(rt: Runtime, results: seq<Value>): (r: Outcome<seq<string>>)
    ensures r.Done? <==> forall i :: 0 <= i < |results| ==> results[i].Dict?
    ensures r.Raised? ==> r.error == AttributeError
    ensures r.Done? ==> |r.value| <= |results|
    ensures r.Done? ==> (r.value == [] <==> forall i :: 0 <= i < |results| ==> !HasSnippet(results[i].entries))
  {
    var r := EachDict(results, (e: map<string, Value>) => Done(Quote(rt, e)));
    r
  }

  /** Lines come in result order: one more result adds its own line, if
      any, at the end. */
  lemma SnippetsAppend(rt: Runtime, results: seq<Value>, last: map<string, Value>)
    requires Snippets(rt, results).Done?
    ensures Snippets(rt, results + [Dict(last)]) == Done(Snippets(rt, results).value + OptionLines(Quote(rt, last)))
  {
    EachDictAppend(results, last, (e: map<string, Value>) => Done(Quote(rt, e)));
  }

  /** `for r in results`: a list is walked; an empty string or dictionary
      yields nothing, a non-empty one yields strings, whose `.get` raises;
      anything else is not iterable. */
  function SnippetSource(rt: Runtime, results: Value): (r: Outcome<seq<string>>)
    ensures results.List? ==> r == Snippets(rt, results.items)
    ensures results.Str? ==> (r.Done? <==> |results.s| == 0)
    ensures results.Dict? ==> (r.Done? <==> |results.entries| == 0)
    ensures r.Done? && !results.List? ==> r.value == []
  {
    match results
    case List(items) => Snippets(rt, items)
    case Str(s) => if |s| == 0 then Done([]) else Raised(AttributeError)
    case Dict(e) => if |e| == 0 then Done([]) else Raised(AttributeError)
    case _ => Raised(TypeError)
  }

  /** At most eight lines go into the summarising prompt. */
  function SummaryPrompt(lines: seq<string>): (p: string)
    ensures SearchPrompt <= p
    ensures |lines| > 0 ==> SearchPrompt + lines[0] <= p
    ensures forall i :: 0 <= i < Min(8, |lines|) ==> Contains(p, lines[i])
  {
    var quoted := lines[..Min(8, |lines|)];
    var p := SearchPrompt + Join("\n", quoted);
    forall i | 0 <= i < Min(8, |lines|)
      ensures Contains(p, lines[i])
    {
      assert quoted[i] == lines[i];
      JoinContains("\n", quoted, i);
      ContainsAfter(SearchPrompt, Join("\n", quoted), lines[i]);
    }
    p
  }

  /** Lines after the eighth never reach the model. */
  lemma SummaryPromptIgnoresTail(lines: seq<string>, more: seq<string>)
    requires |lines| >= 8
    ensures SummaryPrompt(lines + more) == SummaryPrompt(lines)
  {
    assert (lines + more)[..8] == lines[..8];
  }

  /** `search_web(**action["args"])` and the answer built from its results:
      a completed branch searched once and answered with the reply to the
      question asked over that search's results. */
  function SearchBranch(rt: Runtime, w: World, model: string, query: string, action: map<string, Value>): (s: Step<Outcome<string>>)
    ensures w.trace <= s.world.trace
    ensures |s.world.trace| <= |w.trace| + 2
    ensures ToolCalls(s.world.trace[|w.trace|..], "search_web") <= 1
    ensures ToolCalls(s.world.trace[|w.trace|..], "fetch_url") == 0
    ensures s.value.Done? ==>
              && |s.world.trace| == |w.trace| + 2
              && IsTool(s.world.trace[|w.trace|], "search_web")
              && |w.remote| > 0 && w.remote[0].Answered?
              && SearchQuestion(rt, w.remote[0].value, query).Done?
              && s.world.trace[|w.trace| + 1] == Generate(model, SearchQuestion(rt, w.remote[0].value, query).value)
              && |w.replies| > 0 && w.replies[0].Said? && s.value.value == w.replies[0].text
  {
    if "args" !in action then Step(Raised(KeyError), w)
    else
      match BindKwargs(action["args"], "query", "max_results", Int(5))
      case Raised(e) => Step(Raised(e), w)
      case Done(bound) =>
        var call := CallTool(w, "search_web", map["query" := bound.0, "max_results" := bound.1]);
        assert call.world.trace[|w.trace|..] == [Tool("search_web", map["query" := bound.0, "max_results" := bound.1])];
        match call.value
        case Failed(f) => Step(Raised(RemoteFailed(f.message)), call.world)
        case Answered(env) =>
          var answer := SearchAnswer(rt, call.world, model, query, env);
          var added := answer.world.trace[|call.world.trace|..];
          assert ToolCalls(added, "search_web") == 0 && ToolCalls(added, "fetch_url") == 0 by {
            if |added| == 1 { assert added[1..] == []; }
          }
          CountsSplit(w.trace, call.world.trace, answer.world.trace, "search_web");
          CountsSplit(w.trace, call.world.trace, answer.world.trace, "fetch_url");
          answer
  }

  /** Whenever the arguments bind and the search answers with results that
      can be walked, the branch makes exactly the search and one generation
      on the question over them, and completes exactly when the model
      replies. */
  lemma SearchBranchAsks(rt: Runtime, w: World, model: string, query: string, action: map<string, Value>)
    requires "args" in action && BindKwargs(action["args"], "query", "max_results", Int(5)).Done?
    requires |w.remote| > 0 && w.remote[0].Answered? && SearchQuestion(rt, w.remote[0].value, query).Done?
    ensures var bound := BindKwargs(action["args"], "query", "max_results", Int(5)).value;
      var s := SearchBranch(rt, w, model, query, action);
      && s.world.trace == w.trace + [Tool("search_web", map["query" := bound.0, "max_results" := bound.1]),
                                     Generate(model, SearchQuestion(rt, w.remote[0].value, query).value)]
      && (s.value.Done? <==> |w.replies| > 0 && w.replies[0].Said?)
  {
    var bound := BindKwargs(action["args"], "query", "max_results", Int(5)).value;
    var call := CallTool(w, "search_web", map["query" := bound.0, "max_results" := bound.1]);
    var answer := SearchAnswer(rt, call.world, model, query, w.remote[0].value);
    assert SearchBranch(rt, w, model, query, action) == answer;
  }

  /** The question put to the model over the search results: the direct
      question when no result yields a snippet line, else the summary
      request over the first eight lines.  Results that cannot be walked
      raise. */
  function SearchQuestion(rt: Runtime, env: Value, query: string): (r: Outcome<string>)
    ensures var src := SnippetSource(rt, Payload.SearchLlm(rt, env));
      && (r.Done? <==> src.Done?)
      && (src.Raised? ==> r == Raised(src.error))
      && (src.Done? && src.value == [] ==> r.value == DirectPrompt + query)
      && (src.Done? && src.value != [] ==>
            && SearchPrompt + src.value[0] <= r.value
            && forall i :: 0 <= i < Min(8, |src.value|) ==> Contains(r.value, src.value[i]))
  {
    match SnippetSource(rt, Payload.SearchLlm(rt, env))
    case Raised(e) => Raised(e)
    case Done(lines) => Done(if |lines| == 0 then DirectPrompt + query else SummaryPrompt(lines))
  }

  /** The answer built from the search results: one generation on the
      search question, whose reply is the answer; a result that cannot be
      walked raises first, before any call. */
  function SearchAnswer(rt: Runtime, w: World, model: string, query: string, env: Value): (s: Step<Outcome<string>>)
    ensures w.trace <= s.world.trace
    ensures var added := s.world.trace[|w.trace|..];
      && |added| <= 1
      && (|added| == 1 ==> added[0].Generate?)
      && (s.value.Done? ==> |added| == 1)
    ensures var q := SearchQuestion(rt, env, query);
      && (q.Raised? ==> s == Step(Raised(q.error), w))
      && (q.Done? ==>
            && s.world.trace == w.trace + [Generate(model, q.value)]
            && s.world.remote == w.remote
            && (s.value.Done? <==> |w.replies| > 0 && w.replies[0].Said?)
            && (s.value.Done? ==> s.value.value == w.replies[0].text))
  {
    match SearchQuestion(rt, env, query)
    case Raised(e) =>
      assert w.trace[|w.trace|..] == [];
      Step(Raised(e), w)
    case Done(prompt) =>
      var answer := AskText(w, model, prompt);
      assert answer.world.trace[|w.trace|..] == [Generate(model, prompt)];
      answer
  }

  // ---------------------------------------------------------------------
  // The fetch_url branch

  /** `for u in urls`: a list yields its items, a string its characters;
      anything else is not iterable. */
  function Elements(v: Value): (r: Outcome<seq<Value>>)
    ensures v.List? ==> r == Done(v.items)
    ensures v.Str? ==> r.Done? && |r.value| == |v.s|
    ensures !v.List? && !v.Str? ==> r == Raised(TypeError)
  {
    match v
    case List(items) => Done(items)
    case Str(s) => Done(seq(|s|, i requires 0 <= i < |s| => Str([s[i]])))
    case _ => Raised(TypeError)
  }

  /** `v[:n]` on the value found under `text`. */
  function Head(v: Value, n: nat): (r: Outcome<Value>)
    ensures v.Str? ==> r == Done(Str(Slice(v.s, n)))
    ensures v.List? ==> r == Done(List(v.items[..Min(n, |v.items|)]))
    ensures !v.Str? && !v.List? ==> r.Raised?
  {
    match v
    case Str(s) => Done(Str(Slice(s, n)))
    case List(items) => Done(List(items[..Min(n, |items|)]))
    case _ => Raised(TypeError)
  }

  /** `(page.get("text") or "")[:1500]` */
  function Excerpt(page: Value): (r: Outcome<Value>)
    ensures r.Done? ==> page.Dict?
    ensures page.Dict? && !Truthy(DictGet(page.entries, "text", Null)) ==> r == Done(Str(""))
    ensures page.Dict? && DictGet(page.entries, "text", Null).Str? ==>
              r.Done? && r.value.Str? && r.value.s <= DictGet(page.entries, "text", Null).s && |r.value.s| <= 1500
  {
    match Get(page, "text", Null)
    case Raised(e) => Raised(e)
    case Done(t) => Head(Or(t, Str("")), 1500)
  }

  /** `f"🔗 {link}\n{summary}"` */
  function LinkBlock(rt: Runtime, link: Value, summary: string): string
  {
    "\U{1F517} " + ToStr(rt, link) + "\n" + summary
  }

  /** One entry: bind its arguments, fetch, summarise the excerpt. */
  function FetchOne(rt: Runtime, w: World, model: string, u: Value): (s: Step<Outcome<string>>)
    ensures w.trace <= s.world.trace
    ensures |s.world.trace| <= |w.trace| + 2
    ensures ToolCalls(s.world.trace[|w.trace|..], "fetch_url") <= 1
    ensures ToolCalls(s.world.trace[|w.trace|..], "search_web") == 0
    ensures Generations(s.world.trace[|w.trace|..]) <= 1
    ensures s.value.Done? ==>
              && u.Dict? && "url" in u.entries
              && |w.remote| > 0 && s.world.remote == w.remote[1..]
              && |w.replies| > 0 && w.replies[0].Said? && s.world.replies == w.replies[1..]
              && s.value.value == LinkBlock(rt, u.entries["url"], w.replies[0].text)
              && ToolCalls(s.world.trace[|w.trace|..], "fetch_url") == 1
              && Generations(s.world.trace[|w.trace|..]) == 1
    ensures s.value.Done? ==>
              && |s.world.trace| == |w.trace| + 2
              && w.remote[0].Answered? && PageQuestion(rt, w.remote[0].value).Done?
              && s.world.trace[|w.trace| + 1] == Generate(model, PageQuestion(rt, w.remote[0].value).value)
  {
    match BindKwargs(u, "url", "max_chars", Int(4000))
    case Raised(e) => Step(Raised(e), w)
    case Done(bound) =>
      var args := map["url" := bound.0, "max_chars" := bound.1];
      var call := CallTool(w, "fetch_url", args);
      assert call.world.trace[|w.trace|..] == [Tool("fetch_url", args)];
      match call.value
      case Failed(f) => Step(Raised(RemoteFailed(f.message)), call.world)
      case Answered(env) =>
        var block := PageBlock(rt, call.world, model, bound.0, env);
        var added := block.world.trace[|call.world.trace|..];
        assert ToolCalls(added, "search_web") == 0 && ToolCalls(added, "fetch_url") == 0 by {
          if |added| == 1 { assert added[1..] == []; }
        }
        CountsSplit(w.trace, call.world.trace, block.world.trace, "search_web");
        CountsSplit(w.trace, call.world.trace, block.world.trace, "fetch_url");
        block
  }

  /** The request to summarise a fetched page: at most 1500 characters of
      its text after the fixed instruction. */
  function PageQuestion(rt: Runtime, env: Value): (r: Outcome<string>)
    ensures var page := Payload.FetchLlm(rt, env);
      && (r.Done? <==> Excerpt(page).Done?)
      && (r.Raised? ==> r == Raised(Excerpt(page).error))
      && (r.Done? ==> FetchPrompt <= r.value)
      && (page.Dict? && !Truthy(DictGet(page.entries, "text", Null)) ==> r == Done(FetchPrompt))
      && (page.Dict? && DictGet(page.entries, "text", Null).Str? ==>
            && r.Done? && |r.value| <= |FetchPrompt| + 1500
            && r.value[|FetchPrompt|..] <= DictGet(page.entries, "text", Null).s)
  {
    match Excerpt(Payload.FetchLlm(rt, env))
    case Raised(e) => Raised(e)
    case Done(content) =>
      var r := FetchPrompt + ToStr(rt, content);
      assert r[|FetchPrompt|..] == ToStr(rt, content);
      assert content == Str("") ==> r == FetchPrompt;
      Done(r)
  }

  /** The block for one fetched page: one generation on the page question,
      whose reply is linked to the url; a page whose text cannot be cut
      raises first. */
  function PageBlock(rt: Runtime, w: World, model: string, url: Value, env: Value): (s: Step<Outcome<string>>)
    ensures w.trace <= s.world.trace
    ensures s.world.remote == w.remote
    ensures var added := s.world.trace[|w.trace|..];
      && |added| <= 1
      && (|added| == 1 ==> added[0].Generate?)
      && (s.value.Done? ==> |added| == 1)
    ensures var q := PageQuestion(rt, env);
      && (q.Raised? ==> s == Step(Raised(q.error), w))
      && (q.Done? ==>
            && s.world.trace == w.trace + [Generate(model, q.value)]
            && (s.value.Done? <==> |w.replies| > 0 && w.replies[0].Said?))
    ensures s.value.Done? ==>
              && |w.replies| > 0 && w.replies[0].Said? && s.world.replies == w.replies[1..]
              && s.value.value == LinkBlock(rt, url, w.replies[0].text)
  {
    match PageQuestion(rt, env)
    case Raised(e) =>
      assert w.trace[|w.trace|..] == [];
      Step(Raised(e), w)
    case Done(prompt) =>
      var summary := AskText(w, model, prompt);
      assert summary.world.trace[|w.trace|..] == [Generate(model, prompt)];
      match summary.value
      case Raised(e) => Step(Raised(e), summary.world)
      case Done(text) => Step(Done(LinkBlock(rt, url, text)), summary.world)
  }

  /** Every entry in order; the first exception ends the loop. */
  function FetchAll(rt: Runtime, w: World, model: string, us: seq<Value>): (s: Step<Outcome<seq<string>>>)
    ensures w.trace <= s.world.trace
    ensures s.value.Done? ==> |s.value.value| == |us|
    decreases |us|
  {
    if |us| == 0 then Step(Done([]), w)
    else
      var one := FetchOne(rt, w, model, us[0]);
      match one.value
      case Raised(e) => Step(Raised(e), one.world)
      case Done(block) =>
        var rest := FetchAll(rt, one.world, model, us[1..]);
        match rest.value
        case Raised(e) => Step(Raised(e), rest.world)
        case Done(blocks) => Step(Done([block] + blocks), rest.world)
  }

  /** At most one fetch and one generation per entry, exactly one of each
      when the loop completes, and never a search. */
  lemma {:induction false} FetchAllCalls(rt: Runtime, w: World, model: string, us: seq<Value>)
    ensures var s := FetchAll(rt, w, model, us);
      var added := s.world.trace[|w.trace|..];
      && ToolCalls(added, "fetch_url") <= |us|
      && ToolCalls(added, "search_web") == 0
      && Generations(added) <= |us|
      && (s.value.Done? ==> ToolCalls(added, "fetch_url") == |us| && Generations(added) == |us|)
    decreases |us|
  {
    var s := FetchAll(rt, w, model, us);
    if |us| == 0 {
      assert s.world.trace[|w.trace|..] == [];
    } else {
      var one := FetchOne(rt, w, model, us[0]);
      if one.value.Raised? {
        assert s.world == one.world;
      } else {
        var rest := FetchAll(rt, one.world, model, us[1..]);
        assert s.world == rest.world;
        assert s.value.Done? ==> rest.value.Done?;
        FetchAllCalls(rt, one.world, model, us[1..]);
        CountsSplit(w.trace, one.world.trace, rest.world.trace, "fetch_url");
        CountsSplit(w.trace, one.world.trace, rest.world.trace, "search_web");
      }
    }
  }

  /** When every entry succeeds, entry i consumed the i-th tool result and
      the i-th reply, and its block links the entry's url to that reply. */
  lemma {:induction false} FetchAllBlocks(rt: Runtime, w: World, model: string, us: seq<Value>)
    requires FetchAll(rt, w, model, us).value.Done?
    ensures var s := FetchAll(rt, w, model, us);
      && |w.remote| >= |us| && s.world.remote == w.remote[|us|..]
      && |w.replies| >= |us| && s.world.replies == w.replies[|us|..]
      && forall i :: 0 <= i < |us| ==>
           && us[i].Dict? && "url" in us[i].entries && w.replies[i].Said?
           && s.value.value[i] == LinkBlock(rt, us[i].entries["url"], w.replies[i].text)
    decreases |us|
  {
    if |us| > 0 {
      var s := FetchAll(rt, w, model, us);
      var one := FetchOne(rt, w, model, us[0]);
      var rest := FetchAll(rt, one.world, model, us[1..]);
      assert one.value.Done? && rest.value.Done?;
      assert s.world == rest.world && s.value.value == [one.value.value] + rest.value.value;
      FetchAllBlocks(rt, one.world, model, us[1..]);
      assert w.remote[1..][|us| - 1..] == w.remote[|us|..];
      assert w.replies[1..][|us| - 1..] == w.replies[|us|..];
      forall i | 0 <= i < |us|
        ensures us[i].Dict? && "url" in us[i].entries && w.replies[i].Said?
        ensures s.value.value[i] == LinkBlock(rt, us[i].entries["url"], w.replies[i].text)
      {
        if i > 0 {
          assert us[i] == us[1..][i - 1] && w.replies[i] == one.world.replies[i - 1];
          assert s.value.value[i] == rest.value.value[i - 1];
        }
      }
    }
  }

  /** `urls = action["args"]`, a single dictionary standing for a list of one. */
  function FetchTargets(action: map<string, Value>): (r: Outcome<seq<Value>>)
    ensures "args" !in action ==> r == Raised(KeyError)
    ensures "args" in action && action["args"].Dict? ==> r == Done([action["args"]])
    ensures "args" in action && action["args"].List? ==> r == Done(action["args"].items)
  {
    if "args" !in action then Raised(KeyError)
    else if action["args"].Dict? then Done([action["args"]])
    else Elements(action["args"])
  }

  function FetchBranch(rt: Runtime, w: World, model: string, action: map<string, Value>): (s: Step<Outcome<string>>)
    ensures w.trace <= s.world.trace
    ensures ToolCalls(s.world.trace[|w.trace|..], "search_web") == 0
    ensures FetchTargets(action).Raised? ==> s == Step(Raised(FetchTargets(action).error), w)
    ensures FetchTargets(action).Done? ==>
              var us := FetchTargets(action).value;
              && ToolCalls(s.world.trace[|w.trace|..], "fetch_url") <= |us|
              && (s.value.Done? ==>
                    && ToolCalls(s.world.trace[|w.trace|..], "fetch_url") == |us|
                    && Generations(s.world.trace[|w.trace|..]) == |us|
                    && FetchAll(rt, w, model, us).value.Done?
                    && s.value.value == Join("\n\n", FetchAll(rt, w, model, us).value.value))
  {
    match FetchTargets(action)
    case Raised(e) => Step(Raised(e), w)
    case Done(us) =>
      var all := FetchAll(rt, w, model, us);
      FetchAllCalls(rt, w, model, us);
      match all.value
      case Raised(e) => Step(Raised(e), all.world)
      case Done(blocks) => Step(Done(Join("\n\n", blocks)), all.world)
  }

  /** A completed fetch branch answers with one block per entry, in entry
      order, separated by blank lines: the entry's url and the reply to its
      summary request. */
  lemma FetchBranchBlocks(rt: Runtime, w: World, model: string, action: map<string, Value>)
    requires FetchBranch(rt, w, model, action).value.Done?
    ensures FetchTargets(action).Done?
    ensures var us := FetchTargets(action).value;
      var answer := FetchBranch(rt, w, model, action).value.value;
      var blocks := FetchAll(rt, w, model, us).value.value;
      && |w.replies| >= |us|
      && answer == Join("\n\n", blocks) && |blocks| == |us|
      && forall i :: 0 <= i < |us| ==>
           && us[i].Dict? && "url" in us[i].entries && w.replies[i].Said?
           && blocks[i] == LinkBlock(rt, us[i].entries["url"], w.replies[i].text)
           && Contains(answer, blocks[i])
  {
    var us := FetchTargets(action).value;
    var all := FetchAll(rt, w, model, us);
    FetchAllBlocks(rt, w, model, us);
    forall i | 0 <= i < |us|
      ensures Contains(FetchBranch(rt, w, model, action).value.value, all.value.value[i])
    {
      JoinContains("\n\n", all.value.value, i);
    }
  }

  // ---------------------------------------------------------------------
  // SimpleAgent.run

  /** The whole agent on one query, the planner reply first. */
  function Run(rt: Runtime, w: World, model: string, query: string): (s: Step<Outcome<string>>)
    ensures w.trace <= s.world.trace && |s.world.trace| > |w.trace|
    ensures s.world.trace[|w.trace|] == Generate(model, query)
  {
    var first := AskText(w, model, query);
    assert first.world.trace == w.trace + [Generate(model, query)];
    match first.value
    case Raised(e) => Step(Raised(e), first.world)
    case Done(decision) =>
      match Decide(rt, decision)
      case Unparsed => AskText(first.world, model, DirectPrompt + query)
      case NotObject => Step(Raised(AttributeError), first.world)
      case SearchWeb(action) => SearchBranch(rt, first.world, model, query, action)
      case FetchUrl(action) => FetchBranch(rt, first.world, model, action)
      case Reply => Step(Done("\U{1F916} " + decision), first.world)
  }

  /** A `search_web` plan hands the rest of the run to the search branch,
      after the planner's one generation. */
  lemma RunSearches(rt: Runtime, w: World, model: string, query: string)
    requires |w.replies| > 0 && w.replies[0].Said?
    requires Decide(rt, w.replies[0].text).SearchWeb?
    ensures Run(rt, w, model, query)
            == SearchBranch(rt, Ask(w, model, query).world, model, query, Decide(rt, w.replies[0].text).action)
  {
  }

  /** A `fetch_url` plan hands the rest of the run to the fetch branch,
      after the planner's one generation. */
  lemma RunFetches(rt: Runtime, w: World, model: string, query: string)
    requires |w.replies| > 0 && w.replies[0].Said?
    requires Decide(rt, w.replies[0].text).FetchUrl?
    ensures Run(rt, w, model, query)
            == FetchBranch(rt, Ask(w, model, query).world, model, Decide(rt, w.replies[0].text).action)
  {
  }

  /** An unparsable plan costs exactly one more generation, on the direct
      prompt, whose reply is the answer; no tool is called. */
  lemma RunUnparsed(rt: Runtime, w: World, model: string, query: string)
    requires |w.replies| > 0 && w.replies[0].Said?
    requires Decide(rt, w.replies[0].text).Unparsed?
    ensures var s := Run(rt, w, model, query);
      && s.world.trace == w.trace + [Generate(model, query), Generate(model, DirectPrompt + query)]
      && s.value == AskText(Ask(w, model, query).world, model, DirectPrompt + query).value
      && (|w.replies| > 1 && w.replies[1].Said? ==> s.value == Done(w.replies[1].text))
  {
  }

  /** Any other object answers with the raw, uncleaned reply; a JSON value
      that is not an object raises; neither calls a tool. */
  lemma RunWithoutTools(rt: Runtime, w: World, model: string, query: string)
    requires |w.replies| > 0 && w.replies[0].Said?
    ensures var s := Run(rt, w, model, query);
      var plan := Decide(rt, w.replies[0].text);
      && (plan.Reply? ==>
            s == Step(Done("\U{1F916} " + w.replies[0].text), World(w.replies[1..], w.remote, w.trace + [Generate(model, query)])))
      && (plan.NotObject? ==> s.value == Raised(AttributeError) && s.world.trace == w.trace + [Generate(model, query)])
  {
  }

  /** Tools are reached only through a parsed `search_web` or `fetch_url`
      action, and the search branch calls its tool at most once. */
  lemma RunToolsNeedAction(rt: Runtime, w: World, model: string, query: string)
    ensures var s := Run(rt, w, model, query);
      var calls := s.world.trace[|w.trace| + 1..];
      var plan := if |w.replies| > 0 && w.replies[0].Said? then Decide(rt, w.replies[0].text) else Unparsed;
      && (!plan.SearchWeb? ==> ToolCalls(calls, "search_web") == 0)
      && (!plan.FetchUrl? ==> ToolCalls(calls, "fetch_url") == 0)
      && ToolCalls(calls, "search_web") <= 1
  {
    var s := Run(rt, w, model, query);
    var first := Ask(w, model, query).world;
    var calls := s.world.trace[|w.trace| + 1..];
    assert calls == s.world.trace[|first.trace|..];
    if |w.replies| > 0 && w.replies[0].Said? {
      match Decide(rt, w.replies[0].text)
      case Unparsed =>
        assert calls == [Generate(model, DirectPrompt + query)];
      case NotObject =>
        assert calls == [];
      case Reply =>
        assert calls == [];
      case SearchWeb(_) =>
      case FetchUrl(_) =>
    } else {
      assert calls == [];
    }
  }
}
