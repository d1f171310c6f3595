/** The Semantic Kernel client of research_assistant/sk_client.py: the same
    research flow as the plain client, with its own decoders, a retry on any
    exception, pages stamped with their url and rank, and a summariser that
    answers "" when no model does.  Every kernel function result is a
    `FunctionResult` unwrapped with `_unwrap`. */
module SkAgent {
  import opened Python
  import opened Text
  import opened Oracle
  import opened Retry
  import Envelope
  import Payload

  // ---------------------------------------------------------------------
  // Summarizer.summarize_with_gemini

  /** The preferred model, the default model once when that differs, and ""
      when neither answered. */
  function Summarize(w: World, prompt: string, model: Option<string>, env: Option<string>): (s: Step<string>)
    ensures var preferred := ChooseModel(model, env);
      var r := w.replies;
      var first := |r| > 0 && r[0].Said?;
      var retried := !first && preferred != DefaultModel;
      var second := retried && |r| > 1 && r[1].Said?;
      && s.world.remote == w.remote
      && s.world.trace == w.trace + (if retried then [Generate(preferred, prompt), Generate(DefaultModel, prompt)] else [Generate(preferred, prompt)])
      && (first ==> s.value == r[0].text)
      && (second ==> s.value == r[1].text)
      && (!first && !second ==> s.value == "")
  {
    var gen := WithFallback(w, ChooseModel(model, env), prompt);
    match gen.value
    case Some(text) => Step(text, gen.world)
    case None => Step("", gen.world)
  }

  /** No reply at all yields "", after one generation when the default
      model was preferred and after two otherwise. */
  lemma SummarizeSilent(w: World, prompt: string, model: Option<string>, env: Option<string>)
    requires |w.replies| == 0
    ensures var s := Summarize(w, prompt, model, env);
      && s.value == ""
      && (ChooseModel(model, env) == DefaultModel ==> s.world.trace == w.trace + [Generate(DefaultModel, prompt)])
      && (ChooseModel(model, env) != DefaultModel ==>
            s.world.trace == w.trace + [Generate(ChooseModel(model, env), prompt), Generate(DefaultModel, prompt)])
  {
  }

  // ---------------------------------------------------------------------
  // SKAgent.run: fetching the top pages

  /** The kernel's `fetch_url` invocation. */
  function FetchCall(url: Value, insecure: bool): Call
  {
    Tool("fetch_url", map["url" := url, "max_chars" := Int(8000), "insecure" := Bool(insecure)])
  }

  /** `results[:min(5, len(results))]` as the loop sees it: a list is cut,
      an empty string gives nothing, a non-empty one gives strings whose
      `.get` raises; the other values have no `len` or cannot be sliced. */
  function TopResults(results: Value): (r: Outcome<seq<Value>>)
    ensures results.List? ==> r == Done(results.items[..if |results.items| < 5 then |results.items| else 5])
    ensures r.Done? ==> |r.value| <= 5
    ensures !results.List? && !results.Str? ==> r.Raised?
  {
    match results
    case List(items) => Done(items[..if |items| < 5 then |items| else 5])
    case Str(s) => if |s| == 0 then Done([]) else Raised(AttributeError)
    case _ => Raised(TypeError)
  }

  /** `page["url"] = url; page["rank"] = rank`: both written over the page's
      own keys; assigning into anything but a dictionary raises. */
  function Stamp(page: Value, url: Value, rank: int): (r: Outcome<Value>)
    ensures r.Done? <==> page.Dict?
    ensures r.Done? ==>
              && r.value.Dict? && r.value.entries.Keys == page.entries.Keys + {"url", "rank"}
              && r.value.entries["url"] == url && r.value.entries["rank"] == Int(rank)
              && forall k :: k in page.entries && k != "url" && k != "rank" ==> r.value.entries[k] == page.entries[k]
    ensures r.Raised? ==> r.error == TypeError
  {
    if page.Dict? then Done(Dict(page.entries["url" := url]["rank" := Int(rank)])) else Raised(TypeError)
  }

  /** One url: any exception from the first fetch retries it once with
      verification off; a second failure skips the url, and a decoded page
      that is not a dictionary raises. */
  function FetchPage(rt: Runtime, w: World, url: Value, insecure: bool, rank: int): (s: Step<Outcome<seq<Value>>>)
    ensures var a := Attempt(w, FetchCall(url, insecure), FetchCall(url, true), AnyFault);
      && s.world == a.world
      && (a.value.Failed? ==> s.value == Done([]))
      && (a.value.Answered? ==>
            var page := Envelope.Unwrap(Envelope.FunctionResult(Payload.FetchSk(rt, a.value.value)));
            && (s.value.Done? <==> page.Dict?)
            && (s.value.Done? ==> s.value.value == [Stamp(page, url, rank).value]))
  {
    var a := Attempt(w, FetchCall(url, insecure), FetchCall(url, true), AnyFault);
    match a.value
    case Failed(_) => Step(Done([]), a.world)
    case Answered(env) =>
      var page := Envelope.Unwrap(Envelope.FunctionResult(Payload.FetchSk(rt, env)));
      match Stamp(page, url, rank)
      case Raised(e) => Step(Raised(e), a.world)
      case Done(p) => Step(Done([p]), a.world)
  }

  /** Every failure of the first fetch is retried with verification off,
      whatever its class or message. */
  lemma FetchRetriesAnyFault(rt: Runtime, w: World, url: Value, insecure: bool, rank: int)
    ensures var s := FetchPage(rt, w, url, insecure, rank);
      && (NextRemote(w).Failed? ==> s.world.trace == w.trace + [FetchCall(url, insecure), FetchCall(url, true)])
      && (NextRemote(w).Answered? ==> s.world.trace == w.trace + [FetchCall(url, insecure)])
  {
  }

  /** The loop from index `i` of the top results on: at most two fetches
      per visited result, and no other call. */
  function Visit(rt: Runtime, w: World, top: seq<Value>, i: nat, insecure: bool): (s: Step<Outcome<seq<Value>>>)
    requires i <= |top|
    ensures w.trace <= s.world.trace
    ensures var added := s.world.trace[|w.trace|..];
      && ToolCalls(added, "fetch_url") <= 2 * (|top| - i)
      && ToolCalls(added, "search_web") == 0
      && Generations(added) == 0
    decreases |top| - i
  {
    if i == |top| then
      assert w.trace[|w.trace|..] == [];
      Step(Done([]), w)
    else
      match Get(top[i], "url", Null)
      case Raised(e) =>
        assert w.trace[|w.trace|..] == [];
        Step(Raised(e), w)
      case Done(url) =>
        if !Truthy(url) then Visit(rt, w, top, i + 1, insecure)
        else
          var one := FetchPage(rt, w, url, insecure, i + 1);
          FetchPageCalls(rt, w, url, insecure, i + 1);
          match one.value
          case Raised(e) => Step(Raised(e), one.world)
          case Done(page) =>
            var rest := Visit(rt, one.world, top, i + 1, insecure);
            CountsSplit(w.trace, one.world.trace, rest.world.trace, "fetch_url");
            CountsSplit(w.trace, one.world.trace, rest.world.trace, "search_web");
            match rest.value
            case Raised(e) => Step(Raised(e), rest.world)
            case Done(pages) => Step(Done(page + pages), rest.world)
  }

  /** Every kept page carries the url it was fetched from and its result's
      1-based index as rank, and ranks strictly increase. */
  predicate StampedFrom(top: seq<Value>, i: nat, pages: seq<Value>)
  {
    && (forall j :: 0 <= j < |pages| ==>
          && pages[j].Dict? && "rank" in pages[j].entries && "url" in pages[j].entries
          && pages[j].entries["rank"].Int?
          && i < pages[j].entries["rank"].i <= |top|
          && top[pages[j].entries["rank"].i - 1].Dict?
          && pages[j].entries["url"] == DictGet(top[pages[j].entries["rank"].i - 1].entries, "url", Null)
          && Truthy(pages[j].entries["url"]))
    && (forall j, l :: 0 <= j < l < |pages| ==>
          pages[j].Dict? && pages[l].Dict? && "rank" in pages[j].entries && "rank" in pages[l].entries
          && pages[j].entries["rank"].Int? && pages[l].entries["rank"].Int?
          && pages[j].entries["rank"].i < pages[l].entries["rank"].i)
  }

  lemma StampedCons(top: seq<Value>, i: nat, head: seq<Value>, rest: seq<Value>)
    requires i < |top| && top[i].Dict?
    requires |head| <= 1
    requires |head| == 1 ==>
               && head[0].Dict? && "rank" in head[0].entries && "url" in head[0].entries
               && head[0].entries["rank"] == Int(i + 1)
               && head[0].entries["url"] == DictGet(top[i].entries, "url", Null)
               && Truthy(head[0].entries["url"])
    requires StampedFrom(top, i + 1, rest)
    ensures StampedFrom(top, i, head + rest)
  {
    var all := head + rest;
    forall j | 0 <= j < |all|
      ensures all[j].Dict? && "rank" in all[j].entries && "url" in all[j].entries && all[j].entries["rank"].Int?
      ensures i < all[j].entries["rank"].i <= |top|
      ensures top[all[j].entries["rank"].i - 1].Dict?
      ensures all[j].entries["url"] == DictGet(top[all[j].entries["rank"].i - 1].entries, "url", Null)
      ensures Truthy(all[j].entries["url"])
    {
      if j < |head| { assert all[j] == head[j]; } else { assert all[j] == rest[j - |head|]; }
    }
    forall j, l | 0 <= j < l < |all|
      ensures all[j].Dict? && all[l].Dict? && "rank" in all[j].entries && "rank" in all[l].entries
      ensures all[j].entries["rank"].Int? && all[l].entries["rank"].Int?
      ensures all[j].entries["rank"].i < all[l].entries["rank"].i
    {
      if j < |head| {
        assert all[j] == head[0] && all[l] == rest[l - |head|];
      } else {
        assert all[j] == rest[j - |head|] && all[l] == rest[l - |head|];
      }
    }
  }

  lemma {:induction false} VisitStamps(rt: Runtime, w: World, top: seq<Value>, i: nat, insecure: bool)
    requires i <= |top|
    requires Visit(rt, w, top, i, insecure).value.Done?
    ensures StampedFrom(top, i, Visit(rt, w, top, i, insecure).value.value)
    decreases |top| - i
  {
    if i < |top| {
      VisitDone(rt, w, top, i, insecure);
      var url := DictGet(top[i].entries, "url", Null);
      if !Truthy(url) {
        VisitStamps(rt, w, top, i + 1, insecure);
        var rest := Visit(rt, w, top, i + 1, insecure).value.value;
        StampedCons(top, i, [], rest);
        assert [] + rest == rest;
      } else {
        var one := FetchPage(rt, w, url, insecure, i + 1);
        VisitStamps(rt, one.world, top, i + 1, insecure);
        StampedCons(top, i, one.value.value, Visit(rt, one.world, top, i + 1, insecure).value.value);
      }
    }
  }

  /** One step of a visit that completes: the result at `i` is a
      dictionary, and its page, if fetched, comes first. */
  lemma VisitDone(rt: Runtime, w: World, top: seq<Value>, i: nat, insecure: bool)
    requires i < |top| && Visit(rt, w, top, i, insecure).value.Done?
    ensures top[i].Dict?
    ensures var url := DictGet(top[i].entries, "url", Null);
      && (!Truthy(url) ==> Visit(rt, w, top, i, insecure) == Visit(rt, w, top, i + 1, insecure))
      && (Truthy(url) ==>
            var one := FetchPage(rt, w, url, insecure, i + 1);
            var rest := Visit(rt, one.world, top, i + 1, insecure);
            && one.value.Done? && rest.value.Done?
            && Visit(rt, w, top, i, insecure).value.value == one.value.value + rest.value.value
            && |one.value.value| <= 1
            && (|one.value.value| == 1 ==>
                  var head := one.value.value[0];
                  && head.Dict? && "rank" in head.entries && "url" in head.entries
                  && head.entries["rank"] == Int(i + 1)
                  && head.entries["url"] == url))
  {
  }

  lemma FetchPageCalls(rt: Runtime, w: World, url: Value, insecure: bool, rank: int)
    ensures var s := FetchPage(rt, w, url, insecure, rank);
      var a := s.world.trace[|w.trace|..];
      && w.trace <= s.world.trace
      && ToolCalls(a, "fetch_url") <= 2 && ToolCalls(a, "search_web") == 0 && Generations(a) == 0
  {
    var s := FetchPage(rt, w, url, insecure, rank);
    var a := s.world.trace[|w.trace|..];
    var first, second := FetchCall(url, insecure), FetchCall(url, true);
    assert [first][1..] == [] && [second][1..] == [];
    if Retries(w, AnyFault) {
      assert a == [first] + [second];
      CountsAppend([first], [second], "fetch_url");
      CountsAppend([first], [second], "search_web");
    } else {
      assert a == [first];
    }
  }

  // ---------------------------------------------------------------------
  // SKAgent.run

  /** Search, fetch, fetch the prompt, summarise; the report file is not
      written here. */
  function Run(rt: Runtime, w: World, topic: string, maxResults: int, insecure: bool,
               model: Option<string>, env: Option<string>): (s: Step<Outcome<string>>)
    ensures w.trace <= s.world.trace && |s.world.trace| > |w.trace|
    ensures s.world.trace[|w.trace|] == Tool("search_web", map["query" := Str(topic), "max_results" := Int(maxResults)])
    ensures s.value.Done? ==> |w.remote| > 0 && w.remote[0].Answered?
  {
    var search := CallTool(w, "search_web", map["query" := Str(topic), "max_results" := Int(maxResults)]);
    match search.value
    case Failed(f) => Step(Raised(RemoteFailed(f.message)), search.world)
    case Answered(found) =>
      var results := Envelope.Unwrap(Envelope.FunctionResult(Payload.SearchSk(rt, found)));
      match TopResults(results)
      case Raised(e) => Step(Raised(e), search.world)
      case Done(top) =>
        var v := Visit(rt, search.world, top, 0, insecure);
        match v.value
        case Raised(e) => Step(Raised(e), v.world)
        case Done(pages) =>
          var findings := rt.dumps(Dict(map["results" := results, "pages" := List(pages)]));
          var tpl := Remotely(v.world, Prompt("research_summarize", map["topic" := Str(topic), "findings_json" := Str(findings)]));
          match tpl.value
          case Failed(f) => Step(Raised(RemoteFailed(f.message)), tpl.world)
          case Answered(t) =>
            match Envelope.PromptText(rt, t)
            case Raised(e) => Step(Raised(e), tpl.world)
            case Done(p) =>
              var prompt := Envelope.Unwrap(Envelope.FunctionResult(p));
              // `self.model` is `model or env`, and the summariser then tries
              // `self.model or env or default`: the same choice.
              var report := Summarize(tpl.world, ToStr(rt, prompt), model, env);
              Step(Done(report.value), report.world)
  }
}
