/** The DeepWiki assistant (deepwiki_assistant/client.py): three DeepWiki
    tool calls gather a repository's wiki structure, an optional topic page
    and DeepWiki's own answer; they are bundled into a grounding record and
    handed to the text-generation model, with a local fallback answer when
    generation fails.  Also the command line's argument defaulting. */
module DeepWiki {
  import opened Python
  import opened Text
  import opened Oracle
  import Envelope
  import Payload

  // ---------------------------------------------------------------------
  // _safe_preview

  /** `s[:n]`: the first `n` characters, all of them when `s` is shorter. */
  function SafePreview(s: string, n: int): (r: string)
    ensures r <= s
    ensures n >= 0 ==> |r| == Min(n, |s|)
    ensures n >= |s| ==> r == s
  {
    Slice(s, n)
  }

  // ---------------------------------------------------------------------
  // query_deepwiki: the three tool calls

  /** `read_wiki_structure` arguments: the repository under both names. */
  function StructureArgs(repo: string): map<string, Value>
  {
    map["repo" := Str(repo), "repoName" := Str(repo)]
  }

  function ContentsArgs(repo: string, topic: string): map<string, Value>
  {
    map["repo" := Str(repo), "repoName" := Str(repo), "topic" := Str(topic), "topicName" := Str(topic)]
  }

  function QuestionArgs(repo: string, question: string): map<string, Value>
  {
    map["repo" := Str(repo), "repoName" := Str(repo), "question" := Str(question), "questionText" := Str(question)]
  }

  /** `if topic:` -- a topic that is set and non-empty. */
  predicate TopicGiven(topic: Option<string>)
  {
    topic.Some? && |topic.value| > 0
  }

  /** The topic page: fetched and decoded only when a topic is given, else
      None.  A failing call propagates. */
  function TopicPage(rt: Runtime, w: World, repo: string, topic: Option<string>): (s: Step<Outcome<Value>>)
    ensures !TopicGiven(topic) ==> s == Step(Done(Null), w)
    ensures TopicGiven(topic) ==>
              var c := CallTool(w, "read_wiki_contents", ContentsArgs(repo, topic.value));
              && s.world == c.world
              && (s.value.Done? <==> c.value.Answered?)
              && (c.value.Answered? ==> s.value.value == Payload.Page(rt, Envelope.ExtractText(rt, c.value.value)))
  {
    if TopicGiven(topic) then
      var c := CallTool(w, "read_wiki_contents", ContentsArgs(repo, topic.value));
      match c.value
      case Failed(f) => Step(Raised(RemoteFailed(f.message)), c.world)
      case Answered(obj) => Step(Done(Payload.Page(rt, Envelope.ExtractText(rt, obj))), c.world)
    else Step(Done(Null), w)
  }

  // ---------------------------------------------------------------------
  // query_deepwiki: the grounding record and the prompt

  function TopicValue(topic: Option<string>): Value
  {
    match topic
    case None => Null
    case Some(t) => Str(t)
  }

  /** The JSON grounding handed to the model. */
  function Grounding(repo: string, question: string, toc: Value, topic: Option<string>, page: Value, answer: string): Value
  {
    Dict(map[
      "repo" := Str(repo),
      "question" := Str(question),
      "toc" := toc,
      "topic" := TopicValue(topic),
      "page" := Or(page, Dict(map[])),
      "deepwiki_answer" := Str(answer)])
  }

  /** The record always has the same six keys; the page is `{}` unless a
      non-empty page was decoded, and the inputs appear unchanged. */
  lemma GroundingShape(repo: string, question: string, toc: Value, topic: Option<string>, page: Value, answer: string)
    ensures var g := Grounding(repo, question, toc, topic, page, answer);
      && g.Dict?
      && g.entries.Keys == {"repo", "question", "toc", "topic", "page", "deepwiki_answer"}
      && g.entries["repo"] == Str(repo) && g.entries["question"] == Str(question)
      && g.entries["toc"] == toc && g.entries["deepwiki_answer"] == Str(answer)
      && (g.entries["topic"] == Null <==> topic.None?)
      && (Truthy(page) ==> g.entries["page"] == page)
      && (!Truthy(page) ==> g.entries["page"] == Dict(map[]))
      && (page == Null ==> g.entries["page"] == Dict(map[]))
  {
  }

  const ExplainHead := "You are a precise software explainer. Read the JSON grounding that contains a GitHub repo's docs structure, optional page content, and an AI-grounded answer from the DeepWiki MCP server. Write a concise, accurate, developer-focused explanation in Markdown that answers the user's question.\n\nJSON grounding:\n"
  const ExplainTail := "\n\nInstructions:\n- Be factual; don't invent APIs.\n- Use short sections with headings and bullet points.\n- If code snippets are relevant, include minimal runnable examples.\n- End with a References section linking to the most relevant doc pages or repo files.\n"

  /** The explanation prompt with the indented grounding JSON inserted
      verbatim. */
  function ExplainPrompt(grounding: string): (r: string)
    ensures |r| == |ExplainHead| + |grounding| + |ExplainTail|
    ensures OccursAt(r, grounding, |ExplainHead|) && Contains(r, grounding)
  {
    OccursBetween(ExplainHead, grounding, ExplainTail);
    ExplainHead + grounding + ExplainTail
  }

  // ---------------------------------------------------------------------
  // query_deepwiki: generation and its fallback

  const FallbackHead := "# Explanation for: "
  const FallbackRepo := "\n\nThis is a brief, local fallback summary grounded in available DeepWiki data for `"
  const FallbackAnswer := "`.\n\n## DeepWiki Answer (raw)\n"
  const FallbackTail := "\n\n## Notes\n- Full LLM summarization unavailable (e.g., quota).\n"

  /** The local answer when generation raises: the question, the repository
      and at most 1200 characters of DeepWiki's answer, at fixed places. */
  function Fallback(question: string, repo: string, answer: string): (r: string)
    ensures |r| == |FallbackHead| + |question| + |FallbackRepo| + |repo| + |FallbackAnswer|
                   + |SafePreview(answer, 1200)| + |FallbackTail|
    ensures OccursAt(r, question, |FallbackHead|)
    ensures OccursAt(r, repo, |FallbackHead| + |question| + |FallbackRepo|)
    ensures OccursAt(r, SafePreview(answer, 1200),
                     |FallbackHead| + |question| + |FallbackRepo| + |repo| + |FallbackAnswer|)
    ensures Contains(r, question) && Contains(r, repo) && Contains(r, SafePreview(answer, 1200))
    ensures |answer| <= 1200 ==> Contains(r, answer)
  {
    var preview := SafePreview(answer, 1200);
    OccursInterleaved(FallbackHead, question, FallbackRepo, repo, FallbackAnswer, preview, FallbackTail);
    FallbackHead + question + FallbackRepo + repo + FallbackAnswer + preview + FallbackTail
  }

  /** `generate_content(prompt).text or ""`, or the fallback when the call
      raises. */
  function Explain(w: World, model: string, prompt: string, question: string, repo: string, answer: string): (s: Step<string>)
    ensures s.world == Ask(w, model, prompt).world
    ensures |w.replies| > 0 && w.replies[0].Said? ==> s.value == w.replies[0].text
    ensures !(|w.replies| > 0 && w.replies[0].Said?) ==> s.value == Fallback(question, repo, answer)
  {
    var gen := AskText(w, model, prompt);
    match gen.value
    case Done(text) => Step(text, gen.world)
    case Raised(_) => Step(Fallback(question, repo, answer), gen.world)
  }

  // ---------------------------------------------------------------------
  // query_deepwiki

  /** The tool calls of a query whose calls all succeed. */
  function QueryTools(repo: string, question: string, topic: Option<string>): seq<Call>
  {
    [Tool("read_wiki_structure", StructureArgs(repo))]
    + (if TopicGiven(topic) then [Tool("read_wiki_contents", ContentsArgs(repo, topic.value))] else [])
    + [Tool("ask_question", QuestionArgs(repo, question))]
  }

  /** What the tool calls produced: the decoded structure, the decoded page
      (None without a topic) and DeepWiki's answer as text. */
  datatype Gathered = Gathered(toc: Value, page: Value, answer: string)

  /** Structure, optional topic page, DeepWiki's answer; the first failing
      call ends the sequence with its exception. */
  function Gather(rt: Runtime, w: World, repo: string, question: string, topic: Option<string>): (s: Step<Outcome<Gathered>>)
    ensures w.trace <= s.world.trace && s.world.replies == w.replies
    ensures var added := s.world.trace[|w.trace|..];
      && 0 < |added|
      && (s.value.Raised? ==> added <= QueryTools(repo, question, topic))
      && (s.value.Done? ==> added == QueryTools(repo, question, topic))
  {
    var tools := QueryTools(repo, question, topic);
    var toc := CallTool(w, "read_wiki_structure", StructureArgs(repo));
    assert toc.world.trace[|w.trace|..] == tools[..1];
    match toc.value
    case Failed(f) => Step(Raised(RemoteFailed(f.message)), toc.world)
    case Answered(tocObj) =>
      var page := TopicPage(rt, toc.world, repo, topic);
      var k := if TopicGiven(topic) then 1 else 0;
      assert page.world.trace[|w.trace|..] == tools[..1 + k];
      match page.value
      case Raised(e) => Step(Raised(e), page.world)
      case Done(pageValue) =>
        var ask := CallTool(page.world, "ask_question", QuestionArgs(repo, question));
        assert ask.world.trace[|w.trace|..] == tools;
        match ask.value
        case Failed(f) => Step(Raised(RemoteFailed(f.message)), ask.world)
        case Answered(askObj) =>
          var gathered := Gathered(Payload.Toc(rt, Envelope.ExtractText(rt, tocObj)), pageValue, Envelope.ExtractText(rt, askObj));
          Step(Done(gathered), ask.world)
  }

  /** The tool calls, then one generation over the grounding.  A failing
      tool call ends the query with that exception; a failing generation
      does not.  `indented` is `json.dumps(..., indent=2)`. */
  function Query(rt: Runtime, indented: Value -> string, w: World, repo: string, question: string,
                 topic: Option<string>, model: Option<string>, env: Option<string>): (s: Step<Outcome<string>>)
    ensures w.trace <= s.world.trace && |w.trace| < |s.world.trace|
    ensures var added := s.world.trace[|w.trace|..];
      && 0 < |added| && added[0] == Tool("read_wiki_structure", StructureArgs(repo))
      && (s.value.Raised? ==> added <= QueryTools(repo, question, topic))
      && (s.value.Done? ==> added == QueryTools(repo, question, topic) + [added[|added| - 1]]
                            && added[|added| - 1].Generate?
                            && added[|added| - 1].model == ChooseModel(model, env))
  {
    var g := Gather(rt, w, repo, question, topic);
    match g.value
    case Raised(e) => Step(Raised(e), g.world)
    case Done(got) =>
      var prompt := ExplainPrompt(indented(Grounding(repo, question, got.toc, topic, got.page, got.answer)));
      var md := Explain(g.world, ChooseModel(model, env), prompt, question, repo, got.answer);
      AddedThen(w.trace, g.world.trace, Generate(ChooseModel(model, env), prompt));
      Step(Done(md.value), md.world)
  }

  /** The structure is read once; the page at most once and never without a
      topic; the question at most once; the model once exactly when the
      query succeeds. */
  lemma QueryCalls(rt: Runtime, indented: Value -> string, w: World, repo: string, question: string,
                   topic: Option<string>, model: Option<string>, env: Option<string>)
    ensures var s := Query(rt, indented, w, repo, question, topic, model, env);
      var added := s.world.trace[|w.trace|..];
      && ToolCalls(added, "read_wiki_structure") == 1
      && ToolCalls(added, "read_wiki_contents") <= (if TopicGiven(topic) then 1 else 0)
      && ToolCalls(added, "ask_question") <= 1
      && Generations(added) == (if s.value.Done? then 1 else 0)
      && (s.value.Done? ==>
            && ToolCalls(added, "read_wiki_contents") == (if TopicGiven(topic) then 1 else 0)
            && ToolCalls(added, "ask_question") == 1)
  {
    var s := Query(rt, indented, w, repo, question, topic, model, env);
    var added := s.world.trace[|w.trace|..];
    if s.value.Done? {
      DoneCounts(repo, question, topic, added);
    } else {
      StoppedCounts(repo, question, topic, added);
    }
  }

  /** The counts in a run that stopped inside the tool calls. */
  lemma StoppedCounts(repo: string, question: string, topic: Option<string>, added: seq<Call>)
    requires 0 < |added| && added[0] == Tool("read_wiki_structure", StructureArgs(repo))
    requires added <= QueryTools(repo, question, topic)
    ensures ToolCalls(added, "read_wiki_structure") == 1
    ensures ToolCalls(added, "read_wiki_contents") <= (if TopicGiven(topic) then 1 else 0)
    ensures ToolCalls(added, "ask_question") <= 1
    ensures Generations(added) == 0
  {
    var tools := QueryTools(repo, question, topic);
    QueryToolsCount(repo, question, topic, "read_wiki_structure");
    QueryToolsCount(repo, question, topic, "read_wiki_contents");
    QueryToolsCount(repo, question, topic, "ask_question");
    CountsFirstOnly(added, tools, "read_wiki_structure");
    CountsPrefix(added, tools, "read_wiki_contents");
    CountsPrefix(added, tools, "ask_question");
  }

  /** The counts in a run that made every tool call and then one
      generation. */
  lemma DoneCounts(repo: string, question: string, topic: Option<string>, added: seq<Call>)
    requires 0 < |added| && added[|added| - 1].Generate?
    requires added == QueryTools(repo, question, topic) + [added[|added| - 1]]
    ensures ToolCalls(added, "read_wiki_structure") == 1
    ensures ToolCalls(added, "read_wiki_contents") == (if TopicGiven(topic) then 1 else 0)
    ensures ToolCalls(added, "ask_question") == 1
    ensures Generations(added) == 1
  {
    var tools := QueryTools(repo, question, topic);
    var last := added[|added| - 1];
    QueryToolsCount(repo, question, topic, "read_wiki_structure");
    QueryToolsCount(repo, question, topic, "read_wiki_contents");
    QueryToolsCount(repo, question, topic, "ask_question");
    CountsOne(last, "read_wiki_structure");
    CountsOne(last, "read_wiki_contents");
    CountsOne(last, "ask_question");
    CountsAppend(tools, [last], "read_wiki_structure");
    CountsAppend(tools, [last], "read_wiki_contents");
    CountsAppend(tools, [last], "ask_question");
  }

  /** How often a query that makes all its tool calls calls `name`: the
      structure first and once, the page once when there is a topic, the
      question once, and no generation among them. */
  lemma QueryToolsCount(repo: string, question: string, topic: Option<string>, name: string)
    ensures var tools := QueryTools(repo, question, topic);
      && |tools| > 0
      && ToolCalls(tools, name) == (if name == "read_wiki_structure" then 1 else 0) + ToolCalls(tools[1..], name)
      && ToolCalls(tools[1..], name)
           == (if name == "read_wiki_contents" && TopicGiven(topic) then 1 else 0) + (if name == "ask_question" then 1 else 0)
      && Generations(tools) == 0
  {
    var tools := QueryTools(repo, question, topic);
    var head := [Tool("read_wiki_structure", StructureArgs(repo))];
    var middle := if TopicGiven(topic) then [Tool("read_wiki_contents", ContentsArgs(repo, topic.value))] else [];
    var tail := [Tool("ask_question", QuestionArgs(repo, question))];
    assert tools == head + (middle + tail) && tools[1..] == middle + tail;
    CountsOne(head[0], name);
    CountsOne(tail[0], name);
    if TopicGiven(topic) { CountsOne(middle[0], name); } else { assert middle + tail == tail; }
    CountsAppend(middle, tail, name);
    CountsAppend(head, middle + tail, name);
  }

  /** How many tool calls a query makes when none fails. */
  function ToolCount(topic: Option<string>): nat
  {
    if TopicGiven(topic) then 3 else 2
  }

  /** The next `n` remote calls all answer. */
  predicate Answers(w: World, n: nat)
  {
    |w.remote| >= n && forall i :: 0 <= i < n ==> w.remote[i].Answered?
  }

  /** What the tool calls read out of the replies when every one answers:
      the structure from the first, the page from the second when there is
      a topic, DeepWiki's answer from the last. */
  function Replies(rt: Runtime, w: World, topic: Option<string>): Gathered
    requires Answers(w, ToolCount(topic))
  {
    var k := if TopicGiven(topic) then 1 else 0;
    Gathered(
      Payload.Toc(rt, Envelope.ExtractText(rt, w.remote[0].value)),
      if TopicGiven(topic) then Payload.Page(rt, Envelope.ExtractText(rt, w.remote[1].value)) else Null,
      Envelope.ExtractText(rt, w.remote[k + 1].value))
  }

  /** When every tool answers, gathering consumes exactly those replies. */
  lemma GatherAnswered(rt: Runtime, w: World, repo: string, question: string, topic: Option<string>)
    requires Answers(w, ToolCount(topic))
    ensures var g := Gather(rt, w, repo, question, topic);
      && g.value == Done(Replies(rt, w, topic))
      && g.world == World(w.replies, w.remote[ToolCount(topic)..], w.trace + QueryTools(repo, question, topic))
  {
    if TopicGiven(topic) {
      GatherAnsweredTopic(rt, w, repo, question, topic);
    } else {
      GatherAnsweredBare(rt, w, repo, question, topic);
    }
  }

  lemma GatherAnsweredTopic(rt: Runtime, w: World, repo: string, question: string, topic: Option<string>)
    requires TopicGiven(topic) && Answers(w, 3)
    ensures var g := Gather(rt, w, repo, question, topic);
      && g.value == Done(Gathered(
           Payload.Toc(rt, Envelope.ExtractText(rt, w.remote[0].value)),
           Payload.Page(rt, Envelope.ExtractText(rt, w.remote[1].value)),
           Envelope.ExtractText(rt, w.remote[2].value)))
      && g.world == World(w.replies, w.remote[3..], w.trace + QueryTools(repo, question, topic))
  {
    var toc := CallTool(w, "read_wiki_structure", StructureArgs(repo));
    assert toc.value == w.remote[0] && toc.world.remote == w.remote[1..];
    var page := TopicPage(rt, toc.world, repo, topic);
    assert page.value == Done(Payload.Page(rt, Envelope.ExtractText(rt, w.remote[1].value)));
    assert page.world.remote == w.remote[2..];
    var ask := CallTool(page.world, "ask_question", QuestionArgs(repo, question));
    assert ask.value == w.remote[2] && ask.world.remote == w.remote[3..];
  }

  lemma GatherAnsweredBare(rt: Runtime, w: World, repo: string, question: string, topic: Option<string>)
    requires !TopicGiven(topic) && Answers(w, 2)
    ensures var g := Gather(rt, w, repo, question, topic);
      && g.value == Done(Gathered(
           Payload.Toc(rt, Envelope.ExtractText(rt, w.remote[0].value)),
           Null,
           Envelope.ExtractText(rt, w.remote[1].value)))
      && g.world == World(w.replies, w.remote[2..], w.trace + QueryTools(repo, question, topic))
  {
    var toc := CallTool(w, "read_wiki_structure", StructureArgs(repo));
    assert toc.value == w.remote[0] && toc.world.remote == w.remote[1..];
    var page := TopicPage(rt, toc.world, repo, topic);
    assert page == Step(Done(Null), toc.world);
    var ask := CallTool(page.world, "ask_question", QuestionArgs(repo, question));
    assert ask.value == w.remote[1] && ask.world.remote == w.remote[2..];
  }

  /** When every tool call answers, the calls are the expected ones and the
      model sees the grounding built from the three replies; the result is
      the model's text, or the fallback built from DeepWiki's answer. */
  lemma QueryAnswered(rt: Runtime, indented: Value -> string, w: World, repo: string, question: string,
                      topic: Option<string>, model: Option<string>, env: Option<string>)
    requires Answers(w, ToolCount(topic))
    ensures var s := Query(rt, indented, w, repo, question, topic, model, env);
      var got := Replies(rt, w, topic);
      var prompt := ExplainPrompt(indented(Grounding(repo, question, got.toc, topic, got.page, got.answer)));
      && s.world.trace == w.trace + QueryTools(repo, question, topic) + [Generate(ChooseModel(model, env), prompt)]
      && s.world.remote == w.remote[ToolCount(topic)..]
      && s.value.Done?
      && (|w.replies| > 0 && w.replies[0].Said? ==> s.value.value == w.replies[0].text)
      && (!(|w.replies| > 0 && w.replies[0].Said?) ==> s.value.value == Fallback(question, repo, got.answer))
  {
    GatherAnswered(rt, w, repo, question, topic);
  }

  // ---------------------------------------------------------------------
  // _main: defaulting the arguments

  /** `arg or input(...).strip()`, exiting when that is empty.  The command
      line value is used as given, the typed one stripped. */
  function Required(arg: Option<string>, typed: string, message: string): (r: Outcome<string>)
    ensures Filled(arg) ==> r == Done(arg.value)
    ensures !Filled(arg) && Strip(typed) != "" ==> r == Done(Strip(typed))
    ensures !Filled(arg) && Strip(typed) == "" ==> r == Raised(SystemExit(message))
    ensures r.Done? ==> r.value != ""
  {
    var v := if Filled(arg) then arg.value else Strip(typed);
    if v == "" then Raised(SystemExit(message)) else Done(v)
  }

  /** Command-line spellings of "no topic". */
  predicate Placeholder(t: string)
  {
    t == "" || t == "none" || t == "null" || t == "-"
  }

  /** A placeholder topic means none; without a topic the user is asked
      only on an interactive terminal, and an empty answer or a failing
      `input()` (None here) means none. */
  function NormalizeTopic(arg: Option<string>, interactive: bool, typed: Option<string>): (r: Option<string>)
    ensures arg.Some? && !Placeholder(arg.value) ==> r == arg
    ensures (arg.None? || Placeholder(arg.value)) && !interactive ==> r == None
    ensures (arg.None? || Placeholder(arg.value)) && interactive ==>
              r == (if typed.Some? && Strip(typed.value) != "" then Some(Strip(typed.value)) else None)
    ensures r.Some? ==> r.value != ""
  {
    var topic := if arg.Some? && Placeholder(arg.value) then None else arg;
    if topic.Some? then topic
    else if !interactive then None
    else
      match typed
      case None => None
      case Some(t) => if Strip(t) == "" then None else Some(Strip(t))
  }

  /** Only the command-line value is checked against the placeholders: a
      typed "none" is taken as a topic. */
  lemma TypedPlaceholderKept()
    ensures NormalizeTopic(None, true, Some("none")) == Some("none")
    ensures NormalizeTopic(Some("none"), true, Some("")) == None
  {
    TypedNone();
    assert Strip("") == "";
  }

  /** The word "none" as typed survives `.strip()`. */
  lemma TypedNone()
    ensures Strip("none") == "none"
  {
    var t := "none";
    assert t[0] == 'n' && t[|t| - 1] == 'e';
    assert !IsSpace('n') && !IsSpace('e');
    StripUnchanged(t);
  }

  /** The whole command: repository, question, topic, then the query. */
  function Session(rt: Runtime, indented: Value -> string, w: World,
                   repoArg: Option<string>, typedRepo: string,
                   questionArg: Option<string>, typedQuestion: string,
                   topicArg: Option<string>, interactive: bool, typedTopic: Option<string>,
                   model: Option<string>, env: Option<string>): (s: Step<Outcome<string>>)
    ensures Required(repoArg, typedRepo, "Repo is required.").Raised? ==>
              s == Step(Raised(SystemExit("Repo is required.")), w)
    ensures Required(repoArg, typedRepo, "Repo is required.").Done? &&
            Required(questionArg, typedQuestion, "Question is required.").Raised? ==>
              s == Step(Raised(SystemExit("Question is required.")), w)
    ensures w.trace <= s.world.trace
    ensures s.value.Done? ==> |s.world.trace| > |w.trace|
    ensures s.world.trace == w.trace ==> s.value.Raised? && s.value.error.SystemExit?
  {
    match Required(repoArg, typedRepo, "Repo is required.")
    case Raised(e) => Step(Raised(e), w)
    case Done(repo) =>
      match Required(questionArg, typedQuestion, "Question is required.")
      case Raised(e) => Step(Raised(e), w)
      case Done(question) =>
        var topic := NormalizeTopic(topicArg, interactive, typedTopic);
        Query(rt, indented, w, repo, question, topic, model, env)
  }

  /** The topic page is read only for a topic that survives normalisation:
      never without one, at most once with one, and exactly once in a
      completed session with one. */
  lemma SessionTopicCalls(rt: Runtime, indented: Value -> string, w: World,
                          repoArg: Option<string>, typedRepo: string,
                          questionArg: Option<string>, typedQuestion: string,
                          topicArg: Option<string>, interactive: bool, typedTopic: Option<string>,
                          model: Option<string>, env: Option<string>)
    ensures var s := Session(rt, indented, w, repoArg, typedRepo, questionArg, typedQuestion,
                             topicArg, interactive, typedTopic, model, env);
      var pages := if NormalizeTopic(topicArg, interactive, typedTopic).Some? then 1 else 0;
      var added := s.world.trace[|w.trace|..];
      && ToolCalls(added, "read_wiki_contents") <= pages
      && (s.value.Done? ==> ToolCalls(added, "read_wiki_contents") == pages)
  {
    var s := Session(rt, indented, w, repoArg, typedRepo, questionArg, typedQuestion,
                     topicArg, interactive, typedTopic, model, env);
    var repo := Required(repoArg, typedRepo, "Repo is required.");
    var question := Required(questionArg, typedQuestion, "Question is required.");
    if repo.Raised? || question.Raised? {
      assert s.world == w;
      assert s.world.trace[|w.trace|..] == [];
    } else {
      var topic := NormalizeTopic(topicArg, interactive, typedTopic);
      assert TopicGiven(topic) <==> topic.Some?;
      assert s == Query(rt, indented, w, repo.value, question.value, topic, model, env);
      QueryCalls(rt, indented, w, repo.value, question.value, topic, model, env);
    }
  }
}
