# MCP research-assistant clients, modelled in Dafny

This project models the client-side decision and normalisation logic of a small
collection of Model Context Protocol (MCP) clients and one MCP server:

- a planner-driven agent that lets a text-generation model choose between the
  `search_web` and `fetch_url` tools;
- a research client that searches, fetches the top pages with a
  certificate retry, asks the server for a prompt template and summarises it,
  falling back to a second model and then to a locally built report;
- a Semantic Kernel variant of that research client;
- a DeepWiki client that grounds an explanation in three DeepWiki tool calls;
- the research server's two tools and its prompt template;
- a resource-read decoder.

Everything outside the program is an oracle:
- The text-generation model, every MCP tool call, `get_prompt` and every HTTP
  GET consume the next scripted reply from an `Oracle.World`. Each call is
  appended to a trace, so lemmas can count calls and check their order and
  arguments.
- `json.loads`, `json.dumps` and `str()` of non-strings are fields of
  `Python.Runtime`.
- Python's loosely typed values are `Python.Value`: None, booleans, integers,
  floats, strings, lists, string-keyed dictionaries and other objects by
  their attributes. A float is an exact `real`, falsy only when zero. An
  exception is `Python.Outcome.Raised`.

Modules follow the program's structure:

| file | module | models |
|---|---|---|
| python.dfy | Python | values, `getattr`, truthiness, `v[0]`, `dict.get`, `f(**kwargs)` binding |
| text.dfy | Text | `str.isspace`, `strip`, slicing, `join`, `in`, `split()`, the code-fence regex |
| oracle.dfy | Oracle | scripted model/tool/HTTP replies, call traces, model-name defaulting |
| envelope.dfy | Envelope | tool-result, `FunctionResult`, resource and prompt-result decoders |
| payload.dfy | Payload | the JSON payload decoders of every client |
| retry.dfy | Retry | the three certificate-retry policies and the second-model fallback |
| server.dfy | Server | `search_web`, `fetch_url`, `research_prompt` |
| agent.dfy | LlmAgent | `SimpleAgent.run` |
| research.dfy | ResearchClient | `research`, `research_and_summarize` |
| skagent.dfy | SkAgent | `Summarizer`, `MCPTools`, `SKAgent.run` |
| deepwiki.dfy | DeepWiki | `query_deepwiki`, `_main` argument defaulting |

Behaviour of the code that the model keeps, including the less obvious cases:
- `SimpleAgent.run` lets an exception from a `fetch_url` call propagate, which
  ends the whole fetch branch.
- An unparsable planner reply leads to a second generation call, on the direct
  question, whose reply is the answer.
- Any parsed action other than the two tools answers "🤖 " followed by the raw,
  uncleaned reply.
- Parsed JSON that is not an object raises `AttributeError` at `action.get`.
- The resource decoder raises on missing or empty contents.
- The research client's retry looks at the exception's message text, not its
  class.
- `research_and_summarize` takes `GEMINI_MODEL` before the `--model` argument.
- Slicing a dictionary raises `TypeError` in the model; Python 3.12 and later
  raise `KeyError` there.
- `SKAgent` keeps `model or GEMINI_MODEL`, and the summariser then applies
  `model or GEMINI_MODEL or default` again. Both steps collapse into one
  `ChooseModel(model, env)`.

## Model

| member | source | states |
|---|---|---|
| Python.BindKwargs | research_assistant/llm_driven_client.py:152 | `fetch_url(**u)` succeeds exactly when `u` is a dict holding `url` and no key other than `url`/`max_chars`; `max_chars` defaults to 4000; otherwise `TypeError` |
| Python.EachDict | research_assistant/client.py:194-211 | a loop over results that calls `.get` on each: succeeds iff every item is a dict and every line succeeds; at most one line per item; no lines iff every item yields none; a non-dict raises `AttributeError` |
| Python.EachDictAppend | research_assistant/llm_driven_client.py:123-127 | lines come in item order: one more item appends its own line, if any, at the end |
| Text.Trim | research_assistant/llm_driven_client.py:106 | `strip(chars)` leaves no dropped character at either end, is empty iff everything is dropped, and leaves an already-trimmed string alone |
| Text.TrimPadding | research_assistant/llm_driven_client.py:106 | dropped characters added at both ends do not change the stripped result |
| Text.Slice | research_assistant/server.py:64 | `s[:n]` is a prefix of `s` of length `min(n, len(s))`, with Python's meaning for negative `n` |
| Text.JoinContains | research_assistant/llm_driven_client.py:160 | every part of `sep.join(parts)` occurs in the joined text |
| Text.RemoveFences | research_assistant/llm_driven_client.py:106 | removing every "```" or "```json" (any case) never lengthens the text and leaves no run of three backticks |
| Text.RemoveFencesLeavesNoFence | research_assistant/llm_driven_client.py:106 | "```" does not occur in the cleaned text |
| Text.RemoveFencesAppend | research_assistant/llm_driven_client.py:106 | fence removal distributes over concatenation when the second part starts with a character that cannot extend a fence |
| Text.FenceLengthAppend | research_assistant/llm_driven_client.py:106 | such a character after a non-empty text neither creates, extends nor spoils a fence or its `json` tag at the start |
| Text.Words | research_assistant/server.py:60 | `split()` yields non-empty words without whitespace |
| Text.WordsOfJoin | research_assistant/server.py:60 | splitting words joined by single spaces gives the words back |
| Text.NormalizeShape | research_assistant/server.py:60 | `" ".join(s.split())` has no leading or trailing whitespace and no two whitespace characters in a row; its only whitespace is ' ' |
| Text.NormalizeIdempotent | research_assistant/server.py:60 | normalising twice is normalising once |
| Text.NormalizedPrefix | research_assistant/server.py:64 | a prefix of normalised text starts with a word and never holds two spaces in a row |
| Oracle.AskText | research_assistant/llm_driven_client.py:40-42 | one generation consumes the next reply and records the call; it yields the text, or raises when the model gives no reply |
| Oracle.ChooseModel | research_assistant/llm_driven_client.py:25 | `a or b or "gemini-1.5-flash"`: the first name that is set and non-empty, else the default |
| Envelope.ExtractText | research_assistant/client.py:23-47 | never raises; returns the first string among `content[0].text`, `.text` and a bare list's `[0].text`, else `str(env)`; an exception while probing `content` goes straight to `str(env)` |
| Envelope.ExtractTextShapeIndependent | deepwiki_assistant/client.py:24-43 | the same text in any of the shapes the decoder knows decodes to that text |
| Envelope.ExtractTextCrashIgnoresText | research_assistant/sk_client.py:23-41 | a truthy `content` that cannot be indexed ends probing, so a `.text` next to it is ignored |
| Envelope.UnwrapResult | research_assistant/llm_driven_client.py:50-63 | first non-None among `result`, `content[0].text` (non-empty list only), `data`; else the envelope |
| Envelope.UnwrapResultShapeIndependent | research_assistant/llm_driven_client.py:50-63 | a payload comes out unchanged whichever of the three accessors carries it |
| Envelope.Unwrap | research_assistant/sk_client.py:43-51 | `value.value` when not None, else the value itself |
| Envelope.UnwrapFunctionResult | research_assistant/sk_client.py:43-51 | unwrapping undoes the kernel's `FunctionResult` wrapping and leaves plain data alone |
| Envelope.ExtractResourceText | mcpconcepts/simple_resources_client.py:9-21 | a list yields its first item's text; otherwise `contents` is used, and `resource.contents` only when `contents` is None; a missing collection raises `TypeError`, an empty list `IndexError` |
| Envelope.ResourceShapes | mcpconcepts/simple_resources_client.py:15-21 | all three read shapes yield the item's text |
| Envelope.PromptText | research_assistant/client.py:121-127 | the prompt text is found iff the result has `messages` with a first element; then it is that message's first content item's text, else the content's text, else `str()` of it |
| Payload.SearchLlm | research_assistant/llm_driven_client.py:65-78 | a string payload is JSON-decoded (`[]` when that fails), a list passes through, anything else becomes `[]` |
| Payload.FetchLlm | research_assistant/llm_driven_client.py:80-93 | the same with `{}` and dict |
| Payload.ResearchChain | research_assistant/client.py:66-78 | an accepted `result` wins; otherwise the text is decoded only when its stripped form starts with `[` or `{`, parse errors swallowed; otherwise an accepted bare envelope; otherwise None |
| Payload.ResearchResults | research_assistant/client.py:62-81 | `research` goes on iff the decoded search payload is a list, and then with its items; a dict `result` always raises |
| Payload.SearchSk | research_assistant/sk_client.py:85-101 | never raises: a list `result`, else JSON from text starting with `[` (not `{`), else a bare list, else `[]` |
| Payload.FetchSk | research_assistant/sk_client.py:103-119 | a dict `result`, else JSON from text starting with `{`, else a bare dict, else `{}` |
| Payload.Toc | deepwiki_assistant/client.py:70-75 | decoded only when the stripped text starts with `[` or `{` and parses; otherwise the raw text |
| Payload.Page | deepwiki_assistant/client.py:85-89 | decoded only when the stripped text starts with `{` or `[` and parses; otherwise `{"content": text}` |
| Retry.Attempt | research_assistant/client.py:89-100 | one call, and a second one exactly when the first failed and the policy accepts its fault; the second call's reply is the answer |
| Retry.AttemptCalls | research_assistant/sk_client.py:152-164 | one or two calls, the first being the first attempt |
| Retry.PoliciesNest | research_assistant/sk_client.py:156-164 | both the message test and the SSL-class test are special cases of retrying on any fault |
| Retry.PoliciesDisagree | research_assistant/client.py:92-100 | a wrapped certificate failure is retried by the message test but not by the SSL-class test; a bare SSL error the other way round |
| Retry.WithFallback | research_assistant/client.py:170-179 | the preferred model; on failure the default model once, but only when the preferred one differs from it; the text of the first attempt that answered |
| Retry.FallbackCalls | research_assistant/sk_client.py:68-77 | one or two generations; a second one is always the default model and never follows the default model |
| Server.SearchRecord | research_assistant/server.py:23-27 | a record has exactly the keys title, url, snippet, taken from title, href, body |
| Server.SearchRecords | research_assistant/server.py:18-28 | one record per provider hit, in provider order |
| Server.PageTitle | research_assistant/server.py:59 | "" when there is no title string, otherwise the stripped title |
| Server.BuildPage | research_assistant/server.py:59-65 | `text` is a prefix of the normalised text of length `min(max_chars, length)`; `length` is the untruncated length, so `length >= len(text)`, equal when nothing was cut |
| Server.PageTextClean | research_assistant/server.py:60-64 | the stored text starts with a word and never holds two whitespace characters in a row |
| Server.DownloadHtml | research_assistant/server.py:40-52 | one GET verified as asked, and a second unverified GET exactly when the first reply is an SSL error; the html is the body of the last reply, and a failed last reply raises its message |
| Server.DownloadIsSslRetry | research_assistant/server.py:42-52 | the download is the generic retry with the SSL-class policy |
| Server.FetchUrl | research_assistant/server.py:34-66 | the same GETs as the download; the tool completes exactly when the last reply answers, and its record holds the normalised text of that reply's body, cut to `max_chars`, with the uncut length |
| Server.ResearchPrompt | research_assistant/server.py:89-101 | topic and findings appear verbatim at fixed offsets, the topic first |
| Server.SearchRoundTrip | research_assistant/server.py:18-28 | all three clients recover the server's search records from its JSON text |
| Server.PageRoundTrip | research_assistant/server.py:62-66 | all three clients recover the server's page record from its JSON text |
| LlmAgent.CleanDecision | research_assistant/llm_driven_client.py:106 | cleaning never lengthens the reply and leaves no backtick, space or newline at either end |
| LlmAgent.CleanFenced | research_assistant/llm_driven_client.py:106 | a reply wrapped in "```json\n…\n```" (any case) or a bare "```" fence cleans to what the bare reply cleans to |
| LlmAgent.Decide | research_assistant/llm_driven_client.py:106-163 | unparsable iff `json.loads` of the cleaned reply fails; not an object iff it parses to a non-dict; search or fetch iff the `action` key says so; a plain reply otherwise |
| LlmAgent.DecideIgnoresFences | research_assistant/llm_driven_client.py:105-118 | a fenced reply is understood exactly as the bare one |
| LlmAgent.Snippets | research_assistant/llm_driven_client.py:122-127 | one "title: snippet" line per result whose title or snippet is non-empty, none at all iff no result has one; a non-dict result raises |
| LlmAgent.SnippetsAppend | research_assistant/llm_driven_client.py:122-127 | lines come in result order |
| LlmAgent.SnippetSource | research_assistant/llm_driven_client.py:119-127 | a list is walked; an empty string or dict yields nothing; other values raise |
| LlmAgent.SummaryPrompt | research_assistant/llm_driven_client.py:137-141 | the summary prompt starts with its fixed text and contains each of the first eight lines |
| LlmAgent.SummaryPromptIgnoresTail | research_assistant/llm_driven_client.py:140 | lines after the eighth never reach the model |
| LlmAgent.SearchQuestion | research_assistant/llm_driven_client.py:122-140 | the direct question on the query when no result yields a snippet line, else the search-results request holding each of the first eight lines; results that cannot be walked raise |
| LlmAgent.SearchAnswer | research_assistant/llm_driven_client.py:122-142 | exactly one generation, on the search question, whose reply is the answer; nothing is called when the results cannot be walked |
| LlmAgent.SearchBranch | research_assistant/llm_driven_client.py:118-142 | at most one search and never a fetch; a completed branch made the search and one generation on the question over the search's reply, and answers with the model's reply |
| LlmAgent.SearchBranchAsks | research_assistant/llm_driven_client.py:118-142 | when the arguments bind and the search answers with walkable results, the calls are exactly the search and the generation on its question, and the branch completes iff the model replies |
| LlmAgent.Elements | research_assistant/llm_driven_client.py:151 | `for u in urls` walks a list's items or a string's characters; anything else raises `TypeError` |
| LlmAgent.Head | research_assistant/llm_driven_client.py:153 | `v[:n]` on a string or a list; other values raise |
| LlmAgent.Excerpt | research_assistant/llm_driven_client.py:153 | the page text or "", cut to a prefix of at most 1500 characters |
| LlmAgent.PageQuestion | research_assistant/llm_driven_client.py:153-156 | the summary request is the fixed instruction followed by at most 1500 characters from the start of the page text, or the instruction alone when there is no text |
| LlmAgent.PageBlock | research_assistant/llm_driven_client.py:153-158 | one generation on the page question and no other call; it completes iff the model replies, and the block is "🔗 url\nreply" |
| LlmAgent.FetchOne | research_assistant/llm_driven_client.py:151-158 | one entry: at most one fetch and one generation; when it succeeds, exactly one of each, the generation asks the page question over the fetch's reply, and the block is "🔗 url\nreply" |
| LlmAgent.FetchAll | research_assistant/llm_driven_client.py:150-159 | a completed loop has one block per entry |
| LlmAgent.FetchAllCalls | research_assistant/llm_driven_client.py:150-159 | at most one fetch and one generation per entry, exactly one of each when the loop completes, never a search |
| LlmAgent.FetchAllBlocks | research_assistant/llm_driven_client.py:150-159 | entry i consumed the i-th tool reply and the i-th model reply, and its block links the entry's url to that reply |
| LlmAgent.FetchTargets | research_assistant/llm_driven_client.py:146-148 | a single dict argument becomes a list of one; a list is used as is; a missing `args` raises `KeyError` |
| LlmAgent.FetchBranch | research_assistant/llm_driven_client.py:145-160 | one fetch and one generation per entry when it completes; the answer joins the blocks with blank lines |
| LlmAgent.FetchBranchBlocks | research_assistant/llm_driven_client.py:150-160 | the answer is the blocks joined by blank lines, one per entry in entry order, block i linking entry i's url to the i-th reply |
| LlmAgent.Run | research_assistant/llm_driven_client.py:101-103 | the first call is always the planner generation on the user's query |
| LlmAgent.RunUnparsed | research_assistant/llm_driven_client.py:108-115 | an unparsable plan costs exactly one more generation, on the direct-explanation prompt, whose reply is the answer; no tool is called |
| LlmAgent.RunWithoutTools | research_assistant/llm_driven_client.py:162-163 | any other object answers "🤖 " plus the raw reply after one generation; non-object JSON raises `AttributeError`; neither calls a tool |
| LlmAgent.RunToolsNeedAction | research_assistant/llm_driven_client.py:117-160 | a tool is reached only through the matching parsed action, and search is called at most once |
| LlmAgent.RunSearches | research_assistant/llm_driven_client.py:102-142 | after the planner's generation, a `search_web` plan is exactly the search branch on that action |
| LlmAgent.RunFetches | research_assistant/llm_driven_client.py:102-160 | after the planner's generation, a `fetch_url` plan is exactly the fetch branch on that action |
| ResearchClient.Record | research_assistant/client.py:117 | a kept page is `{"rank", "url", **page}`: page keys win on collision |
| ResearchClient.FetchPage | research_assistant/client.py:89-117 | the certificate retry, then a page is kept iff its decoded payload is a dict, with its rank and url |
| ResearchClient.Visit | research_assistant/client.py:84-117 | the loop over the first `min(5, len(results))` results makes at most two fetches per visited result, no search and no generation |
| ResearchClient.VisitCompletes | research_assistant/client.py:84-117 | the loop completes iff each visited result is a dict |
| ResearchClient.FetchPageCalls | research_assistant/client.py:89-100 | one page costs at most two fetches and nothing else |
| ResearchClient.VisitRanks | research_assistant/client.py:85-117 | kept pages come from results with a truthy url, ranks strictly increase, and each rank is the result's 1-based index in `results` |
| ResearchClient.FetchRetryTrigger | research_assistant/client.py:90-98 | a second fetch with insecure=True happens exactly when the first failed with a certificate message |
| ResearchClient.Pages | research_assistant/client.py:117 | one record per kept page, in order |
| ResearchClient.Research | research_assistant/client.py:58-133 | the search is the first call; a completed run decoded its results from the search reply, its pages are the records of the pages the visit loop kept, with their ranks, and its last call is `get_prompt("research_summarize")` with the topic and the results and pages serialised, whose reply decodes to the returned prompt |
| ResearchClient.PromptReachesModel | research_assistant/client.py:120-127 | the server's template text reaches the client unchanged, with topic and findings in it |
| ResearchClient.FindingLine | research_assistant/client.py:194-198 | title, else snippet, else url; listed iff one of them is non-empty |
| ResearchClient.SourceLine | research_assistant/client.py:208-211 | "- url", listed iff the url is non-empty |
| ResearchClient.Preview | research_assistant/client.py:204 | at most 500 characters, a prefix of the stripped text |
| ResearchClient.PreviewLine | research_assistant/client.py:201-205 | "(no title)" stands in for a missing title; the line ends with the preview and an ellipsis; a non-string text raises |
| ResearchClient.KeyFindings | research_assistant/client.py:194-198 | at most one line per result; a non-dict result raises |
| ResearchClient.PreviewLines | research_assistant/client.py:201-205 | exactly one line per page |
| ResearchClient.SourceLines | research_assistant/client.py:208-211 | none iff no result has a url |
| ResearchClient.ReportLines | research_assistant/client.py:186-215 | twelve fixed lines plus the findings, previews and sources; the title line first and the note last |
| ResearchClient.LocalReport | research_assistant/client.py:182-216 | the report starts with "# Research Brief: topic" and lists findings and sources over the first `max_results` results |
| ResearchClient.ResearchAndSummarize | research_assistant/client.py:145-216 | a failed `research` propagates; otherwise one generation on the prompt, two when the preferred model fails and is not the default, and the report is the first reply that answers, else the local report |
| ResearchClient.LocalReportAfter | research_assistant/client.py:170-216 | the local report follows one generation when the default model was preferred, and two otherwise |
| SkAgent.Summarize | research_assistant/sk_client.py:55-79 | one generation, or two when the preferred model fails and is not the default; the result is the first reply that answers, else "" |
| SkAgent.SummarizeSilent | research_assistant/sk_client.py:67-79 | with no replies the summary is "", after one or two generations |
| SkAgent.TopResults | research_assistant/sk_client.py:147 | at most the first five results |
| SkAgent.Stamp | research_assistant/sk_client.py:165-167 | url and rank are written over the page's own keys; a non-dict raises `TypeError` |
| SkAgent.FetchPage | research_assistant/sk_client.py:151-168 | the retry on any fault; a failed retry gives no page; an answered one is unwrapped, decoded and stamped |
| SkAgent.FetchRetriesAnyFault | research_assistant/sk_client.py:152-164 | a second fetch with insecure=True happens exactly when the first failed, whatever the fault |
| SkAgent.FetchPageCalls | research_assistant/sk_client.py:152-164 | at most two fetches per URL; no search, no generation |
| SkAgent.Visit | research_assistant/sk_client.py:146-168 | the loop makes at most two fetches per visited result, no search and no generation |
| SkAgent.VisitDone | research_assistant/sk_client.py:147-168 | in a completed loop each result is a dict; a result with a url contributes its stamped page, if any, ahead of the rest |
| SkAgent.VisitStamps | research_assistant/sk_client.py:147-168 | every appended page carries its result's url and rank i+1; url-less results are skipped |
| SkAgent.Run | research_assistant/sk_client.py:139-179 | the search is the first call, and a completed run needed the search to answer |
| DeepWiki.SafePreview | deepwiki_assistant/client.py:46-47 | the prefix of length `min(n, len(s))` |
| DeepWiki.TopicPage | deepwiki_assistant/client.py:77-89 | the page is fetched only when a topic is given, and decoded as a page |
| DeepWiki.GroundingShape | deepwiki_assistant/client.py:100-107 | the grounding always carries the six keys; the page defaults to `{}`; the topic is None only when absent |
| DeepWiki.ExplainPrompt | deepwiki_assistant/client.py:108-118 | the grounding JSON occurs verbatim at a fixed offset |
| DeepWiki.Fallback | deepwiki_assistant/client.py:129-137 | the fallback answer embeds the question, the repository and at most 1200 characters of DeepWiki's answer, the whole answer when it is short |
| DeepWiki.Explain | deepwiki_assistant/client.py:124-137 | the model's text, or the fallback when generation raises |
| DeepWiki.Gather | deepwiki_assistant/client.py:65-97 | the tool calls made are a prefix of structure, optional page, question; all of them when gathering succeeds |
| DeepWiki.Query | deepwiki_assistant/client.py:50-144 | the structure is read first; a failed tool call ends the query; a completed query ends with one generation on the chosen model |
| DeepWiki.GatherAnswered | deepwiki_assistant/client.py:65-97 | when every tool answers, gathering consumes exactly two or three replies, makes all its calls and decodes structure, page and answer from them |
| DeepWiki.GatherAnsweredTopic | deepwiki_assistant/client.py:65-97 | with a topic: the structure from the first reply, the page from the second, the answer from the third |
| DeepWiki.GatherAnsweredBare | deepwiki_assistant/client.py:65-97 | without a topic: no page call, the page is None and the answer comes from the second reply |
| DeepWiki.QueryCalls | deepwiki_assistant/client.py:65-128 | one structure read, at most one page read and none without a topic, at most one question, one generation exactly when the query completes; a completed query read the page iff there is a topic, and asked once |
| DeepWiki.QueryAnswered | deepwiki_assistant/client.py:65-137 | when every tool answers, the model sees the grounding built from the three replies, and the result is its text or the fallback built from DeepWiki's answer |
| DeepWiki.Required | deepwiki_assistant/client.py:160-166 | the argument, else the stripped typed value; an empty result exits |
| DeepWiki.NormalizeTopic | deepwiki_assistant/client.py:168-180 | "", "none", "null" and "-" mean no topic; without a topic the user is asked only on a terminal, and an empty answer means none |
| DeepWiki.SessionTopicCalls | deepwiki_assistant/client.py:168-189 | the topic page is read at most once and only when a topic survives normalisation, and exactly once in a completed session with one |
| DeepWiki.TypedPlaceholderKept | deepwiki_assistant/client.py:169-178 | only the command-line value is checked for placeholders: a typed "none" is taken as a topic |
| DeepWiki.Session | deepwiki_assistant/client.py:147-189 | a missing repository or question exits before any call is made; a run that made no call exited |

## Left out

- Network transport: fastmcp clients, httpx, DuckDuckGo and stdio sessions. Each call is a scripted reply or a classified failure.
- The text-generation API and its configuration. Generation is a scripted reply or a failure. The API-key checks that raise before any call (llm_driven_client.py:21-23, client.py:152-154, sk_client.py:56-58) are not modelled.
- Concrete JSON: `json.loads`, `json.dumps` and `json.dumps(..., indent=2)` are oracles. Dictionary key order is lost, because dictionaries are maps. A JSON number with a fraction is an exact `Python.Value.Float`, so IEEE rounding and the special values (NaN, infinities) are not modelled; no modelled branch looks at a float except through truthiness.
- HTML extraction with BeautifulSoup (server.py:54-58). The title string and the extracted text are inputs.
- Whether httpx actually raises `ssl.SSLError`. The model takes the exception class as part of the scripted failure.
- File writes and the Semantic Kernel save plumbing (client.py:218-253, sk_client.py:181-183, deepwiki client.py:139-142).
- argparse, `input`, `print`, `.env` loading and the cp1252 re-encoding fallback. Values typed by the user are parameters.
- The `print` preview of the answer (deepwiki client.py:191-196) and the research client's `_safe_print_preview`: console output only.
- mcp_demo, the other mcpconcepts servers, and resource_prompt_client.py, whose decoder is an inline copy of the one modelled.
- Async execution. Every flow is a sequence of awaits and is modelled as a sequential function.
- The research client's and SK client's `_main` argument handling (client.py:258-282, sk_client.py:190-212). It is the same `arg or input().strip()` pattern that `DeepWiki.Required` models.
- LlmAgent.Run: states only the first call. RunSearches and RunFetches hand the run to SearchBranch and FetchBranch, and RunUnparsed, RunWithoutTools and RunToolsNeedAction state the other plans.
- ResearchClient.Visit: states the call counts only. When it completes is stated by VisitCompletes. VisitRanks states where each kept page comes from and that ranks increase; no lemma states that a fetchable result is kept.
- SkAgent.Visit: states the call counts only. The pages it keeps are stated by VisitStamps.
- SkAgent.Run: states only the first call and that a completed run needed the search to answer. The pieces are stated by Summarize, FetchPage and VisitStamps.
- DeepWiki.Query: states the call order. Its result is stated by QueryAnswered.
