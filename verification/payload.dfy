/** Turning an unwrapped tool result into the list of search results or the
    page record the caller wants.  Each client has its own variant, and the
    variants differ in which shapes they accept and in what they do when
    nothing matches. */
module Payload {
  import opened Python
  import opened Text
  import Envelope

  /** `json.loads(s)`, with None standing for the exception. */
  function Loads(rt: Runtime, s: string): Option<Value>
  {
    rt.loads(s)
  }

  // ---------------------------------------------------------------------
  // llm_driven_client.py: MCPTools.search_web / fetch_url

  /** A string is JSON-decoded whatever it holds (`[]` when that fails), a
      list passes through, anything else becomes `[]`. */
  function SearchLlm(rt: Runtime, env: Value): (r: Value)
    ensures var raw := Envelope.UnwrapResult(env);
      && (raw.Str? && Loads(rt, raw.s).Some? ==> r == Loads(rt, raw.s).value)
      && (raw.Str? && Loads(rt, raw.s).None? ==> r == List([]))
      && (raw.List? ==> r == raw)
      && (!raw.Str? && !raw.List? ==> r == List([]))
  {
    match Envelope.UnwrapResult(env)
    case Str(s) => (match Loads(rt, s) case Some(v) => v case None => List([]))
    case List(items) => List(items)
    case _ => List([])
  }

  /** The same for a page, with `{}` and dictionaries. */
  function FetchLlm(rt: Runtime, env: Value): (r: Value)
    ensures var raw := Envelope.UnwrapResult(env);
      && (raw.Str? && Loads(rt, raw.s).Some? ==> r == Loads(rt, raw.s).value)
      && (raw.Str? && Loads(rt, raw.s).None? ==> r == Dict(map[]))
      && (raw.Dict? ==> r == raw)
      && (!raw.Str? && !raw.Dict? ==> r == Dict(map[]))
  {
    match Envelope.UnwrapResult(env)
    case Str(s) => (match Loads(rt, s) case Some(v) => v case None => Dict(map[]))
    case Dict(entries) => Dict(entries)
    case _ => Dict(map[])
  }

  // ---------------------------------------------------------------------
  // research_assistant/client.py: the decode chains inside `research`

  /** `result` when `accept` takes it; else the extracted text, JSON-decoded
      only when it starts (after stripping) with `[` or `{`, parse errors
      swallowed; else the bare envelope when `accept` takes it.  Null is
      Python's None: nothing matched. */
  function ResearchChain(rt: Runtime, env: Value, accept: Value -> bool): (r: Value)
    ensures accept(GetAttr(env, "result")) ==> r == GetAttr(env, "result")
    ensures !accept(GetAttr(env, "result")) && r != Null ==>
              (var txt := Envelope.ExtractText(rt, env);
               (StrippedStartsWith(txt, {'[', '{'}) && Loads(rt, txt) == Some(r)) || (r == env && accept(env)))
    ensures !accept(GetAttr(env, "result")) && !StrippedStartsWith(Envelope.ExtractText(rt, env), {'[', '{'}) ==>
              r == (if accept(env) then env else Null)
  {
    var direct := GetAttr(env, "result");
    if accept(direct) then direct
    else
      var txt := Envelope.ExtractText(rt, env);
      var parsed :=
        if |txt| > 0 && StrippedStartsWith(txt, {'[', '{'}) then
          (match Loads(rt, txt) case Some(v) => v case None => Null)
        else Null;
      if parsed == Null && accept(env) then env else parsed
  }

  /** The search payload: a list or dictionary is accepted directly. */
  function ResearchSearch(rt: Runtime, env: Value): Value
  {
    ResearchChain(rt, env, IsListOrDict)
  }

  /** The page payload: only a dictionary is accepted directly. */
  function ResearchPage(rt: Runtime, env: Value): Value
  {
    ResearchChain(rt, env, (v: Value) => v.Dict?)
  }

  /** `research` goes on only with a list; a dictionary `result` is decoded
      but then rejected. */
  function ResearchResults(rt: Runtime, env: Value): (r: Outcome<seq<Value>>)
    ensures r.Done? <==> ResearchSearch(rt, env).List?
    ensures r.Done? ==> r.value == ResearchSearch(rt, env).items
    ensures GetAttr(env, "result").Dict? ==> r.Raised?
  {
    match ResearchSearch(rt, env)
    case List(items) => Done(items)
    case _ => Raised(RuntimeError("search_web returned unexpected shape; expected list of results"))
  }

  // ---------------------------------------------------------------------
  // sk_client.py: MCPTools.search_web / fetch_url

  /** A list `result`; else JSON from text starting with `[` (`{` is not
      tried); else a bare list; else `[]`.  Never raises. */
  function SearchSk(rt: Runtime, env: Value): (r: Value)
    ensures GetAttr(env, "result").List? ==> r == GetAttr(env, "result")
    ensures !GetAttr(env, "result").List? ==>
              var txt := Envelope.ExtractText(rt, env);
              if StrippedStartsWith(txt, {'['}) && Loads(rt, txt).Some? then r == Loads(rt, txt).value
              else r == (if env.List? then env else List([]))
  {
    var direct := GetAttr(env, "result");
    if direct.List? then direct
    else
      var txt := Envelope.ExtractText(rt, env);
      if |txt| > 0 && StrippedStartsWith(txt, {'['}) && Loads(rt, txt).Some? then Loads(rt, txt).value
      else if env.List? then env
      else List([])
  }

  /** A dictionary `result`; else JSON from text starting with `{`; else a
      bare dictionary; else `{}`. */
  function FetchSk(rt: Runtime, env: Value): (r: Value)
    ensures GetAttr(env, "result").Dict? ==> r == GetAttr(env, "result")
    ensures !GetAttr(env, "result").Dict? ==>
              var txt := Envelope.ExtractText(rt, env);
              if StrippedStartsWith(txt, {'{'}) && Loads(rt, txt).Some? then r == Loads(rt, txt).value
              else r == (if env.Dict? then env else Dict(map[]))
  {
    var direct := GetAttr(env, "result");
    if direct.Dict? then direct
    else
      var txt := Envelope.ExtractText(rt, env);
      if |txt| > 0 && StrippedStartsWith(txt, {'{'}) && Loads(rt, txt).Some? then Loads(rt, txt).value
      else if env.Dict? then env
      else Dict(map[])
  }

  // ---------------------------------------------------------------------
  // deepwiki_assistant/client.py: table of contents and page

  /** JSON when the stripped text starts with `[` or `{` and parses,
      otherwise the raw text. */
  function Toc(rt: Runtime, txt: string): (r: Value)
    ensures !StrippedStartsWith(txt, {'[', '{'}) ==> r == Str(txt)
    ensures StrippedStartsWith(txt, {'[', '{'}) && Loads(rt, txt).Some? ==> r == Loads(rt, txt).value
    ensures Loads(rt, txt).None? ==> r == Str(txt)
  {
    if StrippedStartsWith(txt, {'[', '{'}) then
      (match Loads(rt, txt) case Some(v) => v case None => Str(txt))
    else Str(txt)
  }

  /** JSON when the stripped text starts with `{` or `[` and parses,
      otherwise `{"content": text}`. */
  function Page(rt: Runtime, txt: string): (r: Value)
    ensures !StrippedStartsWith(txt, {'{', '['}) ==> r == Dict(map["content" := Str(txt)])
    ensures StrippedStartsWith(txt, {'{', '['}) && Loads(rt, txt).Some? ==> r == Loads(rt, txt).value
    ensures Loads(rt, txt).None? ==> r == Dict(map["content" := Str(txt)])
  {
    if StrippedStartsWith(txt, {'{', '['}) then
      (match Loads(rt, txt) case Some(v) => v case None => Dict(map["content" := Str(txt)]))
    else Dict(map["content" := Str(txt)])
  }
}
