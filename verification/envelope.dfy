/** Decoders that dig the payload out of a loosely typed MCP call result
    (a `CallToolResult`, a bare list of content items, a Semantic Kernel
    `FunctionResult`, a resource read). */
module Envelope {
  import opened Python

  /** What `getattr(x, "text", None)` finds on a content item. */
  function ItemText(item: Value): Value
  {
    GetAttr(item, "text")
  }

  // ---------------------------------------------------------------------
  // _extract_text_from_result / _extract_text (three identical copies)

  /** The outcome of probing one accessor path. */
  datatype Probe = Hit(text: string) | Miss | Crash

  /** `content[0].text` when `content` is truthy; indexing something that is
      truthy but not a sequence raises inside the `try`. */
  function ContentProbe(env: Value): Probe
  {
    var content := GetAttr(env, "content");
    if !Truthy(content) then Miss
    else
      match Index0(content)
      case Raised(_) => Crash
      case Done(first) => if ItemText(first).Str? then Hit(ItemText(first).s) else Miss
  }

  /** The envelope's own `.text`. */
  function TextProbe(env: Value): Probe
  {
    if GetAttr(env, "text").Str? then Hit(GetAttr(env, "text").s) else Miss
  }

  /** `env[0].text` for a non-empty bare list. */
  function ListProbe(env: Value): Probe
  {
    if env.List? && |env.items| > 0 && ItemText(env.items[0]).Str? then Hit(ItemText(env.items[0]).s)
    else Miss
  }

  /** Normalises any result to text and never raises: the first string among
      `content[0].text`, `.text` and `[0].text`, else `str(env)`.  An
      exception while probing abandons the remaining probes. */
  function ExtractText(rt: Runtime, env: Value): (r: string)
    ensures ContentProbe(env).Hit? ==> r == ContentProbe(env).text
    ensures ContentProbe(env).Miss? && TextProbe(env).Hit? ==> r == TextProbe(env).text
    ensures ContentProbe(env).Miss? && TextProbe(env).Miss? && ListProbe(env).Hit? ==> r == ListProbe(env).text
    ensures ContentProbe(env).Crash? ==> r == ToStr(rt, env)
    ensures ContentProbe(env).Miss? && TextProbe(env).Miss? && ListProbe(env).Miss? ==> r == ToStr(rt, env)
  {
    var content := GetAttr(env, "content");
    if Truthy(content) && Index0(content).Raised? then
      ToStr(rt, env)
    else if Truthy(content) && ItemText(Index0(content).value).Str? then
      ItemText(Index0(content).value).s
    else if GetAttr(env, "text").Str? then
      GetAttr(env, "text").s
    else if env.List? && |env.items| > 0 && ItemText(env.items[0]).Str? then
      ItemText(env.items[0]).s
    else
      ToStr(rt, env)
  }

  /** A content item carrying `text`. */
  function TextItem(t: string): Value
  {
    Obj(map["text" := Str(t)])
  }

  /** The same text payload, delivered in any of the three shapes the
      decoder knows, decodes to that payload. */
  lemma ExtractTextShapeIndependent(rt: Runtime, t: string, more: seq<Value>)
    ensures ExtractText(rt, Obj(map["content" := List([TextItem(t)] + more)])) == t
    ensures ExtractText(rt, Obj(map["text" := Str(t)])) == t
    ensures ExtractText(rt, List([TextItem(t)] + more)) == t
    ensures ExtractText(rt, Str(t)) == t
  {
  }

  /** A truthy `content` that cannot be indexed ends the probing: the text
      attribute next to it is ignored. */
  lemma ExtractTextCrashIgnoresText(rt: Runtime, t: string)
    ensures ExtractText(rt, Obj(map["content" := Dict(map["k" := Null]), "text" := Str(t)]))
         == rt.repr(Obj(map["content" := Dict(map["k" := Null]), "text" := Str(t)]))
  {
  }

  // ---------------------------------------------------------------------
  // MCPTools._unwrap_result (llm_driven_client.py)

  /** `content[0].text` when `content` is a non-empty list, else None. */
  function FirstItemText(env: Value): Value
  {
    var content := GetAttr(env, "content");
    if content.List? && |content.items| > 0 then ItemText(content.items[0]) else Null
  }

  /** First non-None among `result`, `content[0].text` and `data`, else the
      envelope itself. */
  function UnwrapResult(env: Value): (r: Value)
    ensures GetAttr(env, "result") != Null ==> r == GetAttr(env, "result")
    ensures GetAttr(env, "result") == Null && FirstItemText(env) != Null ==> r == FirstItemText(env)
    ensures GetAttr(env, "result") == Null && FirstItemText(env) == Null && GetAttr(env, "data") != Null
      ==> r == GetAttr(env, "data")
    ensures GetAttr(env, "result") == Null && FirstItemText(env) == Null && GetAttr(env, "data") == Null
      ==> r == env
    ensures r == Null ==> env == Null
  {
    var direct := GetAttr(env, "result");
    if direct != Null then direct
    else
      var content := GetAttr(env, "content");
      var txt := if content.List? && |content.items| > 0 then ItemText(content.items[0]) else Null;
      if txt != Null then txt
      else
        var data := GetAttr(env, "data");
        if data != Null then data else env
  }

  /** The payload comes out unchanged whichever accessor carries it. */
  lemma UnwrapResultShapeIndependent(p: Value)
    requires p != Null
    ensures UnwrapResult(Obj(map["result" := p])) == p
    ensures UnwrapResult(Obj(map["content" := List([Obj(map["text" := p])])])) == p
    ensures UnwrapResult(Obj(map["data" := p])) == p
    ensures !p.Obj? ==> UnwrapResult(p) == p
  {
  }

  // ---------------------------------------------------------------------
  // _unwrap (sk_client.py)

  /** A Semantic Kernel `FunctionResult` holding `v`. */
  function FunctionResult(v: Value): Value
  {
    Obj(map["value" := v])
  }

  /** `value.value` when present and not None, else the value itself. */
  function Unwrap(v: Value): (r: Value)
    ensures GetAttr(v, "value") != Null ==> r == GetAttr(v, "value")
    ensures GetAttr(v, "value") == Null ==> r == v
  {
    var inner := GetAttr(v, "value");
    if inner != Null then inner else v
  }

  /** Unwrapping undoes the kernel's wrapping, and leaves plain data alone. */
  lemma UnwrapFunctionResult(v: Value)
    ensures v != Null ==> Unwrap(FunctionResult(v)) == v
    ensures !v.Obj? ==> Unwrap(v) == v
  {
  }

  // ---------------------------------------------------------------------
  // _extract_text_from_resource (mcpconcepts/simple_resources_client.py)

  /** `xs[0].text`, with the exceptions Python raises on the way. */
  function FirstText(xs: Value): (r: Outcome<Value>)
    ensures r.Done? <==> Index0(xs).Done? && Attr(Index0(xs).value, "text").Done?
  {
    match Index0(xs)
    case Raised(e) => Raised(e)
    case Done(first) => Attr(first, "text")
  }

  /** `contents`, else `resource.contents` when `contents` is None. */
  function ResourceContents(v: Value): Value
  {
    var contents := GetAttr(v, "contents");
    if contents == Null then GetAttr(GetAttr(v, "resource"), "contents") else contents
  }

  /** A list yields its first item's text; otherwise `contents` is preferred
      over `resource.contents`.  Nothing is defaulted: a missing or empty
      collection raises. */
  function ExtractResourceText(v: Value): (r: Outcome<Value>)
    ensures v.List? ==> r == FirstText(v)
    ensures !v.List? && GetAttr(v, "contents") != Null ==> r == FirstText(GetAttr(v, "contents"))
    ensures !v.List? && GetAttr(v, "contents") == Null ==> r == FirstText(GetAttr(GetAttr(v, "resource"), "contents"))
    ensures !v.List? && ResourceContents(v) == Null ==> r == Raised(TypeError)
    ensures v == List([]) ==> r == Raised(IndexError)
  {
    if v.List? then FirstText(v)
    else FirstText(ResourceContents(v))
  }

  /** The three shapes a resource read may take all yield the item's text. */
  lemma ResourceShapes(t: Value, more: seq<Value>)
    ensures ExtractResourceText(List([Obj(map["text" := t])] + more)) == Done(t)
    ensures ExtractResourceText(Obj(map["contents" := List([Obj(map["text" := t])] + more)])) == Done(t)
    ensures ExtractResourceText(Obj(map["resource" := Obj(map["contents" := List([Obj(map["text" := t])] + more)])])) == Done(t)
  {
  }

  // ---------------------------------------------------------------------
  // The prompt text of a `get_prompt` result (client.py, sk_client.py)

  /** The prompt text: the first message's content, its first item when it
      is a non-empty list, and `.text` there, else `str()` of it. */
  function PromptText(rt: Runtime, tpl: Value): (r: Outcome<Value>)
    ensures r.Done? <==> Attr(tpl, "messages").Done? && Index0(Attr(tpl, "messages").value).Done?
    ensures r.Done? ==>
              var content := GetAttr(Index0(Attr(tpl, "messages").value).value, "content");
              && (content.List? && |content.items| > 0 ==>
                    r.value == GetAttrOr(content.items[0], "text", Str(ToStr(rt, content.items[0]))))
              && (!(content.List? && |content.items| > 0) ==>
                    r.value == GetAttrOr(content, "text", Str(ToStr(rt, content))))
  {
    match Attr(tpl, "messages")
    case Raised(e) => Raised(e)
    case Done(msgs) =>
      match Index0(msgs)
      case Raised(e) => Raised(e)
      case Done(msg0) =>
        var content := GetAttr(msg0, "content");
        if content.List? && |content.items| > 0 then
          Done(GetAttrOr(content.items[0], "text", Str(ToStr(rt, content.items[0]))))
        else
          Done(GetAttrOr(content, "text", Str(ToStr(rt, content))))
  }

  /** A prompt result whose one message carries `text`, directly or as the
      first item of a content list. */
  function PromptResult(text: string, listed: bool): Value
  {
    var item := Obj(map["text" := Str(text)]);
    Obj(map["messages" := List([Obj(map["content" := if listed then List([item]) else item])])])
  }

}
