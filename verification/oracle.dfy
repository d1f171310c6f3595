/** The outside world of the clients, replaced by scripted replies: the
    text-generation model, the MCP tool server and plain HTTP.  Every call
    consumes the next scripted reply of its kind and is appended to a trace,
    so that lemmas can count calls. */
module Oracle {
  import opened Python

  /** What one `generate_content(...).text` call produced. */
  datatype Reply = Said(text: string) | Unavailable

  /** `ssl.SSLError` versus every other exception class. */
  datatype FaultKind = SslError | OtherError

  /** A raised exception: its class and `str(e)`. */
  datatype Fault = Fault(kind: FaultKind, message: string)

  /** What one remote call produced: a value, or an exception. */
  datatype Remote = Answered(value: Value) | Failed(fault: Fault)

  datatype Call =
    | Generate(model: string, prompt: string)
    | Tool(name: string, args: map<string, Value>)
    | Prompt(name: string, args: map<string, Value>)
    | Http(url: string, verify: bool)

  /** Replies not yet consumed, and the calls made so far. */
  datatype World = World(replies: seq<Reply>, remote: seq<Remote>, trace: seq<Call>)

  datatype Step<T> = Step(value: T, world: World)

  /** When the script has nothing more to say, the call fails. */
  const Silence := Fault(OtherError, "no scripted reply")

  function Start(replies: seq<Reply>, remote: seq<Remote>): World
  {
    World(replies, remote, [])
  }

  /** One text-generation call. */
  function Ask(w: World, model: string, prompt: string): (s: Step<Reply>)
    ensures s.world.trace == w.trace + [Generate(model, prompt)]
    ensures s.world.remote == w.remote
    ensures |w.replies| > 0 ==> s.value == w.replies[0] && s.world.replies == w.replies[1..]
    ensures |w.replies| == 0 ==> s.value == Unavailable && s.world.replies == []
  {
    var trace := w.trace + [Generate(model, prompt)];
    if |w.replies| > 0 then Step(w.replies[0], World(w.replies[1..], w.remote, trace))
    else Step(Unavailable, World([], w.remote, trace))
  }

  /** `generate_content(prompt).text`, with a failed call raising. */
  function AskText(w: World, model: string, prompt: string): (s: Step<Outcome<string>>)
    ensures s.world == Ask(w, model, prompt).world
    ensures s.value.Done? <==> |w.replies| > 0 && w.replies[0].Said?
    ensures s.value.Done? ==> s.value.value == w.replies[0].text
    ensures s.value.Raised? ==> s.value.error == GenerationFailed
  {
    var a := Ask(w, model, prompt);
    match a.value
    case Said(text) => Step(Done(text), a.world)
    case Unavailable => Step(Raised(GenerationFailed), a.world)
  }

  /** One remote call, recorded as `call`. */
  function Remotely(w: World, call: Call): (s: Step<Remote>)
    requires !call.Generate?
    ensures s.world.trace == w.trace + [call]
    ensures s.world.replies == w.replies
    ensures |w.remote| > 0 ==> s.value == w.remote[0] && s.world.remote == w.remote[1..]
    ensures |w.remote| == 0 ==> s.value == Failed(Silence) && s.world.remote == []
  {
    var trace := w.trace + [call];
    if |w.remote| > 0 then Step(w.remote[0], World(w.replies, w.remote[1..], trace))
    else Step(Failed(Silence), World(w.replies, [], trace))
  }

  /** `client.call_tool(name, args)` */
  function CallTool(w: World, name: string, args: map<string, Value>): Step<Remote>
  {
    Remotely(w, Tool(name, args))
  }

  /** An HTTP GET with certificate verification on or off. */
  function HttpGet(w: World, url: string, verify: bool): Step<Remote>
  {
    Remotely(w, Http(url, verify))
  }

  // ---------------------------------------------------------------------
  // Counting calls in a trace

  predicate IsTool(c: Call, name: string)
  {
    c.Tool? && c.name == name
  }

  function ToolCalls(t: seq<Call>, name: string): nat
  {
    if |t| == 0 then 0 else (if IsTool(t[0], name) then 1 else 0) + ToolCalls(t[1..], name)
  }

  function Generations(t: seq<Call>): nat
  {
    if |t| == 0 then 0 else (if t[0].Generate? then 1 else 0) + Generations(t[1..])
  }

  lemma {:induction false} CountsAppend(a: seq<Call>, b: seq<Call>, name: string)
    ensures ToolCalls(a + b, name) == ToolCalls(a, name) + ToolCalls(b, name)
    ensures Generations(a + b) == Generations(a) + Generations(b)
    decreases |a|
  {
    if |a| == 0 {
      assert a + b == b;
    } else {
      assert (a + b)[1..] == a[1..] + b;
      CountsAppend(a[1..], b, name);
    }
  }

  lemma CountsOne(c: Call, name: string)
    ensures ToolCalls([c], name) == (if IsTool(c, name) then 1 else 0)
    ensures Generations([c]) == (if c.Generate? then 1 else 0)
  {
    assert [c][1..] == [];
  }

  /** A prefix of `t` that starts with a call of `name`, where `t` makes no
      further such call, makes exactly that one. */
  lemma CountsFirstOnly(added: seq<Call>, t: seq<Call>, name: string)
    requires 0 < |added| && added <= t && IsTool(added[0], name)
    requires ToolCalls(t[1..], name) == 0
    ensures ToolCalls(added, name) == 1
  {
    assert added[1..] <= t[1..];
    CountsPrefix(added[1..], t[1..], name);
  }

  /** The calls added between `t0` and `t2` are those added up to `t1` and
      those added after it. */
  lemma CountsSplit(t0: seq<Call>, t1: seq<Call>, t2: seq<Call>, name: string)
    requires t0 <= t1 <= t2
    ensures ToolCalls(t2[|t0|..], name) == ToolCalls(t1[|t0|..], name) + ToolCalls(t2[|t1|..], name)
    ensures Generations(t2[|t0|..]) == Generations(t1[|t0|..]) + Generations(t2[|t1|..])
  {
    assert t2[|t0|..] == t1[|t0|..] + t2[|t1|..];
    CountsAppend(t1[|t0|..], t2[|t1|..], name);
  }

  /** The calls added up to one more call are those added before it and
      that call. */
  lemma AddedThen(t0: seq<Call>, t1: seq<Call>, c: Call)
    requires t0 <= t1
    ensures t0 <= t1 + [c] && (t1 + [c])[|t0|..] == t1[|t0|..] + [c]
  {
  }

  /** Counting calls in a prefix never finds more than in the whole. */
  lemma CountsPrefix(a: seq<Call>, b: seq<Call>, name: string)
    requires a <= b
    ensures ToolCalls(a, name) <= ToolCalls(b, name)
    ensures Generations(a) <= Generations(b)
  {
    assert b == a + b[|a|..];
    CountsAppend(a, b[|a|..], name);
  }

  // ---------------------------------------------------------------------
  // Choosing a model name: `a or b or ... or fallback`

  predicate Filled(o: Option<string>)
  {
    o.Some? && |o.value| > 0
  }

  predicate NoneFilledBefore(candidates: seq<Option<string>>, i: int)
    requires 0 <= i <= |candidates|
  {
    forall j :: 0 <= j < i ==> !Filled(candidates[j])
  }

  /** The first candidate that is set and non-empty, else the fallback. */
  function Preferred(candidates: seq<Option<string>>, fallback: string): (r: string)
    ensures forall i ::
              0 <= i < |candidates| && Filled(candidates[i]) && NoneFilledBefore(candidates, i) ==>
                r == candidates[i].value
    ensures NoneFilledBefore(candidates, |candidates|) ==> r == fallback
  {
    if |candidates| == 0 then fallback
    else if Filled(candidates[0]) then candidates[0].value
    else
      var r := Preferred(candidates[1..], fallback);
      assert forall i :: 1 <= i < |candidates| ==> candidates[i] == candidates[1..][i - 1];
      r
  }

  const DefaultModel := "gemini-1.5-flash"

  /** `first or second or "gemini-1.5-flash"`: the first name that is set
      and non-empty, else the default model. */
  function ChooseModel(first: Option<string>, second: Option<string>): (r: string)
    ensures Filled(first) ==> r == first.value
    ensures !Filled(first) && Filled(second) ==> r == second.value
    ensures !Filled(first) && !Filled(second) ==> r == DefaultModel
  {
    var candidates := [first, second];
    assert candidates[0] == first && candidates[1] == second;
    assert NoneFilledBefore(candidates, 0);
    assert !Filled(first) ==> NoneFilledBefore(candidates, 1);
    assert !Filled(first) && !Filled(second) ==> NoneFilledBefore(candidates, 2);
    Preferred(candidates, DefaultModel)
  }
}
