/** Dynamic values of the Python runtime that the clients probe, and the few
    built-in operations they apply to them (attribute lookup with a default,
    truthiness, `v[0]`, `dict.get`, `str()`). */
module Python {

  datatype Option<+T> = None | Some(value: T)

  /** A Python value as seen by the clients.  `Dict` is a JSON-style
      dictionary with string keys; `Obj` is any other object, described by
      the attributes it exposes (a tool-call result, a content item, a
      Semantic Kernel function result). */
  datatype Value =
    | Null
    | Bool(b: bool)
    | Int(i: int)
    | Float(x: real)
    | Str(s: string)
    | List(items: seq<Value>)
    | Dict(entries: map<string, Value>)
    | Obj(attrs: map<string, Value>)

  /** The exception classes the modelled code can raise or catch. */
  datatype Error =
    | AttributeError
    | TypeError
    | KeyError
    | IndexError
    | RuntimeError(message: string)
    | GenerationFailed
    | RemoteFailed(message: string)
    | SystemExit(message: string)

  datatype Outcome<+T> = Done(value: T) | Raised(error: Error)

  /** The library behaviour the model leaves abstract: `json.loads`
      (None when it raises), `json.dumps`, and `str()` of a non-string. */
  datatype Runtime = Runtime(
    loads: string -> Option<Value>,
    dumps: Value -> string,
    repr: Value -> string)

  /** `getattr(v, name, default)`: only objects carry attributes. */
  function GetAttrOr(v: Value, name: string, default: Value): (r: Value)
    ensures v.Obj? && name in v.attrs ==> r == v.attrs[name]
    ensures !(v.Obj? && name in v.attrs) ==> r == default
  {
    if v.Obj? && name in v.attrs then v.attrs[name] else default
  }

  /** `getattr(v, name, None)` */
  function GetAttr(v: Value, name: string): Value
  {
    GetAttrOr(v, name, Null)
  }

  /** `v.name` without a default: raises AttributeError when absent. */
  function Attr(v: Value, name: string): (r: Outcome<Value>)
    ensures r.Done? <==> v.Obj? && name in v.attrs
    ensures r.Done? ==> r.value == v.attrs[name]
    ensures r.Raised? ==> r.error == AttributeError
  {
    if v.Obj? && name in v.attrs then Done(v.attrs[name]) else Raised(AttributeError)
  }

  /** Python truthiness; objects without `__bool__`/`__len__` are true. */
  predicate Truthy(v: Value)
  {
    match v
    case Null => false
    case Bool(b) => b
    case Int(i) => i != 0
    case Float(x) => x != 0.0
    case Str(s) => |s| > 0
    case List(items) => |items| > 0
    case Dict(entries) => |entries| > 0
    case Obj(_) => true
  }

  /** `v[0]`: the first item of a list, the first character of a string;
      a dictionary has no key `0` here (its keys are strings), and the
      other values are not subscriptable. */
  function Index0(v: Value): (r: Outcome<Value>)
    ensures r.Done? <==> (v.List? && |v.items| > 0) || (v.Str? && |v.s| > 0)
    ensures r.Done? && v.List? ==> r.value == v.items[0]
    ensures r.Done? && v.Str? ==> r.value == Str([v.s[0]])
  {
    match v
    case List(items) => if |items| > 0 then Done(items[0]) else Raised(IndexError)
    case Str(s) => if |s| > 0 then Done(Str([s[0]])) else Raised(IndexError)
    case Dict(_) => Raised(KeyError)
    case _ => Raised(TypeError)
  }

  /** `d.get(key, default)` on a dictionary. */
  function DictGet(d: map<string, Value>, key: string, default: Value): (r: Value)
    ensures key in d ==> r == d[key]
    ensures key !in d ==> r == default
  {
    if key in d then d[key] else default
  }

  /** `v.get(key, default)`: only dictionaries have `get`. */
  function Get(v: Value, key: string, default: Value): (r: Outcome<Value>)
    ensures r.Done? <==> v.Dict?
    ensures r.Done? ==> r.value == DictGet(v.entries, key, default)
  {
    if v.Dict? then Done(DictGet(v.entries, key, default)) else Raised(AttributeError)
  }

  /** `a or b` */
  function Or(a: Value, b: Value): (r: Value)
    ensures Truthy(a) ==> r == a
    ensures !Truthy(a) ==> r == b
  {
    if Truthy(a) then a else b
  }

  /** `str(v)`, which is also what an f-string inserts. */
  function ToStr(rt: Runtime, v: Value): (r: string)
    ensures v.Str? ==> r == v.s
  {
    if v.Str? then v.s else rt.repr(v)
  }

  /** Binding `f(**args)` for `def f(required, optional=default)`: `args`
      must be a dictionary that names `required` and no other parameter
      than the two; otherwise the call raises TypeError before running. */
  function BindKwargs(args: Value, required: string, optional: string, default: Value): (r: Outcome<(Value, Value)>)
    ensures r.Done? <==> args.Dict? && required in args.entries && args.entries.Keys <= {required, optional}
    ensures r.Done? ==> r.value.0 == args.entries[required]
    ensures r.Done? ==> r.value.1 == DictGet(args.entries, optional, default)
    ensures r.Raised? ==> r.error == TypeError
  {
    if args.Dict? && required in args.entries && args.entries.Keys <= {required, optional} then
      Done((args.entries[required], DictGet(args.entries, optional, default)))
    else
      Raised(TypeError)
  }

  /** `isinstance(v, (list, dict))` */
  predicate IsListOrDict(v: Value)
  {
    v.List? || v.Dict?
  }

  // ---------------------------------------------------------------------
  // Loops over records

  function OptionLines(o: Option<string>): seq<string>
  {
    if o.Some? then [o.value] else []
  }

  /** `for r in rs:` with a body that calls `r.get(...)` and adds at most
      one line: a record that is not a dictionary raises AttributeError,
      `line` may raise by itself, and the first exception ends the loop. */
  function EachDict(rs: seq<Value>, line: map<string, Value> -> Outcome<Option<string>>): (r: Outcome<seq<string>>)
    ensures r.Done? <==> forall i :: 0 <= i < |rs| ==> rs[i].Dict? && line(rs[i].entries).Done?
    ensures r.Done? ==> |r.value| <= |rs|
    ensures r.Done? ==>
              (r.value == [] <==> forall i :: 0 <= i < |rs| ==> rs[i].Dict? && line(rs[i].entries) == Done(None))
    ensures r.Done? && (forall i :: 0 <= i < |rs| ==> rs[i].Dict? && line(rs[i].entries).value.Some?) ==> |r.value| == |rs|
    ensures |rs| > 0 && !rs[0].Dict? ==> r == Raised(AttributeError)
    ensures r.Raised? ==>
              r.error == AttributeError || exists i :: 0 <= i < |rs| && rs[i].Dict? && line(rs[i].entries) == Raised(r.error)
    decreases |rs|
  {
    if |rs| == 0 then Done([])
    else if !rs[0].Dict? then Raised(AttributeError)
    else
      var rest := EachDict(rs[1..], line);
      assert forall i :: 1 <= i < |rs| ==> rs[i] == rs[1..][i - 1];
      match line(rs[0].entries)
      case Raised(e) => Raised(e)
      case Done(first) =>
        match rest
        case Raised(e) => Raised(e)
        case Done(lines) => Done(OptionLines(first) + lines)
  }

  /** Lines come out in record order: one more record adds its own line,
      if any, at the end. */
  lemma {:induction false} EachDictAppend(rs: seq<Value>, last: map<string, Value>, line: map<string, Value> -> Outcome<Option<string>>)
    requires EachDict(rs, line).Done? && line(last).Done?
    ensures EachDict(rs + [Dict(last)], line) == Done(EachDict(rs, line).value + OptionLines(line(last).value))
    decreases |rs|
  {
    if |rs| == 0 {
      assert rs + [Dict(last)] == [Dict(last)];
      assert [Dict(last)][1..] == [];
      assert EachDict(rs, line) == Done([]);
      assert [] + OptionLines(line(last).value) == OptionLines(line(last).value) + [];
    } else {
      assert (rs + [Dict(last)])[1..] == rs[1..] + [Dict(last)];
      assert (rs + [Dict(last)])[0] == rs[0];
      EachDictAppend(rs[1..], last, line);
      var q := OptionLines(line(rs[0].entries).value);
      var rest := EachDict(rs[1..], line).value;
      assert q + (rest + OptionLines(line(last).value)) == (q + rest) + OptionLines(line(last).value);
    }
  }
}
