/** Tools, the built-in tool functions, and the name-keyed registry that
    lists and invokes them (kitz_gateway/tools.py). */
module Tools {
  import opened Json

  /** An argument or result dictionary. */
  type Args = map<string, Json>

  /** What calling a tool comes to. `NotFound` stands for a raised `KeyError`,
      `Invalid` for a `ValueError`, and `Crashed` for any other exception
      (the `AttributeError` of calling `.get` on something that is not a dict). */
  datatype Result =
    | Ok(value: Args)
    | NotFound(msg: string)
    | Invalid(msg: string)
    | Crashed(msg: string)

  /** The function a tool runs: one of the three built-ins, or any caller-supplied
      function of the argument value it is handed. */
  datatype ToolFunc = Echo | UtcNow | SumNumbers | Custom(f: Json -> Result)

  datatype Tool = Tool(name: string, description: string, func: ToolFunc)

  /** One `{"name": ..., "description": ...}` entry of `list_tools`. */
  datatype ToolInfo = ToolInfo(name: string, description: string)

  // ---------------------------------------------------------------------------
  // Built-in tool functions

  /** The `AttributeError` that `args.get(...)` raises when `args` is not a dict. */
  function NoGet(args: Json): Result {
    Crashed("'" + TypeName(args) + "' object has no attribute 'get'")
  }

  /** `_echo`: the `message` argument, whatever its type, or `""` when absent. */
  function EchoResult(args: Json): Result {
    match args
    case JObject(m) => Ok(map["echo" := Get(m, "message", JString(""))])
    case _ => NoGet(args)
  }

  /** `_utc_now`: ignores its argument and reports the clock reading `now`,
      the `isoformat()` text of the current UTC instant. */
  function UtcNowResult(args: Json, now: string): Result {
    Ok(map["utc_iso" := JString(now)])
  }

  const SumError := "'numbers' must be a list of int/float values"

  /** `isinstance(v, (int, float))`; a `bool` passes because `bool` is a
      subclass of `int`. */
  predicate IsNumber(v: Json) {
    v.JInt? || v.JBool?
  }

  /** The integer a number stands for in arithmetic (`True` is 1). */
  function NumberValue(v: Json): int
    requires IsNumber(v)
  {
    match v
    case JBool(b) => if b then 1 else 0
    case JInt(i) => i
  }

  /** The negation of `any(not isinstance(n, (int, float)) for n in items)`. */
  function AllNumbers(items: seq<Json>): (r: bool)
    ensures r <==> forall i :: 0 <= i < |items| ==> IsNumber(items[i])
  {
    if items == [] then true else IsNumber(items[0]) && AllNumbers(items[1..])
  }

  /** Python's `sum(items)`: the left-to-right total starting from 0. */
  function Total(items: seq<Json>): int
    requires forall i :: 0 <= i < |items| ==> IsNumber(items[i])
  {
    if items == [] then 0 else Total(items[..|items| - 1]) + NumberValue(items[|items| - 1])
  }

  /** `_sum_numbers`. */
  function SumResult(args: Json): (r: Result)
    ensures !args.JObject? ==> r.Crashed?
    ensures args.JObject? ==> !r.NotFound? && !r.Crashed?
    // the two ways to fail validation, and nothing else
    ensures args.JObject? ==>
              (r.Invalid? <==>
                 "numbers" in args.fields &&
                 (!args.fields["numbers"].JArray? ||
                  exists i :: 0 <= i < |args.fields["numbers"].items| &&
                                !IsNumber(args.fields["numbers"].items[i])))
    ensures r.Invalid? ==> r.msg == SumError
    ensures args.JObject? && "numbers" !in args.fields ==>
              r == Ok(map["sum" := JInt(0), "count" := JInt(0)])
    ensures args.JObject? && "numbers" in args.fields && r.Ok? ==>
              var items := args.fields["numbers"].items;
              && (forall i :: 0 <= i < |items| ==> IsNumber(items[i]))
              && r.value == map["sum" := JInt(Total(items)), "count" := JInt(|items|)]
  {
    match args
    case JObject(m) =>
      var numbers := Get(m, "numbers", JArray([]));
      if !numbers.JArray? || !AllNumbers(numbers.items) then Invalid(SumError)
      else Ok(map["sum" := JInt(Total(numbers.items)), "count" := JInt(|numbers.items|)])
    case _ => NoGet(args)
  }

  /** The total of a concatenation is the sum of the totals, so the order in
      which `sum` adds up its list does not matter for integers. */
  lemma {:induction false} TotalAppend(a: seq<Json>, b: seq<Json>)
    requires forall i :: 0 <= i < |a| ==> IsNumber(a[i])
    requires forall i :: 0 <= i < |b| ==> IsNumber(b[i])
    ensures forall i :: 0 <= i < |a + b| ==> IsNumber((a + b)[i])
    ensures Total(a + b) == Total(a) + Total(b)
  {
    assert forall i :: 0 <= i < |a + b| ==> IsNumber((a + b)[i]) by {
      forall i | 0 <= i < |a + b| ensures IsNumber((a + b)[i]) {
        if i < |a| { assert (a + b)[i] == a[i]; } else { assert (a + b)[i] == b[i - |a|]; }
      }
    }
    if b == [] {
      assert a + b == a;
    } else {
      var b' := b[..|b| - 1];
      assert (a + b)[..|a + b| - 1] == a + b';
      assert (a + b)[|a + b| - 1] == b[|b| - 1];
      TotalAppend(a, b');
    }
  }

  /** Each element adds its own value: the total is the sum of the elements
      taken front to back as well. */
  lemma {:induction false} TotalFrontToBack(items: seq<Json>)
    requires forall i :: 0 <= i < |items| ==> IsNumber(items[i])
    ensures items != [] ==> Total(items) == NumberValue(items[0]) + Total(items[1..])
  {
    if items != [] {
      assert items == [items[0]] + items[1..];
      TotalAppend([items[0]], items[1..]);
      assert [items[0]][..0] == [];
    }
  }

  // ---------------------------------------------------------------------------
  // Tool.invoke

  function Apply(func: ToolFunc, args: Json, now: string): Result {
    match func
    case Echo => EchoResult(args)
    case UtcNow => UtcNowResult(args, now)
    case SumNumbers => SumResult(args)
    case Custom(f) => f(args)
  }

  /** `Tool.invoke`: `self.func(args or {})`. */
  function InvokeTool(t: Tool, args: Json, now: string): Result {
    Apply(t.func, if Truthy(args) then args else JObject(map[]), now)
  }

  /** An absent (`None`) or empty argument map, or any other falsy value,
      reaches the tool function as the empty map; a truthy value reaches it
      unchanged. */
  lemma InvokeToolArgs(t: Tool, args: Json, now: string)
    ensures !Truthy(args) ==> InvokeTool(t, args, now) == Apply(t.func, JObject(map[]), now)
    ensures !Truthy(args) ==> InvokeTool(t, args, now) == InvokeTool(t, JNull, now)
    ensures Truthy(args) ==> InvokeTool(t, args, now) == Apply(t.func, args, now)
  {
  }

  // ---------------------------------------------------------------------------
  // The registry

  /** The names of the given tools, position by position. */
  function Names(tools: seq<Tool>): (r: seq<string>)
    ensures |r| == |tools|
    ensures forall i :: 0 <= i < |tools| ==> r[i] == tools[i].name
  {
    seq(|tools|, i requires 0 <= i < |tools| => tools[i].name)
  }

  ghost predicate Distinct(s: seq<string>) {
    forall i, j :: 0 <= i < j < |s| ==> s[i] != s[j]
  }

  /** The position of the first occurrence of `x`. */
  function FirstIndex(s: seq<string>, x: string): (k: nat)
    requires x in s
    ensures k < |s| && s[k] == x
    ensures forall i :: 0 <= i < k ==> s[i] != x
  {
    if s[0] == x then 0 else 1 + FirstIndex(s[1..], x)
  }

  /** The position of the last occurrence of `x`. */
  function LastIndex(s: seq<string>, x: string): (k: nat)
    requires x in s
    ensures k < |s| && s[k] == x
    ensures forall i :: k < i < |s| ==> s[i] != x
  {
    if s[|s| - 1] == x then |s| - 1 else LastIndex(s[..|s| - 1], x)
  }

  /** The `_tools` dict is kept as its values in the insertion order of their
      keys; its keys are the values' names. */
  datatype Registry = Registry(tools: seq<Tool>)

  /** `d[t.name] = t` on a dict with distinct keys: an existing key keeps its
      position and takes the new value; a new key goes at the end. */
  function Put(tools: seq<Tool>, t: Tool): (r: seq<Tool>)
    requires Distinct(Names(tools))
    ensures Distinct(Names(r))
    ensures t.name in Names(tools) ==> Names(r) == Names(tools)
    ensures t.name !in Names(tools) ==> Names(r) == Names(tools) + [t.name]
    ensures forall i :: 0 <= i < |r| ==> r[i] == (if r[i].name == t.name then t else tools[i])
  {
    if t.name in Names(tools) then
      var k := FirstIndex(Names(tools), t.name);
      var r := tools[k := t];
      assert Names(r) == Names(tools);
      r
    else
      var r := tools + [t];
      assert Names(r) == Names(tools) + [t.name];
      r
  }

  /** `ToolRegistry.__init__`: the dict comprehension
      `{tool.name: tool for tool in (tools or [])}`, one `Put` per tool in
      list order (`None` is the empty list). */
  function Build(ts: seq<Tool>): (r: Registry)
    ensures Distinct(Names(r.tools))
  {
    if ts == [] then Registry([])
    else Registry(Put(Build(ts[..|ts| - 1]).tools, ts[|ts| - 1]))
  }

  /** The `_tools` dict as a map from name to tool. */
  function Dict(r: Registry): map<string, Tool> {
    map n | n in Names(r.tools) :: r.tools[FirstIndex(Names(r.tools), n)]
  }

  /** `ToolRegistry.list_tools`: the name and description of every dict
      value, in dict order. */
  function ListTools(r: Registry): seq<ToolInfo> {
    seq(|r.tools|, i requires 0 <= i < |r.tools| => ToolInfo(r.tools[i].name, r.tools[i].description))
  }

  function UnknownTool(name: string): string {
    "unknown tool: " + name
  }

  /** `ToolRegistry.invoke`: a `KeyError` for a name that is not a key,
      otherwise whatever the stored tool's `invoke` gives, passed on unchanged. */
  function Invoke(r: Registry, name: string, args: Json, now: string): Result {
    var d := Dict(r);
    if name !in d then NotFound(UnknownTool(name)) else InvokeTool(d[name], args, now)
  }

  // ---------------------------------------------------------------------------
  // What construction gives

  lemma NamesAppend(ts: seq<Tool>, t: Tool)
    ensures Names(ts + [t]) == Names(ts) + [t.name]
  {
  }

  lemma FirstIndexAppend(s: seq<string>, y: string, x: string)
    requires x in s + [y]
    ensures x in s ==> FirstIndex(s + [y], x) == FirstIndex(s, x)
    ensures x !in s ==> FirstIndex(s + [y], x) == |s|
  {
    var k := FirstIndex(s + [y], x);
    if x in s {
      var k0 := FirstIndex(s, x);
      assert (s + [y])[k0] == x;
      assert k <= k0;
      assert s[k] == (s + [y])[k];
    }
  }

  lemma LastIndexAppend(s: seq<string>, y: string, x: string)
    requires x in s + [y]
    ensures x == y ==> LastIndex(s + [y], x) == |s|
    ensures x != y ==> x in s && LastIndex(s + [y], x) == LastIndex(s, x)
  {
    if x != y {
      var k := LastIndex(s + [y], x);
      assert k < |s| && s[k] == x;
      var k0 := LastIndex(s, x);
      assert (s + [y])[k0] == x;
    }
  }

  /** `r` holds exactly the names that occur in `ts`. */
  ghost predicate SameNames(r: seq<Tool>, ts: seq<Tool>) {
    forall n :: n in Names(r) <==> n in Names(ts)
  }

  /** Each tool of `r` is the last tool of `ts` with its name. */
  ghost predicate LastWins(r: seq<Tool>, ts: seq<Tool>)
    requires SameNames(r, ts)
  {
    forall i :: 0 <= i < |r| ==> r[i] == ts[LastIndex(Names(ts), Names(r)[i])]
  }

  /** The names of `r` stand in the order of their first occurrence in `ts`. */
  ghost predicate FirstOrder(r: seq<Tool>, ts: seq<Tool>)
    requires SameNames(r, ts)
  {
    forall i, j :: 0 <= i < j < |r| ==>
      FirstIndex(Names(ts), Names(r)[i]) < FirstIndex(Names(ts), Names(r)[j])
  }

  /** `r` is what the dict comprehension over `ts` holds, in dict order. */
  ghost predicate BuiltFrom(r: seq<Tool>, ts: seq<Tool>) {
    Distinct(Names(r)) && SameNames(r, ts) && LastWins(r, ts) && FirstOrder(r, ts)
  }

  lemma StepSameNames(before: seq<Tool>, pre: seq<Tool>, t: Tool)
    requires Distinct(Names(before)) && SameNames(before, pre)
    ensures SameNames(Put(before, t), pre + [t])
  {
    NamesAppend(pre, t);
  }

  lemma StepLastWins(before: seq<Tool>, pre: seq<Tool>, t: Tool)
    requires BuiltFrom(before, pre)
    ensures SameNames(Put(before, t), pre + [t]) && LastWins(Put(before, t), pre + [t])
  {
    StepSameNames(before, pre, t);
    var r, ts := Put(before, t), pre + [t];
    NamesAppend(pre, t);
    forall i | 0 <= i < |r|
      ensures r[i] == ts[LastIndex(Names(ts), Names(r)[i])]
    {
      var n := Names(r)[i];
      LastIndexAppend(Names(pre), t.name, n);
      if n != t.name {
        assert r[i] == before[i] && Names(before)[i] == n;
        assert ts[LastIndex(Names(pre), n)] == pre[LastIndex(Names(pre), n)];
      }
    }
  }

  lemma StepFirstOrder(before: seq<Tool>, pre: seq<Tool>, t: Tool)
    requires BuiltFrom(before, pre)
    ensures SameNames(Put(before, t), pre + [t]) && FirstOrder(Put(before, t), pre + [t])
  {
    StepSameNames(before, pre, t);
    var r, ts := Put(before, t), pre + [t];
    NamesAppend(pre, t);
    forall i, j | 0 <= i < j < |r|
      ensures FirstIndex(Names(ts), Names(r)[i]) < FirstIndex(Names(ts), Names(r)[j])
    {
      var ni, nj := Names(r)[i], Names(r)[j];
      FirstIndexAppend(Names(pre), t.name, ni);
      FirstIndexAppend(Names(pre), t.name, nj);
      assert ni == Names(before)[i];
      if j < |before| {
        assert nj == Names(before)[j];
      }
    }
  }

  /** The registry that construction builds: one tool per distinct name, no
      two with the same name; the tool kept for a name is the LAST tool in the
      list with that name; and the names stand in the order of their FIRST
      occurrence in the list. */
  lemma {:induction false} BuildSpec(ts: seq<Tool>)
    ensures var r := Build(ts).tools;
      && Distinct(Names(r))
      && (forall n :: n in Names(r) <==> n in Names(ts))
      && (forall i :: 0 <= i < |r| ==> r[i] == ts[LastIndex(Names(ts), r[i].name)])
      && (forall i, j :: 0 <= i < j < |r| ==>
            FirstIndex(Names(ts), r[i].name) < FirstIndex(Names(ts), r[j].name))
  {
    BuildBuiltFrom(ts);
  }

  lemma {:induction false} BuildBuiltFrom(ts: seq<Tool>)
    ensures BuiltFrom(Build(ts).tools, ts)
  {
    if ts != [] {
      var pre, t := ts[..|ts| - 1], ts[|ts| - 1];
      assert ts == pre + [t];
      BuildBuiltFrom(pre);
      StepLastWins(Build(pre).tools, pre, t);
      StepFirstOrder(Build(pre).tools, pre, t);
    }
  }

  /** The dict view: the keys are exactly the names in the list, every key is
      the name of the tool stored under it, and the tool stored under a name is
      the last one with that name. */
  lemma DictSpec(ts: seq<Tool>)
    ensures var d := Dict(Build(ts));
      && (forall n :: n in d <==> n in Names(ts))
      && (forall n :: n in d ==> d[n].name == n)
      && (forall n :: n in d ==> d[n] == ts[LastIndex(Names(ts), n)])
  {
    BuildSpec(ts);
  }

  /** `list_tools` on a registry built from `ts`: pairwise distinct names,
      exactly the names that occur in `ts`, in order of first occurrence, each
      with the description of the last tool of that name. */
  lemma ListToolsSpec(ts: seq<Tool>)
    ensures var l := ListTools(Build(ts));
      && (forall i, j :: 0 <= i < j < |l| ==> l[i].name != l[j].name)
      && (forall i :: 0 <= i < |l| ==> l[i].name in Names(ts))
      && (forall n :: n in Names(ts) ==> exists i :: 0 <= i < |l| && l[i].name == n)
      && (forall i, j :: 0 <= i < j < |l| ==>
            FirstIndex(Names(ts), l[i].name) < FirstIndex(Names(ts), l[j].name))
      && (forall i :: 0 <= i < |l| ==>
            l[i].description == ts[LastIndex(Names(ts), l[i].name)].description)
  {
    BuildBuiltFrom(ts);
    ListingFacts(Build(ts), ts);
    var l := ListTools(Build(ts));
    forall n | n in Names(ts) ensures exists i :: 0 <= i < |l| && l[i].name == n {
      var k := ListedAt(Build(ts), ts, n);
    }
  }

  /** Where a name of `ts` stands in the listing of a registry built from it. */
  lemma ListedAt(reg: Registry, ts: seq<Tool>, n: string) returns (k: nat)
    requires BuiltFrom(reg.tools, ts) && n in Names(ts)
    ensures k < |ListTools(reg)| && ListTools(reg)[k].name == n
  {
    k := FirstIndex(Names(reg.tools), n);
  }

  lemma ListingFacts(reg: Registry, ts: seq<Tool>)
    requires BuiltFrom(reg.tools, ts)
    ensures var l := ListTools(reg);
      && (forall i, j :: 0 <= i < j < |l| ==> l[i].name != l[j].name)
      && (forall i :: 0 <= i < |l| ==> l[i].name in Names(ts))
      && (forall n :: n in Names(ts) ==> exists i :: 0 <= i < |l| && l[i].name == n)
      && (forall i, j :: 0 <= i < j < |l| ==>
            FirstIndex(Names(ts), l[i].name) < FirstIndex(Names(ts), l[j].name))
      && (forall i :: 0 <= i < |l| ==>
            l[i].description == ts[LastIndex(Names(ts), l[i].name)].description)
  {
    var r, l := reg.tools, ListTools(reg);
    assert |l| == |r|;
    assert forall i :: 0 <= i < |l| ==> l[i].name == Names(r)[i];
    forall n ensures (exists i :: 0 <= i < |l| && l[i].name == n) <==> n in Names(ts) {
      ListingHasName(reg, n);
    }
  }

  /** A name is listed exactly when some tool of the registry carries it. */
  lemma ListingHasName(reg: Registry, n: string)
    ensures (exists i :: 0 <= i < |ListTools(reg)| && ListTools(reg)[i].name == n) <==> n in Names(reg.tools)
  {
    if n in Names(reg.tools) {
      var k := FirstIndex(Names(reg.tools), n);
      assert ListTools(reg)[k].name == n;
    }
  }

  /** `invoke` on a registry built from `ts`: a name no tool carries fails
      with `unknown tool: <name>`; otherwise the result is exactly what the
      last tool of that name returns for `args`, errors included. */
  lemma InvokeSpec(ts: seq<Tool>, name: string, args: Json, now: string)
    ensures name !in Names(ts) ==> Invoke(Build(ts), name, args, now) == NotFound("unknown tool: " + name)
    ensures name in Names(ts) ==>
              Invoke(Build(ts), name, args, now) == InvokeTool(ts[LastIndex(Names(ts), name)], args, now)
  {
    DictSpec(ts);
  }

  // ---------------------------------------------------------------------------
  // The default registry

  const EchoTool := Tool("echo", "Returns the provided message.", Echo)
  const UtcNowTool := Tool("utc_now", "Returns current UTC timestamp.", UtcNow)
  const SumTool := Tool("sum", "Sums numeric values.", SumNumbers)

  /** `default_registry`. */
  function DefaultRegistry(): Registry {
    Build([EchoTool, UtcNowTool, SumTool])
  }

  lemma DefaultBuildSteps()
    ensures Build([EchoTool]).tools == [EchoTool]
    ensures Build([EchoTool, UtcNowTool]).tools == [EchoTool, UtcNowTool]
  {
    var one := [EchoTool];
    assert one[..0] == [];
    assert Names([]) == [];
    var two := [EchoTool, UtcNowTool];
    assert two[..1] == one;
    assert Names(one) == ["echo"];
  }

  /** The built-in registry keeps the three tools as given. */
  lemma DefaultTools()
    ensures DefaultRegistry().tools == [EchoTool, UtcNowTool, SumTool]
    ensures Dict(DefaultRegistry()) == map["echo" := EchoTool, "utc_now" := UtcNowTool, "sum" := SumTool]
  {
    var ts := [EchoTool, UtcNowTool, SumTool];
    DefaultBuildSteps();
    assert ts[..2] == [EchoTool, UtcNowTool];
    assert Names([EchoTool, UtcNowTool]) == ["echo", "utc_now"];
    assert Build(ts).tools == ts;
    DefaultDict(Build(ts));
  }

  lemma DefaultDict(r: Registry)
    requires r.tools == [EchoTool, UtcNowTool, SumTool]
    ensures Dict(r) == map["echo" := EchoTool, "utc_now" := UtcNowTool, "sum" := SumTool]
  {
    var names := Names(r.tools);
    assert names == ["echo", "utc_now", "sum"];
    assert FirstIndex(names, "echo") == 0;
    assert FirstIndex(names, "utc_now") == 1;
    assert FirstIndex(names, "sum") == 2;
    var d := Dict(r);
    assert d.Keys == {"echo", "utc_now", "sum"};
  }

  /** The built-in registry lists `echo`, `utc_now` and `sum`, in that order,
      with their descriptions. */
  lemma DefaultListing()
    ensures ListTools(DefaultRegistry()) == [
              ToolInfo("echo", "Returns the provided message."),
              ToolInfo("utc_now", "Returns current UTC timestamp."),
              ToolInfo("sum", "Sums numeric values.")]
  {
    DefaultTools();
  }

  /** Through the built-in registry: `echo` never fails on a dict, returns
      its `message` unchanged whatever its type, and `""` when it is absent or
      the arguments are falsy. */
  lemma EchoSpec(args: Json, now: string)
    ensures args.JObject? && "message" in args.fields ==>
              Invoke(DefaultRegistry(), "echo", args, now) == Ok(map["echo" := args.fields["message"]])
    ensures !Truthy(args) || (args.JObject? && "message" !in args.fields) ==>
              Invoke(DefaultRegistry(), "echo", args, now) == Ok(map["echo" := JString("")])
  {
    DefaultTools();
  }

  /** Through the built-in registry: `utc_now` reports the clock reading for
      any argument value at all. */
  lemma UtcNowSpec(args: Json, now: string)
    ensures Invoke(DefaultRegistry(), "utc_now", args, now) == Ok(map["utc_iso" := JString(now)])
  {
    DefaultTools();
  }

  /** Through the built-in registry: `sum` on falsy arguments is `{sum: 0,
      count: 0}`, and on a dict it is `SumResult`. */
  lemma SumSpec(args: Json, now: string)
    ensures !Truthy(args) ==>
              Invoke(DefaultRegistry(), "sum", args, now) == Ok(map["sum" := JInt(0), "count" := JInt(0)])
    ensures Truthy(args) ==> Invoke(DefaultRegistry(), "sum", args, now) == SumResult(args)
  {
    DefaultTools();
  }

  /** Any other name is unknown to the built-in registry. */
  lemma DefaultUnknownSpec(name: string, args: Json, now: string)
    requires name != "echo" && name != "utc_now" && name != "sum"
    ensures Invoke(DefaultRegistry(), name, args, now) == NotFound("unknown tool: " + name)
  {
    DefaultTools();
  }

  /** `echo` with `{}` and with `{message: "hi"}`. */
  lemma EchoExamples(now: string)
    ensures Invoke(DefaultRegistry(), "echo", JObject(map[]), now) == Ok(map["echo" := JString("")])
    ensures Invoke(DefaultRegistry(), "echo", JObject(map["message" := JString("hi")]), now)
              == Ok(map["echo" := JString("hi")])
  {
    EchoSpec(JObject(map[]), now);
    EchoSpec(JObject(map["message" := JString("hi")]), now);
  }

  /** `sum` of `[1, 2, 3]` is 6, with count 3. */
  lemma SumOneTwoThree(now: string)
    ensures Invoke(DefaultRegistry(), "sum", JObject(map["numbers" := JArray([JInt(1), JInt(2), JInt(3)])]), now)
              == Ok(map["sum" := JInt(6), "count" := JInt(3)])
  {
    var items := [JInt(1), JInt(2), JInt(3)];
    var args := JObject(map["numbers" := JArray(items)]);
    assert Truthy(args) by { assert "numbers" in args.fields; }
    SumSpec(args, now);
    TotalOneTwoThree();
    assert AllNumbers(items);
  }

  lemma TotalOneTwoThree()
    ensures Total([JInt(1), JInt(2), JInt(3)]) == 6
  {
    var three: seq<Json> := [JInt(1), JInt(2), JInt(3)];
    TotalFrontToBack(three);
    assert three[1..] == [JInt(2), JInt(3)];
    TotalFrontToBack(three[1..]);
    assert three[1..][1..] == [JInt(3)];
    TotalFrontToBack(three[1..][1..]);
    assert three[1..][1..][1..] == [];
  }

  /** `sum` with no `numbers` at all is 0, with count 0. */
  lemma SumOfNothing(now: string)
    ensures Invoke(DefaultRegistry(), "sum", JObject(map[]), now) == Ok(map["sum" := JInt(0), "count" := JInt(0)])
  {
    SumSpec(JObject(map[]), now);
  }

  /** `sum` of a string, and of a list holding a string, are rejected. */
  lemma SumRejections(now: string)
    ensures Invoke(DefaultRegistry(), "sum", JObject(map["numbers" := JString("not-a-list")]), now)
              == Invalid(SumError)
    ensures Invoke(DefaultRegistry(), "sum", JObject(map["numbers" := JArray([JInt(1), JString("x")])]), now)
              == Invalid(SumError)
  {
    SumSpec(JObject(map["numbers" := JString("not-a-list")]), now);
    var mixed := JObject(map["numbers" := JArray([JInt(1), JString("x")])]);
    SumSpec(mixed, now);
    assert !IsNumber(mixed.fields["numbers"].items[1]);
  }
}
