/** The decisions `GatewayHandler.do_GET` and `do_POST` make
    (kitz_gateway/server.py): which route a path selects, which tool name an
    invocation path carries, which arguments the body supplies, and which
    status and payload each outcome of the registry is answered with. */
module Server {
  import opened Json
  import opened PyText
  import opened Tools

  const ApiPrefix := "/v0.1"
  const HealthPath := ApiPrefix + "/health"
  const ToolsPath := ApiPrefix + "/tools"
  const InvokePrefix := ApiPrefix + "/tools/"
  const InvokeSuffix := "/invoke"

  const OK := 200
  const BAD_REQUEST := 400
  const NOT_FOUND := 404

  datatype Method = GET | POST

  /** What `_read_json_body` finds in the request: the decoded JSON value
      (an empty body reads as `{}`), or text that `json.loads` rejects. */
  datatype Body = Parsed(value: Json) | Malformed

  /** What the handler writes back: a status with a JSON payload, or nothing
      at all (the handler returned, or raised, before writing). */
  datatype Reply = Reply(status: int, payload: Json) | NoReply

  function ErrorPayload(msg: string): Json {
    JObject(map["error" := JString(msg)])
  }

  const NotFoundReply := Reply(NOT_FOUND, ErrorPayload("not found"))
  const InvalidBodyReply := Reply(BAD_REQUEST, ErrorPayload("invalid json body"))
  const HealthReply := Reply(OK, JObject(map["status" := JString("ok"), "version" := JString("0.1")]))

  function InfoJson(info: ToolInfo): Json {
    JObject(map["name" := JString(info.name), "description" := JString(info.description)])
  }

  function ListingReply(r: Registry): Reply {
    var infos := ListTools(r);
    Reply(OK, JObject(map["tools" := JArray(seq(|infos|, i requires 0 <= i < |infos| => InfoJson(infos[i])))]))
  }

  // ---------------------------------------------------------------------------
  // GET

  /** `do_GET`: health, the listing, or "not found". */
  function HandleGet(r: Registry, path: string): Reply {
    if path == HealthPath then HealthReply
    else if path == ToolsPath then ListingReply(r)
    else NotFoundReply
  }

  // ---------------------------------------------------------------------------
  // POST

  predicate IsInvokePath(path: string) {
    StartsWith(path, InvokePrefix) && EndsWith(path, InvokeSuffix)
  }

  /** `path[len(prefix) : -len(suffix)]`. */
  function ToolName(path: string): string {
    Slice(path, |InvokePrefix|, -|InvokeSuffix|)
  }

  /** `body.get("args", {}) if isinstance(body, dict) else {}`. */
  function ArgsOf(body: Json): Json {
    match body
    case JObject(m) => Get(m, "args", JObject(map[]))
    case _ => JObject(map[])
  }

  /** The `try`/`except` around `registry.invoke`: `KeyError` is 404 with
      `str(exc)`, which is the `repr` of its message; `ValueError` is 400 with
      its message; success is 200 with the tool name and result; any other
      exception escapes the handler and nothing is written. */
  function Respond(name: string, outcome: Result): Reply {
    match outcome
    case Ok(result) => Reply(OK, JObject(map["tool" := JString(name), "result" := JObject(result)]))
    case NotFound(msg) => Reply(NOT_FOUND, ErrorPayload(Repr(msg)))
    case Invalid(msg) => Reply(BAD_REQUEST, ErrorPayload(msg))
    case Crashed(_) => NoReply
  }

  function Dispatch(r: Registry, name: string, body: Json, now: string): Reply {
    Respond(name, Invoke(r, name, ArgsOf(body), now))
  }

  /** `do_POST` as written: `_read_json_body` returns `None` both after it
      has answered a malformed body and when the body is the JSON text
      `null`, and `do_POST` then returns without writing anything. */
  function HandlePostAsWritten(r: Registry, path: string, body: Body, now: string): Reply {
    if !IsInvokePath(path) then NotFoundReply
    else
      match body
      case Malformed => InvalidBodyReply
      case Parsed(JNull) => NoReply
      case Parsed(v) => Dispatch(r, ToolName(path), v, now)
  }

  /** `do_POST` with a `null` body treated like every other body that is not
      a dict: it supplies no arguments. */
  function HandlePost(r: Registry, path: string, body: Body, now: string): Reply {
    if !IsInvokePath(path) then NotFoundReply
    else
      match body
      case Malformed => InvalidBodyReply
      case Parsed(v) => Dispatch(r, ToolName(path), v, now)
  }

  /** The handler for one request; `now` is the clock reading a `utc_now`
      call would see. */
  function Route(r: Registry, verb: Method, path: string, body: Body, now: string): Reply {
    match verb
    case GET => HandleGet(r, path)
    case POST => HandlePost(r, path, body, now)
  }

  // ---------------------------------------------------------------------------
  // GET routes

  /** GET answers 200 exactly on the health and listing paths, with their
      payloads, and "not found" everywhere else; it never reads the body. */
  lemma GetSpec(r: Registry, path: string, body: Body, now: string)
    ensures path == "/v0.1/health" ==>
              Route(r, GET, path, body, now) ==
              Reply(200, JObject(map["status" := JString("ok"), "version" := JString("0.1")]))
    ensures path == "/v0.1/tools" ==> Route(r, GET, path, body, now) == ListingReply(r)
    ensures path != "/v0.1/health" && path != "/v0.1/tools" ==>
              Route(r, GET, path, body, now) == Reply(404, JObject(map["error" := JString("not found")]))
    ensures Route(r, GET, path, body, now).Reply? &&
            (Route(r, GET, path, body, now).status == 200 <==> path == "/v0.1/health" || path == "/v0.1/tools")
  {
  }

  /** The listing payload holds one `{name, description}` object per entry
      of `list_tools`, in the same order. */
  lemma ListingSpec(r: Registry)
    ensures var reply := ListingReply(r);
      && reply.status == 200
      && reply.payload.JObject? && "tools" in reply.payload.fields
      && reply.payload.fields["tools"].JArray?
      && var items := reply.payload.fields["tools"].items;
         && |items| == |ListTools(r)|
         && forall i :: 0 <= i < |items| ==>
              items[i] == JObject(map["name" := JString(ListTools(r)[i].name),
                                      "description" := JString(ListTools(r)[i].description)])
  {
  }

  // ---------------------------------------------------------------------------
  // Invocation paths

  /** Every tool name survives the trip into an invocation path and back. */
  lemma {:induction false} ToolNameRoundTrip(name: string)
    ensures IsInvokePath(InvokePrefix + name + InvokeSuffix)
    ensures ToolName(InvokePrefix + name + InvokeSuffix) == name
  {
    var path := InvokePrefix + name + InvokeSuffix;
    assert path[..|InvokePrefix|] == InvokePrefix;
    assert path[|path| - |InvokeSuffix|..] == InvokeSuffix;
    assert path[|InvokePrefix|..|path| - |InvokeSuffix|] == name;
  }

  /** Conversely, an invocation path long enough for the prefix and suffix
      not to overlap is the prefix, the extracted name and the suffix. */
  lemma {:induction false} ToolNameSplits(path: string)
    requires IsInvokePath(path) && |path| >= |InvokePrefix| + |InvokeSuffix|
    ensures path == InvokePrefix + ToolName(path) + InvokeSuffix
  {
    var name := ToolName(path);
    assert path == path[..|InvokePrefix|] + path[|InvokePrefix|..|path| - |InvokeSuffix|]
                   + path[|path| - |InvokeSuffix|..];
  }

  /** When the prefix and suffix overlap, the name is empty; the only such
      path is `/v0.1/tools/invoke`. */
  lemma {:induction false} OverlappingPath(path: string)
    requires IsInvokePath(path) && |path| < |InvokePrefix| + |InvokeSuffix|
    ensures path == "/v0.1/tools/invoke"
    ensures ToolName(path) == ""
  {
    assert |path| >= |InvokePrefix|;
    var k := |path| - |InvokeSuffix|;
    assert path[k] == '/' by { assert path[k..][0] == InvokeSuffix[0]; }
    assert k <= 11;
    assert path[k..][1] == InvokeSuffix[1];
    assert |path| == 18;
    assert path == path[..|InvokePrefix|] + path[|InvokePrefix|..];
    assert path[|InvokePrefix|..] == path[k..][1..];
  }

  // ---------------------------------------------------------------------------
  // POST outcomes

  /** A POST outside the invocation paths is "not found", whatever the body
      and whatever the registry holds; and that reply comes from nowhere else:
      an unknown tool's 404 quotes its message. */
  lemma PostNotFoundSpec(r: Registry, path: string, body: Body, now: string)
    ensures !IsInvokePath(path) ==>
              Route(r, POST, path, body, now) == Reply(404, JObject(map["error" := JString("not found")]))
    ensures Route(r, POST, path, body, now) == NotFoundReply ==> !IsInvokePath(path)
  {
    if IsInvokePath(path) && body.Parsed? {
      var name := ToolName(path);
      var outcome := Invoke(r, name, ArgsOf(body.value), now);
      if outcome.NotFound? {
        var e := Repr(outcome.msg);
        assert e[0] != "not found"[0];
        assert ErrorPayload(e).fields["error"] == JString(e);
        assert ErrorPayload("not found").fields["error"] == JString("not found");
      }
    }
  }

  /** A malformed body on an invocation path is answered 400 "invalid json
      body" before the registry is consulted. */
  lemma MalformedBodySpec(r1: Registry, r2: Registry, path: string, now1: string, now2: string)
    requires IsInvokePath(path)
    ensures Route(r1, POST, path, Malformed, now1) ==
              Reply(400, JObject(map["error" := JString("invalid json body")]))
    ensures Route(r1, POST, path, Malformed, now1) == Route(r2, POST, path, Malformed, now2)
  {
  }

  /** The arguments handed to the registry: `body["args"]` for a dict body
      that has it, the empty dict for any other body. As written, a `null`
      body never gets that far; every other body is handled the same way by
      both versions of `do_POST`. */
  lemma ArgsSpec(r: Registry, path: string, v: Json, now: string)
    requires IsInvokePath(path)
    ensures v.JObject? && "args" in v.fields ==>
              Route(r, POST, path, Parsed(v), now) ==
              Respond(ToolName(path), Invoke(r, ToolName(path), v.fields["args"], now))
    ensures !(v.JObject? && "args" in v.fields) ==>
              Route(r, POST, path, Parsed(v), now) ==
              Respond(ToolName(path), Invoke(r, ToolName(path), JObject(map[]), now))
    ensures v != JNull ==> HandlePostAsWritten(r, path, Parsed(v), now) == Route(r, POST, path, Parsed(v), now)
    ensures v == JNull ==> HandlePostAsWritten(r, path, Parsed(v), now) == NoReply
  {
  }

  /** How each outcome of the registry becomes the reply to a decoded body
      on an invocation path; the handler as written replies the same for
      every body but `null`. */
  lemma StatusMapping(r: Registry, path: string, v: Json, now: string)
    requires IsInvokePath(path)
    ensures v != JNull ==> HandlePostAsWritten(r, path, Parsed(v), now) == Route(r, POST, path, Parsed(v), now)
    ensures var name := ToolName(path);
      var outcome := Invoke(r, name, ArgsOf(v), now);
      var reply := Route(r, POST, path, Parsed(v), now);
      && (outcome.Ok? ==>
            reply == Reply(200, JObject(map["tool" := JString(name), "result" := JObject(outcome.value)])))
      && (outcome.NotFound? ==> reply == Reply(404, JObject(map["error" := JString(Repr(outcome.msg))])))
      && (outcome.Invalid? ==> reply == Reply(400, JObject(map["error" := JString(outcome.msg)])))
      && (outcome.Crashed? ==> reply == NoReply)
      && (reply.Reply? && reply.status == 200 <==> outcome.Ok?)
      && (reply.Reply? && reply.status == 404 <==> outcome.NotFound?)
      && (reply.Reply? && reply.status == 400 <==> outcome.Invalid?)
  {
  }

  /** A POST on the invocation path of `name` with a decoded body asks the
      registry for `name`. */
  lemma InvokePathDispatch(r: Registry, name: string, v: Json, now: string)
    ensures Route(r, POST, InvokePrefix + name + InvokeSuffix, Parsed(v), now) ==
              Respond(name, Invoke(r, name, ArgsOf(v), now))
  {
    ToolNameRoundTrip(name);
  }

  /** As written, the registry is asked only when the body is not `null`;
      a `null` body on the invocation path of `name` gets no reply. */
  lemma InvokePathDispatchAsWritten(r: Registry, name: string, v: Json, now: string)
    ensures v != JNull ==>
              HandlePostAsWritten(r, InvokePrefix + name + InvokeSuffix, Parsed(v), now) ==
              Respond(name, Invoke(r, name, ArgsOf(v), now))
    ensures v == JNull ==> HandlePostAsWritten(r, InvokePrefix + name + InvokeSuffix, Parsed(v), now) == NoReply
  {
    ToolNameRoundTrip(name);
  }

  /** The error text of an unknown tool always contains `unknown tool: `, and
      contains the whole `unknown tool: <name>` unless the name holds a
      character that `repr` escapes. */
  lemma UnknownToolText(name: string)
    ensures Contains(Repr("unknown tool: " + name), "unknown tool: ")
    ensures (forall i :: 0 <= i < |name| ==> name[i] != '\\' && Printable(name[i])) &&
            !('\'' in name && '"' in name) ==>
              Contains(Repr("unknown tool: " + name), "unknown tool: " + name)
  {
    var msg := "unknown tool: " + name;
    ReprKeepsPlainPrefix("unknown tool: ", name);
    if (forall i :: 0 <= i < |name| ==> name[i] != '\\' && Printable(name[i])) &&
       !('\'' in name && '"' in name) {
      forall i | 0 <= i < |msg| ensures msg[i] != '\\' && Printable(msg[i]) {
        if i >= 14 { assert msg[i] == name[i - 14]; }
      }
      assert '\'' in msg ==> '\'' in name by {
        if '\'' in msg {
          var i :| 0 <= i < |msg| && msg[i] == '\'';
          assert i >= 14 && msg[i] == name[i - 14];
        }
      }
      assert '"' in msg ==> '"' in name by {
        if '"' in msg {
          var i :| 0 <= i < |msg| && msg[i] == '"';
          assert i >= 14 && msg[i] == name[i - 14];
        }
      }
      ReprOfPlainText(msg);
    }
  }

  /** Invoking a name no registered tool carries is answered 404 with the
      `repr` of `unknown tool: <name>`, whatever the body; as written,
      whatever the body but `null`. */
  lemma UnknownToolReply(ts: seq<Tool>, name: string, v: Json, now: string)
    requires name !in Names(ts)
    ensures Route(Build(ts), POST, InvokePrefix + name + InvokeSuffix, Parsed(v), now) ==
              Reply(404, JObject(map["error" := JString(Repr("unknown tool: " + name))]))
    ensures v != JNull ==>
              HandlePostAsWritten(Build(ts), InvokePrefix + name + InvokeSuffix, Parsed(v), now) ==
              Reply(404, JObject(map["error" := JString(Repr("unknown tool: " + name))]))
  {
    InvokePathDispatch(Build(ts), name, v, now);
    InvokePathDispatchAsWritten(Build(ts), name, v, now);
    InvokeSpec(ts, name, ArgsOf(v), now);
  }

  /** In any registry, a name stored with the `echo` or `sum` function gets
      no reply for truthy arguments that are not a dict. */
  lemma NonDictArgsUnanswered(r: Registry, name: string, args: Json, now: string)
    requires Truthy(args) && !args.JObject?
    requires name in Dict(r) && (Dict(r)[name].func == Echo || Dict(r)[name].func == SumNumbers)
    ensures Route(r, POST, InvokePrefix + name + InvokeSuffix, Parsed(JObject(map["args" := args])), now) == NoReply
  {
    var body := JObject(map["args" := args]);
    assert ArgsOf(body) == args;
    InvokePathDispatch(r, name, body, now);
  }

  /** In any registry that stores the `utc_now` function under its name, any
      `args` at all is answered. */
  lemma UtcNowAnswers(r: Registry, args: Json, now: string)
    requires "utc_now" in Dict(r) && Dict(r)["utc_now"].func == UtcNow
    ensures Route(r, POST, InvokePrefix + "utc_now" + InvokeSuffix,
                  Parsed(JObject(map["args" := args])), now) ==
              Reply(200, JObject(map["tool" := JString("utc_now"),
                                     "result" := JObject(map["utc_iso" := JString(now)])]))
  {
    var body := JObject(map["args" := args]);
    assert ArgsOf(body) == args;
    InvokePathDispatch(r, "utc_now", body, now);
  }

  // ---------------------------------------------------------------------------
  // The `null` body

  /** As written, a `null` body on any invocation path is never answered,
      whatever the tool. */
  lemma NullBodyUnansweredAsWritten(r: Registry, path: string, now: string)
    requires IsInvokePath(path)
    ensures HandlePostAsWritten(r, path, Parsed(JNull), now) == NoReply
  {
  }

  /** `echo` with a `null` body shows the gap: as written there is no reply,
      while a `null` body is a body that is not a dict, which supplies no
      arguments, so the call should answer `{echo: ""}`. */
  lemma NullBodyEcho(now: string)
    ensures HandlePostAsWritten(DefaultRegistry(), "/v0.1/tools/echo/invoke", Parsed(JNull), now) == NoReply
    ensures HandlePost(DefaultRegistry(), "/v0.1/tools/echo/invoke", Parsed(JNull), now) ==
              Reply(200, JObject(map["tool" := JString("echo"), "result" := JObject(map["echo" := JString("")])]))
  {
    assert "/v0.1/tools/echo/invoke" == InvokePrefix + "echo" + InvokeSuffix;
    ToolNameRoundTrip("echo");
    InvokePathDispatch(DefaultRegistry(), "echo", JNull, now);
    EchoSpec(JObject(map[]), now);
  }

  /** With the `null` case mended, an invocation path always consults the
      registry once the body has been decoded, and leaves a request
      unanswered only when the tool itself raised something other than
      `KeyError` or `ValueError`. Everywhere else the two versions agree. */
  lemma PostAnswersEveryBody(r: Registry, path: string, body: Body, now: string)
    ensures IsInvokePath(path) && body.Parsed? ==>
              HandlePost(r, path, body, now) ==
              Respond(ToolName(path), Invoke(r, ToolName(path), ArgsOf(body.value), now))
    ensures HandlePost(r, path, body, now) == NoReply ==>
              IsInvokePath(path) && body.Parsed? &&
              Invoke(r, ToolName(path), ArgsOf(body.value), now).Crashed?
    ensures body != Parsed(JNull) ==> HandlePostAsWritten(r, path, body, now) == HandlePost(r, path, body, now)
  {
  }

  lemma UnknownToolMentioned(name: string)
    ensures Contains(Repr("unknown tool: " + name), "unknown tool")
  {
    UnknownToolText(name);
    ContainsBeginning(Repr("unknown tool: " + name), "unknown tool: ", 12);
    assert "unknown tool: "[..12] == "unknown tool";
  }
}
