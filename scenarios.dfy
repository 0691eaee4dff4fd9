/** Concrete requests answered by the built-in registry, including the
    end-to-end requests of tests/test_gateway.py. */
module Scenarios {
  import opened Json
  import opened PyText
  import opened Tools
  import opened Server

  /** Arguments that are truthy but not a dict reach the tool as they are:
      `echo` in the built-in registry raises on `.get`, and nothing is
      written back. */
  lemma NonDictArgsEcho(args: Json, now: string)
    requires Truthy(args) && !args.JObject?
    ensures Route(DefaultRegistry(), POST, "/v0.1/tools/echo/invoke",
                  Parsed(JObject(map["args" := args])), now) == NoReply
  {
    DefaultTools();
    assert "/v0.1/tools/echo/invoke" == InvokePrefix + "echo" + InvokeSuffix;
    NonDictArgsUnanswered(DefaultRegistry(), "echo", args, now);
  }

  /** `utc_now` ignores its arguments, so any `args` at all is answered. */
  lemma AnyArgsUtcNow(args: Json, now: string)
    ensures Route(DefaultRegistry(), POST, "/v0.1/tools/utc_now/invoke",
                  Parsed(JObject(map["args" := args])), now) ==
              Reply(200, JObject(map["tool" := JString("utc_now"),
                                     "result" := JObject(map["utc_iso" := JString(now)])]))
  {
    DefaultTools();
    assert "/v0.1/tools/utc_now/invoke" == InvokePrefix + "utc_now" + InvokeSuffix;
    UtcNowAnswers(DefaultRegistry(), args, now);
  }

  /** Health answers 200 with version "0.1"; the listing names `echo`,
      `utc_now` and `sum`. */
  lemma DefaultGetExamples(now: string)
    ensures Route(DefaultRegistry(), GET, "/v0.1/health", Parsed(JObject(map[])), now).status == 200
    ensures Route(DefaultRegistry(), GET, "/v0.1/health", Parsed(JObject(map[])), now).payload.fields["version"]
              == JString("0.1")
    ensures var reply := Route(DefaultRegistry(), GET, "/v0.1/tools", Parsed(JObject(map[])), now);
      && reply.status == 200
      && reply.payload.fields["tools"] == JArray([
           JObject(map["name" := JString("echo"), "description" := JString("Returns the provided message.")]),
           JObject(map["name" := JString("utc_now"), "description" := JString("Returns current UTC timestamp.")]),
           JObject(map["name" := JString("sum"), "description" := JString("Sums numeric values.")])])
  {
    DefaultListing();
    var infos := ListTools(DefaultRegistry());
    var items := seq(|infos|, i requires 0 <= i < |infos| => InfoJson(infos[i]));
    assert items == [InfoJson(infos[0]), InfoJson(infos[1]), InfoJson(infos[2])];
  }

  /** POST `{"args": {"numbers": [1, 2, 3]}}` to `sum` answers 200 with sum 6. */
  lemma DefaultSumExample(now: string)
    ensures var body := Parsed(JObject(map["args" := JObject(map["numbers" := JArray([JInt(1), JInt(2), JInt(3)])])]));
      Route(DefaultRegistry(), POST, "/v0.1/tools/sum/invoke", body, now) ==
        Reply(200, JObject(map["tool" := JString("sum"),
                               "result" := JObject(map["sum" := JInt(6), "count" := JInt(3)])]))
  {
    var args := JObject(map["numbers" := JArray([JInt(1), JInt(2), JInt(3)])]);
    var body := JObject(map["args" := args]);
    assert ArgsOf(body) == args;
    assert "/v0.1/tools/sum/invoke" == InvokePrefix + "sum" + InvokeSuffix;
    InvokePathDispatch(DefaultRegistry(), "sum", body, now);
    SumOneTwoThree(now);
  }

  /** POST `{}` to `nope` answers 404 with an error mentioning `unknown tool`. */
  lemma DefaultUnknownExample(now: string)
    ensures var reply := Route(DefaultRegistry(), POST, "/v0.1/tools/nope/invoke", Parsed(JObject(map[])), now);
      && reply.Reply? && reply.status == 404 && reply.payload.fields["error"].JString?
      && Contains(reply.payload.fields["error"].s, "unknown tool")
  {
    var ts := [EchoTool, UtcNowTool, SumTool];
    assert DefaultRegistry() == Build(ts);
    assert Names(ts) == ["echo", "utc_now", "sum"];
    assert "/v0.1/tools/nope/invoke" == InvokePrefix + "nope" + InvokeSuffix;
    UnknownToolReply(ts, "nope", JObject(map[]), now);
    UnknownToolMentioned("nope");
  }
}
