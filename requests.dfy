/**
 * `doRequest` of pkg/ai/request.go: build one chat-completion request (model
 * from the `YAY_MODEL` override, tool list from the registry when asked for)
 * and run the request protocol on it. The messages are sent as given.
 */
module Requests {
  import opened Bytes
  import opened Wrappers
  import opened OpenAI
  import opened Protocol
  import Tools

  /** The model a request names: the `YAY_MODEL` value when the variable is set (even to ""), else the default. */
  function ModelName(yayModel: Option<Text>): (m: Text)
    ensures yayModel.Some? ==> m == yayModel.value
    ensures yayModel.None? ==> m == Ascii("gpt-3.5-turbo")
  {
    if yayModel.Some? then yayModel.value else GPT3Dot5Turbo
  }

  /** The tool list a request carries: the registry's definitions in registry order, or none. */
  function Offered(useTools: bool): seq<Tool> {
    if useTools then seq(|Tools.AllTools|, i requires 0 <= i < |Tools.AllTools| => Tools.Definition(Tools.AllTools[i]))
    else []
  }

  /** With tools enabled a request offers the clock tool and then the web search tool; otherwise nothing. */
  lemma OfferedTools(useTools: bool)
    ensures !useTools ==> Offered(useTools) == []
    ensures useTools ==> Offered(useTools) == [Tools.Definition(Tools.GetTimeTool), Tools.Definition(Tools.WebSearchTool)]
    ensures useTools ==>
      Offered(useTools)[0].definition.name == Ascii("get_current_time")
      && Offered(useTools)[1].definition.name == Ascii("web_search")
  {
  }

  /** The loop over `tools.AllTools` that fills `t` when tools are enabled. */
  method ToolList(useTools: bool) returns (t: seq<Tool>)
    ensures t == Offered(useTools)
  {
    t := [];
    if useTools {
      for i := 0 to |Tools.AllTools|
        invariant t == Offered(true)[..i]
      {
        t := t + [Tools.Definition(Tools.AllTools[i])];
      }
    }
  }

  /**
   * One request: every call carries the same model, the given messages and the
   * tool list; the result is exactly one of a response and an error.
   */
  method DoRequest(client: Client, messages: seq<Message>, useTools: bool, yayModel: Option<Text>)
    returns (resp: Option<Response>, err: Option<Failure>)
    modifies client
    ensures resp.Some? <==> err.None?
    ensures var x := Turn(client.replies, |old(client.log)|);
      client.log == old(client.log) + Repeat(Request(ModelName(yayModel), messages, Offered(useTools)), x.calls)
      && (x.result.Success? ==> resp == Some(x.result.value))
      && (x.result.Failure? ==> err == Some(x.result.error))
  {
    var model := ModelName(yayModel);
    var tools := ToolList(useTools);
    var result := Send(client, Request(model, messages, tools));
    match result
    case Success(r) =>
      resp, err := Some(r), None;
    case Failure(f) =>
      resp, err := None, Some(f);
  }
}
