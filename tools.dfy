/**
 * The `Tool` interface and the `AllTools` registry of pkg/ai/tools/tool.go.
 * The interface's two implementations become the two cases of `ToolKind`;
 * `Definition` and `Handle` dispatch on the case, so every registered tool
 * provides both.
 */
module Tools {
  import opened Bytes
  import opened Wrappers
  import opened OpenAI
  import GetTime
  import WebSearch

  datatype ToolKind = GetTimeTool | WebSearchTool

  /** `AllTools`, in registration order. */
  const AllTools: seq<ToolKind> := [GetTimeTool, WebSearchTool]

  /** What the handlers read outside the call: the clock and the web. */
  datatype World = World(now: GetTime.Clock, web: WebSearch.Web)

  function Definition(t: ToolKind): Tool {
    match t
    case GetTimeTool => GetTime.Definition()
    case WebSearchTool => WebSearch.Definition()
  }

  function Name(t: ToolKind): Text {
    Definition(t).definition.name
  }

  /** What `Handle` returns, as a function of the call and the world. */
  function Answer(t: ToolKind, call: ToolCall, world: World): ToolResult {
    match t
    case GetTimeTool => GetTime.Handle(call, world.now)
    case WebSearchTool => WebSearch.Answer(call, world.web)
  }

  method Handle(t: ToolKind, call: ToolCall, world: World) returns (out: Text, err: Option<Text>)
    ensures ToolResult(out, err) == Answer(t, call, world)
  {
    match t
    case GetTimeTool =>
      var r := GetTime.Handle(call, world.now);
      out, err := r.out, r.err;
    case WebSearchTool =>
      out, err := WebSearch.Handle(call, world.web);
  }

  /** `("", nil)`: the handler's way of saying the call is not its own. */
  predicate Declines(r: ToolResult) {
    r.out == [] && r.err == None
  }

  /** Two tools, the clock first, then the web search, under the names the model calls them by. */
  lemma Registry()
    ensures |AllTools| == 2
    ensures Name(AllTools[0]) == Ascii("get_current_time") && Name(AllTools[1]) == Ascii("web_search")
  {
  }

  /** The registered names are distinct. */
  lemma NamesDistinct()
    ensures forall i, j :: 0 <= i < j < |AllTools| ==> Name(AllTools[i]) != Name(AllTools[j])
  {
    assert |Name(AllTools[0])| != |Name(AllTools[1])|;
  }

  /** A tool answers (anything but `("", nil)`) only calls that carry its own name. */
  lemma OnlyOwnerAnswers(t: ToolKind, call: ToolCall, world: World)
    requires !Declines(Answer(t, call, world))
    ensures call.name == Name(t)
  {
    match t
    case GetTimeTool =>
    case WebSearchTool =>
      WebSearch.Gates(call, world.web);
  }

  /**
   * For any call, at most one registered tool answers, and a call whose name is
   * not registered is declined by every tool.
   */
  lemma AtMostOneAnswers(call: ToolCall, world: World)
    ensures forall i, j :: 0 <= i < j < |AllTools| ==>
      Declines(Answer(AllTools[i], call, world)) || Declines(Answer(AllTools[j], call, world))
    ensures (forall t :: t in AllTools ==> call.name != Name(t)) ==>
      forall t :: t in AllTools ==> Declines(Answer(t, call, world))
  {
    NamesDistinct();
    forall t | t in AllTools && !Declines(Answer(t, call, world)) ensures call.name == Name(t) {
      OnlyOwnerAnswers(t, call, world);
    }
  }
}
