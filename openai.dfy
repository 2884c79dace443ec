/**
 * The parts of the OpenAI client library the core uses: chat messages, tool
 * definitions and calls, the chat-completion request, and the completion
 * service itself, which the model replaces by a scripted oracle.
 */
module OpenAI {
  import opened Bytes
  import opened Wrappers

  /** `openai.GPT3Dot5Turbo`, the default model name. */
  const GPT3Dot5Turbo: Text := Ascii("gpt-3.5-turbo")

  /** `openai.ToolTypeFunction`. */
  const ToolTypeFunction: Text := Ascii("function")

  datatype Role = User | Assistant

  /** `openai.ChatCompletionMessage`, reduced to the role and content the core sets. */
  datatype Message = Message(role: Role, content: Text)

  /** One entry of a JSON-schema `properties` object. */
  datatype Property = Property(name: Text, kind: Text, description: Text)

  /** The JSON-schema object a tool declares as its parameters. */
  datatype Parameters = Parameters(kind: Text, properties: seq<Property>, required: seq<Text>)

  datatype FunctionDefinition = FunctionDefinition(name: Text, description: Text, parameters: Parameters)

  /** `openai.Tool`: a type tag and the function definition. */
  datatype Tool = Tool(kind: Text, definition: FunctionDefinition)

  /** `openai.ToolCall`: identifier, called function name, raw JSON arguments. */
  datatype ToolCall = ToolCall(id: Text, name: Text, arguments: Text)

  /** The `(string, error)` pair every tool handler returns; `err == None` is Go's nil. */
  datatype ToolResult = ToolResult(out: Text, err: Option<Text>)

  /** `openai.ChatCompletionRequest`: model, messages and (possibly empty) tool list. */
  datatype Request = Request(model: Text, messages: seq<Message>, tools: seq<Tool>)

  /** `openai.ChatCompletionResponse`, reduced to the content of each choice's message. */
  datatype Response = Response(choices: seq<Text>)

  /**
   * What one `CreateChatCompletion` call yields: a response, an `*openai.APIError`
   * (HTTP status, provider code, and the text its `Error()` prints), or any other error.
   * A provider code that is not a JSON string is modelled by a `code` that is not
   * `context_length_exceeded`.
   */
  datatype Outcome =
    | Ok(response: Response)
    | ApiError(status: int, code: Text, text: Text)
    | OtherError(text: Text)

  /** `n` copies of the same request, in the order the service received them. */
  function Repeat(req: Request, n: nat): (rs: seq<Request>)
    ensures |rs| == n
    ensures forall k :: 0 <= k < n ==> rs[k] == req
  {
    seq(n, _ => req)
  }

  /**
   * The completion service behind `*openai.Client`. Its answers are fixed in
   * advance (`replies(k)` answers the k-th call ever made), and it records every
   * request it receives, so the number of calls and what each carried can be stated.
   */
  class Client {
    const replies: nat -> Outcome
    var log: seq<Request>

    constructor (replies: nat -> Outcome)
      ensures this.replies == replies && log == []
    {
      this.replies := replies;
      log := [];
    }

    method CreateChatCompletion(req: Request) returns (o: Outcome)
      modifies this
      ensures log == old(log) + [req]
      ensures o == replies(|old(log)|)
    {
      o := replies(|log|);
      log := log + [req];
    }
  }
}
