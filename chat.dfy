/**
 * `AI` from pkg/ai/ai.go: the conversation object that owns the message
 * history, and `SendMsg`, one conversation turn.
 */
module Chat {
  import opened Bytes
  import opened Wrappers
  import opened OpenAI
  import opened Protocol

  /** `openAIModel`: the model every turn asks for. */
  const OpenAIModel: Text := GPT3Dot5Turbo

  /** `maxCharsGPT`: the byte budget of one outgoing user message. */
  const MaxCharsGPT := 12250

  /** `formatHeader`. */
  const FormatHeader: Text := Ascii("format the response as markdown.")

  /** What `fmt.Sprintf("%s %s", formatHeader, ...)` puts before the user's text. */
  function Prefix(): (p: Text)
    ensures |p| == 33 && p[..|FormatHeader|] == FormatHeader && p[|FormatHeader|] == Space
  {
    FormatHeader + [Space]
  }

  /** The content of the user message a turn appends: header, space, input, cut to the budget. */
  function UserContent(input: Text): (c: Text)
    ensures |c| == Min(|Prefix()| + |input|, MaxCharsGPT)
    ensures c == (Prefix() + input)[..|c|]
  {
    var content := Prefix() + input;
    if |content| > MaxCharsGPT then content[..MaxCharsGPT] else content
  }

  /** The stored user content never exceeds the budget and always starts with the header and its space. */
  lemma UserContentBounded(input: Text)
    ensures |UserContent(input)| <= MaxCharsGPT
    ensures UserContent(input)[..|Prefix()|] == Prefix()
  {
    var c := UserContent(input);
    assert |c| >= |Prefix()|;
    assert c[..|Prefix()|] == (Prefix() + input)[..|Prefix()|];
  }

  /** An input that fits the budget after the header is sent whole; a longer one keeps its first bytes. */
  lemma UserContentKeepsInput(input: Text)
    ensures |input| <= MaxCharsGPT - |Prefix()| ==> UserContent(input) == Prefix() + input
    ensures |input| > MaxCharsGPT - |Prefix()| ==>
      UserContent(input) == Prefix() + input[..MaxCharsGPT - |Prefix()|]
  {
    var p := Prefix();
    if |input| > MaxCharsGPT - |p| {
      var k := MaxCharsGPT - |p|;
      assert (p + input)[..MaxCharsGPT] == p + input[..k];
    }
  }

  const ChatErrorPrefix: Text := Ascii("chat error: ")

  /** The text `Error()` gives for a wrapped cause (`%v` of the underlying error). */
  function CauseText(c: Cause): Text {
    match c
    case ApiFailure(_, _, text) => text
    case OtherFailure(text) => text
    case NoMoreRetries => Ascii("no more retries")
  }

  /** The text of each error `SendMsg` and `doRequest` return. */
  function ErrorText(f: Failure): (t: Text)
    ensures f.ChatError? ==>
      |t| >= |ChatErrorPrefix| && t[..|ChatErrorPrefix|] == ChatErrorPrefix && t[|ChatErrorPrefix|..] == CauseText(f.cause)
    ensures !f.ChatError? ==> |t| > 0
  {
    match f
    case ModelNotFound => Ascii("model not found")
    case MaxPromptSize => Ascii("maximum prompt size exceeded")
    case InvalidApiKey => Ascii("invalid api key")
    case RateLimit => Ascii("rate limit error")
    case ChatError(c) => ChatErrorPrefix + CauseText(c)
  }

  class AI {
    /** The conversation so far; only `SendMsg` changes it, and only by appending. */
    var messages: seq<Message>
    const client: Client

    /** `NewAI` after the client is built: an empty history. */
    constructor (client: Client)
      ensures messages == [] && this.client == client
    {
      messages := [];
      this.client := client;
    }

    /**
     * One turn. The user message is appended before the first call and stays
     * whatever happens; every call sends the history including it; a success
     * appends the assistant's answer and returns it; a failure returns `""`.
     */
    method SendMsg(input: Text) returns (reply: Text, err: Option<Failure>)
      requires AnswerHasChoice(Turn(client.replies, |client.log|))
      modifies this, client
      ensures var x := Turn(client.replies, |old(client.log)|);
        var sent := old(messages) + [Message(User, UserContent(input))];
        client.log == old(client.log) + Repeat(Request(OpenAIModel, sent, []), x.calls)
        && messages == After(old(messages), UserContent(input), x)
        && (x.result.Success? ==> err == None && reply == Answer(x))
        && (x.result.Failure? ==> err == Some(x.result.error) && reply == [])
    {
      var content := Prefix() + input;
      if |content| > MaxCharsGPT {
        content := content[..MaxCharsGPT];
      }
      messages := messages + [Message(User, content)];

      var result := Send(client, Request(OpenAIModel, messages, []));
      match result
      case Failure(f) =>
        return [], Some(f);
      case Success(resp) =>
        var msg := resp.choices[0];
        messages := messages + [Message(Assistant, msg)];
        return msg, None;
    }
  }
}
