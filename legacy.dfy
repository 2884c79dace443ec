/**
 * The older `AI` of ai.go (package main): the same history object and the same
 * request protocol, but the user text is sent as typed (no header, no budget)
 * and every error is a fresh `fmt.Errorf` text.
 */
module Legacy {
  import opened Bytes
  import opened Wrappers
  import opened OpenAI
  import opened Protocol

  const ModelNotFoundText: Text := Ascii("openai server error: model not found")
  const MaxPromptSizeText: Text := Ascii("maximum prompt size exceeded")
  const InvalidApiKeyText: Text := Ascii("invalid api key")
  const RateLimitText: Text := Ascii("rate limit error")
  const ChatErrorPrefix: Text := Ascii("chat error: ")
  const NoMoreRetriesText: Text := Ascii("no more retries")

  /** The text `sendMsg` returns for each way a turn can fail. */
  function ErrorText(f: Failure): (t: Text)
    ensures f.ChatError? ==>
      |t| >= |ChatErrorPrefix| && t[..|ChatErrorPrefix|] == ChatErrorPrefix
      && t[|ChatErrorPrefix|..] == (match f.cause
                                    case ApiFailure(_, _, text) => text
                                    case OtherFailure(text) => text
                                    case NoMoreRetries => NoMoreRetriesText)
    ensures !f.ChatError? ==> |t| > 0
  {
    match f
    case ModelNotFound => ModelNotFoundText
    case MaxPromptSize => MaxPromptSizeText
    case InvalidApiKey => InvalidApiKeyText
    case RateLimit => RateLimitText
    case ChatError(ApiFailure(_, _, text)) => ChatErrorPrefix + text
    case ChatError(OtherFailure(text)) => ChatErrorPrefix + text
    case ChatError(NoMoreRetries) => ChatErrorPrefix + NoMoreRetriesText
  }

  /** The four classified failures have four different texts, none of which reads as a chat error. */
  lemma ErrorTextsDistinct()
    ensures forall f: Failure, g: Failure :: !f.ChatError? && !g.ChatError? && f != g ==> ErrorText(f) != ErrorText(g)
    ensures forall f: Failure, g: Failure :: !f.ChatError? && g.ChatError? ==> ErrorText(f) != ErrorText(g)
  {
    forall f: Failure, g: Failure | !f.ChatError? && g.ChatError?
      ensures ErrorText(f) != ErrorText(g)
    {
      assert ErrorText(g)[0] == ChatErrorPrefix[0];
      match f {
        case ModelNotFound => assert ErrorText(f)[0] != ChatErrorPrefix[0];
        case MaxPromptSize => assert ErrorText(f)[0] != ChatErrorPrefix[0];
        case InvalidApiKey => assert ErrorText(f)[0] != ChatErrorPrefix[0];
        case RateLimit => assert ErrorText(f)[0] != ChatErrorPrefix[0];
      }
    }
  }

  class LegacyAI {
    var messages: seq<Message>
    const client: Client

    /** `newAI` after the client is built: an empty history. */
    constructor (client: Client)
      ensures messages == [] && this.client == client
    {
      messages := [];
      this.client := client;
    }

    /**
     * One turn of the older engine: the text goes into history verbatim before
     * the first call and stays there; a success appends the answer and returns it.
     */
    method SendMsg(content: Text) returns (reply: Text, err: Option<Text>)
      requires AnswerHasChoice(Turn(client.replies, |client.log|))
      modifies this, client
      ensures var x := Turn(client.replies, |old(client.log)|);
        var sent := old(messages) + [Message(User, content)];
        client.log == old(client.log) + Repeat(Request(GPT3Dot5Turbo, sent, []), x.calls)
        && messages == After(old(messages), content, x)
        && (x.result.Success? ==> err == None && reply == Answer(x))
        && (x.result.Failure? ==> err == Some(ErrorText(x.result.error)) && reply == [])
    {
      messages := messages + [Message(User, content)];
      var result := Send(client, Request(GPT3Dot5Turbo, messages, []));
      match result
      case Failure(f) =>
        return [], Some(ErrorText(f));
      case Success(resp) =>
        var msg := resp.choices[0];
        messages := messages + [Message(Assistant, msg)];
        return msg, None;
    }
  }
}
