/**
 * The request protocol that `AI.SendMsg` (pkg/ai/ai.go), `doRequest`
 * (pkg/ai/request.go) and the older `sendMsg` (ai.go) each spell out in full:
 * one call to the completion service; if it failed with an API error, a
 * classification by HTTP status; for the statuses that are not classified, a
 * retry loop of at most `MaxRetries` further calls.
 *
 * `Turn` and `RetryFrom` specify the protocol as functions of the service's
 * scripted replies; `Send` and `Retry` run it against a `Client`.
 */
module Protocol {
  import opened Bytes
  import opened Wrappers
  import opened OpenAI

  /** How many calls the retry loop may make (`maxRetries`). */
  const MaxRetries := 3

  const StatusBadRequest := 400
  const StatusUnauthorized := 401
  const StatusNotFound := 404
  const StatusTooManyRequests := 429

  const ContextLengthExceeded: Text := Ascii("context_length_exceeded")

  /** What a wrapped `chat error: %v` carries. */
  datatype Cause =
    | ApiFailure(status: int, code: Text, text: Text)   // an API error the switch does not classify
    | OtherFailure(text: Text)                          // any error that is not an API error
    | NoMoreRetries                                     // the retry loop ran out

  /** Every error a turn can end with: the four sentinels, or a wrapped chat error. */
  datatype Failure =
    | ModelNotFound
    | MaxPromptSize
    | InvalidApiKey
    | RateLimit
    | ChatError(cause: Cause)

  /** The four first-call failures that end the turn with a sentinel. */
  predicate IsClassified(status: int, code: Text) {
    status == StatusNotFound || status == StatusUnauthorized || status == StatusTooManyRequests
    || (status == StatusBadRequest && code == ContextLengthExceeded)
  }

  /** What the first call's outcome decides. */
  datatype Verdict = Answered(response: Response) | Refused(failure: Failure) | Retryable

  /** The `errors.As` test and the `switch` on the HTTP status of the first call. */
  function Classify(o: Outcome): (v: Verdict)
    ensures v.Answered? <==> o.Ok?
    ensures v.Retryable? <==> o.ApiError? && o.status !in {StatusBadRequest, StatusUnauthorized, StatusNotFound, StatusTooManyRequests}
    ensures v.Refused? && !v.failure.ChatError? <==> o.ApiError? && IsClassified(o.status, o.code)
    ensures v.Refused? && v.failure.ChatError? ==>
      v.failure.cause == (if o.ApiError? then ApiFailure(o.status, o.code, o.text) else OtherFailure(o.text))
  {
    match o
    case Ok(r) => Answered(r)
    case OtherError(text) => Refused(ChatError(OtherFailure(text)))
    case ApiError(status, code, text) =>
      if status == StatusNotFound then Refused(ModelNotFound)
      else if status == StatusBadRequest then
        if code == ContextLengthExceeded then Refused(MaxPromptSize)
        else Refused(ChatError(ApiFailure(status, code, text)))
      else if status == StatusUnauthorized then Refused(InvalidApiKey)
      else if status == StatusTooManyRequests then Refused(RateLimit)
      else Retryable
  }

  /** What the retry loop returns (`None` is its "no more retries" error) and how many calls it made. */
  datatype Attempts = Attempts(response: Option<Response>, calls: nat)

  /**
   * The retry closure, entered with `retries` left, its first call answered by
   * `replies(at)`: call; stop on success; otherwise decrement and stop once the
   * counter is no longer positive.
   */
  function RetryFrom(replies: nat -> Outcome, at: nat, retries: nat): (a: Attempts)
    ensures 1 <= a.calls <= (if retries == 0 then 1 else retries)
    ensures a.response.Some? ==> replies(at + a.calls - 1) == Ok(a.response.value)
    ensures a.response.None? ==> a.calls == (if retries == 0 then 1 else retries)
    decreases retries
  {
    if replies(at).Ok? then Attempts(Some(replies(at).response), 1)
    else if retries - 1 <= 0 then Attempts(None, 1)
    else
      var rest := RetryFrom(replies, at + 1, retries - 1);
      Attempts(rest.response, rest.calls + 1)
  }

  /** The result of one exchange and the number of calls it made. */
  datatype Exchange = Exchange(result: Result<Response, Failure>, calls: nat)

  /** One exchange whose first call is answered by `replies(at)`. */
  function Turn(replies: nat -> Outcome, at: nat): (x: Exchange)
    ensures 1 <= x.calls <= 1 + MaxRetries
    ensures x.calls > 1 <==> Classify(replies(at)).Retryable?
    ensures x.result.Success? ==> replies(at + x.calls - 1) == Ok(x.result.value)
  {
    match Classify(replies(at))
    case Answered(r) => Exchange(Success(r), 1)
    case Refused(f) => Exchange(Failure(f), 1)
    case Retryable =>
      var a := RetryFrom(replies, at + 1, MaxRetries);
      Exchange(if a.response.Some? then Success(a.response.value) else Failure(ChatError(NoMoreRetries)),
               1 + a.calls)
  }

  /** The retry loop returns the first success among its calls. */
  lemma {:induction false} RetryFindsFirstSuccess(replies: nat -> Outcome, at: nat, retries: nat, k: nat)
    requires k < retries
    requires replies(at + k).Ok?
    requires forall n :: at <= n < at + k ==> !replies(n).Ok?
    ensures RetryFrom(replies, at, retries) == Attempts(Some(replies(at + k).response), k + 1)
    decreases k
  {
    if k > 0 {
      assert !replies(at).Ok?;
      RetryFindsFirstSuccess(replies, at + 1, retries - 1, k - 1);
    }
  }

  /** When every call fails, the loop makes exactly `retries` calls and gives up. */
  lemma {:induction false} RetryExhausts(replies: nat -> Outcome, at: nat, retries: nat)
    requires retries >= 1
    requires forall n :: at <= n < at + retries ==> !replies(n).Ok?
    ensures RetryFrom(replies, at, retries) == Attempts(None, retries)
    decreases retries
  {
    assert !replies(at).Ok?;
    if retries > 1 {
      RetryExhausts(replies, at + 1, retries - 1);
    }
  }

  /** The loop looks at no reply beyond its `retries` calls. */
  lemma {:induction false} RetryWindow(r1: nat -> Outcome, r2: nat -> Outcome, at: nat, retries: nat)
    requires forall n :: at <= n < at + retries ==> r1(n) == r2(n)
    requires r1(at) == r2(at)
    ensures RetryFrom(r1, at, retries) == RetryFrom(r2, at, retries)
    decreases retries
  {
    if !r1(at).Ok? && retries - 1 > 0 {
      assert r1(at + 1) == r2(at + 1);
      RetryWindow(r1, r2, at + 1, retries - 1);
    }
  }

  /**
   * A first call that fails with 404, 400 with `context_length_exceeded`, 401 or
   * 429 ends the turn with the matching sentinel after that one call; a 400 with
   * any other code, or an error that is not an API error, ends it with a wrapped
   * chat error after that one call.
   */
  lemma ShortCircuits(replies: nat -> Outcome, at: nat)
    ensures var o := replies(at); var x := Turn(replies, at);
      (o.ApiError? && o.status == StatusNotFound ==> x == Exchange(Failure(ModelNotFound), 1))
      && (o.ApiError? && o.status == StatusBadRequest && o.code == ContextLengthExceeded ==>
            x == Exchange(Failure(MaxPromptSize), 1))
      && (o.ApiError? && o.status == StatusUnauthorized ==> x == Exchange(Failure(InvalidApiKey), 1))
      && (o.ApiError? && o.status == StatusTooManyRequests ==> x == Exchange(Failure(RateLimit), 1))
      && (o.ApiError? && o.status == StatusBadRequest && o.code != ContextLengthExceeded ==>
            x == Exchange(Failure(ChatError(ApiFailure(o.status, o.code, o.text))), 1))
      && (o.OtherError? ==> x == Exchange(Failure(ChatError(OtherFailure(o.text))), 1))
  {
  }

  /**
   * After a retryable first failure, the turn returns the first success among
   * the next `MaxRetries` calls, having made one call more than the loop.
   */
  lemma Recovers(replies: nat -> Outcome, at: nat, k: nat)
    requires Classify(replies(at)).Retryable?
    requires 1 <= k <= MaxRetries
    requires replies(at + k).Ok?
    requires forall n :: at < n < at + k ==> !replies(n).Ok?
    ensures Turn(replies, at) == Exchange(Success(replies(at + k).response), k + 1)
  {
    RetryFindsFirstSuccess(replies, at + 1, MaxRetries, k - 1);
  }

  /** A retryable first failure followed by `MaxRetries` failures: four calls, then "no more retries". */
  lemma GivesUp(replies: nat -> Outcome, at: nat)
    requires Classify(replies(at)).Retryable?
    requires forall n :: at < n <= at + MaxRetries ==> !replies(n).Ok?
    ensures Turn(replies, at) == Exchange(Failure(ChatError(NoMoreRetries)), 1 + MaxRetries)
  {
    RetryExhausts(replies, at + 1, MaxRetries);
  }

  /** A turn depends on nothing but the replies to its at most four calls. */
  lemma TurnWindow(r1: nat -> Outcome, r2: nat -> Outcome, at: nat)
    requires forall n :: at <= n <= at + MaxRetries ==> r1(n) == r2(n)
    ensures Turn(r1, at) == Turn(r2, at)
  {
    assert r1(at) == r2(at);
    assert r1(at + 1) == r2(at + 1);
    RetryWindow(r1, r2, at + 1, MaxRetries);
  }

  /**
   * The retry counter is a fresh local of each turn: after a turn that spent
   * all four calls, the next turn again gets a first call and three retries,
   * and here succeeds on its last one.
   */
  lemma BudgetIsPerTurn(replies: nat -> Outcome)
    requires forall n :: n != 7 ==> replies(n) == ApiError(500, [], [])
    requires replies(7) == Ok(Response([]))
    ensures Turn(replies, 0) == Exchange(Failure(ChatError(NoMoreRetries)), 4)
    ensures Turn(replies, 4) == Exchange(Success(Response([])), 4)
  {
    assert replies(0) == ApiError(500, [], []);
    GivesUp(replies, 0);
    assert replies(4) == ApiError(500, [], []);
    Recovers(replies, 4, 3);
  }

  /**
   * The retry closure: call, return the first success, otherwise decrement the
   * counter and stop once it is no longer positive.
   */
  method Retry(client: Client, req: Request) returns (response: Option<Response>)
    modifies client
    ensures var a := RetryFrom(client.replies, |old(client.log)|, MaxRetries);
      response == a.response && client.log == old(client.log) + Repeat(req, a.calls)
  {
    var retries := MaxRetries;
    while true
      invariant 1 <= retries <= MaxRetries
      invariant client.log == old(client.log) + Repeat(req, MaxRetries - retries)
      invariant var a := RetryFrom(client.replies, |client.log|, retries);
        RetryFrom(client.replies, |old(client.log)|, MaxRetries) == Attempts(a.response, a.calls + MaxRetries - retries)
      decreases retries
    {
      var o := client.CreateChatCompletion(req);
      if o.Ok? {
        return Some(o.response);
      }
      retries := retries - 1;
      if retries <= 0 {
        break;
      }
    }
    return None;
  }

  /** One exchange: the first call, its classification, and the retry loop when the status calls for it. */
  method Send(client: Client, req: Request) returns (result: Result<Response, Failure>)
    modifies client
    ensures var x := Turn(client.replies, |old(client.log)|);
      result == x.result && client.log == old(client.log) + Repeat(req, x.calls)
  {
    var o := client.CreateChatCompletion(req);
    match Classify(o)
    case Answered(r) =>
      result := Success(r);
    case Refused(f) =>
      result := Failure(f);
    case Retryable =>
      var response := Retry(client, req);
      result := if response.Some? then Success(response.value) else Failure(ChatError(NoMoreRetries));
  }

  /** `resp.Choices[0]` is only read from a response the turn returns. */
  predicate AnswerHasChoice(x: Exchange) {
    x.result.Success? ==> |x.result.value.choices| > 0
  }

  /** The assistant text of a successful exchange. */
  function Answer(x: Exchange): (t: Text)
    requires x.result.Success? && AnswerHasChoice(x)
    ensures t in x.result.value.choices
  {
    x.result.value.choices[0]
  }

  /** The text a successful turn answers with is the first choice of the reply to its last call. */
  lemma AnswerIsLastReply(replies: nat -> Outcome, at: nat)
    requires Turn(replies, at).result.Success? && AnswerHasChoice(Turn(replies, at))
    ensures var x := Turn(replies, at);
      replies(at + x.calls - 1).Ok? && Answer(x) == replies(at + x.calls - 1).response.choices[0]
  {
  }

  /**
   * The history after a turn that appended the user message `content`: the user
   * message stays whatever happens, and a success adds the assistant's answer.
   */
  function After(history: seq<Message>, content: Text, x: Exchange): (h: seq<Message>)
    requires AnswerHasChoice(x)
    ensures |h| == |history| + (if x.result.Success? then 2 else 1)
    ensures h[..|history|] == history
    ensures h[|history|] == Message(User, content)
    ensures x.result.Success? ==> h[|history| + 1] == Message(Assistant, Answer(x))
  {
    if x.result.Success? then history + [Message(User, content), Message(Assistant, Answer(x))]
    else history + [Message(User, content)]
  }
}
