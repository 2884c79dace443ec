# yay chat engine, modelled in Dafny

This project models the conversation core of the `yay` terminal chat client:

- `AI.SendMsg` of `pkg/ai/ai.go` is one conversation turn. It adds the markdown header to the user's text and cuts it to the byte budget. It appends the user message to the history. It calls the completion service, classifies the first failure by HTTP status, and retries every API status other than 400, 401, 404 and 429 up to three more times. On success it appends the assistant's answer.
- `sendMsg` of the older `ai.go` (package `main`) is the same turn with the text sent as typed. Its errors are plain texts.
- `doRequest` of `pkg/ai/request.go` builds one request: the model comes from `YAY_MODEL`, the tool list from the registry. It runs the same protocol on the given messages.
- The tool registry of `pkg/ai/tools/tool.go` holds two tools. `get_current_time` (`get_time.go`) formats the clock with Go's `time.RFC1123` layout. `web_search` (`web_search.go`) queries DuckDuckGo's HTML endpoint and collects at most five result blocks.

The three copies of the request protocol are modelled once, in module `Protocol`.

- `Classify` is the `errors.As` test and the status `switch`.
- `RetryFrom` and `Turn` specify the retry closure and the whole exchange as functions of the service's replies.
- The methods `Retry` (the `for` loop with its `retries` counter) and `Send` run the exchange against a `Client`. They are proved equal to those functions.

The completion service is the class `OpenAI.Client`. The k-th call it receives is answered by `replies(k)`, and every request it receives is recorded in `log`. The contracts can therefore state exactly which requests a turn sends and how many.

Strings are byte strings (`Bytes.Text`), since Go's `len` and slicing count bytes.

Notes on the code's behaviour, each stated by the contracts below:

- **Number of calls.** A turn makes one call, then at most three retries: four calls at most.
- **Which failures are retried.** Only an API error whose status is none of 400, 401, 404 and 429 is retried. A non-API error (a network failure) and a 400 with any code other than `context_length_exceeded` end the turn after one call, with a wrapped `chat error: …`.
- **What is truncated.** The budget of 12250 bytes applies to the header, its space and the user's text together. The header and space take 33 bytes, so at most 12217 bytes of input survive.
- **History after failures.** A failed turn keeps its user message in the history, including after the retries run out.
- **Error wrapping.** Unclassified failures are wrapped as `chat error: <cause>`.
- **No tool-dispatch loop.** None of the three turn functions inspects tool calls or makes a second round trip. `SendMsg` sends no tools at all. The registry and handlers are modelled as the code has them, together with the dispatch property they do support: at most one tool answers a call.
- **Redirect links are decoded twice.** `Query().Get("uddg")` already unescapes the parameter, and `url.QueryUnescape` unescapes it again. A target URL containing `+` or a `%XX` sequence therefore comes back changed; `WebSearch.PlusBecomesSpace` shows `a+b` becoming `a b`.
- **An empty search looks like a declined call.** When no result on the page has a usable link, the handler returns `("", nil)`, the same answer it gives for a call that is not its own.

## Model

| member | source | states |
|---|---|---|
| Protocol.Classify | pkg/ai/ai.go:109-127 | the first outcome is answered iff it is a success; it is retryable iff it is an API error whose status is not 400, 401, 404 or 429; it ends in a sentinel iff it is an API error with status 404, 401, 429, or 400 with `context_length_exceeded`; otherwise the wrapped cause carries the API error's status, code and text, or the other error's text |
| Protocol.RetryFrom | pkg/ai/ai.go:91-104 | the retry closure makes between 1 and `retries` calls; a success it returns is the reply to its last call; when it gives up it has made all `retries` calls |
| Protocol.Turn | pkg/ai/ai.go:106-131 | a turn makes 1 to 4 calls; it makes more than one exactly when the first outcome is retryable; a success it returns is the reply to its last call |
| Protocol.RetryFindsFirstSuccess | pkg/ai/ai.go:92-97 | if the first k calls fail and call k+1 succeeds (k below the budget), the loop returns that success after k+1 calls |
| Protocol.RetryExhausts | pkg/ai/ai.go:98-103 | if every call fails, the loop makes exactly `retries` calls and returns "no more retries" |
| Protocol.RetryWindow | pkg/ai/ai.go:92-102 | the loop depends on no reply beyond its budget of calls |
| Protocol.ShortCircuits | pkg/ai/ai.go:111-131 | 404, 400 with `context_length_exceeded`, 401 and 429 end the turn with their sentinel after one call; a 400 with another code and a non-API error end it with a wrapped chat error after one call |
| Protocol.Recovers | pkg/ai/ai.go:122-126 | after a retryable first failure, the turn returns the first success among the next three calls, after k+1 calls |
| Protocol.GivesUp | pkg/ai/ai.go:122-131 | a retryable first failure followed by three failures ends with the wrapped "no more retries" after four calls |
| Protocol.TurnWindow | pkg/ai/ai.go:91-127 | a turn depends only on the replies to its first four calls |
| Protocol.BudgetIsPerTurn | pkg/ai/ai.go:91 | an example run: when every reply but the eighth is a 500, the first turn spends four calls and fails, and the next turn again gets four calls and succeeds on its last (the general fact is that `Turn` is taken at each call's own log position in `SendMsg`'s contract) |
| Protocol.Retry | pkg/ai/ai.go:92-104 | the loop returns what `RetryFrom` specifies, and the service receives the same request exactly as many times as `RetryFrom` counts |
| Protocol.Send | pkg/ai/ai.go:106-131 | one exchange returns the result `Turn` specifies, and the service receives the request exactly `Turn`'s number of times |
| Protocol.Answer | pkg/ai/ai.go:133 | the text a turn answers with is one of the response's choices |
| Protocol.AnswerIsLastReply | pkg/ai/ai.go:133 | the answer of a successful turn is the first choice of the reply to the turn's last call |
| Protocol.After | pkg/ai/ai.go:71-137 | the history after a turn keeps the old history as a prefix; it gains the user message in all cases, and gains the assistant's answer right after it on success |
| Chat.Prefix | pkg/ai/ai.go:64 | the text before the user's input is the 32-byte header followed by one more byte (the space), 33 bytes in all |
| Chat.UserContent | pkg/ai/ai.go:64-69 | the stored content is the first min(33+|input|, 12250) bytes of header, space and input |
| Chat.UserContentBounded | pkg/ai/ai.go:66-69 | the stored content never exceeds 12250 bytes and always starts with the header and its space |
| Chat.UserContentKeepsInput | pkg/ai/ai.go:64-69 | input of at most 12217 bytes is kept whole; longer input keeps exactly its first 12217 bytes |
| Chat.ErrorText | pkg/ai/ai.go:27-32 | the four sentinels have non-empty texts; a chat error's text is `chat error: ` followed by its cause's text |
| Chat.AI.constructor | pkg/ai/ai.go:56-59 | a new engine has an empty history and the given client |
| Chat.AI.SendMsg | pkg/ai/ai.go:63-139 | every call of the turn sends model gpt-3.5-turbo, no tools, and the old history plus the bounded user message; the history becomes `After` of the turn; success returns the assistant text with no error, failure returns "" and the turn's error |
| Legacy.ErrorText | ai.go:58-80 | the four classified failures have non-empty texts; a chat error's text is `chat error: ` followed by the cause's text or "no more retries" |
| Legacy.ErrorTextsDistinct | ai.go:58-79 | the four classified texts are pairwise distinct and none equals any chat-error text |
| Legacy.LegacyAI.constructor | ai.go:19-23 | a new engine has an empty history and the given client |
| Legacy.LegacyAI.SendMsg | ai.go:26-88 | as `Chat.AI.SendMsg`, but the user text is stored and sent verbatim, and a failure returns its text |
| Requests.ModelName | pkg/ai/request.go:18-21 | a set `YAY_MODEL`, even an empty one, names the model; `gpt-3.5-turbo` is used only when it is unset |
| Requests.OfferedTools | pkg/ai/request.go:23-29 | with tools enabled the request offers the clock tool and then the web search tool, under their names; otherwise no tools |
| Requests.ToolList | pkg/ai/request.go:23-29 | the loop over the registry builds exactly the offered tool list |
| Requests.DoRequest | pkg/ai/request.go:14-86 | exactly one of response and error is present; every call sends the `YAY_MODEL` model (gpt-3.5-turbo when unset), the messages as given and the offered tools; the result is that of `Turn` |
| GetTime.Definition | pkg/ai/tools/get_time.go:12-24 | the clock tool is a function tool named `get_current_time` with an object schema, no properties and nothing required |
| GetTime.Padded | pkg/ai/tools/get_time.go:31 | a number is written as decimal digits, at least `width` of them |
| GetTime.PaddedValue | pkg/ai/tools/get_time.go:31 | the padded digits spell the number, and use exactly `width` digits when the number fits |
| GetTime.Zone | pkg/ai/tools/get_time.go:31 | the zone element is never empty, and is the zone's name whenever it has one |
| GetTime.ZoneForm | pkg/ai/tools/get_time.go:31 | a nameless zone offset by less than 100 hours is written as a sign (`-` exactly for offsets of a minute or more west) and four digits spelling the hours and minutes of the offset |
| GetTime.FormatRFC1123 | pkg/ai/tools/get_time.go:31 | the timestamp is at least 27 bytes long |
| GetTime.FormatParses | pkg/ai/tools/get_time.go:31 | round trip: for years 0 to 9999, reading the timestamp back gives exactly the clock's weekday, day, month, year, hour, minute, second and zone |
| GetTime.Handle | pkg/ai/tools/get_time.go:25-35 | the handler never errs, and its output is empty exactly when the call's name is not `get_current_time` |
| GetTime.HandleReadsBack | pkg/ai/tools/get_time.go:25-35 | a `get_current_time` call is answered with the clock in RFC1123 form: for years 0 to 9999, reading the answer back gives the weekday, date, time and zone of the clock, and there is no error |
| GetTime.HandleIgnoresArguments | pkg/ai/tools/get_time.go:25-35 | two calls with the same name get the same answer, whatever their arguments and identifiers |
| WebSearch.Definition | pkg/ai/tools/web_search.go:17-35 | the search tool is a function tool named `web_search` with one property `query`, which is required |
| WebSearch.Snippet | pkg/ai/tools/web_search.go:128-133 | a preview of text longer than the limit is its first `limit` bytes followed by "..."; shorter text keeps its length and contents |
| WebSearch.SnippetShort | pkg/ai/tools/web_search.go:128-133 | text within the limit is returned unchanged |
| UrlQuery.Escape | pkg/ai/tools/web_search.go:49 | `url.QueryEscape` never writes `&`, `;` or `=`, so an escaped value stays one query value |
| UrlQuery.Unescape | pkg/ai/tools/web_search.go:75 | `url.QueryUnescape` never makes its input longer |
| UrlQuery.UnescapeFails | pkg/ai/tools/web_search.go:75-79 | unescaping fails exactly when some `%` is not followed by two hex digits, which is when the code falls back to the once-decoded value |
| UrlQuery.UnescapeEscape | pkg/ai/tools/web_search.go:49 | round trip: unescaping what `QueryEscape` wrote gives back the original bytes |
| UrlQuery.UnescapePlain | pkg/ai/tools/web_search.go:75 | text with no `%` and no `+` unescapes to itself |
| UrlQuery.Find | pkg/ai/tools/web_search.go:74 | the position found is the first occurrence of the separator, or the end when there is none |
| UrlQuery.Pair | pkg/ai/tools/web_search.go:74 | a query segment that is empty or holds a `;` is dropped |
| UrlQuery.PairCut | pkg/ai/tools/web_search.go:74 | a segment is cut at its first `=`: the key and the value are the two halves unescaped, and the segment is dropped when either half fails to unescape |
| UrlQuery.Get | pkg/ai/tools/web_search.go:74 | an empty query yields `""` |
| UrlQuery.GetSegment | pkg/ai/tools/web_search.go:74 | `Query().Get` reads the query one `&`-separated segment at a time: the first segment that reads as a pair with the wanted key gives the value; every other segment is skipped; `""` when none matches |
| UrlQuery.GetFirst | pkg/ai/tools/web_search.go:74 | `Query().Get(key)` on a query that starts with `key=` and a value escaped once returns that value, decoded once |
| WebSearch.ResolveLink | pkg/ai/tools/web_search.go:71-87 | a DuckDuckGo `/l/` redirect resolves to its `uddg` parameter as `Query().Get` decodes it, unescaped once more, or left as it is when that second unescaping fails; any other link is kept as it is |
| WebSearch.DecodesTwice | pkg/ai/tools/web_search.go:73-80 | a redirect carrying the target escaped once resolves to the target unescaped a second time; it equals the target exactly when that second unescaping fails or changes nothing |
| WebSearch.UnwrapsRedirect | pkg/ai/tools/web_search.go:73-80 | a redirect to a target with no `%` and no `+` resolves to that target |
| WebSearch.PlusBecomesSpace | pkg/ai/tools/web_search.go:74-77 | a redirect to `a+b` resolves to `a b` |
| WebSearch.MainContent | pkg/ai/tools/web_search.go:111-125 | a page that cannot be fetched or read gives a note naming the failed step followed by the error; an article gives its title, a blank line and its text |
| WebSearch.Render | pkg/ai/tools/web_search.go:94 | a block is 33 bytes longer than its title, URL and preview together |
| WebSearch.RenderLayout | pkg/ai/tools/web_search.go:94 | in a block the title, the URL and the preview each follow their label at a fixed offset, and the block ends in a blank line |
| WebSearch.RenderAll | pkg/ai/tools/web_search.go:58-95 | the accumulated results are empty exactly when no block was added, and hold at least 33 bytes per block |
| WebSearch.Collect | pkg/ai/tools/web_search.go:62-96 | the callback produces at most five blocks; each has a non-empty URL and a preview of at most 503 bytes |
| WebSearch.CollectKeepsFirstFive | pkg/ai/tools/web_search.go:62-96 | the blocks are exactly the first five usable results, in page order |
| WebSearch.Answer | pkg/ai/tools/web_search.go:37-40 | a call with another name is declined with `("", nil)` |
| WebSearch.Gates | pkg/ai/tools/web_search.go:38-104 | a foreign name is declined; malformed JSON arguments return the decoding error; a missing or non-string `query` is declined; a search page that cannot be visited returns the visit's error |
| WebSearch.EmptyMeansNoResults | pkg/ai/tools/web_search.go:58-107 | once the gates pass and the page is visited, the output is the rendered blocks with no error, and it is `""` exactly when no result has a usable link |
| WebSearch.OnResults | pkg/ai/tools/web_search.go:58-96 | the callback run over the page's entries with its `visited` counter leaves `visited` at the number of collected blocks (at most five) and `results` at their rendering |
| WebSearch.Handle | pkg/ai/tools/web_search.go:37-108 | the handler returns what `Answer` specifies |
| Tools.Handle | pkg/ai/tools/tool.go:5-8 | dispatching on a registered tool returns that tool's answer |
| Tools.Registry | pkg/ai/tools/tool.go:10-13 | the registry holds two tools, `get_current_time` and then `web_search` |
| Tools.NamesDistinct | pkg/ai/tools/tool.go:10-13 | the registered names are distinct |
| Tools.OnlyOwnerAnswers | pkg/ai/tools/tool.go:5-8 | a tool answers a call with anything but `("", nil)` only if the call carries that tool's name |
| Tools.AtMostOneAnswers | pkg/ai/tools/tool.go:10-13 | for any call, at most one registered tool answers, and a call whose name is not registered is declined by every tool |

## Left out

- Protocol.Send, Chat.AI.SendMsg, Legacy.LegacyAI.SendMsg, Requests.DoRequest: the request context, its cancellation, and the `ctx` argument are not modelled. The service is a function of the call's position in the client's history, so a reply cannot depend on the request's contents.
- Chat.AI.SendMsg, Legacy.LegacyAI.SendMsg: they require that a successful turn's response has at least one choice. The code indexes `Choices[0]` without a check and would panic on an empty list.
- Chat.AI.SendMsg: the model assumes one turn at a time. The code does not enforce this: pkg/model/interactive.go:102-119 starts a new `SendMsg` on every non-blank Enter, even while a request is in flight. Overlapping turns, which would race on `a.messages`, are not modelled.
- `NewAI` and `newAI` build the client from `OPENAI_API_KEY` and `YAY_API_BASEURL`. Client construction and the environment are not part of this model; the constructors take the client.
- Requests.DoRequest: `YAY_MODEL` is a parameter (`None` when the variable is unset), not read from the environment.
- Protocol.Classify: an API error's `Code` is a Go `any`. The model keeps only its text form, and compares it with `context_length_exceeded` as text.
- `Error()` texts of the go-openai errors are opaque texts carried in the failure, not rebuilt from status and message.
- GetTime.Handle: `time.Now()` is a parameter (a `Clock` with calendar fields, zone name and offset). The calendar arithmetic that derives those fields from an instant is not modelled.
- GetTime.FormatParses: the round trip is proved for years 0 to 9999, the years RFC1123 writes with four digits.
- WebSearch.Handle: JSON decoding, the split of a URL into scheme, host, path and raw query, and the colly search-page visit are abstract functions of `Web`. The page's `.result` elements are a sequence in document order. Query escaping, unescaping and `Query().Get` follow net/url's rules for query components.
- WebSearch.Handle: the collector's `Async(true)` goroutine is not modelled. Only one page is visited, its `OnHTML` callbacks run one after another in page order, and `c.Wait()` joins them, so the model runs them as a sequential loop.
- WebSearch.Handle: the `OnError` logging and the allowed-domain and user-agent settings are left out. A failed result request only logs, so the output does not depend on them.
- `extractMainContent`: `http.Get` and readability extraction are one abstract `fetch`. The three texts it builds are modelled in `WebSearch.MainContent`.
- The markdown rendering of replies, the terminal UI, the CLI, and the keyboard and spinner code are not part of this model.
- The tool-dispatch loop and the second round trip that a tool result would trigger are not modelled. No code in `pkg/ai/ai.go`, `pkg/ai/request.go` or `ai.go` performs them.
