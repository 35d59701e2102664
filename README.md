# KV-cache mock servers, modelled in Dafny

The KV-cache samples test an external routing gateway against three mock
HTTP services. This project models the logic of those mocks:

- **Controller mock.** It keeps six call counters. `/reset` zeroes them. `/lookup` counts the call and suggests a placement ("layout") of a token sequence on the two engines. `/pin`, `/compress` and `/evict` count their own operation and echo the token count.
- **Engine-A mock.** It has a deterministic pseudo-tokenizer behind `/tokenize`. Its prompt extractor reads a `prompt` string, a `prompt` array, or the `content` of the `messages`. It answers chat completions with a canned response and counts tokenize and chat calls.
- **Engine-B mock.** It gives the same canned chat completion, counts chat calls, and answers `/tokenize` with 404.
- **Event ids.** Every mock hands out ids `<prefix>-<n>` from one process-wide counter.

Each server is a `class` (`Controller.Service`, `EngineA.Service`,
`EngineB.Service`) whose fields are the counters the Go handlers update in
place. It has one method per endpoint. A method takes the request as
already decoded. For lookup, the token events and tokenize, the body is an
`Option`, and `None` means the decoder failed: lookup and the token events
then stop with 400, while `extractPrompt` returns "" and tokenize goes on to
answer 200 with `[0]`. The chat handlers ignore the decode error, so they
get the decoded request itself. A method returns the status code and a response value.

Every state-changing method ties the new counters to a pure `Step` function
of the old counters and the call. Lemmas about `Run`, the fold of `Step` over
a sequence of calls, state what the integration tests rely on: after a
reset, the counters hold exactly what the later calls record. The event id
counter is a shared `EventIds.Generator` object. Its `Next` method proves
that each id differs from every id issued before.

The tokenizer and the prompt extractor are pure functions (`Tokenizer.Tokenize`,
`Prompt.PromptOf`). The loops of the Go code are methods proved equal to
them (`Tokenizer.TokenizePrompt`, `Prompt.ExtractPrompt`). The `strings`
functions they call (`TrimSpace`, `Fields`, `Join`) are modelled in module
`Text`, over strings of code points. White space is exactly the set of
code points for which Go's `unicode.IsSpace` holds.

For three tokens under the default preference, engine A gets
`max(3/2, 1) = 1` and engine B gets 6 (`Controller.DefaultLayoutOfThreeTokens`).

## Model

| member | source | states |
|---|---|---|
| `Controller.Max` | ai/kvcache/mock/server/controller/main.go:192-197 | the result is at least both arguments and equal to one of them |
| `Controller.TokenCount` | ai/kvcache/mock/server/controller/main.go:108-111 | the lookup token count is max(len(tokens), 1): never 0, and 1 for an empty or absent list |
| `Controller.LayoutFor` | ai/kvcache/mock/server/controller/main.go:112-119 | the layout has entries for exactly the two engines, tagged ram-a and ram-b; the favoured engine (engine A only when preferred is "mock-llm-a", engine B otherwise) gets tokenCount+3 and the other max(tokenCount/2, 1); the favoured size is strictly larger and both are at least 1 |
| `Controller.DefaultLayoutOfThreeTokens` | ai/kvcache/mock/server/controller/main.go:108-119 | three tokens under the default preference give engine A size 1 and engine B size 6 |
| `Controller.Service.constructor` | ai/kvcache/mock/server/controller/main.go:58-60 | a new controller has all counters at 0, the given preferred endpoint, and a fresh event counter at 0 |
| `Controller.Service.GetStats` | ai/kvcache/mock/server/controller/main.go:66-79 | `/stats` answers 200 with the six counters and the preferred endpoint |
| `Controller.Service.Reset` | ai/kvcache/mock/server/controller/main.go:80-94 | a POST answers 200 and zeroes all six counters; any other method answers 405 and changes nothing |
| `Controller.Service.Lookup` | ai/kvcache/mock/server/controller/main.go:95-130 | non-POST: 405 and nothing changes; undecodable body: 400 and only lookupFailure grows by 1; otherwise 200, lookupCalls and lookupSuccess each grow by 1 and nothing else changes, and the body is a fresh `lookup-<n>` id, appended to the issued ids, with the layout for TokenCount(tokens); lookupCalls == lookupSuccess is kept |
| `Controller.Service.TokenEvent` | ai/kvcache/mock/server/controller/main.go:148-171 | non-POST: 405; undecodable body: 400; in both cases no counter changes; otherwise 200, only the counter named by the operation grows by 1, and the body is a fresh `<op>-<n>` id, appended to the issued ids, with num_tokens == len(tokens); 405 and 400 issue no id |
| `Controller.RunAppend` | ai/kvcache/mock/server/controller/main.go:80-171 | handling two runs of calls one after the other is handling their concatenation |
| `Controller.RunWithoutReset` | ai/kvcache/mock/server/controller/main.go:95-171 | without a POST reset, every counter grows by exactly the number of calls it records |
| `Controller.CountersSinceReset` | ai/kvcache/mock/server/controller/main.go:85-91 | after a POST reset, the counters equal the tally of the calls made since, whatever came before |
| `Controller.ResetIdempotent` | ai/kvcache/mock/server/controller/main.go:85-91 | a reset yields all zeros, and a second reset leaves that state unchanged |
| `Controller.LookupCountersAgree` | ai/kvcache/mock/server/controller/main.go:121-124 | lookupCalls and lookupSuccess, once equal, stay equal over any sequence of calls |
| `EventIds.Decimal` | ai/kvcache/mock/server/controller/main.go:181 | FormatUint(n, 10) is non-empty, all digits, and starts with '0' only for n == 0 |
| `EventIds.ParseDecimalOfDecimal` | ai/kvcache/mock/server/controller/main.go:181 | reading back the decimal rendering of n gives n |
| `EventIds.DecimalOfParseDecimal` | ai/kvcache/mock/server/controller/main.go:181 | a canonical digit string is the rendering of its own value, so the round trip holds both ways |
| `EventIds.EventIdUnique` | ai/kvcache/mock/server/controller/main.go:179-182 | the id `prefix-n` determines both the prefix and n |
| `EventIds.NextIdIsFresh` | ai/kvcache/mock/server/controller/main.go:179-182 | the id carrying the next counter value is not among the ids issued before, whatever prefixes were used |
| `EventIds.Generator.Next` | ai/kvcache/mock/server/controller/main.go:179-182 | the counter grows by exactly 1, the result is `prefix-<new value>`, it is not among the earlier ids, and it is appended to the issued ids |
| `Text.TrimSpace` | ai/kvcache/mock/server/engine-a/main.go:178 | the result is the slice s[i..j] with only white space before i and after j; it is empty exactly for a blank string, and otherwise begins and ends with a character that is not white space |
| `Text.Fields` | ai/kvcache/mock/server/engine-a/main.go:182 | every word is non-empty and holds no white space |
| `Text.FieldsOfWord` | ai/kvcache/mock/server/engine-a/main.go:182 | a non-empty run of characters that are not white space is a single word |
| `Text.FieldsWordThenSpaces` | ai/kvcache/mock/server/engine-a/main.go:182 | words end only at white space: a word, then white space, then s gives that word followed by the words of s |
| `Text.FieldsBlank` | ai/kvcache/mock/server/engine-a/main.go:182-185 | a string has no words exactly when it is blank |
| `Text.FieldsOfTrimSpace` | ai/kvcache/mock/server/engine-a/main.go:178-182 | trimming a prompt does not change its words |
| `Text.FieldsConcat` | ai/kvcache/mock/server/engine-a/main.go:182 | the words, concatenated, are exactly the characters that are not white space, in order |
| `Text.Join` | ai/kvcache/mock/server/engine-a/main.go:157 | Join of no parts is empty; otherwise its length is the parts' total length plus one separator between each pair of neighbours |
| `Text.SplitJoin` | ai/kvcache/mock/server/engine-a/main.go:157 | splitting at the separator undoes Join when no part holds the separator |
| `Tokenizer.WordToken` | ai/kvcache/mock/server/engine-a/main.go:187-193 | the token of word i lies between i+1 and i+997 |
| `Tokenizer.TokenizePrompt` | ai/kvcache/mock/server/engine-a/main.go:177-195 | the loop computes exactly Tokenize(prompt): one token per word of the trimmed prompt, each (code point sum mod 997) + index + 1, or [0] |
| `Tokenizer.CodeSumOf` | ai/kvcache/mock/server/engine-a/main.go:188-191 | the inner loop's sum is the sum of the word's code points |
| `Tokenizer.TokenizeBlank` | ai/kvcache/mock/server/engine-a/main.go:178-185 | a prompt tokenizes to [0] if and only if it is empty or white space only |
| `Tokenizer.TokenizeWords` | ai/kvcache/mock/server/engine-a/main.go:182-194 | for a prompt that is not blank: one token per whitespace-separated word, token i is (code point sum of word i) mod 997 + i + 1, i+1 <= token i <= i+997, and 0 never appears |
| `Tokenizer.TokenizeSameWords` | ai/kvcache/mock/server/engine-a/main.go:177-195 | prompts with the same words tokenize the same, whatever white space surrounds or separates them |
| `Prompt.StringItems` | ai/kvcache/mock/server/engine-a/main.go:150-156 | the kept parts are exactly the string elements of the array, never more parts than elements |
| `Prompt.StringItemsAppend` | ai/kvcache/mock/server/engine-a/main.go:150-157 | string elements keep their order: the parts of a concatenation are the parts of its halves in turn |
| `Prompt.MessageContents` | ai/kvcache/mock/server/engine-a/main.go:164-173 | the kept parts are exactly the string contents of object elements; other elements and non-string contents are skipped |
| `Prompt.MessageContentsAppend` | ai/kvcache/mock/server/engine-a/main.go:164-174 | message contents keep their order |
| `Prompt.ExtractPrompt` | ai/kvcache/mock/server/engine-a/main.go:138-175 | the loops compute exactly PromptOf(body): trimmed string prompt, else the joined string elements of an array prompt, else the joined message contents, else "" (also for a missing or undecodable body) |
| `Prompt.StringPrompt` | ai/kvcache/mock/server/engine-a/main.go:146-149 | a string prompt is returned trimmed and is never longer than the given string |
| `Prompt.ArrayPromptParts` | ai/kvcache/mock/server/engine-a/main.go:150-157 | an array prompt yields its string elements, in order, joined with newlines: splitting the result at newlines gives them back |
| `Prompt.OtherPromptFallsThrough` | ai/kvcache/mock/server/engine-a/main.go:146-160 | a prompt of any other type is ignored: the result is that of the same body without it |
| `Prompt.MessagesParts` | ai/kvcache/mock/server/engine-a/main.go:160-174 | without a usable prompt, the result is the message contents, in order, joined with newlines |
| `Prompt.NoPromptNoMessages` | ai/kvcache/mock/server/engine-a/main.go:160-163 | with no usable prompt and no messages array, the prompt is "" |
| `Completions.ModelOf` | ai/kvcache/mock/server/engine-a/main.go:104-108 | the reported model is the decoded one when it is non-empty, and "mock-model" when the decoder left it empty |
| `Completions.Completion` | ai/kvcache/mock/server/engine-a/main.go:114-127 | the answer carries the given id and model; object is "chat.completion"; served_by is the engine id; there is one choice, at index 0, with the assistant message "mock response from <engine id>"; usage is exactly prompt 8, completion 8 and total 16 |
| `EngineA.Service.constructor` | ai/kvcache/mock/server/engine-a/main.go:56-57 | a new engine has both counters at 0, the given id and a fresh event counter |
| `EngineA.Service.GetStats` | ai/kvcache/mock/server/engine-a/main.go:63-72 | `/stats` answers 200 with both counters and the engine id |
| `EngineA.Service.Reset` | ai/kvcache/mock/server/engine-a/main.go:73-83 | a POST answers 200 and zeroes both counters; any other method answers 405 and changes nothing |
| `EngineA.Service.Tokenize` | ai/kvcache/mock/server/engine-a/main.go:84-97 | non-POST: 405 and nothing changes; POST, even with an undecodable body: 200 with count == len(tokens), the tokens of the extracted prompt and max_model_len 8192, and tokenizeCalls grows by exactly 1 |
| `EngineA.Service.ChatCompletions` | ai/kvcache/mock/server/engine-a/main.go:98-129 | non-POST: 405 and nothing changes; POST, whether or not the body decodes: 200, chatCalls grows by exactly 1, and the canned completion for ModelOf(decoded request) is served by this engine under a fresh `chatcmpl-<n>` id, appended to the issued ids |
| `EngineA.TokenizeAnswerNonEmpty` | ai/kvcache/mock/server/engine-a/main.go:89-96 | a POST to `/tokenize` always reports at least one token: either [0] or tokens none of which is 0 |
| `EngineA.RunAppend` | ai/kvcache/mock/server/engine-a/main.go:73-112 | handling two runs of calls one after the other is handling their concatenation |
| `EngineA.RunWithoutReset` | ai/kvcache/mock/server/engine-a/main.go:84-112 | without a POST reset, each counter grows by exactly the number of POST calls to its endpoint |
| `EngineA.CountersSinceReset` | ai/kvcache/mock/server/engine-a/main.go:73-83 | after a POST reset, the counters equal the number of POST tokenize and chat calls since |
| `EngineB.Service.constructor` | ai/kvcache/mock/server/engine-b/main.go:49-50 | a new engine has its chat counter at 0, the given id and a fresh event counter |
| `EngineB.Service.GetStats` | ai/kvcache/mock/server/engine-b/main.go:56-64 | `/stats` answers 200 with the chat counter and the engine id |
| `EngineB.Service.Reset` | ai/kvcache/mock/server/engine-b/main.go:65-74 | a POST answers 200 and zeroes chatCalls; any other method answers 405 and changes nothing |
| `EngineB.Service.Tokenize` | ai/kvcache/mock/server/engine-b/main.go:75-77 | every method answers 404 "tokenize not available on this instance", and nothing changes |
| `EngineB.Service.ChatCompletions` | ai/kvcache/mock/server/engine-b/main.go:78-109 | non-POST: 405 and chatCalls unchanged; POST, whether or not the body decodes: 200, chatCalls grows by exactly 1, and the canned completion for ModelOf(decoded request) is served by this engine under a fresh `chatcmpl-<n>` id, appended to the issued ids |
| `EngineB.CountersSinceReset` | ai/kvcache/mock/server/engine-b/main.go:70-92 | after a POST reset, chatCalls equals the number of POST chat calls since, whatever came before |

## Left out

- HTTP plumbing is not modelled: the mux, `ListenAndServe`, the read-header timeout and `writeJSON`. Handlers return their status and a response value instead of writing JSON.
- JSON decoding by `encoding/json` is a library call. Requests arrive already decoded. Where the handler stops on an error, `None` stands for the failure. The chat handlers use whatever the decoder stored in the request, even when it also returned an error, so `ChatCompletions` takes that decoded request. Which `model` value the decoder stores for a given body is not modelled; for example, with a duplicated or mistyped key it keeps the last string value that was stored.
- `sync.Mutex` and `atomic.AddUint64` exist for concurrency. The model handles calls one at a time.
- Integer widths are not modelled. Counters, the event counter (`uint64`) and the code point sum are unbounded integers, so wrap-around is left out. The source assumes these values never get that large.
- `/health` only returns constant liveness data, so it is not modelled. The `timestamp_unix_milli` field of `/stats` reads the clock, so it is also left out.
- `envOrDefault` and `os.LookupEnv` read the environment. The engine id and the preferred endpoint are constructor parameters instead. Their defaults are the constants `DefaultEngineId` and `DefaultPreferred`.
- The routes `/pin`, `/compress` and `/evict` are modelled by one method, `Controller.Service.TokenEvent`, which takes a `TokenOp`. An operation name outside these three never reaches `handleTokenEvent`, so the model has no such case.
- Strings are sequences of Unicode scalar values, as Go's `range` over a string yields them. Go turns invalid UTF-8 into U+FFFD; this is not modelled, because decoded JSON strings are always valid.
- The integration tests in ai/kvcache/mock/test/pixiu_test.go and ai/kvcache/real-engine/test/pixiu_test.go drive an external gateway over the network. They are not part of this model.
