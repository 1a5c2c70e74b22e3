# Prompt tools and resilient Gemini invoker — a Dafny model

This project models the chat back end's prompt pipeline, which has three parts.

- **Prompt templates.** `summarize`, `tone`, `format`, `expand` and `simplify` are pure functions. Each turns the user's text and an options bag into an instruction prompt built from:
  - fixed fragments;
  - lookups in small constant tables;
  - lines that depend on the options.
- **The `context` tool.** It holds a process-wide system persona, which it puts in front of the user's query. A setter replaces the persona.
- **The dispatcher and the invoker.**
  - `applyTool` is an exact-match switch over the six tool names, with `||` defaults.
  - `GeminiService.generateResponse` composes the final prompt and calls the generation API through `retryWithBackoff`. That is a bounded loop that retries only rate-limited (HTTP 429) attempts, sleeping 1000·2^i ms after attempt i.
  - `generateResponse` then rejects an empty response text and maps every failure to one of four user-facing messages.

## How JavaScript is modelled

- **Option values** are `JsValues.Value`: `undefined`, `null`, booleans and strings. The one exception is `options.tone`, which is `Option<string>`: absent or a string. A `null` or `false` tone, which the dispatcher's `||` would also replace by "friendly", cannot be represented.
  - Truthiness, `String(v)`, `||` and destructuring defaults are written out. A destructuring default replaces only `undefined`; `||` replaces every falsy value.
  - A property lookup in a constant table renders the key with `String`. A miss yields `undefined`, which a template literal prints as `"undefined"`.
- **Text facts.** What a prompt contains is stated with `Text.StartsWith`, `Text.EndsWith` and `Text.Occurs` (contiguous occurrence).
- **The persona** is the field of the class `ContextTool.Persona`. The dispatcher and the prompt composition read it.
- **The API call** is a parameter `api: (string, nat) -> Outcome`. It receives the prompt and the attempt index and yields a response (whose `text` may be missing) or a thrown error with an optional `status`.
- **Sleeping** is modelled as appending the delay to a `delays` sequence. `RetryWithBackoff` and `GenerateResponse` also return how many API calls they made.
- **The retry loop as a reference function.** `GeminiService.RetryFrom` / `GeminiService.Retry` state the loop's behaviour recursively. The method `RetryWithBackoff` is proved equal to them, and the lemmas characterise them: call counts, delays, which outcome ends the loop, and the total sleep time.
- **Case of the `empty response` error.** The code throws it inside the same `try` as the API call, with no `status`. It is therefore caught and classified like any other error, and surfaces as `"Failed to get response from Gemini: Empty or malformed response from Gemini"`. The model follows the code here; a plain `"Empty or malformed response from Gemini"` message is not what the code produces.
- **`retries <= 0`.** The loop body never runs and `retryWithBackoff` returns `undefined`. Reading `.text` of it then throws a `TypeError`, which is caught and wrapped. The model represents this as `NoResult` and `UndefinedResponseMessage`. With the default of three retries it cannot happen.

## Model

| member | source | states |
|---|---|---|
| JsValues.DefaultVersusOr | src/tools/index.js:15-23 | a destructuring default and the `or` operator agree exactly on `undefined`, truthy values and the default itself |
| JsValues.LookupTruthy | src/tools/simplify.tool.js:14 | in a table of non-empty strings a lookup is truthy iff the key is present, renders the entry on a hit and "undefined" on a miss |
| Text.Lower | src/tools/tone.tool.js:2 | lower-casing keeps the length and maps every character through the ASCII case map |
| Text.LowerIdempotent | src/tools/tone.tool.js:2 | lower-casing twice equals lower-casing once |
| Text.LowerNoUpper | src/tools/tone.tool.js:2 | the result has no upper-case ASCII letter, and a string without one is unchanged |
| SummarizeTool.SummarizePrompt | src/tools/summarize.tool.js:1-35 | the prompt starts with the length and style guides (defaults "medium" and "concise", a miss shown as "undefined"), holds the fixed lines with the focus line exactly when focus is truthy, and ends with the text heading, the text verbatim and the summary heading |
| SummarizeToolLemmas.SummarizeTextSlot | src/tools/summarize.tool.js:30-33 | the prompt is the prompt for the empty text with the user text inserted verbatim before the trailer |
| SummarizeToolLemmas.SummarizeFocusLine | src/tools/summarize.tool.js:27 | a truthy focus gives the prompt without focus with exactly its focus line inserted |
| SummarizeToolLemmas.SummarizeShortBullets | src/tools/summarize.tool.js:4-24 | length "short" and style "bullet-points" put "2-3 sentences", "bullet points" and the text into the prompt |
| ToneTool.TonePrompt | src/tools/tone.tool.js:1-91 | the prompt names the lower-cased tone (default "friendly"), holds its description and examples, the intensity and audience guides (defaults "moderate", "general", a miss shown as "undefined"), the length line chosen by preserveLength (default true), the fixed guidelines block, and ends with the text verbatim and the tone heading |
| ToneTool.ToneIgnoresCase | src/tools/tone.tool.js:2 | tones differing only in case give identical prompts |
| ToneTool.KnownToneEntry | src/tools/tone.tool.js:66-76 | a tone in the table puts that entry's Description and Examples lines into the prompt |
| ToneTool.UnknownToneFallback | src/tools/tone.tool.js:66-76 | an unknown tone does not fail: the prompt uses the tone as its description and contains "match a <tone> tone" |
| FormatTool.FormatPrompt | src/tools/format.tool.js:1-25 | the prompt shows the format type (default "markdown") verbatim in bold, the table's Goal line for it or "undefined", the fixed lines, and ends with the text verbatim |
| FormatTool.FormatTypeDefault | src/tools/format.tool.js:1 | leaving formatType out gives the same prompt as "markdown" |
| ExpandTool.ExpandPrompt | src/tools/expand.tool.js:1-23 | the prompt shows the target length (default "double"), the examples and background lines exactly when their flags (default true) are truthy, and ends with the text verbatim |
| SimplifyTool.AudiencePhrase | src/tools/simplify.tool.js:14 | a known audience maps to its table phrase, an unknown one appears verbatim |
| SimplifyTool.SimplifyPrompt | src/tools/simplify.tool.js:1-25 | the prompt has the audience phrase (default "general public") followed by the four fixed guideline lines, and ends with the text verbatim |
| SimplifyTool.TargetAudienceDefault | src/tools/simplify.tool.js:1 | leaving targetAudience out gives the same prompt as "general public" |
| ContextTool.Persona.constructor | src/tools/context.tool.js:1-17 | the persona starts as the built-in default text |
| ContextTool.Persona.InjectContext | src/tools/context.tool.js:19-21 | the prompt starts with the current persona and ends with the query heading, the text verbatim and the response heading, with nothing in between |
| ContextTool.Persona.SetSystemContext | src/tools/context.tool.js:23-25 | the persona is replaced wholesale by the new text |
| Tools.ParseTool | src/tools/index.js:9-26 | a name selects a tool exactly when it is the string equal to that tool's name |
| Tools.ParseToolName | src/tools/index.js:9-24 | every tool is found under its own name and only under it |
| Tools.ToneOrFriendly | src/tools/index.js:15 | the tone passed on is never empty and is the option when that is non-empty |
| Tools.ApplyTool | src/tools/index.js:8-28 | the text comes back unchanged exactly for unregistered names; every registered tool returns a longer string containing the text |
| Tools.DispatchContainsText | src/tools/index.js:9-24 | each registered tool's output is longer than the text and contains it |
| Tools.SummarizeContainsText | src/tools/summarize.tool.js:30-31 | the summarize prompt is longer than the text and contains it |
| Tools.ToneContainsText | src/tools/tone.tool.js:86-87 | the tone prompt is longer than the text and contains it |
| Tools.FormatContainsText | src/tools/format.tool.js:20-21 | the format prompt is longer than the text and contains it |
| Tools.ExpandContainsText | src/tools/expand.tool.js:18-19 | the expand prompt is longer than the text and contains it |
| Tools.SimplifyContainsText | src/tools/simplify.tool.js:20-21 | the simplify prompt is longer than the text and contains it |
| Tools.ContextIgnoresOptions | src/tools/index.js:10-11 | the context tool is the persona injection and does not depend on the options |
| Tools.ToneOptionDefault | src/tools/index.js:14-15 | a missing or empty tone option selects "friendly"; a non-empty one is used, with the whole options bag |
| Tools.FormatOptionDefault | src/tools/index.js:16-17 | a falsy formatType behaves as leaving it out ("markdown"); a truthy one is passed on |
| Tools.SimplifyOptionDefault | src/tools/index.js:20-24 | a falsy targetAudience behaves as leaving it out ("general public"); a truthy one is passed on |
| Tools.OptionsPassedWhole | src/tools/index.js:12-19 | summarize and expand receive the options bag unchanged |
| Tools.UnknownToneDispatch | src/tools/index.js:14-15 | dispatching an unknown tone yields a prompt containing "match a <tone> tone" |
| GeminiService.RetryWithBackoff | src/services/gemini.service.js:20-45 | the loop's result, call count and delays are those of the reference function `Retry` |
| GeminiService.BackoffAt | src/services/gemini.service.js:34 | the j-th delay after attempt `from` is 1000·2^(from+j) |
| GeminiService.RetryFromShape | src/services/gemini.service.js:21-43 | from attempt i on, the loop makes between one and all remaining calls, every attempt but the last was a 429 followed by its delay, it ends with the last attempt's outcome, and it stops early only on a success or a non-429 error |
| GeminiService.RetryShape | src/services/gemini.service.js:21-43 | the same for a whole run: at most `retries` calls, delays 1000·2^j for the first calls-1 attempts, result of the last attempt |
| GeminiService.RetryFromAfter | src/services/gemini.service.js:21-43 | rate-limited attempts i..k-1 followed by an ending attempt k give k-i+1 calls, the backoff delays from i, and attempt k's outcome |
| GeminiService.RetryAfterRateLimits | src/services/gemini.service.js:21-43 | k rate-limited attempts then an ending attempt give k+1 calls, delays [1000, …, 1000·2^(k-1)] and that attempt's outcome |
| GeminiService.RetryWithoutAttempts | src/services/gemini.service.js:21 | with no attempts allowed the loop makes no call and returns undefined |
| GeminiService.RetryAlwaysRateLimited | src/services/gemini.service.js:21-31 | an always-429 operation is called exactly `retries` times and the last error is rethrown |
| GeminiService.BackoffSum | src/services/gemini.service.js:34 | the delays after n consecutive 429s starting at attempt `from` sum to 1000·2^from·(2^n-1) |
| GeminiService.RetryTotalDelay | src/services/gemini.service.js:34-42 | a run sleeps 1000·(2^(calls-1)-1) ms in total, at most 1000·(2^(retries-1)-1) ms |
| GeminiService.Classify | src/services/gemini.service.js:94-104 | 429 gives the rate-limit message, 401/403 the invalid-key message, 400 "Bad request: " with the message or "Invalid input", anything else "Failed to get response from Gemini: " with the message; the message determines the kind |
| GeminiService.Settle | src/services/gemini.service.js:76-104 | the reply is an answer exactly for a returned non-empty text, which it is; a rethrown error is classified; an empty text surfaces as the wrapped empty-response message |
| GeminiService.FullPrompt | src/services/gemini.service.js:61-66 | the prompt sent is the tool output, preceded by the context and a newline exactly when the context is truthy, and contains the user's prompt |
| GeminiService.GenerateResponse | src/services/gemini.service.js:57-106 | the prompt sent is `FullPrompt`, the reply is the settled result of the retry loop over the API with that prompt, and the calls and delays are the loop's |
| GeminiService.AnswerIff | src/services/gemini.service.js:21-84 | a request is answered with t exactly when some attempt within the limit returned non-empty t after only rate-limited attempts |
| GeminiService.RateLimitReplyIff | src/services/gemini.service.js:21-97 | the rate-limit message surfaces exactly when every allowed attempt was rate-limited |
| GeminiService.ErrorAfterRateLimits | src/services/gemini.service.js:26-31 | a non-429 error after k rate-limited attempts is not retried: k+1 calls, k delays, its classified message |
| GeminiService.EmptyResponseAfterRateLimits | src/services/gemini.service.js:76-103 | a response without text is not retried and surfaces as the wrapped empty-response message |
| GeminiService.TwoRateLimitsThenAnswer | src/services/gemini.service.js:14-42 | with the defaults, two 429s then a success make 3 calls, sleep [1000, 2000] and answer with the text |
| GeminiService.AlwaysRateLimitedReply | src/services/gemini.service.js:14-97 | with the defaults, an always-429 API is called 3 times, sleeps [1000, 2000] and surfaces the rate-limit message |

## Left out

- The HTTP server, the middleware (rate limiter, error handler), the environment configuration and the chat controller are not part of this model. They are Express and environment plumbing.
- The `GoogleGenAI` client, `generateContent` and the model name are replaced by the `api` parameter. They are a foreign network call.
- Logging is left out. It has no effect on results.
- Real timing and `async` scheduling are left out. Only the delay values are recorded.
- Concurrent requests racing on the shared persona are left out. The persona is modelled sequentially.
- Numbers, objects and arrays as option values are left out, and so are keys inherited from `Object.prototype` (such as "constructor") in table lookups.
- Text.Lower: models `toLowerCase` for ASCII letters only, because Unicode case mapping is not modelled.
- ToneTool.TonePrompt: the tone is typed as a string (or absent). So the `TypeError` that `toLowerCase` raises on a non-string tone is not modelled, and neither is a `null` or `false` `options.tone` reaching the dispatcher.
- GeminiService.BackoffDelay: uses exact integer powers, while the source uses floating-point `Math.pow`. The two agree for every attempt index the loop can reach with a reasonable retry count.
- GeminiService.GenerateResponse: assumes every thrown value carries a string `message` and an optional integer `status`. Throwing a non-`Error` value is not modelled.
