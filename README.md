# shorty-dot-dev in Dafny: the slug store and the chat tool-call loop

This project models two parts of the shrty.dev URL-shortening worker and proves properties about them.

* **The slug store** (`src/index.ts`). `addUrl` is a conditional upsert on the `URLS` key-value namespace. It writes an absent slug, keeps an existing one unless `override` is set, and always returns `{slug, url, shorty: "/" + slug[, message]}`. `POST /api/url` calls it with the default `override = false`. `GET /:slug` answers 404 for an unknown slug and otherwise redirects to the stored URL.
  * The namespace is the class `Kv.KvNamespace`, holding a `map<string, string>`.
  * `Shorty.UpsertUrl` is the reference function for the upsert.
  * `Shorty.AddUrl`, `Shorty.PostApiUrl` and `Shorty.GetSlug` are the handlers, written as methods on the namespace.
* **The hand-written `/chat` tool-call loop** (`src/before.ts`). It works like this:
  1. Prepend the system message and ask the model.
  2. While the latest result carries `tool_calls`, walk that batch in order and dispatch by name:
     * `createShorty` goes to `addUrl`;
     * `getClicksByCountryReport` goes to the analytics query;
     * any other name appends an `ERROR: Tool not found` tool message.
  3. After each defined tool result, append a `tool` message, ask the model again, and append its response as an `assistant` message when it is non-null.
  4. At the end, append a final assistant message if the log does not already end in one, and remove the system message.

  `Chat.ChatRun` is the reference definition of the loop, built from `Dispatch`, `StepCall`, `RunBatch`, `Loop` and `Finish`. `Chat.HandleChat` is the imperative handler: a mutable message list, a `while` around a `for`, and the store mutated through `Shorty.AddUrl`. `HandleChat` is proved equal to `ChatRun`. `ChatProperties` proves what the loop guarantees.

## How the external parts are represented

* **The language model** is a script `seq<ModelResult>`. Its k-th invocation answers `script[k]`. An invocation past the end of the script ends the run as `Status.ModelError`. This outcome stands for two things: `AI.run` rejecting, and the script running out. So a model that would keep returning `tool_calls` beyond the script is also reported as `ModelError`.
* **The prompt trace.** `Run.prompts` records the message log that each answered invocation was given.
* **The analytics backend** (`queryClicks`) is a function `clicks` from a slug to `Option<seq<ClickRow>>`. `None` means the API's `data` was undefined.
* **Termination without a cap.** The source's `while` has no iteration cap. The loop here terminates because every iteration that goes on consumes a script entry. A batch asks the model nothing exactly when each of its calls is either an unknown name or a `getClicksByCountryReport` whose data comes back undefined (an empty batch qualifies). `SilentBatch` proves this exact condition. After such a batch `result` is unchanged, so the source runs the same batch again. The model reports this as `Status.Loops` instead of looping. `ReplayStuck` proves the replay is silent again when the analytics backend answers each slug the same way every time. Batches made only of unknown names, and empty batches, loop whatever the backend does.
* **Where `override` comes from.** `createShorty` reads `override` from `tool_call.parameters?.override || false`, using JavaScript truthiness (`Chat.Truthy`). It does not read it from `tool_call.arguments`, even though the tool's schema declares it there. `CreateShortyOverride` states this.
* **Kept as the code has them:**
  * the `while` has no iteration cap;
  * tool-call arguments are not validated;
  * when the first answer has no tool calls and the caller's messages already end in an assistant message, nothing is appended (`DirectAnswer`).

## Model

| member | source | states |
|---|---|---|
| Kv.KvNamespace.Get | src/index.ts:31 | `get` returns the stored value exactly when the key is present, and null otherwise |
| Kv.KvNamespace.Put | src/index.ts:45 | `put` sets one entry, and every other entry keeps its value |
| Shorty.UpsertUrl | src/index.ts:30-47 | Absent slug: it is written and no message is returned. Present slug without override: the store is unchanged and the "Did not update" message is returned. Present slug with override: the slug maps to the new url. Every other key keeps its presence and value. The returned `slug` is the input slug and `shorty` is `"/" + slug`. The returned `url` is what the store now holds for the slug. |
| Shorty.NotUpdatedMessage | src/index.ts:41 | The explanation for a kept slug starts with "Did not update <slug> because it already was pointing to <existing>"; `UpsertUrl` returns it in the kept branch |
| Shorty.UpsertIdempotent | src/index.ts:30-47 | Calling `addUrl(slug, url, false)` twice gives the same store as calling it once; the second call returns the stored URL and a message |
| Shorty.AddUrl | src/index.ts:30-47 | The get-then-conditional-put leaves the namespace and returns the record exactly as `UpsertUrl` prescribes |
| Shorty.PostApiUrl | src/index.ts:49-53 | `/api/url` is `addUrl` with `override = false`; an existing slug is never overwritten and its stored URL is returned |
| Shorty.GetSlug | src/index.ts:172-177 | 404 iff the slug is absent; otherwise a redirect (line 200) to exactly the stored URL; the store is not modified (no modifies clause) |
| Chat.Truthy | src/before.ts:19 | JavaScript truthiness: false exactly for undefined, `false`, `""`, `0` and `null` |
| Chat.OverrideOf | src/before.ts:19 | `parameters?.override` defaulting to `false`, as a condition: false when `parameters` or its `override` is undefined; `CreateShortyOverride` shows `arguments.override` plays no part |
| Chat.Dispatch | src/before.ts:17-36 | The `switch`: `fnResponse` is defined exactly for `createShorty` and for a report with data. `createShorty` changes the store exactly as `UpsertUrl` does, with `OverrideOf`, and no other branch touches the store. A report's result is the backend's rows. Only an unknown name writes to the log: one `ToolNotFound` message. |
| Chat.StepCall | src/before.ts:15-46 | One iteration of the `for` only appends. It asks the model at most once, and exactly when the call yields a result and the script can answer. It fails only when the model cannot answer. `result` changes only with a new answer. The store is the one the dispatch left. The undefined-report case is stated exactly by `UndefinedReportStep`. |
| Chat.RunBatch | src/before.ts:14-47 | Processing a batch only appends to the log and the prompt trace, never removes a slug, and keeps the loop's state well formed |
| Chat.Finish | src/before.ts:49-55 | After the loop the response is the log without its system message. If the log already ends in an assistant message, nothing is appended. Otherwise exactly one assistant message carrying the latest `result.response` is appended. The response ends in an assistant message. |
| Chat.Loop | src/before.ts:13-48 | The model is never asked more than the script answers. A returned body extends the log without its system message and ends in an assistant message. Other outcomes extend the log. Slugs are never removed. The loop returns only after an answer without `tool_calls` (the `while` condition, line 13). The other two endings are stated by `ChatProperties.LoopOutcome`. |
| Chat.ChatRun | src/before.ts:1-57 | A returned body has the caller's messages as an unchanged prefix and its last element has role assistant. A failed or looping run still has the system message and input as a prefix. A body is returned only after an answer without `tool_calls`. No slug is removed. The other two endings are stated by `ChatProperties.ChatOutcome`. |
| Chat.HandleChat | src/before.ts:1-57 | The handler (unshift, while/for/switch, push, final push, splice) produces exactly `ChatRun`'s outcome, and the namespace ends in `ChatRun`'s store |
| ChatProperties.BatchKeepsRoot | src/before.ts:14-47 | A batch keeps any prefix of the log in front of the log and of every prompt |
| ChatProperties.LoopKeepsRoot | src/before.ts:13-48 | The `while` keeps any prefix of the log in front of every prompt |
| ChatProperties.PromptsStartWithSystem | src/before.ts:5-12 | Every model invocation is given the system message followed by the caller's messages |
| ChatProperties.StepToolNames | src/before.ts:16-46 | One call adds exactly its own tool message, named after it, unless it is a report whose data is undefined |
| ChatProperties.BatchToolOrder | src/before.ts:14-47 | A completed batch appends exactly one tool message per answered call, named after it, in the order of the batch captured when the `for` starts |
| ChatProperties.UnknownToolStep | src/before.ts:33-37 | An unknown tool name appends exactly one `ERROR: Tool not found "<name>"` tool message, runs no executor and does not call the model |
| ChatProperties.UndefinedReportStep | src/before.ts:22-37 | A `getClicksByCountryReport` whose data is undefined leaves `fnResponse` undefined: the step changes nothing, so nothing is pushed and the model is not asked |
| ChatProperties.KnownToolStep | src/before.ts:37-45 | A defined result appends exactly one tool message, carrying the call's name and result, and asks the model exactly once with that log. An assistant message is appended iff the new response is non-null. The step fails iff the model cannot answer. |
| ChatProperties.CreateShortyOverride | src/before.ts:18-21 | `createShorty` runs `addUrl` with slug and url from `arguments` and override = truthiness of `parameters?.override`; `arguments.override` has no effect |
| ChatProperties.SilentBatch | src/before.ts:13-47 | A batch asks the model nothing iff none of its calls yields a result; such a batch leaves `result` and the store unchanged |
| ChatProperties.ReplayStuck | src/before.ts:13-14 | After a silent batch, the `while` finds the same `tool_calls` and the replay is silent again, so the source never leaves the loop |
| ChatProperties.BatchFailsOnlyWhenSpent | src/before.ts:39-42 | Inside the loop, a batch stops on a model failure only once every scripted answer is used |
| ChatProperties.SilentBatchCalls | src/before.ts:14-37 | A batch that asked the model nothing holds no call that yields a result |
| ChatProperties.LoopOutcome | src/before.ts:13-48 | The `while` ends as `ModelError` only once the script is spent. It ends as `Loops` only when the latest answer's `tool_calls` batch holds no call that yields a result, which is the batch `ReplayStuck` shows is replayed forever. |
| ChatProperties.ChatOutcome | src/before.ts:1-57 | The same for the whole handler: `ModelError` only with the script spent (with an empty script the first call fails), and `Loops` only after a silent latest batch |
| ChatProperties.BatchKeepsSlugs | src/before.ts:18-21 | Without override requests, a batch keeps every existing slug's URL |
| ChatProperties.LoopKeepsSlugs | src/before.ts:13-48 | Without override requests, the `while` keeps every existing slug's URL |
| ChatProperties.ChatKeepsSlugs | src/before.ts:1-57 | If no tool call in the script asks for an override, the chat adds slugs but never repoints one |
| ChatProperties.DirectAnswer | src/before.ts:9-13 | A first answer without `tool_calls` means exactly one invocation, with the store unchanged. The result is the input plus one assistant message carrying the response, unless the input already ends in an assistant message (lines 49-55). |
| ChatProperties.ShortenOneLink | src/before.ts:1-57 | One `createShorty` call for a new slug followed by an answer: the store gains the slug, and the body is the input, then the tool result `{slug, url, shorty: "/" + slug}`, then the answer |

## Left out

- The streaming `/chat` handler in src/index.ts:85-170: its loop runs inside `runWithTools` from `@cloudflare/ai-utils`, which is not part of this model, and its output is server-sent-event streaming.
- JWT middleware and token signing (src/index.ts:15-28): a foreign crypto library.
- `queryClicks` (src/index.ts:55-68): an HTTP POST to the analytics API. It is the `clicks` parameter, and the SQL text interpolated from the slug is not modelled.
- `POST /api/report/:slug` (src/index.ts:70-74): a direct pass-through of the analytics query.
- Click tracking through `TRACKER.writeDataPoint` (src/index.ts:178-198): telemetry I/O with floating-point geo fields.
- The language model's behaviour: the model is a script, and it ignores the tool list and the messages it is given.
- `JSON.stringify` of tool results: a tool message carries the result value itself.
- `console.log`, `async`/`await`: logging is dropped, and awaits are sequential calls.
- Malformed tool calls: a missing or non-string `slug`/`url`, and `tool_calls: null`. The source does not check these, and what the KV binding does with `undefined` is not part of this model.
- Chat.HandleChat: on `ModelError` the source's request fails with an exception; the model instead returns the state reached at that point, so that it can be reasoned about.
- Concurrent requests: `addUrl`'s `get` and `put` (src/index.ts:31, 45) are two separate awaited calls, not one atomic step. Two requests for the same new slug can both read `null` and both `put`, so the later one overwrites without `override`. The model treats each `addUrl` as one step on a map. So the "never overwritten" promises of `UpsertUrl` and `PostApiUrl` hold for each request on its own, not across concurrent requests.
- Failures of the store and the analytics backend. A rejected `URLS.get` or `URLS.put` (src/index.ts:31, 45), or a failing `fetch` or `response.json()` in `queryClicks` (src/index.ts:58-65), is caught nowhere in the chat handler and fails the whole request. In the model, `KvNamespace` and `clicks` always answer, so every `createShorty` and report call succeeds.
- The distinction between a `null` and an `undefined` model response: both are `None`. For an `undefined` response the source's check `result.response !== null` (src/before.ts:43) holds, so it pushes `{role: 'assistant', content: undefined}`; the model appends nothing in that case.
- `Loops` for a batch that holds a `getClicksByCountryReport` with undefined data assumes the analytics API answers that slug the same way on every replay. The source queries it again each time (src/before.ts:31), and a later answer with data would let the loop go on.
- The browser chat UI (public/admin/script.js): DOM rendering, local storage and fetch.
