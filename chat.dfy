/**
 * The `/chat` handler's hand-written tool-call loop: prepend the system
 * message, ask the model, and while the latest model result carries
 * `tool_calls`, dispatch each call of that batch by name, append its result as
 * a `tool` message and ask the model again; finally make sure the log ends in
 * an `assistant` message and drop the system message.
 *
 * The model is a script: its k-th invocation answers `script[k]`, and an
 * invocation past the end of the script stands for `AI.run` failing. The
 * analytics backend is the function `clicks` from a slug to the report rows
 * (`None` when the API's `data` is undefined).
 */
module Chat {
  import opened Wrappers
  import opened Kv
  import opened Shorty

  datatype Role = System | User | Assistant | Tool

  /** A JSON scalar as the model may emit it. */
  datatype Json = JBool(b: bool) | JString(s: string) | JNumber(n: int) | JNull

  /** JavaScript truthiness of an optional JSON value (`undefined` is `None`). */
  function Truthy(v: Option<Json>): (b: bool)
    // the falsy values: undefined, false, "", 0 and null
    ensures !b <==> v in {None, Some(JBool(false)), Some(JString("")), Some(JNumber(0)), Some(JNull)}
  {
    match v
    case None => false
    case Some(JBool(b)) => b
    case Some(JString(s)) => s != ""
    case Some(JNumber(n)) => n != 0
    case Some(JNull) => false
  }

  datatype Arguments = Arguments(slug: string, url: string, override: Option<Json>)
  datatype Parameters = Parameters(override: Option<Json>)
  datatype ToolCall = ToolCall(name: string, arguments: Arguments, parameters: Option<Parameters>)

  /** One answer of the model: `response` is `null` when absent; `tool_calls` may be undefined. */
  datatype ModelResult = ModelResult(response: Option<string>, toolCalls: Option<seq<ToolCall>>)

  /** One row of the clicks-by-country report. */
  datatype ClickRow = ClickRow(country: string, total: int)

  /** A tool's result, before `JSON.stringify`. */
  datatype ToolOutput = Shortened(added: AddResult) | ClickReport(rows: seq<ClickRow>)

  /** A message's content: text, `null` (a missing response), or a serialized tool result. */
  datatype Content = Text(text: string) | Null | Serialized(output: ToolOutput)

  datatype Message = Message(role: Role, content: Content, name: Option<string>)

  const CreateShorty: string := "createShorty"
  const ClicksReport: string := "getClicksByCountryReport"

  const SystemMessage: Message := Message(System, Text(ShortySystemMessage), None)

  function ToolNotFound(name: string): Message
  {
    Message(Tool, Text("ERROR: Tool not found \"" + name + "\""), Some(name))
  }

  function ToolResult(name: string, output: ToolOutput): Message
  {
    Message(Tool, Serialized(output), Some(name))
  }

  /** An assistant message carrying a model response, `null` included. */
  function Reply(response: Option<string>): Message
  {
    Message(Assistant, if response.Some? then Text(response.value) else Null, None)
  }

  /** `tool_call.parameters?.override || false`, as a condition. */
  function OverrideOf(call: ToolCall): (b: bool)
    // defaults to false when `parameters` or its `override` is undefined
    ensures b ==> call.parameters.Some? && call.parameters.value.override.Some?
    ensures call.parameters.None? ==> !b
  {
    Truthy(if call.parameters.Some? then call.parameters.value.override else None)
  }

  /** A call whose dispatch yields a defined `fnResponse`, and so asks the model again. */
  predicate YieldsResult(call: ToolCall, clicks: string -> Option<seq<ClickRow>>)
  {
    call.name == CreateShorty || (call.name == ClicksReport && clicks(call.arguments.slug).Some?)
  }

  /** The `switch` of one tool call: its `fnResponse`, the store and the log after it. */
  datatype Dispatched = Dispatched(response: Option<ToolOutput>, store: map<string, string>, log: seq<Message>)

  function Dispatch(call: ToolCall, store: map<string, string>, log: seq<Message>,
                    clicks: string -> Option<seq<ClickRow>>): (d: Dispatched)
    // `fnResponse` is defined exactly for `createShorty` and for a report with data
    ensures d.response.Some? <==> YieldsResult(call, clicks)
    // only `createShorty` touches the store, and it does so through `addUrl`
    ensures call.name == CreateShorty ==>
      var u := UpsertUrl(store, call.arguments.slug, call.arguments.url, OverrideOf(call));
      d.store == u.store && d.response == Some(Shortened(u.result))
    ensures call.name != CreateShorty ==> d.store == store
    ensures call.name == ClicksReport ==>
      d.response == (if clicks(call.arguments.slug).Some? then Some(ClickReport(clicks(call.arguments.slug).value)) else None)
    // only an unknown name writes to the log here: one error message
    ensures call.name != CreateShorty && call.name != ClicksReport ==> d.log == log + [ToolNotFound(call.name)]
    ensures call.name == CreateShorty || call.name == ClicksReport ==> d.log == log
  {
    if call.name == CreateShorty then
      var u := UpsertUrl(store, call.arguments.slug, call.arguments.url, OverrideOf(call));
      Dispatched(Some(Shortened(u.result)), u.store, log)
    else if call.name == ClicksReport then
      var rows := clicks(call.arguments.slug);
      Dispatched(if rows.Some? then Some(ClickReport(rows.value)) else None, store, log)
    else
      Dispatched(None, store, log + [ToolNotFound(call.name)])
  }

  /**
   * The handler's state between two steps: the message log, the store, the
   * latest model `result`, and the log each answered model invocation was given.
   */
  datatype Turn = Turn(log: seq<Message>, store: map<string, string>, result: ModelResult,
                       prompts: seq<seq<Message>>)

  /** A step either goes on or stops because the model could not be invoked. */
  datatype Step = Continue(turn: Turn) | ModelFailed(turn: Turn)

  /**
   * The state inside the loop: the model has answered at least once and at
   * most the script, `result` is its latest answer, and the system message
   * still heads the log.
   */
  predicate Wf(t: Turn, script: seq<ModelResult>)
  {
    && 0 < |t.prompts| <= |script|
    && t.result == script[|t.prompts| - 1]
    && 0 < |t.log| && t.log[0] == SystemMessage
  }

  /** One iteration of the `for`: dispatch, then on a defined result append it and ask the model. */
  function StepCall(call: ToolCall, t: Turn, script: seq<ModelResult>,
                    clicks: string -> Option<seq<ClickRow>>): (s: Step)
    ensures t.log <= s.turn.log && t.prompts <= s.turn.prompts
    // the model is asked at most once, and exactly when the call yields a result and the script can answer
    ensures |s.turn.prompts| <= |t.prompts| + 1
    ensures |s.turn.prompts| == |t.prompts| + 1 <==> YieldsResult(call, clicks) && |t.prompts| < |script|
    // the only failure is a model that cannot answer
    ensures s.ModelFailed? <==> YieldsResult(call, clicks) && |script| <= |t.prompts|
    // `result` changes only with a new answer
    ensures |s.turn.prompts| == |t.prompts| ==> s.turn.result == t.result
    ensures s.turn.store == Dispatch(call, t.store, t.log, clicks).store
  {
    var d := Dispatch(call, t.store, t.log, clicks);
    if d.response.None? then
      Continue(Turn(d.log, d.store, t.result, t.prompts))
    else
      var log := d.log + [ToolResult(call.name, d.response.value)];
      if |t.prompts| < |script| then
        var result := script[|t.prompts|];
        var replied := if result.response.Some? then log + [Reply(result.response)] else log;
        Continue(Turn(replied, d.store, result, t.prompts + [log]))
      else
        ModelFailed(Turn(log, d.store, t.result, t.prompts))
  }

  /** The `for` over one batch, in batch order, stopping if the model fails. */
  function RunBatch(batch: seq<ToolCall>, t: Turn, script: seq<ModelResult>,
                    clicks: string -> Option<seq<ClickRow>>): (s: Step)
    // the log and the prompt trace only grow at the end
    ensures t.log <= s.turn.log && t.prompts <= s.turn.prompts
    // no slug ever disappears from the store
    ensures t.store.Keys <= s.turn.store.Keys
    ensures Wf(t, script) ==> Wf(s.turn, script)
    decreases |batch|
  {
    if batch == [] then Continue(t)
    else
      match StepCall(batch[0], t, script, clicks)
      case ModelFailed(t') => ModelFailed(t')
      case Continue(t') => RunBatch(batch[1..], t', script, clicks)
  }

  datatype Status =
    | Returned    // the handler responds with `messages`
    | Loops       // the same batch would be replayed forever
    | ModelError  // `AI.run` could not answer

  /**
   * How a chat request ends. For `Returned`, `messages` is the response body
   * (system message removed); otherwise it is the log, system message
   * included, at the point the run stops.
   */
  datatype Run = Run(status: Status, messages: seq<Message>, store: map<string, string>,
                     prompts: seq<seq<Message>>)

  /** After the `while`: append a final assistant message unless the log ends in one, then drop index 0. */
  function Finish(t: Turn): (r: Run)
    requires 0 < |t.log| && t.log[0].role == System
    ensures r.status == Returned && r.store == t.store && r.prompts == t.prompts
    ensures 0 < |r.messages| && r.messages[|r.messages| - 1].role == Assistant
    ensures t.log[1..] <= r.messages
    // nothing is appended when the log already ends in an assistant message ...
    ensures t.log[|t.log| - 1].role == Assistant ==> r.messages == t.log[1..]
    // ... otherwise exactly one message carrying the latest response
    ensures t.log[|t.log| - 1].role != Assistant ==> r.messages == t.log[1..] + [Reply(t.result.response)]
  {
    var log := if t.log[|t.log| - 1].role != Assistant then t.log + [Reply(t.result.response)] else t.log;
    Run(Returned, log[1..], t.store, t.prompts)
  }

  /**
   * The `while`: runs batches while the latest result carries `tool_calls`.
   * A batch that asked the model nothing left `result` as it was, so the
   * source would run the very same batch again, forever: that is `Loops`.
   */
  function Loop(t: Turn, script: seq<ModelResult>, clicks: string -> Option<seq<ClickRow>>): (r: Run)
    requires Wf(t, script)
    ensures t.prompts <= r.prompts && |r.prompts| <= |script|
    ensures t.store.Keys <= r.store.Keys
    ensures r.status == Returned ==>
      && 0 < |r.messages| && r.messages[|r.messages| - 1].role == Assistant
      && t.log[1..] <= r.messages
    ensures r.status != Returned ==> t.log <= r.messages
    // the `while` exits only on an answer without `tool_calls`
    ensures r.status == Returned ==> 0 < |r.prompts| && script[|r.prompts| - 1].toolCalls.None?
    decreases |script| - |t.prompts|
  {
    match t.result.toolCalls
    case None => Finish(t)
    case Some(batch) =>
      match RunBatch(batch, t, script, clicks)
      case ModelFailed(t') => Run(ModelError, t'.log, t'.store, t'.prompts)
      case Continue(t') =>
        if |t'.prompts| == |t.prompts| then Run(Loops, t'.log, t'.store, t'.prompts)
        else Loop(t', script, clicks)
  }

  /** The whole handler on the caller's `messages`, starting from `store`. */
  function ChatRun(input: seq<Message>, script: seq<ModelResult>,
                   clicks: string -> Option<seq<ClickRow>>, store: map<string, string>): (r: Run)
    // the model is never asked more often than the script answers
    ensures |r.prompts| <= |script|
    // the response body keeps the caller's messages as a prefix and ends in an assistant message
    ensures r.status == Returned ==>
      && input <= r.messages
      && 0 < |r.messages| && r.messages[|r.messages| - 1].role == Assistant
    ensures r.status != Returned ==> [SystemMessage] + input <= r.messages
    // a body is returned only after an answer without `tool_calls`
    ensures r.status == Returned ==> 0 < |r.prompts| && script[|r.prompts| - 1].toolCalls.None?
    // no slug is ever removed
    ensures store.Keys <= r.store.Keys
  {
    var log := [SystemMessage] + input;
    if |script| == 0 then Run(ModelError, log, store, [])
    else
      assert log[1..] == input;
      Loop(Turn(log, store, script[0], [log]), script, clicks)
  }

  /**
   * The handler itself, on a mutable message list and the `URLS` namespace,
   * proved to behave as `ChatRun` says.
   */
  method HandleChat(urls: KvNamespace, input: seq<Message>, script: seq<ModelResult>,
                    clicks: string -> Option<seq<ClickRow>>) returns (run: Run)
    modifies urls
    ensures run == ChatRun(input, script, clicks, old(urls.entries))
    ensures urls.entries == run.store
  {
    var messages := [SystemMessage] + input;
    var prompts: seq<seq<Message>> := [];
    if |script| == 0 {
      return Run(ModelError, messages, urls.entries, prompts);
    }
    var result := script[0];
    prompts := [messages];
    while result.toolCalls.Some?
      invariant Wf(Turn(messages, urls.entries, result, prompts), script)
      invariant Loop(Turn(messages, urls.entries, result, prompts), script, clicks)
                == ChatRun(input, script, clicks, old(urls.entries))
      decreases |script| - |prompts|
    {
      var batch := result.toolCalls.value;
      ghost var start := Turn(messages, urls.entries, result, prompts);
      var asked := |prompts|;
      for i := 0 to |batch|
        invariant RunBatch(batch[i..], Turn(messages, urls.entries, result, prompts), script, clicks)
                  == RunBatch(batch, start, script, clicks)
      {
        var call := batch[i];
        ghost var here := Turn(messages, urls.entries, result, prompts);
        assert batch[i..][0] == call && batch[i..][1..] == batch[i + 1..];
        var fnResponse: Option<ToolOutput> := None;
        if call.name == CreateShorty {
          var added := AddUrl(urls, call.arguments.slug, call.arguments.url, OverrideOf(call));
          fnResponse := Some(Shortened(added));
        } else if call.name == ClicksReport {
          var rows := clicks(call.arguments.slug);
          if rows.Some? {
            fnResponse := Some(ClickReport(rows.value));
          }
        } else {
          messages := messages + [ToolNotFound(call.name)];
        }
        if fnResponse.Some? {
          messages := messages + [ToolResult(call.name, fnResponse.value)];
          if |prompts| == |script| {
            assert StepCall(call, here, script, clicks) == ModelFailed(Turn(messages, urls.entries, result, prompts));
            return Run(ModelError, messages, urls.entries, prompts);
          }
          result := script[|prompts|];
          prompts := prompts + [messages];
          if result.response.Some? {
            messages := messages + [Reply(result.response)];
          }
        }
        assert StepCall(call, here, script, clicks) == Continue(Turn(messages, urls.entries, result, prompts));
      }
      assert batch[|batch|..] == [];
      if |prompts| == asked {
        return Run(Loops, messages, urls.entries, prompts);
      }
    }
    var finalMessage := messages[|messages| - 1];
    if finalMessage.role != Assistant {
      messages := messages + [Reply(result.response)];
    }
    messages := messages[1..];
    run := Run(Returned, messages, urls.entries, prompts);
  }
}
