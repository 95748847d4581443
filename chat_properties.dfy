/** Properties of the `/chat` tool-call loop, stated about `Chat.ChatRun` and its parts. */
module ChatProperties {
  import opened Wrappers
  import opened Shorty
  import opened Chat

  // ---------------------------------------------------------------------------
  // The system message is in front of everything the model is shown.
  // ---------------------------------------------------------------------------

  /** `root` heads the log and every log the model was given. */
  predicate Rooted(root: seq<Message>, t: Turn)
  {
    root <= t.log && forall p | p in t.prompts :: root <= p
  }

  lemma {:induction false} BatchKeepsRoot(batch: seq<ToolCall>, t: Turn, script: seq<ModelResult>,
                                          clicks: string -> Option<seq<ClickRow>>, root: seq<Message>)
    requires Rooted(root, t)
    ensures Rooted(root, RunBatch(batch, t, script, clicks).turn)
    decreases |batch|
  {
    if batch != [] {
      var s := StepCall(batch[0], t, script, clicks);
      assert t.log <= s.turn.log;
      forall p | p in s.turn.prompts ensures root <= p {
        if p !in t.prompts {
          assert t.log <= p;
        }
      }
      if s.Continue? {
        BatchKeepsRoot(batch[1..], s.turn, script, clicks, root);
      }
    }
  }

  lemma {:induction false} LoopKeepsRoot(t: Turn, script: seq<ModelResult>,
                                         clicks: string -> Option<seq<ClickRow>>, root: seq<Message>)
    requires Wf(t, script) && Rooted(root, t)
    ensures forall p | p in Loop(t, script, clicks).prompts :: root <= p
    decreases |script| - |t.prompts|
  {
    if t.result.toolCalls.Some? {
      var batch := t.result.toolCalls.value;
      BatchKeepsRoot(batch, t, script, clicks, root);
      var s := RunBatch(batch, t, script, clicks);
      if s.Continue? && |s.turn.prompts| != |t.prompts| {
        LoopKeepsRoot(s.turn, script, clicks, root);
      }
    }
  }

  /** Every model invocation is shown the system message followed by the caller's messages. */
  lemma PromptsStartWithSystem(input: seq<Message>, script: seq<ModelResult>,
                               clicks: string -> Option<seq<ClickRow>>, store: map<string, string>)
    ensures forall p | p in ChatRun(input, script, clicks, store).prompts :: [SystemMessage] + input <= p
  {
    if |script| > 0 {
      var log := [SystemMessage] + input;
      LoopKeepsRoot(Turn(log, store, script[0], [log]), script, clicks, log);
    }
  }

  // ---------------------------------------------------------------------------
  // Tool messages follow the batch, in order.
  // ---------------------------------------------------------------------------

  /** The `name`s of the `tool` messages of a log, in log order. */
  function ToolNames(log: seq<Message>): seq<Option<string>>
  {
    if log == [] then []
    else ToolNames(log[..|log| - 1])
         + (if log[|log| - 1].role == Tool then [log[|log| - 1].name] else [])
  }

  /** Whether a call leaves a `tool` message: all do except a report whose data is undefined. */
  predicate Answered(call: ToolCall, clicks: string -> Option<seq<ClickRow>>)
  {
    !(call.name == ClicksReport && clicks(call.arguments.slug).None?)
  }

  /** The names a batch should leave behind, in batch order. */
  function AnsweredNames(batch: seq<ToolCall>, clicks: string -> Option<seq<ClickRow>>): seq<Option<string>>
  {
    if batch == [] then []
    else (if Answered(batch[0], clicks) then [Some(batch[0].name)] else [])
         + AnsweredNames(batch[1..], clicks)
  }

  lemma ToolNamesPush(log: seq<Message>, m: Message)
    ensures ToolNames(log + [m]) == ToolNames(log) + (if m.role == Tool then [m.name] else [])
  {
    assert (log + [m])[..|log|] == log;
  }

  /** One call adds its own tool message (if any); a model reply is an assistant message. */
  lemma StepToolNames(call: ToolCall, t: Turn, script: seq<ModelResult>,
                      clicks: string -> Option<seq<ClickRow>>)
    requires StepCall(call, t, script, clicks).Continue?
    ensures ToolNames(StepCall(call, t, script, clicks).turn.log)
            == ToolNames(t.log) + (if Answered(call, clicks) then [Some(call.name)] else [])
  {
    var d := Dispatch(call, t.store, t.log, clicks);
    if d.response.None? {
      if call.name != ClicksReport {
        ToolNamesPush(t.log, ToolNotFound(call.name));
      }
    } else {
      var log := d.log + [ToolResult(call.name, d.response.value)];
      ToolNamesPush(d.log, ToolResult(call.name, d.response.value));
      var result := script[|t.prompts|];
      if result.response.Some? {
        ToolNamesPush(log, Reply(result.response));
      }
    }
  }

  /**
   * A batch that completes appends exactly one tool message per answered
   * call, named after it, in the order of the batch captured at loop entry.
   */
  lemma {:induction false} BatchToolOrder(batch: seq<ToolCall>, t: Turn, script: seq<ModelResult>,
                                          clicks: string -> Option<seq<ClickRow>>)
    requires RunBatch(batch, t, script, clicks).Continue?
    ensures ToolNames(RunBatch(batch, t, script, clicks).turn.log)
            == ToolNames(t.log) + AnsweredNames(batch, clicks)
    decreases |batch|
  {
    if batch != [] {
      var s := StepCall(batch[0], t, script, clicks);
      StepToolNames(batch[0], t, script, clicks);
      BatchToolOrder(batch[1..], s.turn, script, clicks);
    }
  }

  // ---------------------------------------------------------------------------
  // Single calls.
  // ---------------------------------------------------------------------------

  /** An unknown tool appends one error message and touches nothing else. */
  lemma UnknownToolStep(call: ToolCall, t: Turn, script: seq<ModelResult>,
                        clicks: string -> Option<seq<ClickRow>>)
    requires call.name != CreateShorty && call.name != ClicksReport
    ensures StepCall(call, t, script, clicks)
            == Continue(Turn(t.log + [ToolNotFound(call.name)], t.store, t.result, t.prompts))
  {
  }

  /** A report whose data is undefined leaves `fnResponse` undefined: nothing is pushed and the model is not asked. */
  lemma UndefinedReportStep(call: ToolCall, t: Turn, script: seq<ModelResult>,
                            clicks: string -> Option<seq<ClickRow>>)
    requires call.name == ClicksReport && clicks(call.arguments.slug).None?
    ensures StepCall(call, t, script, clicks) == Continue(t)
  {
  }

  /**
   * A call with a defined result appends one tool message named after it,
   * asks the model exactly once with that log, and appends an assistant
   * message iff the new response is non-null.
   */
  lemma KnownToolStep(call: ToolCall, t: Turn, script: seq<ModelResult>,
                      clicks: string -> Option<seq<ClickRow>>)
    requires YieldsResult(call, clicks)
    ensures var s := StepCall(call, t, script, clicks);
            && (s.Continue? <==> |t.prompts| < |script|)
            && (s.Continue? ==>
                  && |s.turn.prompts| == |t.prompts| + 1
                  && s.turn.result == script[|t.prompts|]
                  && var p := s.turn.prompts[|t.prompts|];
                     && p == t.log + [ToolResult(call.name, Dispatch(call, t.store, t.log, clicks).response.value)]
                     && p[|p| - 1].role == Tool && p[|p| - 1].name == Some(call.name)
                     && (s.turn.log == p <==> script[|t.prompts|].response.None?)
                     && (s.turn.log != p ==> s.turn.log == p + [Reply(script[|t.prompts|].response)]))
  {
  }

  /** `createShorty` takes `override` from `parameters`, never from `arguments`. */
  lemma CreateShortyOverride(call: ToolCall, store: map<string, string>, log: seq<Message>,
                             clicks: string -> Option<seq<ClickRow>>, v: Option<Json>)
    requires call.name == CreateShorty
    ensures var d := Dispatch(call, store, log, clicks);
            var u := UpsertUrl(store, call.arguments.slug, call.arguments.url,
                               call.parameters.Some? && Truthy(call.parameters.value.override));
            && d == Dispatched(Some(Shortened(u.result)), u.store, log)
            && Dispatch(call.(arguments := call.arguments.(override := v)), store, log, clicks) == d
  {
  }

  // ---------------------------------------------------------------------------
  // Batches that never ask the model: the source's endless replay.
  // ---------------------------------------------------------------------------

  /**
   * A batch asks the model nothing exactly when none of its calls yields a
   * result; such a batch leaves `result` and the store as they were.
   */
  lemma {:induction false} SilentBatch(batch: seq<ToolCall>, t: Turn, script: seq<ModelResult>,
                                       clicks: string -> Option<seq<ClickRow>>)
    ensures var s := RunBatch(batch, t, script, clicks);
            (forall i | 0 <= i < |batch| :: !YieldsResult(batch[i], clicks))
            <==> (s.Continue? && |s.turn.prompts| == |t.prompts|)
    ensures var s := RunBatch(batch, t, script, clicks);
            (forall i | 0 <= i < |batch| :: !YieldsResult(batch[i], clicks)) ==>
              s.turn.result == t.result && s.turn.store == t.store
    decreases |batch|
  {
    if batch != [] {
      var s := StepCall(batch[0], t, script, clicks);
      SilentBatch(batch[1..], s.turn, script, clicks);
      var rest := RunBatch(batch[1..], s.turn, script, clicks);
      assert rest.turn.prompts[..|s.turn.prompts|] == s.turn.prompts;
      if forall i | 0 <= i < |batch| :: !YieldsResult(batch[i], clicks) {
        assert forall i | 0 <= i < |batch[1..]| :: !YieldsResult(batch[1..][i], clicks) by {
          forall i | 0 <= i < |batch[1..]| ensures !YieldsResult(batch[1..][i], clicks) {
            assert batch[1..][i] == batch[i + 1];
          }
        }
      } else if YieldsResult(batch[0], clicks) {
        assert s.ModelFailed? || |s.turn.prompts| == |t.prompts| + 1;
      } else {
        var i :| 0 <= i < |batch| && YieldsResult(batch[i], clicks);
        assert batch[1..][i - 1] == batch[i];
      }
    }
  }

  /**
   * When a batch asked the model nothing, the `while` finds the same
   * `tool_calls` again and the replay again asks nothing: the source never
   * leaves the loop, which is what `Loops` reports.
   */
  lemma ReplayStuck(t: Turn, script: seq<ModelResult>, clicks: string -> Option<seq<ClickRow>>)
    requires t.result.toolCalls.Some?
    requires var s := RunBatch(t.result.toolCalls.value, t, script, clicks);
             s.Continue? && |s.turn.prompts| == |t.prompts|
    ensures var s := RunBatch(t.result.toolCalls.value, t, script, clicks);
            && s.turn.result == t.result
            && var again := RunBatch(s.turn.result.toolCalls.value, s.turn, script, clicks);
               again.Continue? && |again.turn.prompts| == |t.prompts| && again.turn.result == t.result
  {
    var batch := t.result.toolCalls.value;
    SilentBatch(batch, t, script, clicks);
    var s := RunBatch(batch, t, script, clicks);
    SilentBatch(batch, s.turn, script, clicks);
  }

  /** Under `Wf`, a batch fails only once the script is spent. */
  lemma {:induction false} BatchFailsOnlyWhenSpent(batch: seq<ToolCall>, t: Turn, script: seq<ModelResult>,
                                                   clicks: string -> Option<seq<ClickRow>>)
    requires Wf(t, script)
    ensures RunBatch(batch, t, script, clicks).ModelFailed? ==>
              |RunBatch(batch, t, script, clicks).turn.prompts| == |script|
    decreases |batch|
  {
    if batch != [] {
      var s := StepCall(batch[0], t, script, clicks);
      if s.Continue? {
        BatchFailsOnlyWhenSpent(batch[1..], s.turn, script, clicks);
      }
    }
  }

  /** A batch that asked nothing holds no call that yields a result. */
  lemma SilentBatchCalls(batch: seq<ToolCall>, t: Turn, script: seq<ModelResult>,
                         clicks: string -> Option<seq<ClickRow>>)
    requires RunBatch(batch, t, script, clicks).Continue?
    requires |RunBatch(batch, t, script, clicks).turn.prompts| == |t.prompts|
    ensures forall c | c in batch :: !YieldsResult(c, clicks)
  {
    SilentBatch(batch, t, script, clicks);
    forall c | c in batch ensures !YieldsResult(c, clicks) {
      var i :| 0 <= i < |batch| && batch[i] == c;
    }
  }

  /**
   * The other two ways the `while` can end: `ModelError` only once every
   * scripted answer is used, and `Loops` only after a latest answer whose
   * `tool_calls` batch holds no call that yields a result, the batch that
   * `ReplayStuck` shows is replayed forever.
   */
  lemma {:induction false} LoopOutcome(t: Turn, script: seq<ModelResult>,
                                       clicks: string -> Option<seq<ClickRow>>)
    requires Wf(t, script)
    ensures var r := Loop(t, script, clicks);
            r.status == ModelError ==> |r.prompts| == |script|
    ensures var r := Loop(t, script, clicks);
            r.status == Loops ==>
              && 0 < |r.prompts| && script[|r.prompts| - 1].toolCalls.Some?
              && forall c | c in script[|r.prompts| - 1].toolCalls.value :: !YieldsResult(c, clicks)
    decreases |script| - |t.prompts|
  {
    if t.result.toolCalls.Some? {
      var batch := t.result.toolCalls.value;
      var s := RunBatch(batch, t, script, clicks);
      if s.ModelFailed? {
        BatchFailsOnlyWhenSpent(batch, t, script, clicks);
      } else if |s.turn.prompts| == |t.prompts| {
        assert Loop(t, script, clicks) == Run(Loops, s.turn.log, s.turn.store, s.turn.prompts);
        SilentBatchCalls(batch, t, script, clicks);
        assert s.turn.prompts == t.prompts;
      } else {
        assert Loop(t, script, clicks) == Loop(s.turn, script, clicks);
        LoopOutcome(s.turn, script, clicks);
      }
    }
  }

  /** `LoopOutcome` for the whole handler; with an empty script the first call already fails. */
  lemma ChatOutcome(input: seq<Message>, script: seq<ModelResult>,
                    clicks: string -> Option<seq<ClickRow>>, store: map<string, string>)
    ensures var r := ChatRun(input, script, clicks, store);
            r.status == ModelError ==> |r.prompts| == |script|
    ensures var r := ChatRun(input, script, clicks, store);
            r.status == Loops ==>
              && 0 < |r.prompts| && script[|r.prompts| - 1].toolCalls.Some?
              && forall c | c in script[|r.prompts| - 1].toolCalls.value :: !YieldsResult(c, clicks)
  {
    if |script| > 0 {
      var log := [SystemMessage] + input;
      LoopOutcome(Turn(log, store, script[0], [log]), script, clicks);
    }
  }

  // ---------------------------------------------------------------------------
  // The store.
  // ---------------------------------------------------------------------------

  /** Every slug of `before` is still mapped, to the same URL. */
  predicate Keeps(before: map<string, string>, after: map<string, string>)
  {
    forall k | k in before :: k in after && after[k] == before[k]
  }

  /** No call of the script asks for an override. */
  predicate NoOverride(script: seq<ModelResult>)
  {
    forall i, j | 0 <= i < |script| && script[i].toolCalls.Some? && 0 <= j < |script[i].toolCalls.value|
      :: !OverrideOf(script[i].toolCalls.value[j])
  }

  lemma {:induction false} BatchKeepsSlugs(batch: seq<ToolCall>, t: Turn, script: seq<ModelResult>,
                                           clicks: string -> Option<seq<ClickRow>>)
    requires forall j | 0 <= j < |batch| :: !OverrideOf(batch[j])
    ensures Keeps(t.store, RunBatch(batch, t, script, clicks).turn.store)
    decreases |batch|
  {
    if batch != [] {
      var s := StepCall(batch[0], t, script, clicks);
      assert forall j | 0 <= j < |batch[1..]| :: !OverrideOf(batch[1..][j]) by {
        forall j | 0 <= j < |batch[1..]| ensures !OverrideOf(batch[1..][j]) {
          assert batch[1..][j] == batch[j + 1];
        }
      }
      BatchKeepsSlugs(batch[1..], s.turn, script, clicks);
    }
  }

  lemma {:induction false} LoopKeepsSlugs(t: Turn, script: seq<ModelResult>,
                                          clicks: string -> Option<seq<ClickRow>>)
    requires Wf(t, script) && NoOverride(script)
    ensures Keeps(t.store, Loop(t, script, clicks).store)
    decreases |script| - |t.prompts|
  {
    if t.result.toolCalls.Some? {
      var batch := t.result.toolCalls.value;
      assert forall j | 0 <= j < |batch| :: !OverrideOf(batch[j]) by {
        forall j | 0 <= j < |batch| ensures !OverrideOf(batch[j]) {
          assert batch[j] == script[|t.prompts| - 1].toolCalls.value[j];
        }
      }
      BatchKeepsSlugs(batch, t, script, clicks);
      var s := RunBatch(batch, t, script, clicks);
      if s.Continue? && |s.turn.prompts| != |t.prompts| {
        LoopKeepsSlugs(s.turn, script, clicks);
      }
    }
  }

  /** Without an override request the chat may add slugs but never repoints one. */
  lemma ChatKeepsSlugs(input: seq<Message>, script: seq<ModelResult>,
                       clicks: string -> Option<seq<ClickRow>>, store: map<string, string>)
    requires NoOverride(script)
    ensures Keeps(store, ChatRun(input, script, clicks, store).store)
  {
    if |script| > 0 {
      var log := [SystemMessage] + input;
      LoopKeepsSlugs(Turn(log, store, script[0], [log]), script, clicks);
    }
  }

  // ---------------------------------------------------------------------------
  // Whole runs.
  // ---------------------------------------------------------------------------

  /**
   * A first answer without `tool_calls`: one invocation, and the caller's
   * messages come back with one assistant message appended unless they
   * already end in one.
   */
  lemma DirectAnswer(input: seq<Message>, script: seq<ModelResult>,
                     clicks: string -> Option<seq<ClickRow>>, store: map<string, string>)
    requires 0 < |script| && script[0].toolCalls.None?
    ensures var r := ChatRun(input, script, clicks, store);
            && r.status == Returned
            && r.store == store
            && r.prompts == [[SystemMessage] + input]
            && r.messages == if 0 < |input| && input[|input| - 1].role == Assistant then input
                             else input + [Reply(script[0].response)]
  {
    var log := [SystemMessage] + input;
    assert log[1..] == input;
    assert (log + [Reply(script[0].response)])[1..] == input + [Reply(script[0].response)];
  }

  /**
   * A conversation in which the model asks for one new shorty and then
   * answers: the store gains the slug, and the caller gets back its messages,
   * the tool result `{slug, url, shorty: "/" + slug}` and the final answer.
   */
  lemma ShortenOneLink(input: seq<Message>, slug: string, url: string, answer: string,
                       clicks: string -> Option<seq<ClickRow>>, store: map<string, string>)
    requires slug !in store
    ensures
      var call := ToolCall(CreateShorty, Arguments(slug, url, None), None);
      var script := [ModelResult(None, Some([call])), ModelResult(Some(answer), None)];
      var r := ChatRun(input, script, clicks, store);
      var added := AddResult(slug, url, "/" + slug, None);
      && r.status == Returned
      && r.store == store[slug := url]
      && r.messages == input + [ToolResult(CreateShorty, Shortened(added)), Reply(Some(answer))]
      && |r.prompts| == 2
  {
    var call := ToolCall(CreateShorty, Arguments(slug, url, None), None);
    var script := [ModelResult(None, Some([call])), ModelResult(Some(answer), None)];
    var added := AddResult(slug, url, "/" + slug, None);
    var log := [SystemMessage] + input;
    var t0 := Turn(log, store, script[0], [log]);
    var prompt := log + [ToolResult(CreateShorty, Shortened(added))];
    var t1 := Turn(prompt + [Reply(Some(answer))], store[slug := url], script[1], [log, prompt]);
    assert StepCall(call, t0, script, clicks) == Continue(t1);
    assert RunBatch([call], t0, script, clicks) == Continue(t1);
    assert Loop(t0, script, clicks) == Loop(t1, script, clicks);
    assert t1.log[1..] == input + [ToolResult(CreateShorty, Shortened(added)), Reply(Some(answer))];
  }
}
