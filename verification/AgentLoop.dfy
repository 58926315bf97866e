/**
  The agent's question - tool calls - answer loop. The model, the confirmation gate and the
  tools are arbitrary: each of their answers may depend on when they are asked.
 */
module AgentLoop {
  import opened Text
  import opened LlmTypes
  import opened AnthropicWire

  const HISTORY_WINDOW_SIZE: nat := 40

  datatype Reply = Answer(content: string, toolCalls: seq<ToolCall>) | LlmError(error: string)

  datatype ToolOutcome = Output(text: string) | ToolError(error: string)

  datatype Tool = Tool(requiresConfirm: bool)

  /** Everything outside the loop; the number passed to gate and exec is the position of the result in the history. */
  datatype World = World(
    llm: (nat, seq<Message>) -> Reply,
    gate: (nat, ToolCall) -> bool,
    exec: (nat, ToolCall) -> ToolOutcome,
    tools: map<string, Tool>,
    maxIterations: nat)

  datatype Ending = Done | LlmFailed(error: string) | Exceeded

  // ---- One tool call ----

  /** The tool exists and, where it must be confirmed, the gate said yes. */
  predicate Permitted(w: World, n: nat, call: ToolCall) {
    call.toolName in w.tools && (w.tools[call.toolName].requiresConfirm ==> w.gate(n, call))
  }

  const DECLINED := "{\"skipped\":true,\"reason\":\"user declined\"}"

  function ResultFor(w: World, n: nat, call: ToolCall): ToolResult {
    if call.toolName !in w.tools then ToolResult(call.id, "unknown tool \"" + call.toolName + "\"", true)
    else if !Permitted(w, n, call) then ToolResult(call.id, DECLINED, false)
    else
      match w.exec(n, call)
      case Output(text) => ToolResult(call.id, text, false)
      case ToolError(error) => ToolResult(call.id, error, true)
  }

  function Results(w: World, n: nat, calls: seq<ToolCall>): seq<Message> {
    seq(|calls|, j requires 0 <= j < |calls| => ResultMessage(ResultFor(w, n + j, calls[j])))
  }

  /** The calls that actually run. */
  function Executed(w: World, n: nat, calls: seq<ToolCall>): seq<(nat, ToolCall)> {
    if calls == [] then []
    else
      var j := |calls| - 1;
      Executed(w, n, calls[..j]) + if Permitted(w, n + j, calls[j]) then [(n + j, calls[j])] else []
  }

  // ---- A whole turn ----

  function Window(h: seq<Message>): seq<Message> {
    if |h| <= HISTORY_WINDOW_SIZE then h else h[|h| - HISTORY_WINDOW_SIZE..]
  }

  function AssistantMessage(content: string, calls: seq<ToolCall>): Message {
    Message(Assistant, content, calls, None)
  }

  /** What one turn leaves behind: the history, how it ended, the requests sent to the model, and the tool calls run. */
  datatype Turn = Turn(history: seq<Message>, ending: Ending, requests: seq<seq<Message>>, executed: seq<(nat, ToolCall)>)

  function Converse(w: World, h: seq<Message>, iter: nat): Turn
    decreases w.maxIterations - iter
  {
    if iter >= w.maxIterations then Turn(h, Exceeded, [], [])
    else
      match w.llm(iter, Window(h))
      case LlmError(error) => Turn(h, LlmFailed(error), [Window(h)], [])
      case Answer(content, calls) =>
        var asked := h + [AssistantMessage(content, calls)];
        if calls == [] then Turn(asked, Done, [Window(h)], [])
        else
          var rest := Converse(w, asked + Results(w, |asked|, calls), iter + 1);
          rest.(requests := [Window(h)] + rest.requests, executed := Executed(w, |asked|, calls) + rest.executed)
  }

  /** One round of the loop, as a step of Converse. */
  lemma ConverseRound(w: World, h: seq<Message>, iter: nat, content: string, calls: seq<ToolCall>)
    requires iter < w.maxIterations && w.llm(iter, Window(h)) == Answer(content, calls) && calls != []
    ensures var asked := h + [AssistantMessage(content, calls)];
            var t, rest := Converse(w, h, iter), Converse(w, asked + Results(w, |asked|, calls), iter + 1);
            && t.history == rest.history && t.ending == rest.ending
            && (forall sent :: sent + t.requests == (sent + [Window(h)]) + rest.requests)
            && (forall run :: run + t.executed == (run + Executed(w, |asked|, calls)) + rest.executed)
  {
  }

  class Agent {
    var history: seq<Message>
    ghost var requests: seq<seq<Message>>
    ghost var executed: seq<(nat, ToolCall)>

    constructor ()
      ensures history == [] && requests == [] && executed == []
    {
      history, requests, executed := [], [], [];
    }

    method ExecuteToolCall(w: World, call: ToolCall) returns (content: string, isError: bool)
      modifies this`executed
      ensures ToolResult(call.id, content, isError) == ResultFor(w, |history|, call)
      ensures executed == old(executed) + if Permitted(w, |history|, call) then [(|history|, call)] else []
    {
      if call.toolName !in w.tools {
        return "unknown tool \"" + call.toolName + "\"", true;
      }
      if w.tools[call.toolName].requiresConfirm {
        var confirmed := w.gate(|history|, call);
        if !confirmed {
          return DECLINED, false;
        }
      }
      executed := executed + [(|history|, call)];
      match w.exec(|history|, call)
      case Output(text) => return text, false;
      case ToolError(error) => return error, true;
    }

    method RunToolCalls(w: World, calls: seq<ToolCall>)
      modifies this`history, this`executed
      ensures history == old(history) + Results(w, |old(history)|, calls)
      ensures executed == old(executed) + Executed(w, |old(history)|, calls)
    {
      for i := 0 to |calls|
        invariant history == old(history) + Results(w, |old(history)|, calls[..i])
        invariant executed == old(executed) + Executed(w, |old(history)|, calls[..i])
      {
        assert calls[..i + 1][..i] == calls[..i];
        var result, isError := ExecuteToolCall(w, calls[i]);
        history := history + [ResultMessage(ToolResult(calls[i].id, result, isError))];
      }
      assert calls[..|calls|] == calls;
    }

    method RunOnce(w: World) returns (ending: Ending)
      modifies this
      ensures var t := Converse(w, old(history), 0);
              && history == t.history && ending == t.ending
              && requests == old(requests) + t.requests
              && executed == old(executed) + t.executed
    {
      ghost var goal := Converse(w, history, 0);
      for iter := 0 to w.maxIterations
        invariant Converse(w, history, iter).history == goal.history
        invariant Converse(w, history, iter).ending == goal.ending
        invariant requests + Converse(w, history, iter).requests == old(requests) + goal.requests
        invariant executed + Converse(w, history, iter).executed == old(executed) + goal.executed
      {
        ghost var before := history;
        var window := Window(history);
        requests := requests + [window];
        match w.llm(iter, window)
        case LlmError(error) =>
          return LlmFailed(error);
        case Answer(content, calls) =>
          history := history + [AssistantMessage(content, calls)];
          if calls == [] {
            return Done;
          }
          ConverseRound(w, before, iter, content, calls);
          RunToolCalls(w, calls);
      }
      return Exceeded;
    }

    /** One user message and everything up to the answer. */
    method RunTurn(w: World, userMessage: string) returns (ending: Ending)
      modifies this
      ensures var t := Converse(w, old(history) + [UserMessage(userMessage)], 0);
              && history == t.history && ending == t.ending
              && requests == old(requests) + t.requests
              && executed == old(executed) + t.executed
    {
      history := history + [UserMessage(userMessage)];
      ending := RunOnce(w);
    }

    method ClearHistory()
      modifies this`history
      ensures history == []
    {
      history := [];
    }

    method SetHistory(messages: seq<Message>)
      modifies this`history
      ensures history == messages
    {
      history := messages;
    }
  }

  // ---- Every way a turn can end leaves every call answered ----

  lemma AnsweredAtOnce(w: World, content: string, calls: seq<ToolCall>, n: nat)
    ensures Paired([AssistantMessage(content, calls)] + Results(w, n, calls))
  {
  }

  /** One round - an assistant message and the results of its calls - keeps the history paired. */
  lemma {:induction false} RoundPaired(w: World, h: seq<Message>, content: string, calls: seq<ToolCall>)
    requires Paired(h)
    ensures var asked := h + [AssistantMessage(content, calls)];
            Paired(asked + Results(w, |asked|, calls))
  {
    var one := [AssistantMessage(content, calls)];
    var results := Results(w, |h + one|, calls);
    AnsweredAtOnce(w, content, calls, |h + one|);
    PairedConcat(h, one + results);
    Assoc(h, one, results);
  }

  lemma {:induction false} ConversePaired(w: World, h: seq<Message>, iter: nat)
    requires Paired(h)
    ensures Paired(Converse(w, h, iter).history)
    decreases w.maxIterations - iter
  {
    if iter < w.maxIterations && w.llm(iter, Window(h)).Answer? {
      var Answer(content, calls) := w.llm(iter, Window(h));
      var asked := h + [AssistantMessage(content, calls)];
      RoundPaired(w, h, content, calls);
      if calls == [] {
        assert asked + Results(w, |asked|, calls) == asked;
      } else {
        ConversePaired(w, asked + Results(w, |asked|, calls), iter + 1);
      }
    }
  }

  /** History only grows, at most maxIterations requests are made, and a finished turn ends in an answer without calls. */
  lemma {:induction false} ConverseBounds(w: World, h: seq<Message>, iter: nat)
    requires iter <= w.maxIterations
    ensures var t := Converse(w, h, iter);
            && h <= t.history
            && |t.requests| <= w.maxIterations - iter
            && (t.ending.Exceeded? ==> |t.requests| == w.maxIterations - iter)
            && (t.ending.Done? ==> t.history != [] && t.history[|t.history| - 1].role == Assistant && t.history[|t.history| - 1].toolCalls == [])
    decreases w.maxIterations - iter
  {
    if iter < w.maxIterations && w.llm(iter, Window(h)).Answer? {
      var Answer(content, calls) := w.llm(iter, Window(h));
      var asked := h + [AssistantMessage(content, calls)];
      if calls != [] {
        ConverseBounds(w, asked + Results(w, |asked|, calls), iter + 1);
      }
    }
  }

  // ---- What the model is sent ----

  /** At most one window of messages; after the results at its very front, everything is answered. */
  ghost predicate SoundRequest(r: seq<Message>) {
    |r| <= HISTORY_WINDOW_SIZE && Paired(r[LeadingResults(r)..])
  }

  /** The window is the end of the history: all of it up to forty messages, otherwise the last forty. */
  lemma {:induction false} WindowSound(h: seq<Message>)
    requires Paired(h)
    ensures SoundRequest(Window(h))
    ensures Window(h) == h[if |h| <= 40 then 0 else |h| - 40..]
  {
    var n := if |h| <= HISTORY_WINDOW_SIZE then 0 else |h| - HISTORY_WINDOW_SIZE;
    SuffixPaired(h, n);
    assert Window(h) == h[n..];
  }

  lemma {:induction false} ConverseRequestsSound(w: World, h: seq<Message>, iter: nat)
    requires Paired(h)
    ensures forall r | r in Converse(w, h, iter).requests :: SoundRequest(r)
    decreases w.maxIterations - iter
  {
    if iter < w.maxIterations {
      WindowSound(h);
      if w.llm(iter, Window(h)).Answer? {
        var Answer(content, calls) := w.llm(iter, Window(h));
        var asked := h + [AssistantMessage(content, calls)];
        if calls != [] {
          RoundPaired(w, h, content, calls);
          ConverseRequestsSound(w, asked + Results(w, |asked|, calls), iter + 1);
        }
      }
    }
  }

  /**
    The i-th request was the window on the history as it was then, and what the model answered
    came next in the history, word for word; an error ended the turn.
   */
  ghost predicate RecordedAt(w: World, t: Turn, from: nat, iter: nat, i: nat) {
    i < |t.requests| ==>
      exists n: nat | from <= n <= |t.history| ::
        && t.requests[i] == Window(t.history[..n])
        && match w.llm(iter + i, t.requests[i])
           case LlmError(error) => n == |t.history| && i == |t.requests| - 1 && t.ending == LlmFailed(error)
           case Answer(content, calls) => n < |t.history| && t.history[n] == Message(Assistant, content, calls, None)
  }

  /** The messages of one round, where they end up in a longer history. */
  lemma RoundAt(w: World, h: seq<Message>, content: string, calls: seq<ToolCall>, after: seq<Message>)
    requires h + [AssistantMessage(content, calls)] + Results(w, |h| + 1, calls) <= after
    ensures |h| + 1 + |calls| <= |after| && after[|h|] == AssistantMessage(content, calls)
    ensures forall j | 0 <= j < |calls| :: after[|h| + 1 + j] == ResultMessage(ResultFor(w, |h| + 1 + j, calls[j]))
  {
    var asked, round := h + [AssistantMessage(content, calls)], h + [AssistantMessage(content, calls)] + Results(w, |h| + 1, calls);
    assert after[|h|] == round[|h|] && round[|h|] == asked[|h|];
    forall j | 0 <= j < |calls|
      ensures after[|h| + 1 + j] == ResultMessage(ResultFor(w, |h| + 1 + j, calls[j]))
    {
      assert after[|h| + 1 + j] == round[|asked| + j] && round[|asked| + j] == Results(w, |h| + 1, calls)[j];
    }
  }

  lemma {:induction false} RecordedFirst(w: World, h: seq<Message>, iter: nat)
    requires iter < w.maxIterations
    ensures RecordedAt(w, Converse(w, h, iter), |h|, iter, 0)
  {
    var t := Converse(w, h, iter);
    ConverseBounds(w, h, iter);
    assert t.history[..|h|] == h;
    assert t.requests[0] == Window(t.history[..|h|]);
    if w.llm(iter, Window(h)).Answer? {
      var Answer(content, calls) := w.llm(iter, Window(h));
      var asked := h + [AssistantMessage(content, calls)];
      if calls != [] {
        ConverseBounds(w, asked + Results(w, |asked|, calls), iter + 1);
        RoundAt(w, h, content, calls, t.history);
      }
    }
  }

  lemma {:induction false} RecordedLater(w: World, h: seq<Message>, iter: nat, i: nat, content: string, calls: seq<ToolCall>)
    requires iter < w.maxIterations && w.llm(iter, Window(h)) == Answer(content, calls) && calls != [] && i > 0
    requires var next := h + [AssistantMessage(content, calls)] + Results(w, |h| + 1, calls);
             RecordedAt(w, Converse(w, next, iter + 1), |next|, iter + 1, i - 1)
    ensures RecordedAt(w, Converse(w, h, iter), |h|, iter, i)
  {
    var next := h + [AssistantMessage(content, calls)] + Results(w, |h| + 1, calls);
    var t, rest := Converse(w, h, iter), Converse(w, next, iter + 1);
    assert t.history == rest.history && t.ending == rest.ending && t.requests == [Window(h)] + rest.requests;
    if i < |t.requests| {
      assert t.requests[i] == rest.requests[i - 1];
    }
  }

  lemma {:induction false} ConverseRecords(w: World, h: seq<Message>, iter: nat, i: nat)
    requires iter <= w.maxIterations
    ensures RecordedAt(w, Converse(w, h, iter), |h|, iter, i)
    decreases w.maxIterations - iter
  {
    if iter < w.maxIterations {
      if i == 0 {
        RecordedFirst(w, h, iter);
      } else if w.llm(iter, Window(h)).Answer? {
        var Answer(content, calls) := w.llm(iter, Window(h));
        if calls != [] {
          ConverseRecords(w, h + [AssistantMessage(content, calls)] + Results(w, |h| + 1, calls), iter + 1, i - 1);
          RecordedLater(w, h, iter, i, content, calls);
        }
      }
    }
  }

  /** On the wire such a request is answered throughout, but for a batch that may stand first. */
  lemma {:induction false} RequestOnTheWire(h: seq<Message>)
    requires Paired(h)
    ensures ResultsPresent(Window(h))
    ensures var wire := ToWire(Window(h));
            WirePaired(wire) || (wire != [] && IsBatch(wire[0]) && WirePaired(wire[1..]))
  {
    var r := Window(h);
    PairedResultsPresent(h);
    WindowSound(h);
    var n := LeadingResults(r);
    LeadingPresent(r);
    PairedOnTheWire(r[n..]);
    if n == 0 {
      assert r[0..] == r;
    } else {
      assert r[0].role == ToolResultRole;
      assert ToWire(r)[1..] == ToWire(r[n..]);
    }
  }

  // ---- What is run, and what the model is told about it ----

  lemma {:induction false} ExecutedExactly(w: World, n: nat, calls: seq<ToolCall>)
    ensures forall e | e in Executed(w, n, calls) :: n <= e.0 < n + |calls| && e.1 == calls[e.0 - n] && Permitted(w, e.0, e.1)
    ensures forall j | 0 <= j < |calls| && Permitted(w, n + j, calls[j]) :: (n + j, calls[j]) in Executed(w, n, calls)
  {
    if calls == [] {
    } else {
      ExecutedExactly(w, n, calls[..|calls| - 1]);
    }
  }

  /** No tool runs unless it is registered and, where it requires confirmation, the gate approved that very call at that very point. */
  lemma {:induction false} ConverseConfirmed(w: World, h: seq<Message>, iter: nat)
    ensures forall e | e in Converse(w, h, iter).executed ::
              e.0 >= |h| && e.1.toolName in w.tools && (w.tools[e.1.toolName].requiresConfirm ==> w.gate(e.0, e.1))
    decreases w.maxIterations - iter
  {
    if iter < w.maxIterations && w.llm(iter, Window(h)).Answer? {
      var Answer(content, calls) := w.llm(iter, Window(h));
      var asked := h + [AssistantMessage(content, calls)];
      if calls != [] {
        ExecutedExactly(w, |asked|, calls);
        ConverseConfirmed(w, asked + Results(w, |asked|, calls), iter + 1);
      }
    }
  }

  /** The message tells what became of the call, and `ran` whether it was run: the tool's own words and whether they are an error, or why not. */
  predicate Reports(w: World, n: nat, m: Message, call: ToolCall, ran: bool) {
    && m.role == ToolResultRole && m.content == "" && m.toolCalls == [] && m.toolResult.Some?
    && m.toolResult.value.callID == call.id
    && var r := m.toolResult.value;
       if call.toolName !in w.tools then
         !ran && r.isError && r.content == "unknown tool \"" + call.toolName + "\""
       else if w.tools[call.toolName].requiresConfirm && !w.gate(n, call) then
         !ran && !r.isError && r.content == "{\"skipped\":true,\"reason\":\"user declined\"}"
       else
         && ran
         && match w.exec(n, call)
            case Output(text) => r.content == text && !r.isError
            case ToolError(error) => r.content == error && r.isError
  }

  lemma ResultReports(w: World, n: nat, call: ToolCall)
    ensures Reports(w, n, ResultMessage(ResultFor(w, n, call)), call, Permitted(w, n, call))
  {
  }

  /** The j-th call of the message at position a is answered j places after it by what became of it. */
  ghost predicate ReportedAt(w: World, h: seq<Message>, executed: seq<(nat, ToolCall)>, a: nat, j: nat) {
    a < |h| && h[a].role == Assistant && j < |h[a].toolCalls| ==>
      && a + 1 + j < |h|
      && Reports(w, a + 1 + j, h[a + 1 + j], h[a].toolCalls[j], (a + 1 + j, h[a].toolCalls[j]) in executed)
  }

  ghost predicate Reported(w: World, h: seq<Message>, executed: seq<(nat, ToolCall)>, from: nat) {
    forall a: nat, j: nat | from <= a :: ReportedAt(w, h, executed, a, j)
  }

  lemma {:induction false} OwnCallReported(w: World, n: nat, calls: seq<ToolCall>, after: seq<Message>, later: seq<(nat, ToolCall)>, j: nat)
    requires j < |calls| && n + |calls| <= |after| && n > 0 && after[n - 1].toolCalls == calls
    requires after[n + j] == ResultMessage(ResultFor(w, n + j, calls[j]))
    requires forall e | e in later :: e.0 >= n + |calls|
    ensures ReportedAt(w, after, Executed(w, n, calls) + later, n - 1, j)
  {
    ExecutedExactly(w, n, calls);
    ResultReports(w, n + j, calls[j]);
    var e := (n + j, calls[j]);
    assert e !in later;
    assert e in Executed(w, n, calls) + later <==> e in Executed(w, n, calls);
  }

  lemma {:induction false} LaterCallReported(w: World, n: nat, calls: seq<ToolCall>, after: seq<Message>, later: seq<(nat, ToolCall)>, a: nat, j: nat)
    requires a >= n + |calls| && ReportedAt(w, after, later, a, j)
    ensures ReportedAt(w, after, Executed(w, n, calls) + later, a, j)
  {
    ExecutedExactly(w, n, calls);
    if a < |after| && j < |after[a].toolCalls| {
      var e := (a + 1 + j, after[a].toolCalls[j]);
      assert e !in Executed(w, n, calls);
      assert e in Executed(w, n, calls) + later <==> e in later;
    }
  }

  lemma {:induction false} RoundReported(w: World, h: seq<Message>, content: string, calls: seq<ToolCall>,
                                         after: seq<Message>, later: seq<(nat, ToolCall)>)
    requires h + [AssistantMessage(content, calls)] + Results(w, |h| + 1, calls) <= after
    requires forall e | e in later :: e.0 >= |h| + 1 + |calls|
    requires Reported(w, after, later, |h| + 1 + |calls|)
    ensures Reported(w, after, Executed(w, |h| + 1, calls) + later, |h|)
  {
    var n := |h| + 1;
    RoundAt(w, h, content, calls, after);
    forall a: nat, j: nat | |h| <= a
      ensures ReportedAt(w, after, Executed(w, n, calls) + later, a, j)
    {
      if a >= n + |calls| {
        LaterCallReported(w, n, calls, after, later, a, j);
      } else if a == |h| && j < |calls| {
        OwnCallReported(w, n, calls, after, later, j);
      } else if a > |h| {
        assert after[|h| + 1 + (a - n)].role == ToolResultRole;
      }
    }
  }

  /**
    Whatever model, gate and tools do, every call of a turn is answered by what became of it, and
    run exactly if its tool exists and the gate, where there is one, let it through.
   */
  lemma {:induction false} ConverseReports(w: World, h: seq<Message>, iter: nat)
    requires iter <= w.maxIterations
    ensures Reported(w, Converse(w, h, iter).history, Converse(w, h, iter).executed, |h|)
    decreases w.maxIterations - iter
  {
    if iter < w.maxIterations && w.llm(iter, Window(h)).Answer? {
      var Answer(content, calls) := w.llm(iter, Window(h));
      var asked := h + [AssistantMessage(content, calls)];
      if calls != [] {
        var next := asked + Results(w, |asked|, calls);
        ConverseReports(w, next, iter + 1);
        ConverseConfirmed(w, next, iter + 1);
        ConverseBounds(w, next, iter + 1);
        var rest := Converse(w, next, iter + 1);
        RoundReported(w, h, content, calls, rest.history, rest.executed);
      }
    }
  }

  // ---- Whole sessions ----

  /** Restored conversations hold user and assistant text only. */
  predicate TextOnly(m: Message) {
    (m.role == User || m.role == Assistant) && m.toolCalls == [] && m.toolResult.None?
  }

  datatype Operation = Ask(world: World, text: string) | Clear | Restore(messages: seq<Message>)

  function Apply(h: seq<Message>, op: Operation): seq<Message> {
    match op
    case Ask(w, text) => Converse(w, h + [UserMessage(text)], 0).history
    case Clear => []
    case Restore(messages) => messages
  }

  function ApplyAll(ops: seq<Operation>): seq<Message> {
    if ops == [] then [] else Apply(ApplyAll(ops[..|ops| - 1]), ops[|ops| - 1])
  }

  lemma {:induction false} TextOnlyPaired(h: seq<Message>)
    requires forall m | m in h :: TextOnly(m)
    ensures Paired(h)
  {
    if h == [] {
    } else {
      assert TextOnly(h[0]);
      forall m | m in h[1..] ensures TextOnly(m) {
        assert m in h;
      }
      TextOnlyPaired(h[1..]);
    }
  }

  /** Whatever was asked, cleared and restored, with whatever models and tools, every call in the history is answered. */
  lemma {:induction false} SessionPaired(ops: seq<Operation>)
    requires forall op, m | op in ops && op.Restore? && m in op.messages :: TextOnly(m)
    ensures Paired(ApplyAll(ops))
  {
    if ops == [] {
    } else {
      var front, op := ops[..|ops| - 1], ops[|ops| - 1];
      assert op in ops && forall o | o in front :: o in ops;
      SessionPaired(front);
      match op
      case Ask(w, text) =>
        var h := ApplyAll(front);
        assert Paired([UserMessage(text)]) by {
          assert [UserMessage(text)][1..] == [];
        }
        PairedConcat(h, [UserMessage(text)]);
        ConversePaired(w, h + [UserMessage(text)], 0);
      case Clear =>
      case Restore(messages) => TextOnlyPaired(messages);
    }
  }
}
