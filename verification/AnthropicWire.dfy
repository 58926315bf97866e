/** Converting a conversation to Anthropic's wire format and an answer back. */
module AnthropicWire {
  import opened Text
  import opened LlmTypes

  datatype Block =
    | TextBlock(text: string)
    | ToolUse(id: string, name: string, input: Option<Fields>)
    | ToolResultBlock(toolUseID: string, content: string, isError: bool)
    | OtherBlock

  datatype Content = Plain(text: string) | Blocks(blocks: seq<Block>)

  datatype WireMessage = WireMessage(role: string, content: Content)

  // ---- Encoding ----

  function CallBlocks(calls: seq<ToolCall>): seq<Block> {
    seq(|calls|, i requires 0 <= i < |calls| => ToolUse(calls[i].id, calls[i].toolName, Some(OrEmpty(calls[i].arguments))))
  }

  function AssistantBlocks(m: Message): seq<Block> {
    (if m.content != "" then [TextBlock(m.content)] else []) + CallBlocks(m.toolCalls)
  }

  function ResultBlocks(batch: seq<Message>): seq<Block>
    requires forall m | m in batch :: m.toolResult.Some?
  {
    seq(|batch|, i requires 0 <= i < |batch| =>
      assert batch[i] in batch;
      var r := batch[i].toolResult.value; ToolResultBlock(r.callID, r.content, r.isError))
  }

  lemma {:induction false} LeadingPresent(h: seq<Message>)
    requires ResultsPresent(h)
    ensures forall m | m in h[..LeadingResults(h)] :: m.toolResult.Some?
    ensures ResultsPresent(h[LeadingResults(h)..])
    ensures h != [] ==> ResultsPresent(h[1..])
  {
  }

  function ToWire(h: seq<Message>): seq<WireMessage>
    requires ResultsPresent(h)
    decreases |h|
  {
    LeadingPresent(h);
    if h == [] then []
    else
      match h[0].role
      case User => [WireMessage("user", Plain(h[0].content))] + ToWire(h[1..])
      case Assistant => [WireMessage("assistant", Blocks(AssistantBlocks(h[0])))] + ToWire(h[1..])
      case ToolResultRole =>
        var n := LeadingResults(h);
        [WireMessage("user", Blocks(ResultBlocks(h[..n])))] + ToWire(h[n..])
      case OtherRole => ToWire(h[1..])
  }

  method EncodeAssistant(m: Message) returns (blocks: seq<Block>)
    ensures blocks == AssistantBlocks(m)
  {
    blocks := [];
    if m.content != "" {
      blocks := blocks + [TextBlock(m.content)];
    }
    ghost var start := blocks;
    for i := 0 to |m.toolCalls|
      invariant blocks == start + CallBlocks(m.toolCalls[..i])
    {
      var tc := m.toolCalls[i];
      var input: Fields := map[];
      if tc.arguments.Some? {
        input := tc.arguments.value;
      }
      blocks := blocks + [ToolUse(tc.id, tc.toolName, Some(input))];
      assert CallBlocks(m.toolCalls[..i + 1]) == CallBlocks(m.toolCalls[..i]) + [ToolUse(tc.id, tc.toolName, Some(input))];
    }
    assert m.toolCalls[..|m.toolCalls|] == m.toolCalls;
  }

  /** The inner loop: one wire message for the whole run of results that starts at position i. */
  method EncodeBatch(h: seq<Message>, i: nat) returns (blocks: seq<Block>, next: nat)
    requires i < |h| && ResultsPresent(h[i..]) && h[i].role == ToolResultRole
    ensures next == i + LeadingResults(h[i..]) && i < next <= |h|
    ensures forall m | m in h[i..next] :: m.toolResult.Some?
    ensures blocks == ResultBlocks(h[i..next])
  {
    blocks, next := [], i;
    while next < |h| && h[next].role == ToolResultRole
      invariant i <= next <= |h|
      invariant forall j | i <= j < next :: h[j].role == ToolResultRole
      invariant |blocks| == next - i
      invariant forall j | i <= j < next :: h[j].toolResult.Some? &&
                  blocks[j - i] == ToolResultBlock(h[j].toolResult.value.callID, h[j].toolResult.value.content, h[j].toolResult.value.isError)
    {
      assert h[next] == h[i..][next - i];
      var tr := h[next].toolResult.value;
      var block := ToolResultBlock(tr.callID, tr.content, false);
      if tr.isError {
        block := block.(isError := true);
      }
      blocks := blocks + [block];
      next := next + 1;
    }
    LeadingResultsIs(h[i..], next - i);
    forall m | m in h[i..next]
      ensures m.toolResult.Some?
    {
      var j :| 0 <= j < |h[i..next]| && h[i..next][j] == m;
      assert h[i + j] == m;
    }
  }

  /** How the encoding of the rest of the history unfolds at position i. */
  lemma WireNext(h: seq<Message>, i: nat)
    requires i < |h| && ResultsPresent(h[i..])
    ensures ResultsPresent(h[i + 1..])
    ensures h[i].role == User ==> ToWire(h[i..]) == [WireMessage("user", Plain(h[i].content))] + ToWire(h[i + 1..])
    ensures h[i].role == Assistant ==> ToWire(h[i..]) == [WireMessage("assistant", Blocks(AssistantBlocks(h[i])))] + ToWire(h[i + 1..])
    ensures h[i].role == OtherRole ==> ToWire(h[i..]) == ToWire(h[i + 1..])
  {
  }

  lemma WireNextBatch(h: seq<Message>, i: nat)
    requires i < |h| && ResultsPresent(h[i..]) && h[i].role == ToolResultRole
    ensures var n := i + LeadingResults(h[i..]);
            && ResultsPresent(h[n..])
            && (forall m | m in h[i..n] :: m.toolResult.Some?)
            && ToWire(h[i..]) == [WireMessage("user", Blocks(ResultBlocks(h[i..n])))] + ToWire(h[n..])
  {
    LeadingPresent(h[i..]);
    var k := LeadingResults(h[i..]);
    assert h[i..][..k] == h[i..i + k] && h[i..][k..] == h[i + k..] && h[i..][0] == h[i];
  }

  /** The messages one round of the loop appends, and where the next round starts. */
  method EncodeNext(h: seq<Message>, i: nat) returns (out: seq<WireMessage>, next: nat)
    requires i < |h| && ResultsPresent(h[i..])
    ensures i < next <= |h| && ResultsPresent(h[next..])
    ensures ToWire(h[i..]) == out + ToWire(h[next..])
  {
    WireNext(h, i);
    match h[i].role
    case User =>
      return [WireMessage("user", Plain(h[i].content))], i + 1;
    case Assistant =>
      var blocks := EncodeAssistant(h[i]);
      return [WireMessage("assistant", Blocks(blocks))], i + 1;
    case ToolResultRole =>
      WireNextBatch(h, i);
      var blocks, j := EncodeBatch(h, i);
      return [WireMessage("user", Blocks(blocks))], j;
    case OtherRole =>
      return [], i + 1;
  }

  method ToAnthropicMessages(h: seq<Message>) returns (w: seq<WireMessage>)
    requires ResultsPresent(h)
    ensures w == ToWire(h)
  {
    w := [];
    var i := 0;
    assert h[0..] == h;
    while i < |h|
      invariant i <= |h|
      invariant ResultsPresent(h[i..])
      invariant w + ToWire(h[i..]) == ToWire(h)
      decreases |h| - i
    {
      var out, next := EncodeNext(h, i);
      Assoc(w, out, ToWire(h[next..]));
      w, i := w + out, next;
    }
    assert h[|h|..] == [];
  }

  // ---- Decoding ----

  function TextOf(blocks: seq<Block>): string {
    if blocks == [] then ""
    else
      var last := blocks[|blocks| - 1];
      TextOf(blocks[..|blocks| - 1]) + if last.TextBlock? then last.text else ""
  }

  function CallsOf(blocks: seq<Block>): seq<ToolCall> {
    if blocks == [] then []
    else
      var last := blocks[|blocks| - 1];
      CallsOf(blocks[..|blocks| - 1]) + if last.ToolUse? then [ToolCall(last.id, last.name, Some(OrEmpty(last.input)))] else []
  }

  function FromResponse(blocks: seq<Block>): Message {
    Message(Assistant, TextOf(blocks), CallsOf(blocks), None)
  }

  method FromAnthropicResponse(blocks: seq<Block>) returns (msg: Message)
    ensures msg == FromResponse(blocks)
  {
    msg := Message(Assistant, "", [], None);
    for i := 0 to |blocks|
      invariant msg == FromResponse(blocks[..i])
    {
      assert blocks[..i + 1][..i] == blocks[..i];
      match blocks[i]
      case TextBlock(text) => msg := msg.(content := msg.content + text);
      case ToolUse(id, name, input) =>
        var args: Fields := map[];
        if input.Some? {
          args := input.value;
        }
        msg := msg.(toolCalls := msg.toolCalls + [ToolCall(id, name, Some(args))]);
      case _ =>
    }
    assert blocks[..|blocks|] == blocks;
  }

  function Unbundled(blocks: seq<Block>): seq<Message> {
    if blocks == [] then []
    else
      (match blocks[0]
       case ToolResultBlock(id, content, isError) => [ResultMessage(ToolResult(id, content, isError))]
       case _ => []) + Unbundled(blocks[1..])
  }

  /** What one wire message says: the assistant's blocks are read as a response, the user's are a batch of results. */
  function DecodeOne(m: WireMessage): seq<Message> {
    match m.content
    case Plain(text) => if m.role == "user" then [UserMessage(text)] else []
    case Blocks(blocks) => if m.role == "assistant" then [FromResponse(blocks)] else if m.role == "user" then Unbundled(blocks) else []
  }

  function Decode(w: seq<WireMessage>): seq<Message> {
    if w == [] then [] else DecodeOne(w[0]) + Decode(w[1..])
  }

  /** A message with only the parts its role uses, and no argument object missing. */
  function CanonicalCalls(calls: seq<ToolCall>): seq<ToolCall> {
    seq(|calls|, i requires 0 <= i < |calls| => calls[i].(arguments := Some(OrEmpty(calls[i].arguments))))
  }

  function Canonical(h: seq<Message>): seq<Message>
    requires ResultsPresent(h)
  {
    LeadingPresent(h);
    if h == [] then []
    else
      (match h[0].role
       case User => [UserMessage(h[0].content)]
       case Assistant => [Message(Assistant, h[0].content, CanonicalCalls(h[0].toolCalls), None)]
       case ToolResultRole => (assert h[0] in h; [ResultMessage(h[0].toolResult.value)])
       case OtherRole => []) + Canonical(h[1..])
  }

  // ---- The conversion loses nothing ----

  lemma {:induction false} CallsDecode(prefix: seq<Block>, calls: seq<ToolCall>)
    ensures CallsOf(prefix + CallBlocks(calls)) == CallsOf(prefix) + CanonicalCalls(calls)
    ensures TextOf(prefix + CallBlocks(calls)) == TextOf(prefix)
  {
    if calls == [] {
      assert prefix + CallBlocks(calls) == prefix;
    } else {
      var n := |calls| - 1;
      CallsDecode(prefix, calls[..n]);
      var all := prefix + CallBlocks(calls);
      assert all[..|all| - 1] == prefix + CallBlocks(calls[..n]);
      assert CanonicalCalls(calls) == CanonicalCalls(calls[..n]) + [calls[n].(arguments := Some(OrEmpty(calls[n].arguments)))];
    }
  }

  lemma AssistantDecodes(m: Message)
    ensures FromResponse(AssistantBlocks(m)) == Message(Assistant, m.content, CanonicalCalls(m.toolCalls), None)
  {
    var prefix := if m.content != "" then [TextBlock(m.content)] else [];
    CallsDecode(prefix, m.toolCalls);
    if m.content != "" {
      assert prefix[..0] == [];
    }
  }

  lemma {:induction false} CanonicalResult(m: Message, rest: seq<Message>)
    requires m.role == ToolResultRole && m.toolResult.Some? && ResultsPresent(rest)
    ensures ResultsPresent([m] + rest)
    ensures Canonical([m] + rest) == [ResultMessage(m.toolResult.value)] + Canonical(rest)
  {
  }

  lemma UnbundledNext(batch: seq<Message>)
    requires batch != [] && forall m | m in batch :: m.role == ToolResultRole && m.toolResult.Some?
    ensures batch[0] in batch && forall m | m in batch[1..] :: m.role == ToolResultRole && m.toolResult.Some?
    ensures Unbundled(ResultBlocks(batch)) == [ResultMessage(batch[0].toolResult.value)] + Unbundled(ResultBlocks(batch[1..]))
  {
    assert ResultBlocks(batch)[1..] == ResultBlocks(batch[1..]);
  }

  lemma {:induction false} BatchDecodes(batch: seq<Message>, rest: seq<Message>)
    requires forall m | m in batch :: m.role == ToolResultRole && m.toolResult.Some?
    requires ResultsPresent(rest)
    ensures ResultsPresent(batch + rest)
    ensures Canonical(batch + rest) == Unbundled(ResultBlocks(batch)) + Canonical(rest)
  {
    if batch == [] {
      assert batch + rest == rest;
    } else {
      UnbundledNext(batch);
      BatchDecodes(batch[1..], rest);
      assert batch + rest == [batch[0]] + (batch[1..] + rest);
      CanonicalResult(batch[0], batch[1..] + rest);
      Assoc([ResultMessage(batch[0].toolResult.value)], Unbundled(ResultBlocks(batch[1..])), Canonical(rest));
    }
  }

  /** Encoding a history and decoding it again gives the history back, in canonical form. */
  lemma {:induction false} WireIsLossless(h: seq<Message>)
    requires ResultsPresent(h)
    ensures Decode(ToWire(h)) == Canonical(h)
    decreases |h|
  {
    LeadingPresent(h);
    if h == [] {
    } else {
      match h[0].role
      case User => WireIsLossless(h[1..]);
      case Assistant =>
        AssistantDecodes(h[0]);
        WireIsLossless(h[1..]);
      case ToolResultRole =>
        var n := LeadingResults(h);
        WireIsLossless(h[n..]);
        assert h == h[..n] + h[n..];
        BatchDecodes(h[..n], h[n..]);
      case OtherRole => WireIsLossless(h[1..]);
    }
  }

  /** The messages the agent itself records: each field used by its role only, argument objects present. */
  predicate Plainly(m: Message) {
    match m.role
    case User => m.toolCalls == [] && m.toolResult.None?
    case Assistant => m.toolResult.None? && forall c | c in m.toolCalls :: c.arguments.Some?
    case ToolResultRole => m.content == "" && m.toolCalls == [] && m.toolResult.Some?
    case OtherRole => false
  }

  lemma {:induction false} PlainlyCanonical(h: seq<Message>)
    requires forall m | m in h :: Plainly(m)
    ensures ResultsPresent(h) && Canonical(h) == h
  {
    if h == [] {
    } else {
      assert h[0] in h;
      forall m | m in h[1..] ensures Plainly(m) {
        assert m in h;
      }
      PlainlyCanonical(h[1..]);
      if h[0].role == Assistant {
        assert forall i | 0 <= i < |h[0].toolCalls| :: h[0].toolCalls[i] in h[0].toolCalls;
        assert CanonicalCalls(h[0].toolCalls) == h[0].toolCalls;
      }
      assert h == [h[0]] + h[1..];
    }
  }

  lemma {:induction false} PlainHistoryRoundTrips(h: seq<Message>)
    requires forall m | m in h :: Plainly(m)
    ensures ResultsPresent(h) && Decode(ToWire(h)) == h
  {
    PlainlyCanonical(h);
    WireIsLossless(h);
  }

  // ---- Batches ----

  predicate IsBatch(m: WireMessage) {
    m.role == "user" && m.content.Blocks?
  }

  /** No two batches touch: a run of results is never split over two messages. */
  lemma {:induction false} BatchesMaximal(h: seq<Message>)
    requires ResultsPresent(h) && forall m | m in h :: m.role != OtherRole
    ensures var w := ToWire(h);
            && (forall j | 0 <= j < |w| - 1 :: !(IsBatch(w[j]) && IsBatch(w[j + 1])))
            && (w != [] ==> h != [] && (IsBatch(w[0]) <==> h[0].role == ToolResultRole))
            && (forall j | 0 <= j < |w| && IsBatch(w[j]) :: w[j].content.blocks != [])
    decreases |h|
  {
    LeadingPresent(h);
    if h == [] {
    } else {
      assert h[0] in h;
      var n := if h[0].role == ToolResultRole then LeadingResults(h) else 1;
      var w, v := ToWire(h), ToWire(h[n..]);
      forall m | m in h[n..] ensures m.role != OtherRole {
        assert m in h;
      }
      BatchesMaximal(h[n..]);
      assert w == [w[0]] + v;
    }
  }

  function IDsOfCalls(calls: seq<ToolCall>): seq<string> {
    seq(|calls|, i requires 0 <= i < |calls| => calls[i].id)
  }

  function UseIDs(m: WireMessage): seq<string> {
    if m.content.Blocks? then IDsOfCalls(CallsOf(m.content.blocks)) else []
  }

  function ResultIDs(blocks: seq<Block>): seq<string> {
    seq(|blocks|, i requires 0 <= i < |blocks| => if blocks[i].ToolResultBlock? then blocks[i].toolUseID else "")
  }

  /** On the wire: an assistant turn with tool calls is followed at once by one batch with the results of exactly those calls, in order. */
  predicate WirePaired(w: seq<WireMessage>) {
    if w == [] then true
    else if IsBatch(w[0]) then false
    else if UseIDs(w[0]) == [] then WirePaired(w[1..])
    else |w| > 1 && IsBatch(w[1]) && ResultIDs(w[1].content.blocks) == UseIDs(w[0]) && WirePaired(w[2..])
  }

  /** The batch that follows an assistant turn whose calls are all answered. */
  lemma AnsweredBatch(h: seq<Message>, rest: seq<Message>) returns (blocks: seq<Block>)
    requires h != [] && h[0].role == Assistant && h[0].toolCalls != []
    requires |h[0].toolCalls| < |h| && rest == h[1 + |h[0].toolCalls|..]
    requires forall j | 0 <= j < |h[0].toolCalls| :: Answers(h[1 + j], h[0].toolCalls[j])
    requires rest != [] ==> rest[0].role != ToolResultRole
    requires ResultsPresent(h[1..]) && ResultsPresent(rest)
    ensures ResultIDs(blocks) == IDsOfCalls(h[0].toolCalls)
    ensures ToWire(h[1..]) == [WireMessage("user", Blocks(blocks))] + ToWire(rest)
  {
    var calls, tail := h[0].toolCalls, h[1..];
    var k := |calls|;
    forall j | 0 <= j < k
      ensures tail[j].role == ToolResultRole && tail[j].toolResult.Some? && tail[j].toolResult.value.callID == calls[j].id
    {
      assert Answers(h[1 + j], calls[j]);
    }
    assert tail[k..] == rest;
    LeadingResultsIs(tail, k);
    LeadingPresent(tail);
    blocks := ResultBlocks(tail[..k]);
    assert ResultIDs(blocks) == IDsOfCalls(calls);
  }

  lemma {:induction false} WirePairedExchange(first: WireMessage, batch: WireMessage, rest: seq<WireMessage>)
    requires !IsBatch(first) && UseIDs(first) != [] && IsBatch(batch)
    requires ResultIDs(batch.content.blocks) == UseIDs(first) && WirePaired(rest)
    ensures WirePaired([first] + ([batch] + rest))
  {
    var w := [first] + ([batch] + rest);
    assert w[0] == first && w[1] == batch && w[2..] == rest;
  }

  lemma {:induction false} WirePairedPlain(first: WireMessage, rest: seq<WireMessage>)
    requires !IsBatch(first) && UseIDs(first) == [] && WirePaired(rest)
    ensures WirePaired([first] + rest)
  {
  }

  lemma AssistantUses(m: Message)
    ensures UseIDs(WireMessage("assistant", Blocks(AssistantBlocks(m)))) == IDsOfCalls(m.toolCalls)
  {
    AssistantDecodes(m);
    assert IDsOfCalls(CanonicalCalls(m.toolCalls)) == IDsOfCalls(m.toolCalls);
  }

  lemma {:induction false} PairedOnTheWire(h: seq<Message>)
    requires Paired(h)
    ensures ResultsPresent(h) && WirePaired(ToWire(h))
    decreases |h|
  {
    PairedResultsPresent(h);
    if h == [] {
    } else {
      LeadingPresent(h);
      if h[0].role == Assistant {
        var rest := h[1 + |h[0].toolCalls|..];
        PairedOnTheWire(rest);
        AssistantUses(h[0]);
        var first := WireMessage("assistant", Blocks(AssistantBlocks(h[0])));
        assert ToWire(h) == [first] + ToWire(h[1..]);
        if h[0].toolCalls != [] {
          var blocks := AnsweredBatch(h, rest);
          assert |IDsOfCalls(h[0].toolCalls)| > 0;
          WirePairedExchange(first, WireMessage("user", Blocks(blocks)), ToWire(rest));
        } else {
          WirePairedPlain(first, ToWire(rest));
        }
      } else {
        PairedOnTheWire(h[1..]);
        if h[0].role == User {
          WirePairedPlain(WireMessage("user", Plain(h[0].content)), ToWire(h[1..]));
        }
      }
    }
  }
}
