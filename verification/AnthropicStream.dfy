/**
  Reassembling a streamed Anthropic answer. Events arrive one by one; text is printed as
  it comes, tool arguments are collected per content block. The result must be what the
  non-streaming decoder makes of the finished blocks, however they were cut up.
 */
module AnthropicStream {
  import opened Text
  import opened LlmTypes
  import opened AnthropicWire

  datatype Kind = TextKind | ToolKind | OtherKind

  datatype StartBlock = StartBlock(kind: Kind, id: string, name: string)

  datatype Delta = TextDelta(text: string) | JsonDelta(partial: string) | OtherDelta

  /** A parsed event; Ignored covers empty data, "[DONE]", unparsable data and unknown types. */
  datatype Event =
    | Ignored
    | ErrorEvent(error: Option<string>)
    | BlockStart(index: int, block: Option<StartBlock>)
    | BlockDelta(index: int, delta: Option<Delta>)

  datatype Outcome = Reply(message: Message) | Failed(error: string)

  datatype Partial = Partial(id: string, name: string, args: string)

  /** What the loop has accumulated. */
  datatype Acc = Acc(text: string, calls: map<int, Partial>, order: seq<int>)

  const EMPTY_ACC := Acc("", map[], [])

  function Absorb(acc: Acc, ev: Event): Acc {
    match ev
    case BlockStart(i, Some(StartBlock(ToolKind, id, name))) =>
      acc.(calls := acc.calls[i := Partial(id, name, "")], order := acc.order + [i])
    case BlockDelta(_, Some(TextDelta(text))) => acc.(text := acc.text + text)
    case BlockDelta(i, Some(JsonDelta(partial))) =>
      if i in acc.calls then acc.(calls := acc.calls[i := acc.calls[i].(args := acc.calls[i].args + partial)]) else acc
    case _ => acc
  }

  /** Every recorded index has an accumulator. */
  predicate Indexed(acc: Acc) {
    forall j | 0 <= j < |acc.order| :: acc.order[j] in acc.calls
  }

  function AbsorbAll(evs: seq<Event>): (acc: Acc)
    ensures Indexed(acc)
  {
    if evs == [] then EMPTY_ACC else Absorb(AbsorbAll(evs[..|evs| - 1]), evs[|evs| - 1])
  }

  /** The arguments an assembled JSON text stands for; `parse` gives None for malformed text or null. */
  function ParsedArgs(parse: string -> Option<Fields>, json: string): Option<Fields> {
    if json == "" then None else parse(json)
  }

  function FinishCall(parse: string -> Option<Fields>, p: Partial): ToolCall {
    ToolCall(p.id, p.name, Some(OrEmpty(ParsedArgs(parse, p.args))))
  }

  function FinishCalls(parse: string -> Option<Fields>, acc: Acc): seq<ToolCall>
    requires Indexed(acc)
  {
    seq(|acc.order|, j requires 0 <= j < |acc.order| => FinishCall(parse, acc.calls[acc.order[j]]))
  }

  function Finish(parse: string -> Option<Fields>, evs: seq<Event>): Message {
    var acc := AbsorbAll(evs);
    Message(Assistant, acc.text, FinishCalls(parse, acc), None)
  }

  predicate IsFailure(ev: Event) {
    ev.ErrorEvent? && ev.error.Some?
  }

  /** The events before the first reported error. */
  function UntilError(evs: seq<Event>): (n: nat)
    ensures n <= |evs|
    ensures n < |evs| ==> IsFailure(evs[n])
    ensures forall j | 0 <= j < n :: !IsFailure(evs[j])
  {
    if evs == [] then 0 else if IsFailure(evs[0]) then 0 else 1 + UntilError(evs[1..])
  }

  lemma {:induction false} UntilErrorIs(evs: seq<Event>, n: nat)
    requires n <= |evs| && (n < |evs| ==> IsFailure(evs[n]))
    requires forall j | 0 <= j < n :: !IsFailure(evs[j])
    ensures UntilError(evs) == n
  {
  }

  method FinishInOrder(parse: string -> Option<Fields>, acc: Acc) returns (toolCalls: seq<ToolCall>)
    requires Indexed(acc)
    ensures toolCalls == FinishCalls(parse, acc)
  {
    toolCalls := [];
    for j := 0 to |acc.order|
      invariant toolCalls == FinishCalls(parse, acc)[..j]
    {
      var p := acc.calls[acc.order[j]];
      var args: Option<Fields> := None;
      if |p.args| > 0 {
        args := parse(p.args);
      }
      if args.None? {
        args := Some(map[]);
      }
      toolCalls := toolCalls + [ToolCall(p.id, p.name, args)];
    }
  }

  /**
    The streaming loop. `echo` says whether there is somewhere to print to; `written` is
    what was printed, also when the stream ends in an error.
   */
  method StreamChat(evs: seq<Event>, parse: string -> Option<Fields>, echo: bool) returns (r: Outcome, written: string)
    ensures var n := UntilError(evs);
            && r == (if n < |evs| then Failed(evs[n].error.value) else Reply(Finish(parse, evs)))
            && written == (if echo then AbsorbAll(evs[..n]).text else "")
    ensures echo && r.Reply? ==> r.message.content == written
    ensures r.Failed? <==> exists ev :: ev in evs && ev.ErrorEvent? && ev.error.Some?
    ensures r.Failed? ==>
              exists n :: 0 <= n < |evs| && evs[n] == ErrorEvent(Some(r.error)) && forall j | 0 <= j < n && evs[j].ErrorEvent? :: evs[j].error.None?
  {
    var text, calls, order := "", map[], [];
    written := "";
    for n := 0 to |evs|
      invariant Acc(text, calls, order) == AbsorbAll(evs[..n])
      invariant written == if echo then text else ""
      invariant forall j | 0 <= j < n :: !IsFailure(evs[j])
    {
      assert evs[..n + 1][..n] == evs[..n];
      match evs[n]
      case ErrorEvent(error) =>
        if error.Some? {
          UntilErrorIs(evs, n);
          return Failed(error.value), written;
        }
      case BlockStart(i, block) =>
        if block.Some? && block.value.kind == ToolKind {
          calls := calls[i := Partial(block.value.id, block.value.name, "")];
          order := order + [i];
        }
      case BlockDelta(i, delta) =>
        if delta.Some? {
          match delta.value
          case TextDelta(chunk) =>
            text := text + chunk;
            if echo {
              written := written + chunk;
            }
          case JsonDelta(partial) =>
            if i in calls {
              calls := calls[i := calls[i].(args := calls[i].args + partial)];
            }
          case OtherDelta =>
        }
      case Ignored =>
    }
    assert evs[..|evs|] == evs;
    UntilErrorIs(evs, |evs|);
    var toolCalls := FinishInOrder(parse, Acc(text, calls, order));
    r := Reply(Message(Assistant, text, toolCalls, None));
  }

  // ---- The blocks a stream delivers ----

  datatype Started = Started(index: int, block: StartBlock)

  function Starts(evs: seq<Event>): seq<Started> {
    if evs == [] then []
    else
      Starts(evs[..|evs| - 1]) +
      match evs[|evs| - 1]
      case BlockStart(i, Some(b)) => [Started(i, b)]
      case _ => []
  }

  /** All text, respectively all JSON, delivered for one block index. */
  function TextFor(evs: seq<Event>, index: int): string {
    if evs == [] then ""
    else
      TextFor(evs[..|evs| - 1], index) +
      match evs[|evs| - 1]
      case BlockDelta(i, Some(TextDelta(text))) => if i == index then text else ""
      case _ => ""
  }

  function JsonFor(evs: seq<Event>, index: int): string {
    if evs == [] then ""
    else
      JsonFor(evs[..|evs| - 1], index) +
      match evs[|evs| - 1]
      case BlockDelta(i, Some(JsonDelta(partial))) => if i == index then partial else ""
      case _ => ""
  }

  /** One started block with its deltas put together, as the non-streaming API would have returned it. */
  function Assembled(parse: string -> Option<Fields>, evs: seq<Event>, s: Started): Block {
    match s.block.kind
    case TextKind => TextBlock(TextFor(evs, s.index))
    case ToolKind => ToolUse(s.block.id, s.block.name, ParsedArgs(parse, JsonFor(evs, s.index)))
    case OtherKind => OtherBlock
  }

  function AssembledBlocks(parse: string -> Option<Fields>, evs: seq<Event>, starts: seq<Started>): seq<Block> {
    seq(|starts|, j requires 0 <= j < |starts| => Assembled(parse, evs, starts[j]))
  }

  // ---- One more event ----

  lemma {:induction false} StartSnoc(front: seq<Event>, i: int, b: StartBlock)
    ensures var evs := front + [BlockStart(i, Some(b))];
            && AbsorbAll(evs).text == AbsorbAll(front).text
            && Starts(evs) == Starts(front) + [Started(i, b)]
            && forall x :: TextFor(evs, x) == TextFor(front, x) && JsonFor(evs, x) == JsonFor(front, x)
  {
  }

  function JsonInFor(ev: Event, index: int): string {
    if ev.BlockDelta? && ev.delta.Some? && ev.delta.value.JsonDelta? && ev.index == index then ev.delta.value.partial else ""
  }

  lemma {:induction false} DeltaSnoc(front: seq<Event>, ev: Event)
    requires !ev.BlockStart? || ev.block.None?
    ensures Starts(front + [ev]) == Starts(front)
    ensures forall x :: JsonFor(front + [ev], x) == JsonFor(front, x) + JsonInFor(ev, x)
  {
    assert (front + [ev])[..|front|] == front;
  }

  predicate IsText(ev: Event) {
    ev.BlockDelta? && ev.delta.Some? && ev.delta.value.TextDelta?
  }

  /** The text an event carries, and the part of it that is for this block. */
  function TextIn(ev: Event): string {
    if IsText(ev) then ev.delta.value.text else ""
  }

  function TextInFor(ev: Event, index: int): string {
    if IsText(ev) && ev.index == index then ev.delta.value.text else ""
  }

  lemma {:induction false} TextStep(front: seq<Event>, ev: Event)
    ensures AbsorbAll(front + [ev]).text == AbsorbAll(front).text + TextIn(ev)
    ensures forall x :: TextFor(front + [ev], x) == TextFor(front, x) + TextInFor(ev, x)
  {
    assert (front + [ev])[..|front|] == front;
  }

  /** A delta brings its text or arguments to its own block. */
  lemma {:induction false} OneDelta(at: int, chunk: string, index: int)
    ensures TextFor([BlockDelta(at, Some(TextDelta(chunk)))], index) == if at == index then chunk else ""
    ensures JsonFor([BlockDelta(at, Some(JsonDelta(chunk)))], index) == if at == index then chunk else ""
  {
    assert [BlockDelta(at, Some(TextDelta(chunk)))][..0] == [] && [BlockDelta(at, Some(JsonDelta(chunk)))][..0] == [];
  }

  lemma {:induction false} TextNext(evs: seq<Event>, ev: Event, index: int)
    ensures TextFor(evs + [ev], index) == TextFor(evs, index) + TextInFor(ev, index)
  {
    assert (evs + [ev])[..|evs|] == evs;
  }

  lemma {:induction false} JsonNext(evs: seq<Event>, ev: Event, index: int)
    ensures JsonFor(evs + [ev], index) == JsonFor(evs, index) + JsonInFor(ev, index)
  {
    assert (evs + [ev])[..|evs|] == evs;
  }

  lemma {:induction false} PrintedNext(evs: seq<Event>, ev: Event)
    ensures AbsorbAll(evs + [ev]).text == AbsorbAll(evs).text + TextIn(ev)
  {
    assert (evs + [ev])[..|evs|] == evs;
  }

  /** The text for a block is put together in order of arrival. */
  lemma {:induction false} TextJoin(evs: seq<Event>, more: seq<Event>, index: int)
    ensures TextFor(evs + more, index) == TextFor(evs, index) + TextFor(more, index)
  {
    if more == [] {
      assert evs + more == evs;
    } else {
      var front, last := more[..|more| - 1], more[|more| - 1];
      TextJoin(evs, front, index);
      TextNext(evs + front, last, index);
      TextNext(front, last, index);
      assert more == front + [last] && evs + more == (evs + front) + [last];
      Assoc(TextFor(evs, index), TextFor(front, index), TextInFor(last, index));
    }
  }

  /** And so are the arguments. */
  lemma {:induction false} JsonJoin(evs: seq<Event>, more: seq<Event>, index: int)
    ensures JsonFor(evs + more, index) == JsonFor(evs, index) + JsonFor(more, index)
  {
    if more == [] {
      assert evs + more == evs;
    } else {
      var front, last := more[..|more| - 1], more[|more| - 1];
      JsonJoin(evs, front, index);
      JsonNext(evs + front, last, index);
      JsonNext(front, last, index);
      assert more == front + [last] && evs + more == (evs + front) + [last];
      Assoc(JsonFor(evs, index), JsonFor(front, index), JsonInFor(last, index));
    }
  }

  // ---- Well-formed streams ----

  predicate StartedAt(starts: seq<Started>, index: int) {
    exists j | 0 <= j < |starts| :: starts[j].index == index
  }

  predicate TextStartedAt(starts: seq<Started>, index: int) {
    exists j | 0 <= j < |starts| :: starts[j].index == index && starts[j].block.kind == TextKind
  }

  /** Every index is started once, and before its tool arguments. Arguments may interleave in any way. */
  predicate StartedOnce(evs: seq<Event>) {
    if evs == [] then true
    else
      var front, starts := evs[..|evs| - 1], Starts(evs[..|evs| - 1]);
      && StartedOnce(front)
      && match evs[|evs| - 1]
         case BlockStart(i, Some(_)) => !StartedAt(starts, i)
         case BlockDelta(i, Some(JsonDelta(_))) => StartedAt(starts, i)
         case _ => true
  }

  /** Text goes to text blocks, once they are started. */
  predicate TextPlaced(evs: seq<Event>) {
    if evs == [] then true
    else
      var front, ev := evs[..|evs| - 1], evs[|evs| - 1];
      TextPlaced(front) && (IsText(ev) ==> TextStartedAt(Starts(front), ev.index))
  }

  predicate StartedBefore(starts: seq<Started>, i: int, j: int) {
    exists p, q | 0 <= p < q < |starts| :: starts[p].index == i && starts[q].index == j
  }

  /** The text at position b goes to a block started before the one that got text at position a. */
  predicate Overtakes(evs: seq<Event>, a: nat, b: nat)
    requires a < |evs| && b < |evs|
  {
    IsText(evs[a]) && IsText(evs[b]) && StartedBefore(Starts(evs), evs[b].index, evs[a].index)
  }

  /** No text for an earlier-started block follows text for a later-started one. */
  ghost predicate TextInOrder(evs: seq<Event>) {
    forall a, b | 0 <= a < b < |evs| :: !Overtakes(evs, a, b)
  }

  ghost predicate DistinctStarts(starts: seq<Started>) {
    forall i, j | 0 <= i < j < |starts| :: starts[i].index != starts[j].index
  }

  lemma StartedStays(starts: seq<Started>, more: seq<Started>, index: int)
    requires starts <= more
    ensures StartedAt(starts, index) ==> StartedAt(more, index)
    ensures TextStartedAt(starts, index) ==> TextStartedAt(more, index)
  {
    if j :| 0 <= j < |starts| && starts[j].index == index && starts[j].block.kind == TextKind {
      assert more[j] == starts[j];
    }
    if j :| 0 <= j < |starts| && starts[j].index == index {
      assert more[j] == starts[j];
    }
  }

  lemma {:induction false} StartedOnceFacts(evs: seq<Event>, index: int)
    requires StartedOnce(evs)
    ensures DistinctStarts(Starts(evs))
    ensures !StartedAt(Starts(evs), index) ==> JsonFor(evs, index) == ""
  {
    if evs == [] {
    } else {
      var front := evs[..|evs| - 1];
      StartedOnceFacts(front, index);
      StartedStays(Starts(front), Starts(evs), index);
    }
  }

  /** Where there is text for a block, a text delta brought it. */
  lemma {:induction false} TextHasSource(evs: seq<Event>, index: int)
    ensures TextFor(evs, index) != "" ==> exists a | 0 <= a < |evs| :: IsText(evs[a]) && evs[a].index == index
  {
    if evs == [] {
    } else {
      var front, ev := evs[..|evs| - 1], evs[|evs| - 1];
      TextHasSource(front, index);
      if a :| 0 <= a < |front| && IsText(front[a]) && front[a].index == index {
        assert IsText(evs[a]) && evs[a].index == index;
      } else if TextFor(evs, index) != "" {
        assert IsText(evs[|evs| - 1]) && evs[|evs| - 1].index == index;
      }
    }
  }

  lemma {:induction false} TextPlacedFacts(evs: seq<Event>, a: nat)
    requires TextPlaced(evs) && a < |evs| && IsText(evs[a])
    ensures TextStartedAt(Starts(evs), evs[a].index)
  {
    var front := evs[..|evs| - 1];
    if a == |front| {
    } else {
      TextPlacedFacts(front, a);
    }
    StartedStays(Starts(front), Starts(evs), evs[a].index);
  }

  lemma {:induction false} UnstartedHasNoText(evs: seq<Event>, index: int)
    requires TextPlaced(evs) && !StartedAt(Starts(evs), index)
    ensures TextFor(evs, index) == ""
  {
    TextHasSource(evs, index);
    if TextFor(evs, index) != "" {
      var a :| 0 <= a < |evs| && IsText(evs[a]) && evs[a].index == index;
      TextPlacedFacts(evs, a);
    }
  }

  lemma TextInOrderFront(evs: seq<Event>)
    requires evs != [] && TextInOrder(evs)
    ensures TextInOrder(evs[..|evs| - 1])
  {
    var front := evs[..|evs| - 1];
    forall a, b | 0 <= a < b < |front|
      ensures !Overtakes(front, a, b)
    {
      if Overtakes(front, a, b) {
        var starts := Starts(front);
        var p, q :| 0 <= p < q < |starts| && starts[p].index == front[b].index && starts[q].index == front[a].index;
        assert starts <= Starts(evs);
        assert Starts(evs)[p] == starts[p] && Starts(evs)[q] == starts[q];
        assert Overtakes(evs, a, b);
      }
    }
  }

  // ---- Tool calls ----

  function ToolStarts(starts: seq<Started>): seq<Started> {
    if starts == [] then []
    else
      var last := starts[|starts| - 1];
      ToolStarts(starts[..|starts| - 1]) + if last.block.kind == ToolKind then [last] else []
  }

  lemma {:induction false} ToolStartsMember(starts: seq<Started>, s: Started)
    ensures s in ToolStarts(starts) <==> s in starts && s.block.kind == ToolKind
  {
    if starts == [] {
    } else {
      ToolStartsMember(starts[..|starts| - 1], s);
      assert starts == starts[..|starts| - 1] + [starts[|starts| - 1]];
    }
  }

  /** The accumulators hold the started tool blocks in order, each with exactly its own JSON. */
  ghost predicate Tracks(acc: Acc, evs: seq<Event>) {
    var tools := ToolStarts(Starts(evs));
    && |acc.order| == |tools|
    && (forall j | 0 <= j < |tools| ::
          && acc.order[j] == tools[j].index
          && tools[j].index in acc.calls
          && acc.calls[tools[j].index] == Partial(tools[j].block.id, tools[j].block.name, JsonFor(evs, tools[j].index)))
  }

  ghost predicate OnlyTools(acc: Acc, starts: seq<Started>) {
    forall i | i in acc.calls :: exists s | s in starts :: s.index == i && s.block.kind == ToolKind
  }

  lemma {:induction false} ToolStartsSnoc(starts: seq<Started>, s: Started)
    ensures ToolStarts(starts + [s]) == ToolStarts(starts) + if s.block.kind == ToolKind then [s] else []
  {
  }

  lemma {:induction false} ToolIndexApart(starts: seq<Started>, i: int)
    requires !StartedAt(starts, i)
    ensures forall j | 0 <= j < |ToolStarts(starts)| :: ToolStarts(starts)[j].index != i
  {
    forall j | 0 <= j < |ToolStarts(starts)|
      ensures ToolStarts(starts)[j].index != i
    {
      ToolStartsMember(starts, ToolStarts(starts)[j]);
    }
  }

  lemma {:induction false} StartTracked(front: seq<Event>, i: int, b: StartBlock, acc: Acc)
    requires StartedOnce(front) && !StartedAt(Starts(front), i)
    requires Tracks(acc, front)
    ensures Tracks(Absorb(acc, BlockStart(i, Some(b))), front + [BlockStart(i, Some(b))])
  {
    var starts := Starts(front);
    StartSnoc(front, i, b);
    StartedOnceFacts(front, i);
    ToolIndexApart(starts, i);
    ToolStartsSnoc(starts, Started(i, b));
  }

  /** A delta goes to the accumulator of its own index, if there is one. */
  lemma DeltaAbsorbed(acc: Acc, ev: Event, i: int)
    requires (!ev.BlockStart? || ev.block.None?) && i in acc.calls
    ensures var next := Absorb(acc, ev);
            && next.order == acc.order && next.calls.Keys == acc.calls.Keys
            && next.calls[i] == acc.calls[i].(args := acc.calls[i].args + JsonInFor(ev, i))
  {
  }

  lemma {:induction false} DeltaTracked(front: seq<Event>, ev: Event, acc: Acc)
    requires !ev.BlockStart? || ev.block.None?
    requires Tracks(acc, front) && OnlyTools(acc, Starts(front))
    ensures Tracks(Absorb(acc, ev), front + [ev]) && OnlyTools(Absorb(acc, ev), Starts(front + [ev]))
  {
    DeltaSnoc(front, ev);
    var tools := ToolStarts(Starts(front));
    forall j | 0 <= j < |tools|
      ensures Absorb(acc, ev).calls[tools[j].index] == Partial(tools[j].block.id, tools[j].block.name, JsonFor(front + [ev], tools[j].index))
    {
      DeltaAbsorbed(acc, ev, tools[j].index);
    }
    assert Absorb(acc, ev).order == acc.order && Absorb(acc, ev).calls.Keys == acc.calls.Keys;
  }

  lemma {:induction false} ToolsTracked(evs: seq<Event>)
    requires StartedOnce(evs)
    ensures Tracks(AbsorbAll(evs), evs)
    ensures OnlyTools(AbsorbAll(evs), Starts(evs))
  {
    if evs == [] {
    } else {
      var front, ev := evs[..|evs| - 1], evs[|evs| - 1];
      assert evs == front + [ev];
      ToolsTracked(front);
      if ev.BlockStart? && ev.block.Some? {
        StartTracked(front, ev.index, ev.block.value, AbsorbAll(front));
        StartSnoc(front, ev.index, ev.block.value);
        assert Started(ev.index, ev.block.value) in Starts(evs);
        assert forall s | s in Starts(front) :: s in Starts(evs);
      } else {
        DeltaTracked(front, ev, AbsorbAll(front));
      }
    }
  }

  /**
    The reply calls the started tools in order, each with what its own JSON parses to, and with
    no arguments where there is none or it does not parse.
   */
  lemma {:induction false} StreamedCalls(parse: string -> Option<Fields>, evs: seq<Event>, j: nat)
    requires StartedOnce(evs) && j < |ToolStarts(Starts(evs))|
    ensures |Finish(parse, evs).toolCalls| == |ToolStarts(Starts(evs))|
    ensures var tool, call := ToolStarts(Starts(evs))[j], Finish(parse, evs).toolCalls[j];
            var json := JsonFor(evs, tool.index);
            && call.id == tool.block.id && call.toolName == tool.block.name
            && call.arguments == Some(if json != "" && parse(json).Some? then parse(json).value else map[])
  {
    ToolsTracked(evs);
  }

  // ---- Text ----

  function TextOfStarts(evs: seq<Event>, starts: seq<Started>): string {
    if starts == [] then ""
    else
      var last := starts[|starts| - 1];
      TextOfStarts(evs, starts[..|starts| - 1]) + if last.block.kind == TextKind then TextFor(evs, last.index) else ""
  }

  lemma {:induction false} TextUnaffected(evs: seq<Event>, more: seq<Event>, starts: seq<Started>)
    requires forall j | 0 <= j < |starts| && starts[j].block.kind == TextKind :: TextFor(evs, starts[j].index) == TextFor(more, starts[j].index)
    ensures TextOfStarts(evs, starts) == TextOfStarts(more, starts)
  {
    if starts == [] {
    } else {
      TextUnaffected(evs, more, starts[..|starts| - 1]);
    }
  }

  lemma {:induction false} TextOfStartsSnoc(evs: seq<Event>, starts: seq<Started>, s: Started)
    ensures TextOfStarts(evs, starts + [s]) == TextOfStarts(evs, starts) + if s.block.kind == TextKind then TextFor(evs, s.index) else ""
  {
  }

  /** Text for a block after which no block has text yet goes to the end of everything printed so far. */
  lemma {:induction false} TextAppends(evs: seq<Event>, ev: Event, starts: seq<Started>, p: nat)
    requires DistinctStarts(starts) && p < |starts| && starts[p].block.kind == TextKind
    requires IsText(ev) && ev.index == starts[p].index
    requires forall q | p < q < |starts| :: TextFor(evs, starts[q].index) == ""
    ensures TextOfStarts(evs + [ev], starts) == TextOfStarts(evs, starts) + TextIn(ev)
  {
    var front, last := starts[..|starts| - 1], starts[|starts| - 1];
    assert starts == front + [last];
    TextNext(evs, ev, last.index);
    TextOfStartsSnoc(evs, front, last);
    TextOfStartsSnoc(evs + [ev], front, last);
    if p == |front| {
      forall j | 0 <= j < |front|
        ensures TextFor(evs, front[j].index) == TextFor(evs + [ev], front[j].index)
      {
        TextNext(evs, ev, front[j].index);
      }
      TextUnaffected(evs, evs + [ev], front);
      Assoc(TextOfStarts(evs, front), TextFor(evs, last.index), TextIn(ev));
    } else {
      TextAppends(evs, ev, front, p);
      assert TextFor(evs, last.index) == "" && TextFor(evs + [ev], last.index) == "";
    }
  }

  lemma {:induction false} TextTrackedStart(front: seq<Event>, i: int, b: StartBlock)
    requires TextFor(front, i) == "" && AbsorbAll(front).text == TextOfStarts(front, Starts(front))
    ensures var evs := front + [BlockStart(i, Some(b))];
            AbsorbAll(evs).text == TextOfStarts(evs, Starts(evs))
  {
    var evs := front + [BlockStart(i, Some(b))];
    StartSnoc(front, i, b);
    TextOfStartsSnoc(evs, Starts(front), Started(i, b));
    TextUnaffected(front, evs, Starts(front));
  }

  /** Nothing started after the block that now gets text has any yet. */
  lemma {:induction false} LaterBlocksSilent(front: seq<Event>, ev: Event, p: nat, q: nat)
    requires IsText(ev) && TextInOrder(front + [ev])
    requires p < q < |Starts(front)| && Starts(front)[p].index == ev.index
    ensures TextFor(front, Starts(front)[q].index) == ""
  {
    var evs, later := front + [ev], Starts(front)[q].index;
    assert evs[..|front|] == front && Starts(evs) == Starts(front);
    TextHasSource(front, later);
    if TextFor(front, later) != "" {
      var a :| 0 <= a < |front| && IsText(front[a]) && front[a].index == later;
      assert evs[a] == front[a] && evs[|front|] == ev;
      assert StartedBefore(Starts(evs), ev.index, later);
      assert Overtakes(evs, a, |front|);
    }
  }

  lemma {:induction false} TextTrackedDelta(front: seq<Event>, ev: Event)
    requires DistinctStarts(Starts(front)) && (!ev.BlockStart? || ev.block.None?)
    requires IsText(ev) ==> TextStartedAt(Starts(front), ev.index) && TextInOrder(front + [ev])
    requires AbsorbAll(front).text == TextOfStarts(front, Starts(front))
    ensures AbsorbAll(front + [ev]).text == TextOfStarts(front + [ev], Starts(front + [ev]))
  {
    var starts := Starts(front);
    TextStep(front, ev);
    DeltaSnoc(front, ev);
    if IsText(ev) {
      var p :| 0 <= p < |starts| && starts[p].index == ev.index && starts[p].block.kind == TextKind;
      forall q | p < q < |starts|
        ensures TextFor(front, starts[q].index) == ""
      {
        LaterBlocksSilent(front, ev, p, q);
      }
      TextAppends(front, ev, starts, p);
    } else {
      TextUnaffected(front, front + [ev], starts);
    }
  }

  /** What has been printed is the text of the started text blocks in start order. */
  lemma {:induction false} TextTracked(evs: seq<Event>)
    requires StartedOnce(evs) && TextPlaced(evs) && TextInOrder(evs)
    ensures AbsorbAll(evs).text == TextOfStarts(evs, Starts(evs))
  {
    if evs == [] {
    } else {
      var front, ev := evs[..|evs| - 1], evs[|evs| - 1];
      assert evs == front + [ev];
      TextInOrderFront(evs);
      TextTracked(front);
      if ev.BlockStart? && ev.block.Some? {
        UnstartedHasNoText(front, ev.index);
        TextTrackedStart(front, ev.index, ev.block.value);
      } else {
        StartedOnceFacts(front, 0);
        TextTrackedDelta(front, ev);
      }
    }
  }

  // ---- The refinement ----

  lemma {:induction false} AssembledText(parse: string -> Option<Fields>, evs: seq<Event>, starts: seq<Started>)
    ensures TextOf(AssembledBlocks(parse, evs, starts)) == TextOfStarts(evs, starts)
  {
    if starts == [] {
    } else {
      var n := |starts| - 1;
      AssembledText(parse, evs, starts[..n]);
      assert AssembledBlocks(parse, evs, starts)[..n] == AssembledBlocks(parse, evs, starts[..n]);
    }
  }

  function CallFor(parse: string -> Option<Fields>, evs: seq<Event>, s: Started): ToolCall {
    ToolCall(s.block.id, s.block.name, Some(OrEmpty(ParsedArgs(parse, JsonFor(evs, s.index)))))
  }

  lemma {:induction false} AssembledCalls(parse: string -> Option<Fields>, evs: seq<Event>, starts: seq<Started>)
    ensures var tools := ToolStarts(starts);
            CallsOf(AssembledBlocks(parse, evs, starts)) == seq(|tools|, j requires 0 <= j < |tools| => CallFor(parse, evs, tools[j]))
  {
    if starts == [] {
    } else {
      var n := |starts| - 1;
      AssembledCalls(parse, evs, starts[..n]);
      assert AssembledBlocks(parse, evs, starts)[..n] == AssembledBlocks(parse, evs, starts[..n]);
    }
  }

  /** Streaming gives what the non-streaming decoder gives for the assembled blocks. */
  lemma {:induction false} StreamRefinesDecoder(parse: string -> Option<Fields>, evs: seq<Event>)
    requires StartedOnce(evs) && TextPlaced(evs) && TextInOrder(evs)
    ensures Finish(parse, evs) == FromResponse(AssembledBlocks(parse, evs, Starts(evs)))
  {
    ToolsTracked(evs);
    TextTracked(evs);
    AssembledText(parse, evs, Starts(evs));
    AssembledCalls(parse, evs, Starts(evs));
  }

  /** Two streams that deliver the same blocks give the same message, however they are cut up and interleaved. */
  lemma {:induction false} ChunkingIrrelevant(parse: string -> Option<Fields>, evs: seq<Event>, more: seq<Event>)
    requires StartedOnce(evs) && TextPlaced(evs) && TextInOrder(evs)
    requires StartedOnce(more) && TextPlaced(more) && TextInOrder(more)
    requires AssembledBlocks(parse, evs, Starts(evs)) == AssembledBlocks(parse, more, Starts(more))
    ensures Finish(parse, evs) == Finish(parse, more)
  {
    StreamRefinesDecoder(parse, evs);
    StreamRefinesDecoder(parse, more);
  }

  // ---- Exactly which streams are decoded alike ----

  /** The same event but for the text it carries. */
  predicate SameButText(ev: Event, other: Event) {
    ev == other || (IsText(ev) && IsText(other) && ev.index == other.index)
  }

  /** The same events but for how the text is cut up and what it says. */
  ghost predicate SameShape(evs: seq<Event>, more: seq<Event>) {
    |evs| == |more| && forall k | 0 <= k < |evs| :: SameButText(evs[k], more[k])
  }

  lemma {:induction false} SameStarts(evs: seq<Event>, more: seq<Event>)
    requires SameShape(evs, more)
    ensures Starts(evs) == Starts(more)
  {
    if evs == [] {
    } else {
      var n := |evs| - 1;
      SameStarts(evs[..n], more[..n]);
      assert SameButText(evs[n], more[n]);
    }
  }

  lemma {:induction false} SameStartedOnce(evs: seq<Event>, more: seq<Event>)
    requires SameShape(evs, more) && StartedOnce(evs) && TextPlaced(evs)
    ensures StartedOnce(more) && TextPlaced(more)
  {
    if evs == [] {
    } else {
      var n := |evs| - 1;
      SameStartedOnce(evs[..n], more[..n]);
      SameStarts(evs[..n], more[..n]);
      assert SameButText(evs[n], more[n]);
    }
  }

  lemma SameOrder(evs: seq<Event>, more: seq<Event>)
    requires SameShape(evs, more) && TextInOrder(evs)
    ensures TextInOrder(more)
  {
    SameStarts(evs, more);
    forall a, b | 0 <= a < b < |more|
      ensures !Overtakes(more, a, b)
    {
      assert SameButText(evs[a], more[a]) && SameButText(evs[b], more[b]);
      assert !Overtakes(evs, a, b);
    }
  }

  function OnlyAt(k: nat, a: nat, b: nat): string {
    if k == a then "x" else if k == b then "y" else ""
  }

  /** The stream with all its text taken out but an "x" at a and a "y" at b. */
  function Muted(evs: seq<Event>, a: nat, b: nat): seq<Event> {
    seq(|evs|, k requires 0 <= k < |evs| => if IsText(evs[k]) then BlockDelta(evs[k].index, Some(TextDelta(OnlyAt(k, a, b)))) else evs[k])
  }

  function Before(k: nat, n: nat, text: string): string {
    if k < n then text else ""
  }

  lemma {:induction false} LonePrinted(evs: seq<Event>, a: nat, b: nat, n: nat)
    requires a < b && n <= |evs| && forall k | 0 <= k < |evs| :: TextIn(evs[k]) == OnlyAt(k, a, b)
    ensures AbsorbAll(evs[..n]).text == Before(a, n, "x") + Before(b, n, "y")
  {
    if n == 0 {
    } else {
      LonePrinted(evs, a, b, n - 1);
      assert evs[..n] == evs[..n - 1] + [evs[n - 1]];
      PrintedNext(evs[..n - 1], evs[n - 1]);
      assert TextIn(evs[n - 1]) == OnlyAt(n - 1, a, b);
      if n - 1 == a {
        assert Before(b, n, "y") == "" && Before(a, n - 1, "x") == "";
      } else if n - 1 != b {
        assert TextIn(evs[n - 1]) == "";
      }
    }
  }

  lemma {:induction false} LoneFor(evs: seq<Event>, k: nat, text: string, n: nat, index: int)
    requires k < |evs| && n <= |evs|
    requires forall j | 0 <= j < |evs| :: TextInFor(evs[j], index) == if j == k then text else ""
    ensures TextFor(evs[..n], index) == Before(k, n, text)
  {
    if n == 0 {
    } else {
      LoneFor(evs, k, text, n - 1, index);
      assert evs[..n] == evs[..n - 1] + [evs[n - 1]];
      TextNext(evs[..n - 1], evs[n - 1], index);
    }
  }

  /** What the muted stream says, as printed and block by block. */
  lemma {:induction false} MutedText(evs: seq<Event>, a: nat, b: nat, index: int)
    requires a < b < |evs| && IsText(evs[a]) && IsText(evs[b]) && evs[a].index != evs[b].index
    ensures AbsorbAll(Muted(evs, a, b)).text == "xy"
    ensures TextFor(Muted(evs, a, b), index) == if index == evs[a].index then "x" else if index == evs[b].index then "y" else ""
  {
    var muted := Muted(evs, a, b);
    assert muted[..|evs|] == muted;
    LonePrinted(muted, a, b, |evs|);
    if index == evs[a].index {
      LoneFor(muted, a, "x", |evs|, index);
    } else if index == evs[b].index {
      LoneFor(muted, b, "y", |evs|, index);
    } else {
      LoneFor(muted, a, "", |evs|, index);
    }
  }

  /** Blocks joined in start order, when only those at p and q have text. */
  lemma {:induction false} JoinedInOrder(evs: seq<Event>, starts: seq<Started>, p: nat, q: nat)
    requires p < q
    requires forall j | 0 <= j < |starts| ::
               (if starts[j].block.kind == TextKind then TextFor(evs, starts[j].index) else "") == if j == p then "y" else if j == q then "x" else ""
    ensures TextOfStarts(evs, starts) == Before(p, |starts|, "y") + Before(q, |starts|, "x")
  {
    if starts == [] {
    } else {
      JoinedInOrder(evs, starts[..|starts| - 1], p, q);
    }
  }

  lemma {:induction false} MutedJoined(evs: seq<Event>, a: nat, b: nat, starts: seq<Started>, p: nat, q: nat)
    requires a < b < |evs| && IsText(evs[a]) && IsText(evs[b])
    requires DistinctStarts(starts) && p < q < |starts|
    requires starts[p].index == evs[b].index && starts[p].block.kind == TextKind
    requires starts[q].index == evs[a].index && starts[q].block.kind == TextKind
    ensures TextOfStarts(Muted(evs, a, b), starts) == "yx"
  {
    forall j | 0 <= j < |starts|
      ensures (if starts[j].block.kind == TextKind then TextFor(Muted(evs, a, b), starts[j].index) else "")
           == if j == p then "y" else if j == q then "x" else ""
    {
      MutedText(evs, a, b, starts[j].index);
      assert j != p ==> starts[j].index != starts[p].index;
      assert j != q ==> starts[j].index != starts[q].index;
    }
    JoinedInOrder(Muted(evs, a, b), starts, p, q);
  }

  lemma {:induction false} TextBlockAt(evs: seq<Event>, a: nat, j: nat)
    requires StartedOnce(evs) && TextPlaced(evs)
    requires a < |evs| && IsText(evs[a]) && j < |Starts(evs)| && Starts(evs)[j].index == evs[a].index
    ensures Starts(evs)[j].block.kind == TextKind
  {
    StartedOnceFacts(evs, 0);
    TextPlacedFacts(evs, a);
  }

  /** The decoder puts the earlier-started block first. */
  lemma {:induction false} MutedDecoded(evs: seq<Event>, a: nat, b: nat)
    requires StartedOnce(evs) && TextPlaced(evs)
    requires a < b < |evs| && Overtakes(evs, a, b)
    ensures evs[a].index != evs[b].index && TextOfStarts(Muted(evs, a, b), Starts(evs)) == "yx"
  {
    var starts := Starts(evs);
    var p, q :| 0 <= p < q < |starts| && starts[p].index == evs[b].index && starts[q].index == evs[a].index;
    StartedOnceFacts(evs, 0);
    TextBlockAt(evs, b, p);
    TextBlockAt(evs, a, q);
    MutedJoined(evs, a, b, starts, p, q);
  }

  lemma {:induction false} MutedShape(evs: seq<Event>, a: nat, b: nat)
    ensures SameShape(evs, Muted(evs, a, b)) && Starts(Muted(evs, a, b)) == Starts(evs)
  {
    SameStarts(evs, Muted(evs, a, b));
  }

  /** Text that overtakes can be chosen so that streaming and decoding disagree. */
  lemma {:induction false} OvertakingDiffers(parse: string -> Option<Fields>, evs: seq<Event>, a: nat, b: nat)
    requires StartedOnce(evs) && TextPlaced(evs)
    requires a < b < |evs| && Overtakes(evs, a, b)
    ensures SameShape(evs, Muted(evs, a, b))
    ensures Finish(parse, Muted(evs, a, b)).content == "xy"
    ensures FromResponse(AssembledBlocks(parse, Muted(evs, a, b), Starts(Muted(evs, a, b)))).content == "yx"
  {
    MutedDecoded(evs, a, b);
    MutedText(evs, a, b, 0);
    MutedShape(evs, a, b);
    AssembledText(parse, Muted(evs, a, b), Starts(evs));
  }

  /**
    For a stream whose blocks are started once, before their deltas, and whose text goes
    to text blocks: streaming agrees with the decoder whatever the text says exactly when no
    text for an earlier-started block follows text for a later-started one.
   */
  lemma {:induction false} StreamRefinesDecoderIff(parse: string -> Option<Fields>, evs: seq<Event>)
    requires StartedOnce(evs) && TextPlaced(evs)
    ensures (forall more | SameShape(evs, more) :: Finish(parse, more) == FromResponse(AssembledBlocks(parse, more, Starts(more))))
       <==> TextInOrder(evs)
  {
    if TextInOrder(evs) {
      forall more | SameShape(evs, more)
        ensures Finish(parse, more) == FromResponse(AssembledBlocks(parse, more, Starts(more)))
      {
        SameStartedOnce(evs, more);
        SameOrder(evs, more);
        StreamRefinesDecoder(parse, more);
      }
    } else {
      var a, b :| 0 <= a < b < |evs| && Overtakes(evs, a, b);
      OvertakingDiffers(parse, evs, a, b);
    }
  }

  lemma TwoTextBlocks(b: StartBlock) returns (evs: seq<Event>)
    requires b.kind == TextKind
    ensures AbsorbAll(evs).text == "" && Starts(evs) == [Started(0, b), Started(1, b)]
    ensures TextFor(evs, 0) == "" && TextFor(evs, 1) == ""
  {
    StartSnoc([], 0, b);
    StartSnoc([] + [BlockStart(0, Some(b))], 1, b);
    evs := [] + [BlockStart(0, Some(b))] + [BlockStart(1, Some(b))];
  }

  /** A stream on which the two differ: interleaved text blocks are joined in order of arrival. */
  lemma InterleavedTextExample(parse: string -> Option<Fields>) returns (evs: seq<Event>)
    ensures Finish(parse, evs).content == "ba"
    ensures FromResponse(AssembledBlocks(parse, evs, Starts(evs))).content == "ab"
  {
    var b := StartBlock(TextKind, "", "");
    var started := TwoTextBlocks(b);
    var late, early := BlockDelta(1, Some(TextDelta("b"))), BlockDelta(0, Some(TextDelta("a")));
    TextStep(started, late);
    DeltaSnoc(started, late);
    TextStep(started + [late], early);
    DeltaSnoc(started + [late], early);
    evs := started + [late] + [early];
    AssembledText(parse, evs, Starts(evs));
    TextOfStartsSnoc(evs, [], Started(0, b));
    TextOfStartsSnoc(evs, [Started(0, b)], Started(1, b));
    assert Starts(evs) == [Started(0, b)] + [Started(1, b)] && [Started(0, b)] == [] + [Started(0, b)];
  }
}
