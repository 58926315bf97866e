/**
  Reassembling a streamed OpenAI answer. A chunk may carry text and any number of
  fragments of tool calls, each naming the call it belongs to by index, in any order.
 */
module OpenAIStream {
  import opened Text
  import opened LlmTypes

  datatype Fragment = Fragment(index: int, id: string, name: string, args: string)

  /** A parsed chunk; Ignored covers empty data, "[DONE]", unparsable data and chunks without choices. */
  datatype Chunk = Ignored | ErrorChunk(error: string) | DeltaChunk(content: string, fragments: seq<Fragment>)

  datatype Outcome = Reply(message: Message) | Failed(error: string)

  datatype Accum = Accum(id: string, name: string, args: string)

  datatype Acc = Acc(calls: map<int, Accum>, order: seq<int>)

  function FirstSet(have: string, next: string): string {
    if next != "" && have == "" then next else have
  }

  function AddFragment(acc: Acc, f: Fragment): Acc {
    var known := f.index in acc.calls;
    var a := if known then acc.calls[f.index] else Accum("", "", "");
    Acc(
      acc.calls[f.index := Accum(FirstSet(a.id, f.id), FirstSet(a.name, f.name), a.args + f.args)],
      if known then acc.order else acc.order + [f.index])
  }

  function Contents(chunks: seq<Chunk>): string {
    if chunks == [] then ""
    else
      var last := chunks[|chunks| - 1];
      Contents(chunks[..|chunks| - 1]) + if last.DeltaChunk? then last.content else ""
  }

  function Fragments(chunks: seq<Chunk>): seq<Fragment> {
    if chunks == [] then []
    else
      var last := chunks[|chunks| - 1];
      Fragments(chunks[..|chunks| - 1]) + if last.DeltaChunk? then last.fragments else []
  }

  function FirstError(chunks: seq<Chunk>): (n: nat)
    ensures n <= |chunks|
    ensures n < |chunks| ==> chunks[n].ErrorChunk?
    ensures forall j | 0 <= j < n :: !chunks[j].ErrorChunk?
  {
    if chunks == [] || chunks[0].ErrorChunk? then 0 else 1 + FirstError(chunks[1..])
  }

  lemma {:induction false} FirstErrorIs(chunks: seq<Chunk>, n: nat)
    requires n <= |chunks| && (n < |chunks| ==> chunks[n].ErrorChunk?)
    requires forall j | 0 <= j < n :: !chunks[j].ErrorChunk?
    ensures FirstError(chunks) == n
  {
  }

  // ---- What the fragments amount to, call by call ----

  /** The indices in order of first appearance. */
  function Seen(fs: seq<Fragment>): seq<int> {
    if fs == [] then []
    else
      var front, last := Seen(fs[..|fs| - 1]), fs[|fs| - 1].index;
      if last in front then front else front + [last]
  }

  /** Each call is listed once, in the place of its first fragment. */
  lemma {:induction false} SeenOnce(fs: seq<Fragment>)
    ensures forall i, j | 0 <= i < j < |Seen(fs)| :: Seen(fs)[i] != Seen(fs)[j]
    ensures forall f | f in fs :: f.index in Seen(fs)
    ensures forall i | i in Seen(fs) :: exists f :: f in fs && f.index == i
    ensures forall n | 0 <= n <= |fs| :: Seen(fs[..n]) <= Seen(fs)
  {
    if fs == [] {
    } else {
      var front := fs[..|fs| - 1];
      var last := fs[|fs| - 1];
      SeenOnce(front);
      assert fs == front + [last];
      if last.index !in Seen(front) {
        assert Seen(fs)[|Seen(front)|] == last.index;
      }
      assert forall i | i in Seen(front) :: i in Seen(fs);
      forall n | 0 <= n <= |fs|
        ensures Seen(fs[..n]) <= Seen(fs)
      {
        if n < |fs| {
          assert fs[..n] == front[..n];
        } else {
          assert fs[..n] == fs;
        }
      }
      forall i | i in Seen(fs)
        ensures exists f :: f in fs && f.index == i
      {
        if i in Seen(front) {
          var f :| f in front && f.index == i;
          assert f in fs;
        }
      }
    }
  }

  function IdOf(fs: seq<Fragment>, index: int): string {
    if fs == [] then ""
    else
      var have, f := IdOf(fs[..|fs| - 1], index), fs[|fs| - 1];
      if f.index == index then FirstSet(have, f.id) else have
  }

  function NameOf(fs: seq<Fragment>, index: int): string {
    if fs == [] then ""
    else
      var have, f := NameOf(fs[..|fs| - 1], index), fs[|fs| - 1];
      if f.index == index then FirstSet(have, f.name) else have
  }

  function ArgsOf(fs: seq<Fragment>, index: int): string {
    if fs == [] then ""
    else
      var have, f := ArgsOf(fs[..|fs| - 1], index), fs[|fs| - 1];
      if f.index == index then have + f.args else have
  }

  // ---- The non-streaming form of the same answer, and its decoder ----

  datatype WireCall = WireCall(id: string, name: string, arguments: string)

  datatype WireReply = WireReply(content: Option<string>, toolCalls: seq<WireCall>)

  function DecodedCalls(parse: string -> Option<Fields>, calls: seq<WireCall>): seq<ToolCall> {
    seq(|calls|, i requires 0 <= i < |calls| => ToolCall(calls[i].id, calls[i].name, parse(calls[i].arguments)))
  }

  function FromReply(parse: string -> Option<Fields>, m: WireReply): Message {
    Message(Assistant, if m.content.Some? then m.content.value else "", DecodedCalls(parse, m.toolCalls), None)
  }

  method FromOpenAIMessage(parse: string -> Option<Fields>, m: WireReply) returns (msg: Message)
    ensures msg == FromReply(parse, m)
    ensures msg.content == match m.content { case Some(text) => text case None => "" }
  {
    msg := Message(Assistant, "", [], None);
    if m.content.Some? {
      msg := msg.(content := m.content.value);
    }
    for i := 0 to |m.toolCalls|
      invariant msg == FromReply(parse, m).(toolCalls := DecodedCalls(parse, m.toolCalls)[..i])
    {
      var tc := m.toolCalls[i];
      msg := msg.(toolCalls := msg.toolCalls + [ToolCall(tc.id, tc.name, parse(tc.arguments))]);
    }
  }

  function AssembledReply(chunks: seq<Chunk>): WireReply {
    var fs := Fragments(chunks);
    var seen := Seen(fs);
    WireReply(
      Some(Contents(chunks)),
      seq(|seen|, j requires 0 <= j < |seen| => WireCall(IdOf(fs, seen[j]), NameOf(fs, seen[j]), ArgsOf(fs, seen[j]))))
  }

  /** The streaming code gives a call without readable arguments an empty object where the decoder leaves none. */
  function WithArguments(m: Message): Message {
    m.(toolCalls := seq(|m.toolCalls|, i requires 0 <= i < |m.toolCalls| =>
      m.toolCalls[i].(arguments := Some(OrEmpty(m.toolCalls[i].arguments)))))
  }

  /** The first fragment of a call that gives this part of it. */
  ghost predicate FirstGiving(fs: seq<Fragment>, index: int, k: nat, part: Fragment -> string) {
    && k < |fs| && fs[k].index == index && part(fs[k]) != ""
    && forall j | 0 <= j < k && fs[j].index == index :: part(fs[j]) == ""
  }

  function IdPart(): Fragment -> string {
    (f: Fragment) => f.id
  }

  function NamePart(): Fragment -> string {
    (f: Fragment) => f.name
  }

  /** The ID is that of the first fragment of the call that has one, whatever later ones say. */
  lemma {:induction false} FirstIDWins(fs: seq<Fragment>, index: int)
    ensures forall k: nat | FirstGiving(fs, index, k, IdPart()) :: IdOf(fs, index) == fs[k].id
    ensures (forall f | f in fs && f.index == index :: f.id == "") ==> IdOf(fs, index) == ""
  {
    if fs == [] {
    } else {
      var front, last := fs[..|fs| - 1], fs[|fs| - 1];
      assert fs == front + [last];
      FirstIDWins(front, index);
      forall k: nat | FirstGiving(fs, index, k, IdPart())
        ensures IdOf(fs, index) == fs[k].id
      {
        if k < |front| {
          assert FirstGiving(front, index, k, IdPart());
        }
      }
    }
  }

  /** And so is the name. */
  lemma {:induction false} FirstNameWins(fs: seq<Fragment>, index: int)
    ensures forall k: nat | FirstGiving(fs, index, k, NamePart()) :: NameOf(fs, index) == fs[k].name
    ensures (forall f | f in fs && f.index == index :: f.name == "") ==> NameOf(fs, index) == ""
  {
    if fs == [] {
    } else {
      var front, last := fs[..|fs| - 1], fs[|fs| - 1];
      assert fs == front + [last];
      FirstNameWins(front, index);
      forall k: nat | FirstGiving(fs, index, k, NamePart())
        ensures NameOf(fs, index) == fs[k].name
      {
        if k < |front| {
          assert FirstGiving(front, index, k, NamePart());
        }
      }
    }
  }

  /** A chunk brings its text and its fragments, a fragment its arguments to its own call. */
  lemma {:induction false} OneChunk(content: string, fragments: seq<Fragment>, f: Fragment, index: int)
    ensures Contents([DeltaChunk(content, fragments)]) == content
    ensures Fragments([DeltaChunk(content, fragments)]) == fragments
    ensures ArgsOf([f], index) == if f.index == index then f.args else ""
  {
    assert [DeltaChunk(content, fragments)][..0] == [] && [f][..0] == [];
  }

  /** Text, fragments and arguments are put together in order of arrival. */
  lemma {:induction false} ContentsJoin(chunks: seq<Chunk>, more: seq<Chunk>)
    ensures Contents(chunks + more) == Contents(chunks) + Contents(more)
  {
    if more == [] {
      assert chunks + more == chunks;
    } else {
      var n := |more| - 1;
      ContentsJoin(chunks, more[..n]);
      assert (chunks + more)[..|chunks + more| - 1] == chunks + more[..n];
    }
  }

  lemma {:induction false} FragmentsJoin(chunks: seq<Chunk>, more: seq<Chunk>)
    ensures Fragments(chunks + more) == Fragments(chunks) + Fragments(more)
  {
    if more == [] {
      assert chunks + more == chunks;
    } else {
      var n := |more| - 1;
      FragmentsJoin(chunks, more[..n]);
      assert (chunks + more)[..|chunks + more| - 1] == chunks + more[..n];
    }
  }

  lemma {:induction false} ArgumentsJoin(fs: seq<Fragment>, more: seq<Fragment>, index: int)
    ensures ArgsOf(fs + more, index) == ArgsOf(fs, index) + ArgsOf(more, index)
  {
    if more == [] {
      assert fs + more == fs;
    } else {
      var n := |more| - 1;
      ArgumentsJoin(fs, more[..n], index);
      assert (fs + more)[..|fs + more| - 1] == fs + more[..n];
    }
  }

  /**
    What the streamed reply says: all the text that came, and the calls in order of first
    appearance, each with the first ID and name given for it and the object its joined arguments
    parse to.
   */
  lemma {:induction false} StreamedReply(parse: string -> Option<Fields>, chunks: seq<Chunk>, j: nat)
    requires j < |Seen(Fragments(chunks))|
    ensures var m, fs := WithArguments(FromReply(parse, AssembledReply(chunks))), Fragments(chunks);
            var index := Seen(fs)[j];
            && m.role == Assistant && m.content == Contents(chunks) && m.toolResult == None
            && |m.toolCalls| == |Seen(fs)|
            && (forall k: nat | FirstGiving(fs, index, k, IdPart()) :: m.toolCalls[j].id == fs[k].id)
            && (forall k: nat | FirstGiving(fs, index, k, NamePart()) :: m.toolCalls[j].toolName == fs[k].name)
            && m.toolCalls[j].arguments == Some(if parse(ArgsOf(fs, index)).Some? then parse(ArgsOf(fs, index)).value else map[])
  {
    FirstIDWins(Fragments(chunks), Seen(Fragments(chunks))[j]);
    FirstNameWins(Fragments(chunks), Seen(Fragments(chunks))[j]);
  }

  // ---- The streaming loop ----

  ghost predicate Holds(calls: map<int, Accum>, order: seq<int>, fs: seq<Fragment>) {
    && order == Seen(fs)
    && calls.Keys == (set i | i in Seen(fs))
    && forall i | i in calls :: calls[i] == Accum(IdOf(fs, i), NameOf(fs, i), ArgsOf(fs, i))
  }

  lemma {:induction false} UnseenIsBlank(fs: seq<Fragment>, index: int)
    requires index !in Seen(fs)
    ensures IdOf(fs, index) == "" && NameOf(fs, index) == "" && ArgsOf(fs, index) == ""
  {
    if fs == [] {
    } else {
      var front := fs[..|fs| - 1];
      var last := fs[|fs| - 1].index;
      if last !in Seen(front) {
        assert Seen(fs)[|Seen(front)|] == last;
      }
      assert last in Seen(fs);
      assert forall i | i in Seen(front) :: i in Seen(fs);
      UnseenIsBlank(front, index);
    }
  }

  lemma HoldsNext(calls: map<int, Accum>, order: seq<int>, fs: seq<Fragment>, f: Fragment)
    requires Holds(calls, order, fs)
    ensures var next := AddFragment(Acc(calls, order), f);
            Holds(next.calls, next.order, fs + [f])
  {
    var more := fs + [f];
    assert more[..|fs|] == fs;
    if f.index !in Seen(fs) {
      UnseenIsBlank(fs, f.index);
      assert Seen(more) == Seen(fs) + [f.index];
    }
    var next := AddFragment(Acc(calls, order), f);
    forall i | i in next.calls
      ensures next.calls[i] == Accum(IdOf(more, i), NameOf(more, i), ArgsOf(more, i))
    {
    }
  }

  lemma HoldsAt(calls: map<int, Accum>, order: seq<int>, before: seq<Fragment>, fragments: seq<Fragment>, i: nat)
    requires i < |fragments| && Holds(calls, order, before + fragments[..i])
    ensures var next := AddFragment(Acc(calls, order), fragments[i]);
            Holds(next.calls, next.order, before + fragments[..i + 1])
  {
    HoldsNext(calls, order, before + fragments[..i], fragments[i]);
    assert before + fragments[..i + 1] == before + fragments[..i] + [fragments[i]];
  }

  /** The body of the inner loop. */
  method AbsorbFragment(calls0: map<int, Accum>, order0: seq<int>, tc: Fragment) returns (calls: map<int, Accum>, order: seq<int>)
    ensures Acc(calls, order) == AddFragment(Acc(calls0, order0), tc)
  {
    calls, order := calls0, order0;
    if tc.index !in calls {
      calls := calls[tc.index := Accum("", "", "")];
      order := order + [tc.index];
    }
    var ta := calls[tc.index];
    if tc.id != "" && ta.id == "" {
      ta := ta.(id := tc.id);
    }
    if tc.name != "" && ta.name == "" {
      ta := ta.(name := tc.name);
    }
    calls := calls[tc.index := ta.(args := ta.args + tc.args)];
  }

  /** The inner loop over the fragments of one chunk. */
  method AbsorbFragments(calls0: map<int, Accum>, order0: seq<int>, fragments: seq<Fragment>, ghost before: seq<Fragment>)
    returns (calls: map<int, Accum>, order: seq<int>)
    requires Holds(calls0, order0, before)
    ensures Holds(calls, order, before + fragments)
  {
    calls, order := calls0, order0;
    assert before + fragments[..0] == before;
    for i := 0 to |fragments|
      invariant Holds(calls, order, before + fragments[..i])
    {
      HoldsAt(calls, order, before, fragments, i);
      calls, order := AbsorbFragment(calls, order, fragments[i]);
    }
    assert fragments[..|fragments|] == fragments;
  }

  method FinishInOrder(parse: string -> Option<Fields>, calls: map<int, Accum>, order: seq<int>) returns (toolCalls: seq<ToolCall>)
    requires forall j | 0 <= j < |order| :: order[j] in calls
    ensures |toolCalls| == |order|
    ensures forall j | 0 <= j < |order| ::
              var a := calls[order[j]];
              toolCalls[j] == ToolCall(a.id, a.name, Some(OrEmpty(if a.args == "" then None else parse(a.args))))
  {
    toolCalls := [];
    for j := 0 to |order|
      invariant |toolCalls| == j
      invariant forall m | 0 <= m < j ::
                  var a := calls[order[m]];
                  toolCalls[m] == ToolCall(a.id, a.name, Some(OrEmpty(if a.args == "" then None else parse(a.args))))
    {
      var ta := calls[order[j]];
      var args: Option<Fields> := None;
      if |ta.args| > 0 {
        args := parse(ta.args);
      }
      if args.None? {
        args := Some(map[]);
      }
      toolCalls := toolCalls + [ToolCall(ta.id, ta.name, args)];
    }
  }

  /** What the accumulators finish as is what the decoder makes of the assembled calls. */
  lemma {:induction false} FinishedCalls(parse: string -> Option<Fields>, chunks: seq<Chunk>, calls: map<int, Accum>, order: seq<int>,
                                         toolCalls: seq<ToolCall>)
    requires parse("").None? && Holds(calls, order, Fragments(chunks))
    requires |toolCalls| == |order|
    requires forall j | 0 <= j < |order| ::
               && order[j] in calls
               && var a := calls[order[j]];
                  toolCalls[j] == ToolCall(a.id, a.name, Some(OrEmpty(if a.args == "" then None else parse(a.args))))
    ensures toolCalls == WithArguments(FromReply(parse, AssembledReply(chunks))).toolCalls
  {
    var whole := WithArguments(FromReply(parse, AssembledReply(chunks))).toolCalls;
    forall j | 0 <= j < |order|
      ensures toolCalls[j] == whole[j]
    {
      assert order[j] in calls;
    }
  }

  /**
    For every stream without an error, whatever the chunking and the interleaving of
    calls, the result is what the non-streaming decoder makes of the assembled reply, and
    what was printed is its content.
   */
  method StreamChat(chunks: seq<Chunk>, parse: string -> Option<Fields>, echo: bool) returns (r: Outcome, written: string)
    requires parse("").None?
    ensures var n := FirstError(chunks);
            && r == (if n < |chunks| then Failed(chunks[n].error) else Reply(WithArguments(FromReply(parse, AssembledReply(chunks)))))
            && written == (if echo then Contents(chunks[..n]) else "")
  {
    var calls: map<int, Accum>, order: seq<int> := map[], [];
    var text := "";
    written := "";
    for n := 0 to |chunks|
      invariant Holds(calls, order, Fragments(chunks[..n]))
      invariant text == Contents(chunks[..n])
      invariant written == if echo then text else ""
      invariant forall j | 0 <= j < n :: !chunks[j].ErrorChunk?
    {
      assert chunks[..n + 1][..n] == chunks[..n];
      match chunks[n]
      case Ignored =>
        assert Fragments(chunks[..n + 1]) == Fragments(chunks[..n]);
      case ErrorChunk(error) =>
        FirstErrorIs(chunks, n);
        return Failed(error), written;
      case DeltaChunk(content, fragments) =>
        if content != "" {
          text := text + content;
          if echo {
            written := written + content;
          }
        }
        calls, order := AbsorbFragments(calls, order, fragments, Fragments(chunks[..n]));
    }
    assert chunks[..|chunks|] == chunks;
    FirstErrorIs(chunks, |chunks|);
    forall j | 0 <= j < |order|
      ensures order[j] in calls
    {
    }
    var toolCalls := FinishInOrder(parse, calls, order);
    FinishedCalls(parse, chunks, calls, order, toolCalls);
    r := Reply(Message(Assistant, text, toolCalls, None));
  }
}
