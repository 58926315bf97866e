/** The provider-neutral conversation types, and what it means for tool calls to be answered. */
module LlmTypes {
  import opened Text

  /** A decoded JSON object; its values are kept as their JSON text. */
  type Fields = map<string, string>

  datatype Role = User | Assistant | ToolResultRole | OtherRole

  datatype ToolCall = ToolCall(id: string, toolName: string, arguments: Option<Fields>)

  datatype ToolResult = ToolResult(callID: string, content: string, isError: bool)

  datatype Message = Message(role: Role, content: string, toolCalls: seq<ToolCall>, toolResult: Option<ToolResult>)

  function UserMessage(text: string): Message {
    Message(User, text, [], None)
  }

  function ResultMessage(r: ToolResult): Message {
    Message(ToolResultRole, "", [], Some(r))
  }

  /** A missing argument object counts as an empty one. */
  function OrEmpty(args: Option<Fields>): Fields {
    if args.Some? then args.value else map[]
  }

  /** A tool-result message always carries its result. */
  ghost predicate ResultsPresent(h: seq<Message>) {
    forall m | m in h && m.role == ToolResultRole :: m.toolResult.Some?
  }

  predicate Answers(m: Message, call: ToolCall) {
    m.role == ToolResultRole && m.toolResult.Some? && m.toolResult.value.callID == call.id
  }

  /** Every assistant message is followed at once by exactly one result per call, in order; there are no other results. */
  predicate Paired(h: seq<Message>)
    decreases |h|
  {
    if h == [] then true
    else if h[0].role == Assistant then
      var k := |h[0].toolCalls|;
      && k < |h|
      && (forall j | 0 <= j < k :: Answers(h[1 + j], h[0].toolCalls[j]))
      && Paired(h[1 + k..])
    else h[0].role != ToolResultRole && Paired(h[1..])
  }

  /** The length of the run of tool results at the front. */
  function LeadingResults(h: seq<Message>): (n: nat)
    ensures n <= |h|
    ensures forall j | 0 <= j < n :: h[j].role == ToolResultRole
    ensures n < |h| ==> h[n].role != ToolResultRole
  {
    if h != [] && h[0].role == ToolResultRole then 1 + LeadingResults(h[1..]) else 0
  }

  lemma {:induction false} LeadingResultsIs(h: seq<Message>, n: nat)
    requires n <= |h| && forall j | 0 <= j < n :: h[j].role == ToolResultRole
    requires n < |h| ==> h[n].role != ToolResultRole
    ensures LeadingResults(h) == n
  {
  }

  /** A message with the results of its calls. */
  function ExchangeLength(m: Message): nat {
    1 + if m.role == Assistant then |m.toolCalls| else 0
  }

  lemma {:induction false} PairedRest(h: seq<Message>)
    requires Paired(h) && h != []
    ensures ExchangeLength(h[0]) <= |h| && Paired(h[ExchangeLength(h[0])..])
  {
  }

  lemma {:induction false} PairedFirst(h: seq<Message>, k: nat)
    requires h != [] && k == ExchangeLength(h[0]) && k <= |h| && h[0].role != ToolResultRole
    requires forall j | 1 <= j < k :: Answers(h[j], h[0].toolCalls[j - 1])
    requires Paired(h[k..])
    ensures Paired(h)
  {
  }

  lemma {:induction false} PairedConcat(a: seq<Message>, b: seq<Message>)
    requires Paired(a) && Paired(b)
    ensures Paired(a + b)
    decreases |a|
  {
    if a == [] {
      assert a + b == b;
    } else {
      var k := ExchangeLength(a[0]);
      PairedRest(a);
      PairedConcat(a[k..], b);
      assert (a + b)[k..] == a[k..] + b;
      forall j | 1 <= j < k
        ensures Answers((a + b)[j], a[0].toolCalls[j - 1])
      {
        assert Answers(a[1 + (j - 1)], a[0].toolCalls[j - 1]);
      }
      PairedFirst(a + b, k);
    }
  }

  lemma {:induction false} PairedResultsPresent(h: seq<Message>)
    requires Paired(h)
    ensures ResultsPresent(h)
    decreases |h|
  {
    if h == [] {
    } else {
      var k := if h[0].role == Assistant then |h[0].toolCalls| else 0;
      PairedResultsPresent(h[1 + k..]);
      forall m | m in h && m.role == ToolResultRole
        ensures m.toolResult.Some?
      {
        var i :| 0 <= i < |h| && h[i] == m;
        if i <= k {
          assert i > 0 ==> Answers(h[1 + (i - 1)], h[0].toolCalls[i - 1]);
        } else {
          assert m == h[1 + k..][i - 1 - k];
        }
      }
    }
  }

  lemma {:induction false} PairedFront(h: seq<Message>)
    requires Paired(h)
    ensures h != [] ==> h[0].role != ToolResultRole
    ensures LeadingResults(h) == 0
  {
  }

  lemma {:induction false} CutRoles(h: seq<Message>, n: nat)
    requires Paired(h) && h != [] && 0 < n < ExchangeLength(h[0])
    ensures ExchangeLength(h[0]) <= |h| && forall j | n <= j < ExchangeLength(h[0]) :: h[j].role == ToolResultRole
  {
    forall j | n <= j < ExchangeLength(h[0])
      ensures h[j].role == ToolResultRole
    {
      assert Answers(h[1 + (j - 1)], h[0].toolCalls[j - 1]);
    }
  }

  /** A cut between calls and their last result leaves the remaining results in front. */
  lemma {:induction false} CutWithinResults(h: seq<Message>, n: nat)
    requires Paired(h) && h != [] && 0 < n < ExchangeLength(h[0])
    ensures ExchangeLength(h[0]) <= |h| && h[n..][LeadingResults(h[n..])..] == h[ExchangeLength(h[0])..]
  {
    var k := ExchangeLength(h[0]);
    CutRoles(h, n);
    PairedRest(h);
    PairedFront(h[k..]);
    assert h[n..][k - n..] == h[k..];
    assert forall j | 0 <= j < k - n :: h[n..][j] == h[n + j];
    assert k < |h| ==> h[n..][k - n] == h[k..][0];
    LeadingResultsIs(h[n..], k - n);
  }

  /** Cutting a paired history anywhere can separate results from their calls only at the very front of what is left. */
  lemma {:induction false} SuffixPaired(h: seq<Message>, n: nat)
    requires Paired(h) && n <= |h|
    ensures Paired(h[n..][LeadingResults(h[n..])..])
    decreases |h|
  {
    if n == 0 {
      PairedFront(h);
      assert h[0..] == h && h[0..][0..] == h;
    } else {
      PairedRest(h);
      var k := ExchangeLength(h[0]);
      if n < k {
        CutWithinResults(h, n);
      } else {
        SuffixPaired(h[k..], n - k);
        assert h[k..][n - k..] == h[n..];
      }
    }
  }
}
