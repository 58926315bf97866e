/**
  The confirmation protocol between the agent goroutine and the terminal UI. The agent
  offers a request on a one-place channel and waits for a reply or for the cancellation of
  its turn; listener goroutines carry requests to the UI, which shows one at a time
  and answers it on that request's own one-place reply channel. Steps of the three parties
  and cancellations interleave in any order.
 */
module ConfirmGate {
  import opened Text
  import opened LlmTypes

  /** A request is named by its position in the list of all requests made; its reply channel goes by the same name. */
  datatype Request = Request(call: ToolCall, turn: nat)

  datatype Phase =
    | Idle                                  // no turn is running
    | Running                               // between tool calls
    | Offering(id: nat)                     // in Confirm, sending the request
    | Waiting(id: nat)                      // in Confirm, waiting for the reply
    | Decided(id: nat, approved: bool)      // Confirm has returned

  datatype Key = Yes | No | Quit

  datatype Event =
    | Pressed(key: Key, id: nat, displayed: ToolCall)
    | Ran(id: nat, call: ToolCall)

  datatype State = State(
    requests: seq<Request>,
    phase: Phase,
    turn: nat,
    cancelled: set<nat>,
    processing: bool,
    responding: bool,
    channel: Option<nat>,
    listeners: nat,
    delivered: set<nat>,
    replyTo: Option<nat>,
    dialog: Option<ToolCall>,
    replies: map<nat, bool>,
    sent: seq<nat>,
    quit: bool,
    log: seq<Event>)

  /** The agent has just been initialised: one listener is armed. */
  const INIT := State([], Idle, 0, {}, false, false, None, 1, {}, None, None, map[], [], false, [])

  datatype Action =
    | StartTurn                 // UI: enter on a message, only when the previous turn has been answered
    | Confirm(call: ToolCall)   // agent: a call whose tool requires confirmation
    | Offer                     // agent: the channel takes the request
    | OfferCancelled            // agent: the turn is cancelled first
    | TakeReply                 // agent: the reply arrives
    | WaitCancelled             // agent: the turn is cancelled first
    | Proceed                   // agent: run the tool if approved, go on either way
    | FinishTurn                // agent: the turn's goroutine ends and posts its response
    | Receive                   // listener: takes the request off the channel
    | Show(id: nat)             // UI: handles a delivered request
    | Press(key: Key)           // UI: a key while the dialog is open
    | HandleResponse            // UI: handles the response of a finished turn
    | Cancel                    // UI: the turn's context is cancelled

  predicate Enabled(s: State, a: Action) {
    match a
    case StartTurn => s.phase == Idle && !s.processing && !s.quit
    case Confirm(_) => s.phase == Running
    case Offer => s.phase.Offering? && s.channel.None?
    case OfferCancelled => s.phase.Offering? && s.turn in s.cancelled
    case TakeReply => s.phase.Waiting? && s.phase.id in s.replies
    case WaitCancelled => s.phase.Waiting? && s.turn in s.cancelled
    case Proceed => s.phase.Decided? && s.phase.id < |s.requests|
    case FinishTurn => s.phase == Running
    case Receive => s.channel.Some? && s.listeners > 0
    case Show(id) => id in s.delivered && id < |s.requests| && !s.quit
    case Press(_) => s.dialog.Some? && !s.quit
    case HandleResponse => s.responding && !s.quit
    case Cancel => true
  }

  function Next(s: State, a: Action): State
    requires Enabled(s, a)
  {
    match a
    case StartTurn => s.(phase := Running, processing := true, turn := s.turn + 1, cancelled := s.cancelled + {s.turn})
    case Confirm(call) => s.(requests := s.requests + [Request(call, s.turn)], phase := Offering(|s.requests|))
    case Offer => s.(channel := Some(s.phase.id), phase := Waiting(s.phase.id))
    case OfferCancelled => s.(phase := Decided(s.phase.id, false))
    case TakeReply => s.(phase := Decided(s.phase.id, s.replies[s.phase.id]), replies := s.replies - {s.phase.id})
    case WaitCancelled => s.(phase := Decided(s.phase.id, false))
    case Proceed =>
      s.(phase := Running,
         log := if s.phase.approved then s.log + [Ran(s.phase.id, s.requests[s.phase.id].call)] else s.log)
    case FinishTurn => s.(phase := Idle, responding := true)
    case Receive => s.(channel := None, listeners := s.listeners - 1, delivered := s.delivered + {s.channel.value})
    case Show(id) => s.(delivered := s.delivered - {id}, replyTo := Some(id), dialog := Some(s.requests[id].call))
    case Press(key) =>
      var answered :=
        if s.replyTo.None? then s
        else s.(
          replies := s.replies[s.replyTo.value := key == Yes],
          sent := s.sent + [s.replyTo.value],
          log := s.log + [Pressed(key, s.replyTo.value, s.dialog.value)],
          replyTo := None);
      answered.(dialog := None, quit := key == Quit, listeners := if key == Quit then s.listeners else s.listeners + 1)
    case HandleResponse =>
      s.(processing := false, responding := false, listeners := s.listeners + 1,
         dialog := None, replyTo := if s.dialog.Some? then None else s.replyTo)
    case Cancel => s.(cancelled := s.cancelled + {s.turn})
  }

  /** The state after a sequence of actions, None if one of them could not happen. */
  function After(actions: seq<Action>): Option<State> {
    if actions == [] then Some(INIT)
    else
      var before := After(actions[..|actions| - 1]);
      var a := actions[|actions| - 1];
      if before.Some? && Enabled(before.value, a) then Some(Next(before.value, a)) else None
  }

  // ---- The invariant ----

  /** The user answered this request with y while its own call was on the screen. */
  predicate ApprovedIn(s: State, id: nat, log: seq<Event>) {
    id < |s.requests| && Pressed(Yes, id, s.requests[id].call) in log
  }

  /** A request is in at most one place: with the agent, on the channel, on its way, shown, or answered. */
  ghost predicate OnePlace(s: State) {
    && (s.channel.Some? ==> s.channel.value < |s.requests| && s.channel.value !in s.delivered && s.channel.value !in s.sent)
    && (forall id | id in s.delivered :: id < |s.requests| && id !in s.sent)
    && (s.replyTo.Some? ==>
          s.replyTo.value < |s.requests| && s.replyTo.value !in s.delivered && s.replyTo.value !in s.sent && s.channel != s.replyTo)
    && (forall id | id in s.sent :: id < |s.requests|)
  }

  ghost predicate PhaseFits(s: State) {
    match s.phase
    case Offering(id) =>
      id < |s.requests| && s.channel != Some(id) && id !in s.delivered && s.replyTo != Some(id) && id !in s.sent
    case Waiting(id) => id < |s.requests|
    case Decided(id, approved) => id < |s.requests| && (approved ==> ApprovedIn(s, id, s.log))
    case _ => true
  }

  ghost predicate SentOnce(s: State) {
    && (forall i, j | 0 <= i < j < |s.sent| :: s.sent[i] != s.sent[j])
    && (forall id | id in s.replies :: id in s.sent && (s.replies[id] ==> ApprovedIn(s, id, s.log)))
  }

  ghost predicate DialogFits(s: State) {
    s.dialog == if s.replyTo.Some? && s.replyTo.value < |s.requests| then Some(s.requests[s.replyTo.value].call) else None
  }

  /** Someone is left to fetch, show or answer the next request. */
  ghost predicate Attended(s: State) {
    s.quit || s.listeners > 0 || s.delivered != {} || s.replyTo.Some?
  }

  /** Every tool run was approved, for that very call, before it ran. */
  ghost predicate RunsApproved(s: State) {
    forall j | 0 <= j < |s.log| && s.log[j].Ran? ::
      && s.log[j].id < |s.requests|
      && s.log[j].call == s.requests[s.log[j].id].call
      && ApprovedIn(s, s.log[j].id, s.log[..j])
  }

  /** A turn is being processed from its start until its response is handled, and it responds when it is over. */
  ghost predicate TurnFits(s: State) {
    (s.phase != Idle ==> s.processing && !s.responding) && (s.responding ==> s.processing)
  }

  ghost predicate Inv(s: State) {
    OnePlace(s) && PhaseFits(s) && SentOnce(s) && DialogFits(s) && Attended(s) && TurnFits(s) && RunsApproved(s)
  }

  // ---- Every step keeps it ----

  lemma RunsApprovedGrow(s: State, t: State, ev: Event)
    requires RunsApproved(s)
    requires s.requests == t.requests && t.log == s.log + [ev]
    requires ev.Ran? ==> ev.id < |s.requests| && ev.call == s.requests[ev.id].call && ApprovedIn(s, ev.id, s.log)
    ensures RunsApproved(t)
  {
    forall j | 0 <= j < |t.log| && t.log[j].Ran?
      ensures t.log[j].id < |t.requests| && t.log[j].call == t.requests[t.log[j].id].call && ApprovedIn(t, t.log[j].id, t.log[..j])
    {
      assert t.log[..j] == s.log[..j];
      assert s.log[..|s.log|] == s.log;
    }
  }

  lemma RunsApprovedSame(s: State, t: State)
    requires RunsApproved(s) && t.log == s.log && s.requests <= t.requests
    ensures RunsApproved(t)
  {
  }

  lemma AgentStepKeeps(s: State, a: Action)
    requires Inv(s) && Enabled(s, a)
    requires a.StartTurn? || a.Confirm? || a.Offer? || a.OfferCancelled? || a.TakeReply? || a.WaitCancelled? || a.FinishTurn? || a.Cancel?
    ensures Inv(Next(s, a))
  {
    RunsApprovedSame(s, Next(s, a));
  }

  lemma ProceedKeeps(s: State)
    requires Inv(s) && Enabled(s, Proceed)
    ensures Inv(Next(s, Proceed))
  {
    var t := Next(s, Proceed);
    if s.phase.approved {
      RunsApprovedGrow(s, t, Ran(s.phase.id, s.requests[s.phase.id].call));
    }
  }

  lemma DeliveryKeeps(s: State, a: Action)
    requires Inv(s) && Enabled(s, a) && (a.Receive? || a.Show? || a.HandleResponse?)
    ensures Inv(Next(s, a))
  {
    var t := Next(s, a);
    RunsApprovedSame(s, t);
    if a.Receive? {
      assert s.channel.value in t.delivered;
    }
  }

  lemma PressKeeps(s: State, key: Key)
    requires Inv(s) && Enabled(s, Press(key))
    ensures Inv(Next(s, Press(key)))
  {
    var t := Next(s, Press(key));
    var ev := Pressed(key, s.replyTo.value, s.dialog.value);
    RunsApprovedGrow(s, t, ev);
    assert ev in t.log;
    assert forall e | e in s.log :: e in t.log;
  }

  lemma StepKeeps(s: State, a: Action)
    requires Inv(s) && Enabled(s, a)
    ensures Inv(Next(s, a))
  {
    match a
    case Proceed => ProceedKeeps(s);
    case Press(key) => PressKeeps(s, key);
    case Receive => DeliveryKeeps(s, a);
    case Show(_) => DeliveryKeeps(s, a);
    case HandleResponse => DeliveryKeeps(s, a);
    case _ => AgentStepKeeps(s, a);
  }

  lemma {:induction false} AlwaysInv(actions: seq<Action>)
    requires After(actions).Some?
    ensures Inv(After(actions).value)
  {
    if actions == [] {
    } else {
      var front := actions[..|actions| - 1];
      AlwaysInv(front);
      StepKeeps(After(front).value, actions[|actions| - 1]);
    }
  }

  // ---- What it means ----

  /** In every interleaving: a tool that requires confirmation has run only after the user pressed y while that very call was shown. */
  lemma {:induction false} OnlyApprovedToolsRun(actions: seq<Action>, j: nat)
    requires After(actions).Some?
    requires j < |After(actions).value.log| && After(actions).value.log[j].Ran?
    ensures var log := After(actions).value.log;
            exists i: nat | i < j :: log[i] == Pressed(Yes, log[j].id, log[j].call)
  {
    AlwaysInv(actions);
    var s := After(actions).value;
    assert Pressed(Yes, s.log[j].id, s.log[j].call) in s.log[..j];
    var i :| 0 <= i < |s.log[..j]| && s.log[..j][i] == Pressed(Yes, s.log[j].id, s.log[j].call);
  }

  /** Confirm returns true only for a request so approved. */
  lemma {:induction false} ConfirmTrueMeansApproved(actions: seq<Action>)
    requires After(actions).Some? && After(actions).value.phase.Decided? && After(actions).value.phase.approved
    ensures var s := After(actions).value;
            s.phase.id < |s.requests| && Pressed(Yes, s.phase.id, s.requests[s.phase.id].call) in s.log
  {
    AlwaysInv(actions);
  }

  /** The UI never blocks on a reply: the channel it answers on is empty, and no reply channel is ever written twice. */
  lemma {:induction false} ReplyNeverBlocks(actions: seq<Action>)
    requires After(actions).Some?
    ensures var s := After(actions).value;
            && (s.replyTo.Some? ==> s.replyTo.value !in s.replies)
            && (forall i, j | 0 <= i < j < |s.sent| :: s.sent[i] != s.sent[j])
  {
    AlwaysInv(actions);
  }

  /** A request on the channel is never stranded: when nothing is under way or on screen, a listener is there to take it. */
  lemma {:induction false} NoLostRequest(actions: seq<Action>)
    requires After(actions).Some?
    ensures var s := After(actions).value;
            s.channel.Some? && !s.quit && s.delivered == {} && s.dialog.None? ==> Enabled(s, Receive)
  {
    AlwaysInv(actions);
  }

  /** A cancelled turn never leaves the agent stuck in Confirm: it can go on at once, with a refusal. */
  lemma CancelUnblocks(s: State)
    requires s.turn in s.cancelled && (s.phase.Offering? || s.phase.Waiting?)
    ensures exists a :: Enabled(s, a) && Next(s, a).phase == Decided(s.phase.id, false) && Next(s, a).log == s.log
  {
    var a := if s.phase.Offering? then OfferCancelled else WaitCancelled;
    assert Enabled(s, a);
  }

  /** How many listeners an action arms: the one it re-arms, or less the one it uses up. */
  function Armed(a: Action): int {
    match a
    case Press(key) => if key == Quit then 0 else 1
    case HandleResponse => 1
    case Receive => -1
    case _ => 0
  }

  function ArmedInAll(actions: seq<Action>): int {
    if actions == [] then 0 else ArmedInAll(actions[..|actions| - 1]) + Armed(actions[|actions| - 1])
  }

  /** Listeners are conserved: one at the start, one more for every key that answers and every response handled, one less for every request taken. */
  lemma {:induction false} ListenersConserved(actions: seq<Action>)
    requires After(actions).Some?
    ensures After(actions).value.listeners == 1 + ArmedInAll(actions)
  {
    if actions == [] {
    } else {
      ListenersConserved(actions[..|actions| - 1]);
    }
  }

  // ---- What can happen to a request that is waited for ----

  /** An answer can still come: the request is on the channel, on its way, on screen or answered. */
  predicate Answerable(s: State, id: nat) {
    s.channel == Some(id) || id in s.delivered || s.replyTo == Some(id) || id in s.replies
  }

  /** Another request is shown while this one is on screen. */
  predicate Displaces(s: State, a: Action, id: nat) {
    a.Show? && s.replyTo == Some(id)
  }

  /** At some point of the run another request was shown over this one. */
  predicate Displaced(actions: seq<Action>, id: nat) {
    if actions == [] then false
    else
      var front, a := actions[..|actions| - 1], actions[|actions| - 1];
      Displaced(front, id) || (After(front).Some? && Displaces(After(front).value, a, id))
  }

  /** While the agent waits, every step keeps its request answerable but one: showing another over it. */
  lemma StaysAnswerableIff(s: State, a: Action)
    requires Inv(s) && Enabled(s, a) && s.phase.Waiting? && Next(s, a).phase == s.phase
    requires Answerable(s, s.phase.id)
    ensures Answerable(Next(s, a), s.phase.id) <==> !Displaces(s, a, s.phase.id)
  {
  }

  /** A request that is nowhere, and past being offered, stays nowhere. */
  predicate Lost(s: State, id: nat) {
    id < |s.requests| && !Answerable(s, id) && s.phase != Offering(id)
  }

  lemma StaysLost(s: State, a: Action, id: nat)
    requires Enabled(s, a) && Lost(s, id)
    ensures Lost(Next(s, a), id)
  {
  }

  lemma DisplacedIsLost(s: State, a: Action, id: nat)
    requires Inv(s) && Enabled(s, a) && Displaces(s, a, id)
    ensures Lost(Next(s, a), id)
  {
  }

  lemma AfterFront(actions: seq<Action>)
    requires actions != [] && After(actions).Some?
    ensures var front, a := actions[..|actions| - 1], actions[|actions| - 1];
            After(front).Some? && Enabled(After(front).value, a) && After(actions).value == Next(After(front).value, a)
  {
  }

  lemma {:induction false} DisplacedStaysLost(actions: seq<Action>, id: nat)
    requires After(actions).Some? && Displaced(actions, id)
    ensures Lost(After(actions).value, id)
  {
    var front, a := actions[..|actions| - 1], actions[|actions| - 1];
    AfterFront(actions);
    if Displaced(front, id) {
      DisplacedStaysLost(front, id);
      StaysLost(After(front).value, a, id);
    } else {
      AlwaysInv(front);
      DisplacedIsLost(After(front).value, a, id);
    }
  }

  /** Waiting starts with the request on the channel. */
  lemma WaitingBegins(s: State, a: Action)
    requires Enabled(s, a) && Next(s, a).phase.Waiting? && s.phase != Next(s, a).phase
    ensures Answerable(Next(s, a), Next(s, a).phase.id)
  {
  }

  lemma {:induction false} UndisplacedIsAnswerable(actions: seq<Action>)
    requires After(actions).Some? && After(actions).value.phase.Waiting?
    requires !Displaced(actions, After(actions).value.phase.id)
    ensures Answerable(After(actions).value, After(actions).value.phase.id)
  {
    if actions == [] {
      assert false;
    } else {
      var front, a := actions[..|actions| - 1], actions[|actions| - 1];
      var id := After(actions).value.phase.id;
      AfterFront(actions);
      if After(front).value.phase == Waiting(id) {
        UndisplacedIsAnswerable(front);
        AlwaysInv(front);
        StaysAnswerableIff(After(front).value, a);
      } else {
        WaitingBegins(After(front).value, a);
      }
    }
  }

  /** In every interleaving: the request the agent waits for can still be answered exactly if no other was ever shown over it. */
  lemma {:induction false} AnswerableIffNotDisplaced(actions: seq<Action>)
    requires After(actions).Some? && After(actions).value.phase.Waiting?
    ensures Answerable(After(actions).value, After(actions).value.phase.id) <==> !Displaced(actions, After(actions).value.phase.id)
  {
    var id := After(actions).value.phase.id;
    if Displaced(actions, id) {
      DisplacedStaysLost(actions, id);
    } else {
      UndisplacedIsAnswerable(actions);
    }
  }

  // ---- Example runs ----

  lemma {:induction false} AfterNext(actions: seq<Action>, a: Action)
    requires After(actions).Some? && Enabled(After(actions).value, a)
    ensures After(actions + [a]) == Some(Next(After(actions).value, a))
  {
    assert (actions + [a])[..|actions|] == actions;
  }

  /** The protocol does let an approved call through. */
  lemma ApprovedCallRuns(call: ToolCall) returns (actions: seq<Action>)
    ensures After(actions).Some? && After(actions).value.log == [Pressed(Yes, 0, call), Ran(0, call)]
  {
    actions := [];
    AfterNext(actions, StartTurn);
    actions := actions + [StartTurn];
    AfterNext(actions, Confirm(call));
    actions := actions + [Confirm(call)];
    AfterNext(actions, Offer);
    actions := actions + [Offer];
    AfterNext(actions, Receive);
    actions := actions + [Receive];
    AfterNext(actions, Show(0));
    actions := actions + [Show(0)];
    AfterNext(actions, Press(Yes));
    actions := actions + [Press(Yes)];
    AfterNext(actions, TakeReply);
    actions := actions + [TakeReply];
    AfterNext(actions, Proceed);
    actions := actions + [Proceed];
  }

  lemma SecondTurn(before: seq<Action>, live: ToolCall) returns (actions: seq<Action>)
    requires After(before).Some?
    requires var s := After(before).value;
             && s.phase == Running && s.processing && !s.responding && |s.requests| == 1 && s.delivered == {0}
             && s.dialog == None && s.replyTo == None && s.channel == None && s.replies == map[] && !s.quit
             && forall t | t in s.cancelled :: t <= s.turn
    ensures After(actions).Some?
    ensures var s := After(actions).value;
            && s.phase == Waiting(1) && |s.requests| == 2 && s.delivered == {0, 1} && s.turn !in s.cancelled
            && s.replyTo == None && s.channel == None && s.replies == map[] && !s.quit
  {
    actions := before;
    AfterNext(actions, FinishTurn);
    actions := actions + [FinishTurn];
    AfterNext(actions, HandleResponse);
    actions := actions + [HandleResponse];
    AfterNext(actions, StartTurn);
    actions := actions + [StartTurn];
    AfterNext(actions, Confirm(live));
    actions := actions + [Confirm(live)];
    AfterNext(actions, Offer);
    actions := actions + [Offer];
    AfterNext(actions, Receive);
    actions := actions + [Receive];
  }

  /** A first turn is cancelled while its request is on its way to the UI; a second one offers its own. */
  lemma StaleDelivered(stale: ToolCall, live: ToolCall) returns (actions: seq<Action>)
    ensures After(actions).Some?
    ensures var s := After(actions).value;
            && s.phase == Waiting(1) && |s.requests| == 2 && s.delivered == {0, 1} && s.turn !in s.cancelled
            && s.replyTo == None && s.channel == None && s.replies == map[] && !s.quit
  {
    actions := [];
    AfterNext(actions, StartTurn);
    actions := actions + [StartTurn];
    AfterNext(actions, Confirm(stale));
    actions := actions + [Confirm(stale)];
    AfterNext(actions, Offer);
    actions := actions + [Offer];
    AfterNext(actions, Receive);
    actions := actions + [Receive];
    AfterNext(actions, Cancel);
    actions := actions + [Cancel];
    AfterNext(actions, WaitCancelled);
    actions := actions + [WaitCancelled];
    AfterNext(actions, Proceed);
    actions := actions + [Proceed];
    actions := SecondTurn(actions, live);
  }

  /** It happens: a stale request shown over the live one leaves the agent waiting, in a turn nobody cancelled, for an answer that cannot come. */
  lemma DisplacedExample(stale: ToolCall, live: ToolCall) returns (actions: seq<Action>)
    ensures After(actions).Some?
    ensures var s := After(actions).value;
            s.phase == Waiting(1) && s.turn !in s.cancelled && !s.quit && !Answerable(s, 1)
  {
    actions := StaleDelivered(stale, live);
    AfterNext(actions, Show(1));
    actions := actions + [Show(1)];
    AfterNext(actions, Show(0));
    actions := actions + [Show(0)];
  }
}
