/** Messages and events of the agent, the grammar of event traces, and what the events say about the transcript. */
module AgentEvents {
  import opened Basics

  datatype StopReason = Stop | Length | ToolUse | Deferred | Error | Aborted

  datatype ToolCall = ToolCall(id: string, name: string, arguments: int)

  /** What the model answers: opaque content, the tool calls in it, and why it stopped. */
  datatype Reply = Reply(body: int, calls: seq<ToolCall>, stop: StopReason)

  /** The finalized result of a tool call. */
  datatype Outcome = Outcome(body: int, isError: bool, terminate: bool)

  datatype Message =
    | User(body: int)
    | Custom(body: int)
    | Assistant(reply: Reply)
    | ToolResult(callId: string, toolName: string, body: int, isError: bool)

  datatype Event =
    | AgentStart
    | AgentEnd(messages: seq<Message>)
    | TurnStart
    | TurnEnd(message: Message, toolResults: seq<Message>)
    | MessageStart(message: Message)
    | MessageUpdate(message: Message)
    | MessageEnd(message: Message)
    | ToolStart(call: ToolCall)
    | ToolUpdate(call: ToolCall, partial: int)
    | ToolEnd(call: ToolCall, outcome: Outcome)

  function ResultMessage(call: ToolCall, outcome: Outcome): Message {
    ToolResult(call.id, call.name, outcome.body, outcome.isError)
  }

  // ---- The grammar ----

  datatype Phase = Begin | Between | InTurn | InMessage | Finished | Broken

  /** Where a trace stands in the grammar, and the tool calls that have started but not ended. */
  datatype Tracker = Tracker(phase: Phase, pending: set<string>)

  /** One event: out of place it breaks the trace, and so does a turn that ends with a tool call pending. */
  function Advance(t: Tracker, e: Event): Tracker {
    match e
    case AgentStart => t.(phase := if t.phase == Begin then Between else Broken)
    case AgentEnd(_) => t.(phase := if t.phase == Between then Finished else Broken)
    case TurnStart => t.(phase := if t.phase == Between then InTurn else Broken)
    case TurnEnd(_, _) => t.(phase := if t.phase == InTurn && t.pending == {} then Between else Broken)
    case MessageStart(_) => t.(phase := if t.phase == InTurn then InMessage else Broken)
    case MessageUpdate(_) => t.(phase := if t.phase == InMessage then InMessage else Broken)
    case MessageEnd(_) => t.(phase := if t.phase == InMessage then InTurn else Broken)
    case ToolStart(call) => Tracker(if t.phase == InTurn then InTurn else Broken, t.pending + {call.id})
    case ToolUpdate(_, _) => t.(phase := if t.phase == InTurn then InTurn else Broken)
    case ToolEnd(call, _) => Tracker(if t.phase == InTurn then InTurn else Broken, t.pending - {call.id})
  }

  function Track(t: Tracker, events: seq<Event>): Tracker
    decreases |events|
  {
    if events == [] then t else Advance(Track(t, events[..|events| - 1]), events[|events| - 1])
  }

  const Outset := Tracker(Begin, {})

  const Turning := Tracker(InTurn, {})

  lemma {:induction false} TrackAppend(t: Tracker, a: seq<Event>, b: seq<Event>)
    ensures Track(t, a + b) == Track(Track(t, a), b)
    decreases |b|
  {
    if b == [] {
      assert a + b == a;
    } else {
      var init := b[..|b| - 1];
      assert (a + b)[..|a + b| - 1] == a + init;
      TrackAppend(t, a, init);
    }
  }

  lemma TrackSnoc(t: Tracker, a: seq<Event>, e: Event)
    ensures Track(t, a + [e]) == Advance(Track(t, a), e)
  {
    assert (a + [e])[..|a|] == a;
  }

  /** A broken or finished trace stays so or breaks: nothing follows the end of a run. */
  lemma {:induction false} NothingAfterTheEnd(t: Tracker, events: seq<Event>, k: nat)
    requires Track(t, events).phase == Finished && t.phase != Finished && k < |events|
    ensures events[k].AgentEnd? <==> k == |events| - 1
    decreases |events|
  {
    var init, last := events[..|events| - 1], events[|events| - 1];
    assert last.AgentEnd?;
    if k < |init| && events[k].AgentEnd? {
      assert init == events[..k] + [events[k]] + init[k + 1..];
      EndedStaysEnded(t, events[..k], events[k], init[k + 1..]);
    }
  }

  lemma EndedStaysEnded(t: Tracker, before: seq<Event>, e: Event, after: seq<Event>)
    requires e.AgentEnd?
    ensures Track(t, before + [e] + after).phase in {Finished, Broken}
  {
    TrackAppend(t, before + [e], after);
    TrackSnoc(t, before, e);
    StaysEnded(Track(t, before + [e]), after);
  }

  lemma {:induction false} StaysEnded(t: Tracker, events: seq<Event>)
    requires t.phase in {Finished, Broken}
    ensures Track(t, events).phase in {Finished, Broken}
    decreases |events|
  {
    if events != [] {
      StaysEnded(t, events[..|events| - 1]);
    }
  }

  // ---- The transcript ----

  /** The messages that the events complete, in order. */
  function Completed(events: seq<Event>): seq<Message>
    decreases |events|
  {
    if events == [] then []
    else
      var last := events[|events| - 1];
      Completed(events[..|events| - 1]) + (if last.MessageEnd? then [last.message] else [])
  }

  lemma {:induction false} CompletedAppend(a: seq<Event>, b: seq<Event>)
    ensures Completed(a + b) == Completed(a) + Completed(b)
    decreases |b|
  {
    if b == [] {
      assert a + b == a;
    } else {
      var init, last := b[..|b| - 1], b[|b| - 1];
      assert (a + b)[..|a + b| - 1] == a + init;
      CompletedAppend(a, init);
      assert Completed(b) == Completed(init) + (if last.MessageEnd? then [last.message] else []);
    }
  }

  lemma CompletedSnoc(a: seq<Event>, e: Event)
    ensures Completed(a + [e]) == Completed(a) + (if e.MessageEnd? then [e.message] else [])
  {
    assert (a + [e])[..|a|] == a;
  }

  // ---- Well-formed contexts ----

  function Calls(m: Message): seq<ToolCall> {
    if m.Assistant? then m.reply.calls else []
  }

  /** The messages answer the calls, once each and in order. */
  predicate Answers(results: seq<Message>, calls: seq<ToolCall>) {
    |results| == |calls| && forall k :: 0 <= k < |calls| ==> results[k].ToolResult? && results[k].callId == calls[k].id
  }

  /** Every tool call is answered exactly once, in order, directly after its message, and nothing else is answered. */
  predicate WellFormed(messages: seq<Message>)
    decreases |messages|
  {
    messages == [] ||
    var calls := Calls(messages[0]);
    && !messages[0].ToolResult?
    && 1 + |calls| <= |messages|
    && Answers(messages[1..1 + |calls|], calls)
    && WellFormed(messages[1 + |calls|..])
  }

  lemma FirstGroup(a: seq<Message>, b: seq<Message>, n: nat)
    requires 1 <= n <= |a|
    ensures (a + b)[0] == a[0] && (a + b)[1..n] == a[1..n] && (a + b)[n..] == a[n..] + b
  {
  }

  /** After a well-formed context, what is added decides alone. */
  lemma {:induction false} WellFormedAppend(a: seq<Message>, b: seq<Message>)
    requires WellFormed(a)
    ensures WellFormed(a + b) <==> WellFormed(b)
    decreases |a|
  {
    if a == [] {
      assert a + b == b;
    } else {
      var n := 1 + |Calls(a[0])|;
      FirstGroup(a, b, n);
      WellFormedAppend(a[n..], b);
    }
  }

  /** A reply is well formed with its results exactly when they are all there. */
  lemma AnsweredReply(reply: Reply, results: seq<Message>)
    requires |results| <= |reply.calls| && Answers(results, reply.calls[..|results|])
    ensures WellFormed([Assistant(reply)] + results) <==> |results| == |reply.calls|
  {
    var messages := [Assistant(reply)] + results;
    assert messages[0] == Assistant(reply);
    if |results| == |reply.calls| {
      assert messages[1..1 + |reply.calls|] == results && messages[1 + |reply.calls|..] == [];
      assert reply.calls[..|results|] == reply.calls;
    }
  }

  /** Messages that need no answer and answer nothing. */
  predicate Standalone(m: Message) {
    !m.ToolResult? && Calls(m) == []
  }

  lemma {:induction false} StandaloneIsWellFormed(messages: seq<Message>)
    requires forall m | m in messages :: Standalone(m)
    ensures WellFormed(messages)
    decreases |messages|
  {
    if messages != [] {
      assert Standalone(messages[0]) && messages[1..1] == [];
      StandaloneIsWellFormed(messages[1..]);
    }
  }

  /** A batch that an abort cut short stays visible: whatever follows but another result, the list is not well
      formed. */
  lemma CutBatchIsIllFormed(context: seq<Message>, reply: Reply, results: seq<Message>, later: seq<Message>)
    requires WellFormed(context) && |results| < |reply.calls|
    requires later == [] || !later[0].ToolResult?
    ensures !WellFormed(context + ([Assistant(reply)] + results + later))
  {
    var messages := [Assistant(reply)] + results + later;
    WellFormedAppend(context, messages);
    assert messages[0] == Assistant(reply);
    if 1 + |reply.calls| <= |messages| {
      var answers := messages[1..1 + |reply.calls|];
      assert answers[|results|] == later[0];
      assert !Answers(answers, reply.calls);
    }
  }
}
