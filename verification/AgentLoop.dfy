/** The agent loop: turns of injecting queued messages, streaming a reply and executing its tool calls. */
module AgentLoop {
  import opened Basics
  import opened AgentEvents
  import opened AgentTools
  import opened AgentQueue

  // ---- Streaming one reply ----

  datatype StreamEvent = Start(partial: Reply) | Update(partial: Reply) | Done

  /** How many times the stream starts before it is done. */
  function Starts(stream: seq<StreamEvent>): nat {
    if stream == [] || stream[0].Done? then 0
    else (if stream[0].Start? then 1 else 0) + Starts(stream[1..])
  }

  /** The partial messages that a later start leaves behind in the context. */
  function Leftovers(stream: seq<StreamEvent>, partial: Option<Reply>): seq<Message> {
    if stream == [] || stream[0].Done? then []
    else if stream[0].Start? then
      Current(partial) + Leftovers(stream[1..], Some(stream[0].partial))
    else Leftovers(stream[1..], if partial.Some? then Some(stream[0].partial) else None)
  }

  lemma {:induction false} LeftoversCount(stream: seq<StreamEvent>, partial: Option<Reply>)
    ensures |Leftovers(stream, partial)| ==
      if partial.Some? then Starts(stream) else if Starts(stream) > 0 then Starts(stream) - 1 else 0
  {
    if stream != [] && !stream[0].Done? {
      LeftoversCount(stream[1..], if stream[0].Start? || partial.Some? then Some(stream[0].partial) else None);
    }
  }

  /** The events shown while the message streams: every start, and the updates after the first start. */
  function Shown(stream: seq<StreamEvent>, begun: bool): seq<Event> {
    if stream == [] || stream[0].Done? then []
    else if stream[0].Start? then [MessageStart(Assistant(stream[0].partial))] + Shown(stream[1..], true)
    else (if begun then [MessageUpdate(Assistant(stream[0].partial))] else []) + Shown(stream[1..], begun)
  }

  /** All events of a streamed message: a message that never started is opened with its final content. */
  function StreamedEvents(stream: seq<StreamEvent>, final: Reply): seq<Event> {
    Shown(stream, false) + (if Starts(stream) == 0 then [MessageStart(Assistant(final))] else [])
      + [MessageEnd(Assistant(final))]
  }

  /** The trace of a message being streamed, by the number of starts seen. */
  ghost predicate Streaming(events: seq<Event>, starts: nat) {
    && Completed(events) == []
    && (starts == 0 ==> events == [])
    && (starts == 1 ==> Track(Turning, events) == Tracker(InMessage, {}))
    && (starts > 1 ==> Track(Turning, events).phase == Broken)
  }

  lemma StreamingStart(events: seq<Event>, starts: nat, m: Message)
    requires Streaming(events, starts)
    ensures Streaming(events + [MessageStart(m)], starts + 1)
  {
    TrackSnoc(Turning, events, MessageStart(m));
    CompletedSnoc(events, MessageStart(m));
    assert Track(Turning, []) == Turning;
  }

  lemma StreamingUpdate(events: seq<Event>, starts: nat, m: Message)
    requires Streaming(events, starts) && starts > 0
    ensures Streaming(events + [MessageUpdate(m)], starts)
  {
    TrackSnoc(Turning, events, MessageUpdate(m));
    CompletedSnoc(events, MessageUpdate(m));
  }

  lemma StreamingEnd(events: seq<Event>, starts: nat, m: Message)
    requires Streaming(events, starts) && starts > 0
    ensures Completed(events + [MessageEnd(m)]) == [m]
    ensures Track(Turning, events + [MessageEnd(m)]) == Turning <==> starts == 1
  {
    TrackSnoc(Turning, events, MessageEnd(m));
    CompletedSnoc(events, MessageEnd(m));
  }

  lemma {:induction false} ShownTrace(stream: seq<StreamEvent>, before: seq<Event>, starts: nat)
    requires Streaming(before, starts)
    ensures Streaming(before + Shown(stream, starts > 0), starts + Starts(stream))
    decreases |stream|
  {
    if stream == [] || stream[0].Done? {
      assert before + [] == before;
    } else if stream[0].Start? {
      var m := MessageStart(Assistant(stream[0].partial));
      StreamingStart(before, starts, m.message);
      ShownTrace(stream[1..], before + [m], starts + 1);
      Joined(before, [m], Shown(stream[1..], true));
    } else if starts > 0 {
      var m := MessageUpdate(Assistant(stream[0].partial));
      StreamingUpdate(before, starts, m.message);
      ShownTrace(stream[1..], before + [m], starts);
      Joined(before, [m], Shown(stream[1..], true));
    } else {
      ShownTrace(stream[1..], before, starts);
      assert [] + Shown(stream[1..], false) == Shown(stream[1..], false);
    }
  }

  /** A streamed message completes exactly itself, and its events stay in the grammar if and only if it starts once at
      most. */
  lemma StreamedTrace(stream: seq<StreamEvent>, final: Reply)
    ensures Completed(StreamedEvents(stream, final)) == [Assistant(final)]
    ensures Track(Turning, StreamedEvents(stream, final)) == Turning <==> Starts(stream) <= 1
  {
    var shown, starts, m := Shown(stream, false), Starts(stream), Assistant(final);
    ShownTrace(stream, [], 0);
    assert [] + shown == shown;
    if starts == 0 {
      StreamingStart(shown, 0, m);
      StreamingEnd(shown + [MessageStart(m)], 1, m);
    } else {
      StreamingEnd(shown, starts, m);
      assert shown + [] == shown;
    }
  }

  function Current(partial: Option<Reply>): seq<Message> {
    if partial.Some? then [Assistant(partial.value)] else []
  }

  /** What one stream event adds to the left-over messages and to the events. */
  lemma StreamStep(stream: seq<StreamEvent>, i: nat, partial: Option<Reply>, stale: seq<Message>, events: seq<Event>)
    requires i < |stream| && !stream[i].Done?
    ensures Starts(stream[i..]) == (if stream[i].Start? then 1 else 0) + Starts(stream[i + 1..])
    ensures var e, rest := stream[i], stream[i + 1..];
      if e.Start? then
        && stale + Leftovers(stream[i..], partial) == stale + Current(partial) + Leftovers(rest, Some(e.partial))
        && events + Shown(stream[i..], partial.Some?)
          == events + [MessageStart(Assistant(e.partial))] + Shown(rest, true)
      else if partial.Some? then
        && Leftovers(stream[i..], partial) == Leftovers(rest, Some(e.partial))
        && events + Shown(stream[i..], true) == events + [MessageUpdate(Assistant(e.partial))] + Shown(rest, true)
      else Leftovers(stream[i..], partial) == Leftovers(rest, None) && Shown(stream[i..], false) == Shown(rest, false)
  {
    assert stream[i..][0] == stream[i] && stream[i..][1..] == stream[i + 1..];
  }

  lemma LastReplaced<T>(before: seq<T>, last: T, next: T)
    ensures (before + [last])[|before| := next] == before + [next]
  {
  }

  /** Streams a reply into the context, which gains the final message and what further starts leave behind. */
  method StreamAssistantResponse(messages: seq<Message>, stream: seq<StreamEvent>, final: Reply)
    returns (context: seq<Message>, events: seq<Event>)
    ensures context == messages + Leftovers(stream, None) + [Assistant(final)]
    ensures events == StreamedEvents(stream, final)
  {
    context, events := messages, [];
    var partialMessage: Option<Reply> := None;
    ghost var stale := [];
    var i := 0;
    while i < |stream| && !stream[i].Done?
      invariant i <= |stream|
      invariant Starts(stream) == 0 <==> partialMessage.None? && Starts(stream[i..]) == 0
      invariant Leftovers(stream, None) == stale + Leftovers(stream[i..], partialMessage)
      invariant context == messages + stale + Current(partialMessage)
      invariant events + Shown(stream[i..], partialMessage.Some?) == Shown(stream, false)
      decreases |stream| - i
    {
      StreamStep(stream, i, partialMessage, stale, events);
      match stream[i] {
        case Start(partial) =>
          stale := stale + Current(partialMessage);
          partialMessage := Some(partial);
          context := context + [Assistant(partial)];
          events := events + [MessageStart(Assistant(partial))];
        case Update(partial) =>
          if partialMessage.Some? {
            LastReplaced(messages + stale, Assistant(partialMessage.value), Assistant(partial));
            partialMessage := Some(partial);
            context := context[|context| - 1 := Assistant(partial)];
            events := events + [MessageUpdate(Assistant(partial))];
          }
      }
      i := i + 1;
    }
    assert events + [] == Shown(stream, false) && stale + [] == Leftovers(stream, None);
    assert stale + [] == stale;
    if partialMessage.Some? {
      LastReplaced(messages + stale, Assistant(partialMessage.value), Assistant(final));
      context := context[|context| - 1 := Assistant(final)];
    } else {
      context := context + [Assistant(final)];
      events := events + [MessageStart(Assistant(final))];
    }
    events := events + [MessageEnd(Assistant(final))];
  }

  // ---- One turn ----

  /** What the environment does in one turn: the model's stream and reply, the tools, when an abort is noticed, and
      after the turn a replacement context and a request to stop; what has reached the queues by the time the steering
      queue is polled after the turn, and what reaches them between that and the next poll or turn. */
  datatype Turn = Turn(
    stream: seq<StreamEvent>, reply: Reply, sequential: bool, tools: nat -> ToolScript, aborted: nat -> bool,
    replacement: Option<seq<Message>>, stop: bool, arrived: Arrivals, late: Arrivals)

  predicate Fatal(reply: Reply) {
    reply.stop.Error? || reply.stop.Aborted?
  }

  /** No abort cuts the batch short: it is not noticed before the last call, or the calls are refused unexecuted. */
  predicate Whole(turn: Turn) {
    turn.reply.stop.Length? || forall i: nat | i + 1 < |turn.reply.calls| :: !turn.aborted(i)
  }

  lemma ReachedAll(calls: seq<ToolCall>, aborted: nat -> bool, i: nat)
    requires i <= |calls|
    ensures Reached(calls, aborted, i) == |calls| <==> forall j: nat | i <= j < |calls| - 1 :: !aborted(j)
    decreases |calls| - i
  {
    if i < |calls| && !aborted(i) {
      ReachedAll(calls, aborted, i + 1);
    }
  }

  /** The scripts by which the calls of a reply are answered. */
  function Answering(turn: Turn): nat -> ToolScript {
    if turn.reply.stop.Length? then CutOff else turn.tools
  }

  /** How many calls of the reply are answered: all when they are refused, none after a fatal reply. */
  function Answered(turn: Turn): (n: nat)
    ensures n <= |turn.reply.calls|
  {
    if Fatal(turn.reply) then 0
    else if turn.reply.stop.Length? then |turn.reply.calls|
    else Reached(turn.reply.calls, turn.aborted, 0)
  }

  function ToolResults(turn: Turn): seq<Message> {
    Results(turn.reply.calls, Answering(turn), Answered(turn))
  }

  lemma AnsweredWhole(turn: Turn)
    requires !Fatal(turn.reply)
    ensures Answered(turn) == |turn.reply.calls| <==> Whole(turn)
  {
    ReachedAll(turn.reply.calls, turn.aborted, 0);
  }

  /** The results answer the first calls of the reply, in order. */
  lemma ToolResultsAnswer(turn: Turn)
    ensures |ToolResults(turn)| == Answered(turn) && Answers(ToolResults(turn), turn.reply.calls[..Answered(turn)])
  {
    ResultsAnswer(turn.reply.calls, Answering(turn), Answered(turn));
  }

  /** A batch runs as its reply and its tools demand: refused or in order, or interleaved. */
  ghost predicate Executed(turn: Turn, events: seq<Event>) {
    if turn.reply.stop.Length? || turn.sequential
      then events == InTurns(turn.reply.calls, Answering(turn), Answered(turn))
    else exists owners :: Interleaving(events, owners, turn.reply.calls, turn.tools, ToolResults(turn))
  }

  /** The loop goes on after a batch, unless every tool in it asks to stop; a refused batch never does. */
  predicate Continues(turn: Turn) {
    turn.reply.stop.Length? || !ShouldTerminate(Outcomes(turn.tools, Answered(turn)))
  }

  /** The calls of a reply are refused, executed in order, or interleaved. */
  method ExecuteToolCalls(turn: Turn) returns (events: seq<Event>, results: seq<Message>, terminate: bool)
    requires !Fatal(turn.reply)
    ensures results == ToolResults(turn) && Batch(events, results) && Executed(turn, events)
    ensures terminate <==> !Continues(turn)
  {
    var calls := turn.reply.calls;
    if turn.reply.stop.Length? {
      events, results, terminate := FailTruncated(calls);
    } else if turn.sequential {
      events, results, terminate := ExecuteSequential(calls, turn.tools, turn.aborted);
      ReachesIsReached(|results|, calls, turn.aborted, 0);
    } else {
      var owners;
      events, owners, results, terminate := ExecuteParallel(calls, turn.tools, turn.aborted);
      ReachesIsReached(|results|, calls, turn.aborted, 0);
    }
  }

  /** The messages that a turn adds: the injected ones, the reply, and the results of its calls. */
  function Added(pending: seq<Message>, reply: Reply, results: seq<Message>): seq<Message> {
    pending + [Assistant(reply)] + results
  }

  method Inject(context: seq<Message>, pending: seq<Message>) returns (after: seq<Message>, events: seq<Event>)
    ensures after == context + pending && events == Announce(pending)
  {
    after, events := context, [];
    for i := 0 to |pending|
      invariant after == context + pending[..i] && events == Announce(pending[..i])
    {
      AnnounceSnoc(pending[..i], pending[i]);
      assert pending[..i + 1] == pending[..i] + [pending[i]];
      events := events + [MessageStart(pending[i]), MessageEnd(pending[i])];
      after := after + [pending[i]];
    }
    assert pending[..|pending|] == pending;
  }

  /** Whether the loop has tool calls to go on with after a turn. */
  predicate HasMore(turn: Turn) {
    !Fatal(turn.reply) && turn.reply.calls != [] && Continues(turn)
  }

  /** The events of a turn between its start and its end: what is injected, the streamed reply, and the batch of its
      calls. */
  ghost predicate Played(pending: seq<Message>, turn: Turn, events: seq<Event>, executed: seq<Event>) {
    && events == Announce(pending) + StreamedEvents(turn.stream, turn.reply) + executed
    && if Fatal(turn.reply) || turn.reply.calls == [] then executed == [] else Executed(turn, executed)
  }

  /** Injects what is pending, hands the context to the model, streams its reply and answers its calls. */
  method TakeTurn(context: seq<Message>, pending: seq<Message>, turn: Turn)
    returns (events: seq<Event>, request: seq<Message>, results: seq<Message>, hasMoreToolCalls: bool,
             after: seq<Message>, executed: seq<Event>)
    requires Starts(turn.stream) <= 1
    ensures request == context + pending && results == ToolResults(turn)
    ensures after == context + Added(pending, turn.reply, results)
    ensures Played(pending, turn, events, executed)
    ensures Batch(events, Added(pending, turn.reply, results))
    ensures hasMoreToolCalls <==> HasMore(turn)
  {
    request, events, after := Converse(context, pending, turn);
    results, hasMoreToolCalls, executed := [], false, [];
    if !Fatal(turn.reply) && turn.reply.calls != [] {
      var terminate;
      executed, results, terminate := ExecuteToolCalls(turn);
      BatchAppend(events, pending + [Assistant(turn.reply)], executed, results);
      events, hasMoreToolCalls := events + executed, !terminate;
      after := after + results;
    }
  }

  /** The first half of a turn: injected messages and the reply. */
  method Converse(context: seq<Message>, pending: seq<Message>, turn: Turn)
    returns (request: seq<Message>, events: seq<Event>, after: seq<Message>)
    requires Starts(turn.stream) <= 1
    ensures request == context + pending && after == context + (pending + [Assistant(turn.reply)])
    ensures events == Announce(pending) + StreamedEvents(turn.stream, turn.reply)
    ensures Batch(events, pending + [Assistant(turn.reply)])
  {
    request, events := Inject(context, pending);
    var streamed;
    after, streamed := StreamAssistantResponse(request, turn.stream, turn.reply);
    LeftoversCount(turn.stream, None);
    StreamedTrace(turn.stream, turn.reply);
    BatchAnnounce(pending);
    BatchAppend(events, pending, streamed, [Assistant(turn.reply)]);
    events := events + streamed;
  }

  lemma InjectionKeepsWellFormed(context: seq<Message>, pending: seq<Message>)
    requires WellFormed(context) && AllStandalone(pending)
    ensures WellFormed(context + pending)
  {
    StandaloneIsWellFormed(pending);
    WellFormedAppend(context, pending);
  }

  /** After a well-formed context, a reply keeps it so exactly when every call of the reply is answered. */
  lemma ReplyKeepsWellFormed(context: seq<Message>, reply: Reply, results: seq<Message>)
    requires WellFormed(context)
    requires |results| <= |reply.calls| && Answers(results, reply.calls[..|results|])
    ensures WellFormed(context + ([Assistant(reply)] + results)) <==> |results| == |reply.calls|
  {
    AnsweredReply(reply, results);
    WellFormedAppend(context, [Assistant(reply)] + results);
  }
}
