/** The stateful wrapper: it rebuilds the transcript from the events of its runs and owns the two queues. */
module Agent {
  import opened Basics
  import opened AgentEvents
  import opened AgentQueue
  import opened AgentLoop
  import opened AgentScript
  import opened AgentRuns
  import opened AgentConversation

  /** The message shown as streaming after an event. */
  function Streamed(message: Option<Message>, event: Event): Option<Message> {
    if event.MessageStart? || event.MessageUpdate? then Some(event.message)
    else if event.MessageEnd? || event.AgentEnd? then None
    else message
  }

  /** In a trace in the grammar a message is shown exactly while it is open. */
  ghost predicate ShownWhileOpen(t: Tracker, message: Option<Message>) {
    t.phase != Broken ==> (message.Some? <==> t.phase == InMessage)
  }

  lemma StreamedFollows(t: Tracker, message: Option<Message>, event: Event)
    requires ShownWhileOpen(t, message)
    ensures ShownWhileOpen(Advance(t, event), Streamed(message, event))
    ensures Advance(Tracker(Begin, t.pending), event).pending == Advance(t, event).pending
  {
  }

  /** How an operation that runs is answered: the agent shows what the operation makes of what it showed, and says
      whether the run has returned; the transcript has grown by the new messages; the events are those of the run, turn
      by turn. */
  ghost predicate Accounted(before: Conversation, op: Op, after: Conversation, returned: bool, events: seq<Event>,
                            rounds: seq<Round>, newMessages: seq<Message>)
  {
    && Runs(before, op) && after == Performed(before, op) && returned == Returns(before, op)
    && newMessages == Launched(before, op).prompts + CourseBy(before, op).head.run.added
    && after.messages == before.messages + newMessages
    && Delivered(events, Launched(before, op).prompts, op.turns, rounds, CourseBy(before, op))
  }

  class Agent {
    var messages: seq<Message>
    var isStreaming: bool
    var streamingMessage: Option<Message>
    var pendingToolCalls: set<string>
    var activeRun: bool
    const steeringQueue: PendingMessageQueue
    const followUpQueue: PendingMessageQueue
    /** Where the messages of the transcript come from. */
    ghost var origins: seq<Origin>

    /** Between runs nothing is streaming or pending. */
    ghost predicate Idle()
      reads this
    {
      !activeRun && !isStreaming && streamingMessage.None? && pendingToolCalls == {}
    }

    ghost predicate Valid()
      reads this
    {
      steeringQueue != followUpQueue && |origins| == |messages| && (!activeRun ==> Idle())
    }

    ghost function View(): Conversation
      reads this, steeringQueue, followUpQueue
    {
      Conversation(messages, origins, Held(steeringQueue, followUpQueue))
    }

    constructor (initial: seq<Message>, steeringMode: QueueMode, followUpMode: QueueMode)
      ensures Valid() && Idle() && fresh(steeringQueue) && fresh(followUpQueue)
      ensures View() == Conversation(initial, Repeat(Prompted, |initial|), Queues([], steeringMode, [], followUpMode))
    {
      messages, isStreaming, streamingMessage, pendingToolCalls, activeRun := initial, false, None, {}, false;
      origins := Repeat(Prompted, |initial|);
      steeringQueue := new PendingMessageQueue(steeringMode);
      followUpQueue := new PendingMessageQueue(followUpMode);
    }

    method Steer(message: Message)
      requires Valid()
      modifies steeringQueue
      ensures View() == Performed(old(View()), Steering(message))
    {
      steeringQueue.Enqueue(message);
    }

    method FollowUp(message: Message)
      requires Valid()
      modifies followUpQueue
      ensures View() == Performed(old(View()), FollowingUp(message))
    {
      followUpQueue.Enqueue(message);
    }

    method SetSteeringMode(mode: QueueMode)
      requires Valid()
      modifies steeringQueue
      ensures View() == Performed(old(View()), SteeringBy(mode))
    {
      steeringQueue.mode := mode;
    }

    method SetFollowUpMode(mode: QueueMode)
      requires Valid()
      modifies followUpQueue
      ensures View() == Performed(old(View()), FollowingUpBy(mode))
    {
      followUpQueue.mode := mode;
    }

    method Reset() returns (r: Result<(), Refusal>)
      requires Valid()
      modifies this, steeringQueue, followUpQueue
      ensures r == if old(activeRun) then Err(Busy) else Ok(())
      ensures r.Err? ==> unchanged(this) && unchanged(steeringQueue) && unchanged(followUpQueue)
      ensures r.Ok? ==>
        var q := old(View()).queues;
        Valid() && Idle() && View() == Conversation([], [], Queues([], q.steeringMode, [], q.followUpMode))
    {
      if activeRun {
        return Err(Busy);
      }
      messages, isStreaming, streamingMessage, pendingToolCalls := [], false, None, {};
      origins := [];
      followUpQueue.Clear();
      steeringQueue.Clear();
      r := Ok(());
    }

    // ---- The reducer ----

    method ProcessEvent(event: Event)
      requires activeRun
      modifies this`messages, this`streamingMessage, this`pendingToolCalls
      ensures messages == old(messages) + (if event.MessageEnd? then [event.message] else [])
      ensures pendingToolCalls == Advance(Tracker(Begin, old(pendingToolCalls)), event).pending
      ensures streamingMessage == Streamed(old(streamingMessage), event)
    {
      match event
      case MessageStart(message) => streamingMessage := Some(message);
      case MessageUpdate(message) => streamingMessage := Some(message);
      case MessageEnd(message) =>
        streamingMessage := None;
        messages := messages + [message];
      case ToolStart(call) => pendingToolCalls := pendingToolCalls + {call.id};
      case ToolEnd(call, _) => pendingToolCalls := pendingToolCalls - {call.id};
      case AgentEnd(_) => streamingMessage := None;
      case _ =>
    }

    /** The reducer appends exactly the completed messages, follows the pending calls, and shows a message as streaming
        exactly while one is open. */
    method ProcessEvents(events: seq<Event>, ghost start: Tracker)
      requires activeRun && start.phase != InMessage && streamingMessage.None? && pendingToolCalls == start.pending
      modifies this`messages, this`streamingMessage, this`pendingToolCalls
      ensures messages == old(messages) + Completed(events)
      ensures pendingToolCalls == Track(start, events).pending
      ensures ShownWhileOpen(Track(start, events), streamingMessage)
    {
      for i := 0 to |events|
        invariant messages == old(messages) + Completed(events[..i])
        invariant pendingToolCalls == Track(start, events[..i]).pending
        invariant ShownWhileOpen(Track(start, events[..i]), streamingMessage)
      {
        assert events[..i + 1] == events[..i] + [events[i]];
        TrackSnoc(start, events[..i], events[i]);
        CompletedSnoc(events[..i], events[i]);
        StreamedFollows(Track(start, events[..i]), streamingMessage, events[i]);
        ProcessEvent(events[i]);
      }
      assert events[..|events|] == events;
    }

    // ---- Runs ----

    method FinishRun()
      modifies this`isStreaming, this`streamingMessage, this`pendingToolCalls, this`activeRun
      ensures Idle()
    {
      isStreaming, streamingMessage, pendingToolCalls, activeRun := false, None, {}, false;
    }

    /** The events of a run are reduced; a run that has returned is finished. */
    method Absorb(events: seq<Event>, ghost newMessages: seq<Message>, ghost sources: seq<Origin>, returned: bool)
      requires Valid() && activeRun && streamingMessage.None? && pendingToolCalls == {}
      requires Completed(events) == newMessages && |sources| == |newMessages|
      requires Track(Outset, events) in {Turning, Idling, Over}
      modifies this
      ensures Valid() && activeRun == !returned
      ensures messages == old(messages) + newMessages && origins == old(origins) + sources
    {
      ProcessEvents(events, Outset);
      origins := origins + sources;
      if returned {
        FinishRun();
      }
    }

    /** Runs the loop for new prompts. What the agent shows afterwards is what the course of the run makes of it; the
        events are those of the course, and the transcript grows by exactly the messages that they complete. */
    method RunPromptMessages(prompts: seq<Message>, opening: Arrivals, turns: seq<Turn>, skipInitialSteeringPoll: bool,
                             ghost origin: Origin)
      returns (returned: bool, events: seq<Event>, newMessages: seq<Message>, ghost rounds: seq<Round>)
      requires Valid() && !activeRun && StartsOnce(turns)
      modifies this, steeringQueue, followUpQueue
      ensures Valid() && activeRun == !returned
      ensures var launch := Launch(prompts, origin, old(View()).queues, skipInitialSteeringPoll);
        var o := CourseFrom(old(View()), launch, opening, turns);
        && returned == o.returned && newMessages == prompts + o.head.run.added
        && View() == Grown(old(View()), launch, o.head) && Delivered(events, prompts, turns, rounds, o)
      ensures messages == old(messages) + newMessages
    {
      activeRun, isStreaming, streamingMessage := true, true, None;
      var run;
      returned, events, newMessages, run, rounds :=
        RunAgentLoop(prompts, messages, opening, turns, steeringQueue, followUpQueue, skipInitialSteeringPoll);
      ghost var sources := Repeat(origin, |prompts|) + run.origins;
      RunConserves(old(messages) + prompts, old(View()).queues, opening, skipInitialSteeringPoll, turns, Steered);
      Absorb(events, newMessages, sources, returned);
    }

    method RunContinuation(opening: Arrivals, turns: seq<Turn>)
      returns (returned: bool, events: seq<Event>, newMessages: seq<Message>, ghost rounds: seq<Round>)
      requires Valid() && !activeRun && StartsOnce(turns) && messages != [] && !EndsInReply(messages)
      modifies this, steeringQueue, followUpQueue
      ensures Valid() && activeRun == !returned
      ensures var launch := Launch([], Prompted, old(View()).queues, false);
        var o := CourseFrom(old(View()), launch, opening, turns);
        && returned == o.returned && newMessages == o.head.run.added
        && View() == Grown(old(View()), launch, o.head) && Delivered(events, [], turns, rounds, o)
      ensures messages == old(messages) + newMessages
    {
      activeRun, isStreaming, streamingMessage := true, true, None;
      var accepted, run;
      accepted, returned, events, newMessages, run, rounds :=
        RunAgentLoopContinue(messages, opening, turns, steeringQueue, followUpQueue);
      RunConserves(old(messages) + [], old(View()).queues, opening, false, turns, Steered);
      GrownWithoutPrompts(old(View()), old(View()).queues, Head(run, Held(steeringQueue, followUpQueue)));
      assert [] + run.added == run.added;
      Absorb(events, newMessages, run.origins, returned);
    }

    /** A prompt is refused exactly while a run is active; otherwise it is performed. */
    method Prompt(prompts: seq<Message>, opening: Arrivals, turns: seq<Turn>)
      returns (r: Result<bool, Refusal>, events: seq<Event>, newMessages: seq<Message>, ghost rounds: seq<Round>)
      requires Valid() && StartsOnce(turns)
      modifies this, steeringQueue, followUpQueue
      ensures r.Err? <==> old(activeRun)
      ensures r.Err? ==> r.error == Busy && unchanged(this) && unchanged(steeringQueue) && unchanged(followUpQueue)
      ensures r.Ok? ==>
        Accounted(old(View()), Prompting(prompts, opening, turns), View(), r.value, events, rounds, newMessages)
      ensures Valid() && (r.Ok? ==> activeRun == !r.value)
    {
      if activeRun {
        return Err(Busy), [], [], [];
      }
      var returned;
      returned, events, newMessages, rounds := RunPromptMessages(prompts, opening, turns, false, Prompted);
      r := Ok(returned);
    }

    /** Goes on from the transcript; refused while a run is active and when there is nothing to go on from. */
    method Continue(opening: Arrivals, turns: seq<Turn>)
      returns (r: Result<bool, Refusal>, events: seq<Event>, newMessages: seq<Message>, ghost rounds: seq<Round>)
      requires Valid() && StartsOnce(turns)
      modifies this, steeringQueue, followUpQueue
      ensures r.Err? <==> old(activeRun) || Refused(old(messages), old(View()).queues).Some?
      ensures r.Err? ==> Some(r.error) == if old(activeRun) then Some(Busy)
        else Refused(old(messages), old(View()).queues)
      ensures r.Err? ==> unchanged(this) && View() == old(View())
      ensures r.Ok? ==> Accounted(old(View()), Continuing(opening, turns), View(), r.value, events, rounds, newMessages)
      ensures !old(activeRun) ==> View() == Performed(old(View()), Continuing(opening, turns))
      ensures Valid() && (r.Ok? ==> activeRun == !r.value)
    {
      events, newMessages, rounds := [], [], [];
      if activeRun {
        return Err(Busy), [], [], [];
      }
      if messages == [] {
        return Err(NothingToContinue), [], [], [];
      }
      var returned;
      if messages[|messages| - 1].Assistant? {
        var queuedSteering := steeringQueue.Drain();
        if |queuedSteering| > 0 {
          returned, events, newMessages, rounds := RunPromptMessages(queuedSteering, opening, turns, true, Steered);
          r := Ok(returned);
          return;
        }
        var queuedFollowUps := followUpQueue.Drain();
        if |queuedFollowUps| > 0 {
          returned, events, newMessages, rounds := RunPromptMessages(queuedFollowUps, opening, turns, false, Followed);
          r := Ok(returned);
          return;
        }
        return Err(LastIsReply), [], [], [];
      }
      returned, events, newMessages, rounds := RunContinuation(opening, turns);
      r := Ok(returned);
    }
  }
}
