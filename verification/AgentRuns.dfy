/** Whole runs of the agent loop. */
module AgentRuns {
  import opened Basics
  import opened AgentEvents
  import opened AgentTools
  import opened AgentQueue
  import opened AgentLoop
  import opened AgentScript

  const Idling := Tracker(Between, {})
  const Over := Tracker(Finished, {})

  // ---- The trace of a run ----

  ghost predicate Traced(events: seq<Event>, at: Tracker, added: seq<Message>) {
    Track(Turning, events) == at && Completed(events) == added
  }

  lemma TracedTurn(events: seq<Event>, added: seq<Message>, batch: seq<Event>, more: seq<Message>, end: Event)
    requires Traced(events, Turning, added) && Batch(batch, more) && end.TurnEnd?
    ensures Traced(events + batch + [end], Idling, added + more)
  {
    TrackAppend(Turning, events, batch);
    CompletedAppend(events, batch);
    TrackSnoc(Turning, events + batch, end);
    CompletedSnoc(events + batch, end);
  }

  lemma TracedStart(events: seq<Event>, added: seq<Message>)
    requires Traced(events, Idling, added)
    ensures Traced(events + [TurnStart], Turning, added)
  {
    TrackSnoc(Turning, events, TurnStart);
    CompletedSnoc(events, TurnStart);
  }

  lemma TracedEnd(events: seq<Event>, added: seq<Message>, newMessages: seq<Message>)
    requires Traced(events, Idling, added)
    ensures Traced(events + [AgentEnd(newMessages)], Over, added)
  {
    TrackSnoc(Turning, events, AgentEnd(newMessages));
    CompletedSnoc(events, AgentEnd(newMessages));
  }

  /** The events of one turn as it was played, and the part of them that its tool calls gave. */
  datatype Round = Round(played: seq<Event>, executed: seq<Event>)

  function TurnEvents(turn: Turn, first: bool, played: seq<Event>): seq<Event> {
    (if first then [] else [TurnStart]) + played + [TurnEnd(Assistant(turn.reply), ToolResults(turn))]
  }

  /** The events of the first turns; the start of the very first one belongs to the opening. */
  function Trace(turns: seq<Turn>, rounds: seq<Round>): seq<Event>
    requires |rounds| <= |turns|
    decreases |rounds|
  {
    if rounds == [] then []
    else
      var n := |rounds| - 1;
      Trace(turns, rounds[..n]) + TurnEvents(turns[n], n == 0, rounds[n].played)
  }

  /** Every turn is played as its injections, its stream, its reply and its tools demand. */
  ghost predicate AllPlayed(injections: seq<seq<Message>>, turns: seq<Turn>, rounds: seq<Round>)
    decreases |rounds|
  {
    |rounds| == |injections| <= |turns| && (rounds != [] ==> LastIsPlayed(injections, turns, rounds))
  }

  /** The last turn is, and so are those before it. */
  ghost predicate LastIsPlayed(injections: seq<seq<Message>>, turns: seq<Turn>, rounds: seq<Round>)
    requires 0 < |rounds| == |injections| <= |turns|
    decreases |rounds|, 0
  {
    var n := |rounds| - 1;
    && Played(injections[n], turns[n], rounds[n].played, rounds[n].executed)
    && AllPlayed(injections[..n], turns, rounds[..n])
  }

  lemma {:induction false} EachIsPlayed(injections: seq<seq<Message>>, turns: seq<Turn>, rounds: seq<Round>, k: nat)
    requires AllPlayed(injections, turns, rounds) && k < |rounds|
    ensures Played(injections[k], turns[k], rounds[k].played, rounds[k].executed)
    decreases |rounds|
  {
    assert LastIsPlayed(injections, turns, rounds);
    var n := |rounds| - 1;
    if k < n {
      EachIsPlayed(injections[..n], turns, rounds[..n], k);
    }
  }

  lemma AllPlayedNext(injections: seq<seq<Message>>, turns: seq<Turn>, rounds: seq<Round>, pending: seq<Message>,
                      round: Round)
    requires AllPlayed(injections, turns, rounds) && |rounds| < |turns|
    requires Played(pending, turns[|rounds|], round.played, round.executed)
    ensures AllPlayed(injections + [pending], turns, rounds + [round])
  {
    assert (injections + [pending])[..|rounds|] == injections && (rounds + [round])[..|rounds|] == rounds;
    assert LastIsPlayed(injections + [pending], turns, rounds + [round]);
  }

  /** The events of a run so far: turn after turn, in the grammar, completing the messages it has added. */
  ghost predicate Logged(events: seq<Event>, run: Run, turns: seq<Turn>, rounds: seq<Round>) {
    && AllPlayed(run.injections, turns, rounds) && events == Trace(turns, rounds)
    && Traced(events, if rounds == [] then Turning else Idling, run.added)
  }

  lemma TraceNext(turns: seq<Turn>, rounds: seq<Round>, round: Round)
    requires |rounds| < |turns|
    ensures Trace(turns, rounds + [round])
      == Trace(turns, rounds) + TurnEvents(turns[|rounds|], rounds == [], round.played)
  {
    assert (rounds + [round])[..|rounds|] == rounds;
  }

  lemma LoggedNext(events: seq<Event>, run: Run, turns: seq<Turn>, rounds: seq<Round>, next: Run, round: Round)
    requires Logged(events, run, turns, rounds) && |rounds| < |turns|
    requires next.injections == run.injections + [run.pending]
    requires Played(run.pending, turns[|rounds|], round.played, round.executed)
    requires Traced(events + TurnEvents(turns[|rounds|], rounds == [], round.played), Idling, next.added)
    ensures Logged(events + TurnEvents(turns[|rounds|], rounds == [], round.played), next, turns, rounds + [round])
  {
    AllPlayedNext(run.injections, turns, rounds, run.pending, round);
    TraceNext(turns, rounds, round);
  }

  lemma LoggedAs(events: seq<Event>, run: Run, turns: seq<Turn>, rounds: seq<Round>, next: Run)
    requires Logged(events, run, turns, rounds) && next.injections == run.injections && next.added == run.added
    ensures Logged(events, next, turns, rounds)
  {
  }

  // ---- The loop ----

  ghost function Held(steering: PendingMessageQueue, followUp: PendingMessageQueue): Queues
    reads steering, followUp
  {
    Queues(steering.messages, steering.mode, followUp.messages, followUp.mode)
  }

  ghost predicate StartsOnce(turns: seq<Turn>) {
    forall t | t in turns :: Starts(t.stream) <= 1
  }

  /** One turn, with its start unless that was announced, and its end. */
  method RunTurn(run: Run, turn: Turn, events: seq<Event>, firstTurn: bool)
    returns (next: Run, after: seq<Event>, hasMoreToolCalls: bool, ghost round: Round)
    requires Starts(turn.stream) <= 1 && Traced(events, if firstTurn then Turning else Idling, run.added)
    ensures next == AfterTurn(run, turn) && (hasMoreToolCalls <==> HasMore(turn))
    ensures after == events + TurnEvents(turn, firstTurn, round.played)
    ensures Played(run.pending, turn, round.played, round.executed) && Traced(after, Idling, next.added)
  {
    var started := events;
    if !firstTurn {
      TracedStart(events, run.added);
      started := events + [TurnStart];
    }
    var played, request, results, context, executed;
    played, request, results, hasMoreToolCalls, context, executed := TakeTurn(run.context, run.pending, turn);
    round := Round(played, executed);
    var added := Added(run.pending, turn.reply, results);
    TracedTurn(started, run.added, played, added, TurnEnd(Assistant(turn.reply), results));
    after := started + played + [TurnEnd(Assistant(turn.reply), results)];
    JoinedTurn(events, turn, firstTurn, played);
    next := Run(context, run.added + added, run.origins + Origins(run.from, |run.pending|, |results|),
      run.injections + [run.pending], run.requests + [request], [], run.from);
  }

  lemma JoinedTurn(events: seq<Event>, turn: Turn, first: bool, played: seq<Event>)
    ensures var end := [TurnEnd(Assistant(turn.reply), ToolResults(turn))];
      (if first then events else events + [TurnStart]) + played + end == events + TurnEvents(turn, first, played)
  {
  }

  method ReceiveBoth(arrivals: Arrivals, steering: PendingMessageQueue, followUp: PendingMessageQueue)
    requires steering != followUp
    modifies steering, followUp
    ensures Held(steering, followUp) == Arrive(old(Held(steering, followUp)), arrivals)
  {
    steering.Receive(arrivals.steered);
    followUp.Receive(arrivals.followed);
  }

  /** After a turn: what has arrived is in the queues; the run stops, or its context may be replaced and steering is
      polled. */
  method EndTurn(run: Run, turn: Turn, steering: PendingMessageQueue, followUp: PendingMessageQueue)
    returns (stopped: bool, next: Run)
    requires steering != followUp
    modifies steering, followUp
    ensures stopped <==> Stops(turn)
    ensures var closed := Later(Head(Replaced(run, turn), old(Held(steering, followUp))), turn.arrived);
      Head(next, Held(steering, followUp)) == if stopped then closed else Polled(closed, turn)
  {
    next, stopped := run, true;
    ReceiveBoth(turn.arrived, steering, followUp);
    if Fatal(turn.reply) {
      return;
    }
    if turn.replacement.Some? {
      next := next.(context := turn.replacement.value);
    }
    if turn.stop {
      return;
    }
    var polled := steering.Drain();
    next, stopped := next.(pending := polled, from := Steered), false;
    ReceiveBoth(turn.late, steering, followUp);
  }

  /** How the inner loop ends: by a stop, with nothing left for it to do, or with the turns of the environment. */
  datatype Exit = Returned | Exhausted | OutOfTurns

  /** The rest of the course, at the head of the inner loop and when it has ended. */
  ghost function CourseAt(exit: Exit, hasMoreToolCalls: bool, h: Head, turns: seq<Turn>, k: nat): Course
    requires k <= |turns|
  {
    match exit
    case Returned => Course(h, turns[k..], true)
    case OutOfTurns => Course(h, [], false)
    case Exhausted => if hasMoreToolCalls || h.run.pending != [] then Inner(h, turns[k..]) else Outer(h, turns[k..])
  }

  lemma CourseGoesOn(hasMoreToolCalls: bool, h: Head, turns: seq<Turn>, k: nat)
    requires k <= |turns| && (hasMoreToolCalls || h.run.pending != [])
    ensures CourseAt(Exhausted, hasMoreToolCalls, h, turns, k) ==
      if k == |turns| then CourseAt(OutOfTurns, hasMoreToolCalls, h, turns, k)
      else Onward(turns[k], Closed(h, turns[k]), turns[k + 1..])
  {
    if k == |turns| {
      assert turns[k..] == [];
    } else {
      InnerAt(h, turns, k);
    }
  }

  /** One pass of the inner loop takes one turn of the course, if the environment has another one. */
  method Pass(run: Run, hasMore: bool, turns: seq<Turn>, events: seq<Event>, ghost rounds: seq<Round>, k: nat,
              steering: PendingMessageQueue, followUp: PendingMessageQueue)
    returns (exit: Exit, next: Run, after: seq<Event>, hasMoreToolCalls: bool, ghost more: seq<Round>)
    requires steering != followUp && StartsOnce(turns) && k == |rounds| <= |turns|
    requires Logged(events, run, turns, rounds) && (hasMore || run.pending != [])
    modifies steering, followUp
    ensures exit.OutOfTurns? <==> k == |turns|
    ensures Logged(after, next, turns, more) && |more| == (if k == |turns| then k else k + 1)
    ensures CourseAt(Exhausted, hasMore, Head(run, old(Held(steering, followUp))), turns, k) ==
      CourseAt(exit, hasMoreToolCalls, Head(next, Held(steering, followUp)), turns, |more|)
  {
    CourseGoesOn(hasMore, Head(run, Held(steering, followUp)), turns, k);
    if k == |turns| {
      return OutOfTurns, run, events, hasMore, rounds;
    }
    assert turns[k] in turns;
    var taken;
    ghost var round;
    taken, after, hasMoreToolCalls, round := RunTurn(run, turns[k], events, k == 0);
    more := rounds + [round];
    LoggedNext(events, run, turns, rounds, taken, round);
    var stopped;
    stopped, next := EndTurn(taken, turns[k], steering, followUp);
    exit := if stopped then Returned else Exhausted;
    LoggedAs(after, taken, turns, more, next);
  }

  /** The inner loop: turns until one stops the run, no tool call and no steering message is left, or the environment
      ends. */
  method RunInner(initial: Run, before: seq<Event>, ghost played: seq<Round>, turns: seq<Turn>, start: nat,
                  steering: PendingMessageQueue, followUp: PendingMessageQueue)
    returns (exit: Exit, run: Run, events: seq<Event>, k: nat, ghost rounds: seq<Round>)
    requires steering != followUp && StartsOnce(turns) && start == |played| <= |turns|
    requires Logged(before, initial, turns, played)
    modifies steering, followUp
    ensures start <= k == |rounds| <= |turns| && (exit.Returned? ==> k > 0)
    ensures CourseAt(Exhausted, true, Head(initial, old(Held(steering, followUp))), turns, start) ==
      CourseAt(exit, false, Head(run, Held(steering, followUp)), turns, k)
    ensures exit.Exhausted? ==> start < k && run.pending == []
    ensures exit.OutOfTurns? ==> k == |turns|
    ensures Logged(events, run, turns, rounds)
  {
    run, events, rounds, k, exit := initial, before, played, start, Exhausted;
    var hasMoreToolCalls := true;
    ghost var course := CourseAt(exit, true, Head(run, Held(steering, followUp)), turns, k);
    while exit.Exhausted? && (hasMoreToolCalls || |run.pending| > 0)
      invariant start <= k == |rounds| <= |turns| && (k == start && exit.Exhausted? ==> hasMoreToolCalls)
      invariant course == CourseAt(exit, hasMoreToolCalls, Head(run, Held(steering, followUp)), turns, k)
      invariant Logged(events, run, turns, rounds)
      invariant (exit.OutOfTurns? ==> k == |turns|) && (exit.Returned? ==> k > 0)
      decreases |turns| - k, exit.Exhausted?
    {
      exit, run, events, hasMoreToolCalls, rounds :=
        Pass(run, hasMoreToolCalls, turns, events, rounds, k, steering, followUp);
      k := if exit.OutOfTurns? then k else k + 1;
    }
  }

  /** What the loops emit: the turns, one after the other, and after a return the end of the run with its new
      messages. */
  ghost predicate Emitted(events: seq<Event>, turns: seq<Turn>, rounds: seq<Round>, run: Run,
                          newMessages: seq<Message>, returned: bool)
  {
    && AllPlayed(run.injections, turns, rounds)
    && events == Trace(turns, rounds) + (if returned then [AgentEnd(newMessages)] else [])
    && Traced(events, if returned then Over else if rounds == [] then Turning else Idling, run.added)
  }

  lemma LoggedEnds(events: seq<Event>, run: Run, turns: seq<Turn>, rounds: seq<Round>, newMessages: seq<Message>)
    requires Logged(events, run, turns, rounds)
    ensures rounds != [] ==> Emitted(events + [AgentEnd(newMessages)], turns, rounds, run, newMessages, true)
    ensures Emitted(events, turns, rounds, run, newMessages, false)
  {
    if rounds != [] {
      TracedEnd(events, run.added, newMessages);
    }
    assert events + [] == events;
  }

  /** The nested loops compute the course of the run, and emit its turns. */
  method RunLoop(initialContext: seq<Message>, newMessages: seq<Message>, opening: Arrivals, turns: seq<Turn>,
                 steering: PendingMessageQueue, followUp: PendingMessageQueue, skipInitialSteeringPoll: bool)
    returns (returned: bool, run: Run, events: seq<Event>, ghost course: Course, ghost rounds: seq<Round>)
    requires steering != followUp && StartsOnce(turns)
    modifies steering, followUp
    ensures course == Inner(FirstHead(initialContext, old(Held(steering, followUp)), opening, skipInitialSteeringPoll),
      turns)
    ensures returned == course.returned && Head(run, Held(steering, followUp)) == course.head
    ensures Emitted(events, turns, rounds, run, newMessages + run.added, returned)
  {
    run, events, rounds := Run(initialContext, [], [], [], [], [], Steered), [], [];
    ReceiveBoth(opening, steering, followUp);
    if !skipInitialSteeringPoll {
      var polled := steering.Drain();
      run := run.(pending := polled);
    }
    course := Inner(Head(run, Held(steering, followUp)), turns);
    var k, exit := 0, Exhausted;
    assert turns[0..] == turns;
    while true
      invariant k == |rounds| <= |turns|
      invariant course == CourseAt(Exhausted, true, Head(run, Held(steering, followUp)), turns, k)
      invariant Logged(events, run, turns, rounds)
      decreases |turns| - k
    {
      exit, run, events, k, rounds := RunInner(run, events, rounds, turns, k, steering, followUp);
      LoggedEnds(events, run, turns, rounds, newMessages + run.added);
      if !exit.Exhausted? {
        returned := exit.Returned?;
        if returned {
          events := events + [AgentEnd(newMessages + run.added)];
        }
        return;
      }
      var followUpMessages := followUp.Drain();
      LoggedAs(events, run, turns, rounds, run.(pending := followUpMessages, from := Followed));
      run := run.(pending := followUpMessages, from := Followed);
      if |followUpMessages| > 0 {
        continue;
      }
      break;
    }
    LoggedEnds(events, run, turns, rounds, newMessages + run.added);
    events := events + [AgentEnd(newMessages + run.added)];
    returned := true;
  }

  /** The events before the first poll. */
  function Opening(prompts: seq<Message>): seq<Event> {
    [AgentStart, TurnStart] + Announce(prompts)
  }

  /** The events of a run by its course: the opening; each turn taken, with its stream and its tool executions; and at
      the end the new messages. They are in the grammar and complete exactly the new messages. */
  ghost predicate Delivered(events: seq<Event>, prompts: seq<Message>, turns: seq<Turn>, rounds: seq<Round>, o: Course)
  {
    var newMessages := prompts + o.head.run.added;
    && AllPlayed(o.head.run.injections, turns, rounds)
    && events == Opening(prompts) + (Trace(turns, rounds) + (if o.returned then [AgentEnd(newMessages)] else []))
    && Completed(events) == newMessages
    && Track(Outset, events) == if o.returned then Over else if rounds == [] then Turning else Idling
  }

  lemma OpeningIsTraced(prompts: seq<Message>, events: seq<Event>, at: Tracker, added: seq<Message>)
    requires Traced(events, at, added)
    ensures Track(Outset, Opening(prompts) + events) == at && Completed(Opening(prompts) + events) == prompts + added
  {
    var first, second := [AgentStart], [AgentStart, TurnStart];
    assert first[..0] == [] && second[..1] == first;
    assert Track(Outset, second) == Turning && Completed(second) == [];
    BatchAnnounce(prompts);
    TrackAppend(Outset, second, Announce(prompts));
    CompletedAppend(second, Announce(prompts));
    TrackAppend(Outset, Opening(prompts), events);
    CompletedAppend(Opening(prompts), events);
  }

  /** A run for new prompts: it computes its course, and delivers its events and new messages. */
  method RunAgentLoop(prompts: seq<Message>, context: seq<Message>, opening: Arrivals, turns: seq<Turn>,
                      steering: PendingMessageQueue, followUp: PendingMessageQueue, skipInitialSteeringPoll: bool)
    returns (returned: bool, events: seq<Event>, newMessages: seq<Message>, run: Run, ghost rounds: seq<Round>)
    requires steering != followUp && StartsOnce(turns)
    modifies steering, followUp
    ensures var o := CourseOf(context, prompts, old(Held(steering, followUp)), opening, skipInitialSteeringPoll, turns);
      && returned == o.returned && Head(run, Held(steering, followUp)) == o.head
      && newMessages == prompts + o.head.run.added && Delivered(events, prompts, turns, rounds, o)
  {
    events := [AgentStart] + [TurnStart];
    events := events + Announce(prompts);
    assert events == Opening(prompts);
    var more;
    ghost var course;
    returned, run, more, course, rounds :=
      RunLoop(context + prompts, prompts, opening, turns, steering, followUp, skipInitialSteeringPoll);
    OpeningIsTraced(prompts, more, if returned then Over else if rounds == [] then Turning else Idling, run.added);
    newMessages, events := prompts + run.added, events + more;
  }

  /** A run without new prompts, refused unless the last message of the context can be answered. */
  method RunAgentLoopContinue(context: seq<Message>, opening: Arrivals, turns: seq<Turn>,
                              steering: PendingMessageQueue, followUp: PendingMessageQueue)
    returns (accepted: bool, returned: bool, events: seq<Event>, newMessages: seq<Message>, run: Run,
             ghost rounds: seq<Round>)
    requires steering != followUp && StartsOnce(turns)
    modifies steering, followUp
    ensures accepted <==> context != [] && !context[|context| - 1].Assistant?
    ensures !accepted ==> !returned && unchanged(steering) && unchanged(followUp)
    ensures accepted ==>
      var o := CourseOf(context, [], old(Held(steering, followUp)), opening, false, turns);
      && returned == o.returned && Head(run, Held(steering, followUp)) == o.head
      && newMessages == o.head.run.added && Delivered(events, [], turns, rounds, o)
  {
    accepted := context != [] && !context[|context| - 1].Assistant?;
    if !accepted {
      returned, events, newMessages, run, rounds := false, [], [], Run([], [], [], [], [], [], Steered), [];
      return;
    }
    returned, events, newMessages, run, rounds := RunAgentLoop([], context, opening, turns, steering, followUp, false);
    assert [] + run.added == run.added;
  }
}
