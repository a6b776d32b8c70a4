/** What a run of the agent loop does, as a function of its environment, and what that function keeps. */
module AgentScript {
  import opened Basics
  import opened AgentEvents
  import opened AgentTools
  import opened AgentQueue
  import opened AgentLoop

  /** Where a message of a run comes from. */
  datatype Origin = Prompted | Steered | Followed | Produced

  datatype Queues = Queues(steering: seq<Message>, steeringMode: QueueMode, followUp: seq<Message>,
                           followUpMode: QueueMode)

  /** The queue that messages of an origin wait in. */
  function Lane(q: Queues, origin: Origin): seq<Message> {
    if origin == Steered then q.steering else q.followUp
  }

  /** What a run has done so far: the context it works on, the messages it added and where they come from, the messages
      it injected and the lists it handed to the model, turn by turn, and the messages still to be injected. */
  datatype Run = Run(
    context: seq<Message>, added: seq<Message>, origins: seq<Origin>, injections: seq<seq<Message>>,
    requests: seq<seq<Message>>, pending: seq<Message>, from: Origin)

  datatype Head = Head(run: Run, queues: Queues)

  /** Where a run gets with a number of turns: its state, the turns it did not take, and whether it has returned. */
  datatype Course = Course(head: Head, left: seq<Turn>, returned: bool)

  predicate Stops(turn: Turn) {
    Fatal(turn.reply) || turn.stop
  }

  function Origins(from: Origin, injected: nat, results: nat): seq<Origin> {
    Repeat(from, injected) + Repeat(Produced, 1 + results)
  }

  /** A turn hands the model the context with what is pending, and adds that, the reply and its results. */
  function AfterTurn(run: Run, turn: Turn): Run {
    var added := Added(run.pending, turn.reply, ToolResults(turn));
    Run(run.context + added, run.added + added, run.origins + Origins(run.from, |run.pending|, |ToolResults(turn)|),
      run.injections + [run.pending], run.requests + [run.context + run.pending], [], run.from)
  }

  function Arrive(q: Queues, a: Arrivals): Queues {
    Queues(q.steering + a.steered.messages, a.steered.mode, q.followUp + a.followed.messages, a.followed.mode)
  }

  function Later(h: Head, a: Arrivals): Head {
    Head(h.run, Arrive(h.queues, a))
  }

  /** After a turn that is not fatal the context may be replaced. */
  function Replaced(run: Run, turn: Turn): Run {
    if !Fatal(turn.reply) && turn.replacement.Some? then run.(context := turn.replacement.value) else run
  }

  function SteeringPolled(h: Head): Head {
    Head(h.run.(pending := Front(h.queues.steeringMode, h.queues.steering), from := Steered),
      h.queues.(steering := Rest(h.queues.steeringMode, h.queues.steering)))
  }

  function FollowUpsPolled(h: Head): Head {
    Head(h.run.(pending := Front(h.queues.followUpMode, h.queues.followUp), from := Followed),
      h.queues.(followUp := Rest(h.queues.followUpMode, h.queues.followUp)))
  }

  /** The end of a turn: its hooks have run, and what arrived during it is in the queues. */
  function Closed(h: Head, turn: Turn): Head {
    Later(Head(Replaced(AfterTurn(h.run, turn), turn), h.queues), turn.arrived)
  }

  /** After a turn that does not stop the run, the steering queue is polled, and more may arrive. */
  function Polled(closed: Head, turn: Turn): Head {
    Later(SteeringPolled(closed), turn.late)
  }

  function NextTurn(h: Head, turn: Turn): Head {
    Polled(Closed(h, turn), turn)
  }

  /** A run begins with what arrives while its opening events are emitted, and with its first poll unless that is
      skipped. */
  function FirstHead(context: seq<Message>, queues: Queues, opening: Arrivals, skipInitialSteeringPoll: bool): Head {
    var h := Later(Head(Run(context, [], [], [], [], [], Steered), queues), opening);
    if skipInitialSteeringPoll then h else SteeringPolled(h)
  }

  /** From the head of the inner loop, when a turn is due. */
  function Inner(h: Head, turns: seq<Turn>): Course
    decreases |turns|, 0
  {
    if turns == [] then Course(h, [], false)
    else Onward(turns[0], Closed(h, turns[0]), turns[1..])
  }

  /** From the end of a turn: the run stops there, or the steering queue is polled. */
  function Onward(turn: Turn, closed: Head, turns: seq<Turn>): Course
    decreases |turns|, 2
  {
    if Stops(turn) then Course(closed, turns, true)
    else
      var next := Polled(closed, turn);
      if HasMore(turn) || next.run.pending != [] then Inner(next, turns) else Outer(next, turns)
  }

  /** Where the agent would stop: follow-up messages start the inner loop again. */
  function Outer(h: Head, turns: seq<Turn>): Course
    decreases |turns|, 1
  {
    var next := FollowUpsPolled(h);
    if next.run.pending == [] then Course(next, turns, true) else Inner(next, turns)
  }

  lemma OuterIs(h: Head, turns: seq<Turn>)
    ensures var next := FollowUpsPolled(h);
      Outer(h, turns) == if next.run.pending == [] then Course(next, turns, true) else Inner(next, turns)
  {
  }

  lemma InnerAt(h: Head, turns: seq<Turn>, k: nat)
    requires k < |turns|
    ensures Inner(h, turns[k..]) == Onward(turns[k], Closed(h, turns[k]), turns[k + 1..])
  {
    assert turns[k..][0] == turns[k] && turns[k..][1..] == turns[k + 1..];
  }

  /** The turns that were taken. */
  function Taken(turns: seq<Turn>, o: Course): seq<Turn> {
    if |o.left| <= |turns| then turns[..|turns| - |o.left|] else []
  }

  // ---- When a run returns ----

  lemma TakenFirst(turns: seq<Turn>, o: Course)
    requires turns != [] && |o.left| < |turns|
    ensures Taken(turns, o) == [turns[0]] + Taken(turns[1..], o)
  {
  }

  /** Nothing is left to do: the last turn leaves no tool call to go on with, and the queues are empty but for steering
      messages that arrived after the last poll for them. */
  predicate NothingLeft(turn: Turn, q: Queues) {
    !HasMore(turn) && q.steering == turn.late.steered.messages && q.followUp == []
  }

  /** A run takes turns up to the first one that stops it or after which nothing is left; otherwise it takes them
      all. */
  ghost predicate Ends(taken: seq<Turn>, o: Course) {
    && (forall k | 0 <= k < |taken| - 1 :: !Stops(taken[k]))
    && (if o.returned then taken != [] && (Stops(taken[|taken| - 1]) || NothingLeft(taken[|taken| - 1], o.head.queues))
        else o.left == [] && forall t | t in taken :: !Stops(t))
  }

  lemma EndsFirst(turns: seq<Turn>, o: Course)
    requires turns != [] && |o.left| < |turns| && !Stops(turns[0])
    requires var rest := Taken(turns[1..], o);
      if rest == [] && o.returned then NothingLeft(turns[0], o.head.queues) else Ends(rest, o)
    ensures Ends(Taken(turns, o), o)
  {
    TakenFirst(turns, o);
    var rest, taken := Taken(turns[1..], o), Taken(turns, o);
    forall k | 0 <= k < |taken| - 1
      ensures !Stops(taken[k])
    {
      assert k > 0 ==> taken[k] == rest[k - 1];
    }
  }

  lemma {:induction false} InnerEnds(h: Head, turns: seq<Turn>)
    ensures var o := Inner(h, turns);
      |o.left| <= |turns| && (turns != [] ==> |o.left| < |turns|) && Ends(Taken(turns, o), o)
    decreases |turns|, 0
  {
    if turns != [] {
      var o, next := Inner(h, turns), NextTurn(h, turns[0]);
      if Stops(turns[0]) {
        assert Taken(turns, o) == [turns[0]];
      } else {
        if HasMore(turns[0]) || next.run.pending != [] {
          InnerEnds(next, turns[1..]);
        } else {
          OuterEnds(next, turns[1..]);
        }
        EndsFirst(turns, o);
      }
    }
  }

  lemma {:induction false} OuterEnds(h: Head, turns: seq<Turn>)
    ensures var o, taken := Outer(h, turns), Taken(turns, Outer(h, turns));
      && |o.left| <= |turns|
      && (if taken == [] && o.returned then o.head.queues.steering == h.queues.steering && o.head.queues.followUp == []
          else Ends(taken, o))
    decreases |turns|, 1
  {
    var next := FollowUpsPolled(h);
    if next.run.pending != [] {
      InnerEnds(next, turns);
    }
  }

  // ---- Conservation of queued messages ----

  predicate Queueing(origin: Origin) {
    origin == Steered || origin == Followed
  }

  function Carried(a: Arrivals, origin: Origin): seq<Message> {
    if origin == Steered then a.steered.messages else a.followed.messages
  }

  /** What arrives in a turn: after a turn that stops the run nothing comes late. */
  function ArrivedIn(turn: Turn, origin: Origin): seq<Message> {
    Carried(turn.arrived, origin) + (if Stops(turn) then [] else Carried(turn.late, origin))
  }

  function Arrived(turns: seq<Turn>, origin: Origin): seq<Message> {
    if turns == [] then [] else ArrivedIn(turns[0], origin) + Arrived(turns[1..], origin)
  }

  lemma ArrivedOnce(turn: Turn, origin: Origin)
    ensures Arrived([turn], origin) == ArrivedIn(turn, origin)
  {
    assert [turn][1..] == [];
    assert ArrivedIn(turn, origin) + [] == ArrivedIn(turn, origin);
  }

  /** The messages of one origin that a run has injected, in order, and those that are pending. */
  function Injected(run: Run, origin: Origin): seq<Message>
    requires |run.added| == |run.origins|
  {
    Select(run.added, run.origins, origin) + (if run.from == origin then run.pending else [])
  }

  predicate Labelled(run: Run) {
    |run.added| == |run.origins| && Queueing(run.from)
  }

  lemma AfterTurnInjects(run: Run, turn: Turn, origin: Origin)
    requires Labelled(run) && Queueing(origin)
    ensures Labelled(AfterTurn(run, turn)) && Injected(AfterTurn(run, turn), origin) == Injected(run, origin)
  {
    var results := ToolResults(turn);
    var produced := [Assistant(turn.reply)] + results;
    SelectAppend(run.added, run.origins, run.pending, run.from, origin);
    SelectAppend(run.added + run.pending, run.origins + Repeat(run.from, |run.pending|), produced, Produced, origin);
    assert run.added + Added(run.pending, turn.reply, results) == run.added + run.pending + produced;
    assert run.origins + Origins(run.from, |run.pending|, |results|)
        == run.origins + Repeat(run.from, |run.pending|) + Repeat(Produced, |produced|);
  }

  /** What has been injected or is pending, followed by what is queued. */
  function Through(h: Head, origin: Origin): seq<Message>
    requires Labelled(h.run)
  {
    Injected(h.run, origin) + Lane(h.queues, origin)
  }

  lemma LaterConserves(h: Head, a: Arrivals, origin: Origin)
    requires Labelled(h.run) && Queueing(origin)
    ensures Through(Later(h, a), origin) == Through(h, origin) + Carried(a, origin)
  {
    Joined(Injected(h.run, origin), Lane(h.queues, origin), Carried(a, origin));
  }

  lemma PollsConserve(h: Head, origin: Origin)
    requires Labelled(h.run) && h.run.pending == [] && Queueing(origin)
    ensures Labelled(SteeringPolled(h).run) && Through(SteeringPolled(h), origin) == Through(h, origin)
    ensures Labelled(FollowUpsPolled(h).run) && Through(FollowUpsPolled(h), origin) == Through(h, origin)
  {
    var q, shown := h.queues, Select(h.run.added, h.run.origins, origin);
    Joined(shown, Front(q.steeringMode, q.steering), Rest(q.steeringMode, q.steering));
    Joined(shown, Front(q.followUpMode, q.followUp), Rest(q.followUpMode, q.followUp));
  }

  lemma ClosedConserves(h: Head, turn: Turn, origin: Origin)
    requires Labelled(h.run) && Queueing(origin)
    ensures Labelled(Closed(h, turn).run) && Closed(h, turn).run.pending == []
    ensures Through(Closed(h, turn), origin) == Through(h, origin) + Carried(turn.arrived, origin)
  {
    AfterTurnInjects(h.run, turn, origin);
    LaterConserves(Head(Replaced(AfterTurn(h.run, turn), turn), h.queues), turn.arrived, origin);
  }

  lemma NextTurnConserves(h: Head, turn: Turn, origin: Origin)
    requires Labelled(h.run) && Queueing(origin) && !Stops(turn)
    ensures Labelled(NextTurn(h, turn).run) && NextTurn(h, turn).run.from == Steered
    ensures Through(NextTurn(h, turn), origin) == Through(h, origin) + ArrivedIn(turn, origin)
  {
    ClosedConserves(h, turn, origin);
    PollsConserve(Closed(h, turn), origin);
    LaterConserves(SteeringPolled(Closed(h, turn)), turn.late, origin);
    Joined(Through(h, origin), Carried(turn.arrived, origin), Carried(turn.late, origin));
  }

  /** What was queued at the start and what has arrived since is, in order and once each, what has been injected
      followed by what is pending and what is still queued. */
  ghost predicate Conserves(h: Head, taken: seq<Turn>, o: Course, origin: Origin)
    requires Labelled(h.run)
  {
    && Labelled(o.head.run) && (o.returned ==> o.head.run.pending == [])
    && Through(o.head, origin) == Through(h, origin) + Arrived(taken, origin)
  }

  lemma ConservesFirst(h: Head, turns: seq<Turn>, o: Course, origin: Origin)
    requires Labelled(h.run) && Queueing(origin) && turns != [] && |o.left| < |turns| && !Stops(turns[0])
    requires Labelled(NextTurn(h, turns[0]).run) && Conserves(NextTurn(h, turns[0]), Taken(turns[1..], o), o, origin)
    ensures Conserves(h, Taken(turns, o), o, origin)
  {
    NextTurnConserves(h, turns[0], origin);
    TakenFirst(turns, o);
    var taken := Taken(turns, o);
    assert taken[1..] == Taken(turns[1..], o) && taken[0] == turns[0];
    Joined(Through(h, origin), ArrivedIn(turns[0], origin), Arrived(taken[1..], origin));
  }

  lemma {:induction false} InnerConserves(h: Head, turns: seq<Turn>, origin: Origin)
    requires Labelled(h.run) && Queueing(origin)
    ensures Conserves(h, Taken(turns, Inner(h, turns)), Inner(h, turns), origin)
    decreases |turns|, 0
  {
    InnerEnds(h, turns);
    var o := Inner(h, turns);
    if turns != [] {
      var next := NextTurn(h, turns[0]);
      if Stops(turns[0]) {
        ClosedConserves(h, turns[0], origin);
        ArrivedOnce(turns[0], origin);
        assert Taken(turns, o) == [turns[0]];
      } else {
        NextTurnConserves(h, turns[0], origin);
        if HasMore(turns[0]) || next.run.pending != [] {
          InnerConserves(next, turns[1..], origin);
        } else {
          OuterConserves(next, turns[1..], origin);
        }
        ConservesFirst(h, turns, o, origin);
      }
    }
  }

  lemma {:induction false} OuterConserves(h: Head, turns: seq<Turn>, origin: Origin)
    requires Labelled(h.run) && h.run.pending == [] && Queueing(origin)
    ensures Conserves(h, Taken(turns, Outer(h, turns)), Outer(h, turns), origin)
    decreases |turns|, 1
  {
    PollsConserve(h, origin);
    var next := FollowUpsPolled(h);
    if next.run.pending == [] {
      assert Taken(turns, Outer(h, turns)) == [];
    } else {
      InnerConserves(next, turns, origin);
    }
  }

  lemma FirstHeadConserves(context: seq<Message>, queues: Queues, opening: Arrivals, skip: bool, origin: Origin)
    requires Queueing(origin)
    ensures var h := FirstHead(context, queues, opening, skip);
      Labelled(h.run) && Through(h, origin) == Lane(queues, origin) + Carried(opening, origin)
  {
    var h := Head(Run(context, [], [], [], [], [], Steered), queues);
    NothingInjected(h, origin);
    LaterConserves(h, opening, origin);
    PollsConserve(Later(h, opening), origin);
  }

  lemma NothingInjected(h: Head, origin: Origin)
    requires h.run.added == [] && h.run.origins == [] && h.run.pending == [] && h.run.from == Steered
    ensures Labelled(h.run) && Through(h, origin) == Lane(h.queues, origin)
  {
    assert [] + Lane(h.queues, origin) == Lane(h.queues, origin);
  }

  /** Conservation over a whole run: what was queued before it and what arrived during it, in its opening and in its
      turns, is what it injected, in order and once each, followed by what is pending, which is nothing once it has
      returned, and by what is still queued. */
  lemma RunConserves(context: seq<Message>, queues: Queues, opening: Arrivals, skip: bool, turns: seq<Turn>,
                     origin: Origin)
    requires Queueing(origin)
    ensures var o := Inner(FirstHead(context, queues, opening, skip), turns);
      && Labelled(o.head.run) && (o.returned ==> o.head.run.pending == [])
      && Through(o.head, origin) == Lane(queues, origin) + (Carried(opening, origin) + Arrived(Taken(turns, o), origin))
  {
    var h := FirstHead(context, queues, opening, skip);
    FirstHeadConserves(context, queues, opening, skip, origin);
    InnerConserves(h, turns, origin);
    Joined(Lane(queues, origin), Carried(opening, origin), Arrived(Taken(turns, Inner(h, turns)), origin));
  }

  /** While every turn leaves tool calls to go on with, no follow-up message is injected or leaves its queue. */
  lemma {:induction false} FollowUpsWait(h: Head, turns: seq<Turn>)
    requires Labelled(h.run) && h.run.from == Steered && forall t | t in turns :: HasMore(t)
    ensures var o := Inner(h, turns);
      && o.head.queues.followUp == h.queues.followUp + Arrived(Taken(turns, o), Followed)
      && Labelled(o.head.run) && Injected(o.head.run, Followed) == Injected(h.run, Followed)
    decreases |turns|
  {
    var o := Inner(h, turns);
    InnerEnds(h, turns);
    var taken := Taken(turns, o);
    if turns == [] {
      assert taken == [];
    } else {
      assert HasMore(turns[0]) && forall t | t in turns[1..] :: t in turns;
      TakenFirst(turns, o);
      AfterTurnInjects(h.run, turns[0], Followed);
      if Stops(turns[0]) {
        ArrivedOnce(turns[0], Followed);
        assert taken == [turns[0]];
      } else {
        NextTurnConserves(h, turns[0], Followed);
        FollowUpsWait(NextTurn(h, turns[0]), turns[1..]);
        assert taken[1..] == Taken(turns[1..], o);
        Joined(h.queues.followUp, turns[0].arrived.followed.messages, turns[0].late.followed.messages);
        Joined(h.queues.followUp, ArrivedIn(turns[0], Followed), Arrived(taken[1..], Followed));
      }
    }
  }

  /** One list of injected messages is noted for each turn taken. */
  lemma {:induction false} InnerNotes(h: Head, turns: seq<Turn>)
    ensures |Inner(h, turns).head.run.injections| == |h.run.injections| + |Taken(turns, Inner(h, turns))|
    decreases |turns|
  {
    InnerEnds(h, turns);
    if turns != [] {
      var next := NextTurn(h, turns[0]);
      TakenFirst(turns, Inner(h, turns));
      OuterIs(next, turns[1..]);
      if Stops(turns[0]) {
      } else if HasMore(turns[0]) || next.run.pending != [] {
        InnerNotes(next, turns[1..]);
      } else if FollowUpsPolled(next).run.pending != [] {
        InnerNotes(FollowUpsPolled(next), turns[1..]);
      }
    }
  }

  // ---- The context and the lists handed to the model ----

  /** The context is kept: what is added to the one is added to the other. */
  lemma {:induction false} InnerKeepsContext(h: Head, turns: seq<Turn>, start: seq<Message>)
    requires h.run.context == start + h.run.added && forall t | t in turns :: t.replacement.None?
    ensures Inner(h, turns).head.run.context == start + Inner(h, turns).head.run.added
    decreases |turns|, 0
  {
    if turns != [] {
      var next := NextTurn(h, turns[0]);
      assert turns[0] in turns && forall t | t in turns[1..] :: t in turns;
      Joined(start, h.run.added, Added(h.run.pending, turns[0].reply, ToolResults(turns[0])));
      if !Stops(turns[0]) {
        if HasMore(turns[0]) || next.run.pending != [] {
          InnerKeepsContext(next, turns[1..], start);
        } else {
          OuterKeepsContext(next, turns[1..], start);
        }
      }
    }
  }

  lemma {:induction false} OuterKeepsContext(h: Head, turns: seq<Turn>, start: seq<Message>)
    requires h.run.context == start + h.run.added && forall t | t in turns :: t.replacement.None?
    ensures Outer(h, turns).head.run.context == start + Outer(h, turns).head.run.added
    decreases |turns|, 1
  {
    if FollowUpsPolled(h).run.pending != [] {
      InnerKeepsContext(FollowUpsPolled(h), turns, start);
    }
  }

  /** The lists handed to the model so far are handed first, and then, with the first turn, the context with what is
      pending. */
  lemma {:induction false} InnerHandsOver(h: Head, turns: seq<Turn>)
    ensures h.run.requests <= Inner(h, turns).head.run.requests
    ensures turns != [] ==> h.run.requests + [h.run.context + h.run.pending] <= Inner(h, turns).head.run.requests
    decreases |turns|, 0
  {
    if turns != [] && !Stops(turns[0]) {
      var next := NextTurn(h, turns[0]);
      OuterIs(next, turns[1..]);
      if HasMore(turns[0]) || next.run.pending != [] {
        InnerHandsOver(next, turns[1..]);
      } else if FollowUpsPolled(next).run.pending != [] {
        InnerHandsOver(FollowUpsPolled(next), turns[1..]);
      }
    }
  }

  predicate CleanArrivals(a: Arrivals) {
    AllStandalone(a.steered.messages) && AllStandalone(a.followed.messages)
  }

  /** A turn in which no abort cuts a batch short, only messages that stand alone arrive, and the context is kept or
      replaced by a well-formed one. */
  ghost predicate CleanTurn(turn: Turn) {
    && Whole(turn)
    && CleanArrivals(turn.arrived) && CleanArrivals(turn.late)
    && (turn.replacement.Some? ==> WellFormed(turn.replacement.value))
  }

  ghost predicate CleanQueues(q: Queues) {
    AllStandalone(q.steering) && AllStandalone(q.followUp)
  }

  ghost predicate CleanHead(h: Head) {
    WellFormed(h.run.context) && AllStandalone(h.run.pending) && CleanQueues(h.queues)
  }

  ghost predicate AllWellFormed(requests: seq<seq<Message>>) {
    forall r | r in requests :: WellFormed(r)
  }

  lemma RegroupAdded(context: seq<Message>, pending: seq<Message>, reply: Reply, results: seq<Message>)
    ensures context + Added(pending, reply, results) == context + pending + ([Assistant(reply)] + results)
  {
  }

  /** From a well-formed context a turn hands the model a well-formed list, and it leaves a well-formed context exactly
      when every call of its reply is answered. */
  lemma TurnIsHandedOn(run: Run, turn: Turn)
    requires WellFormed(run.context) && AllStandalone(run.pending)
    ensures WellFormed(run.context + run.pending)
    ensures WellFormed(AfterTurn(run, turn).context) <==> Answered(turn) == |turn.reply.calls|
  {
    ToolResultsAnswer(turn);
    InjectionKeepsWellFormed(run.context, run.pending);
    ReplyKeepsWellFormed(run.context + run.pending, turn.reply, ToolResults(turn));
    RegroupAdded(run.context, run.pending, turn.reply, ToolResults(turn));
  }

  lemma StandalonePolled(mode: QueueMode, messages: seq<Message>)
    requires AllStandalone(messages)
    ensures AllStandalone(Front(mode, messages)) && AllStandalone(Rest(mode, messages))
  {
    var front, rest := Front(mode, messages), Rest(mode, messages);
    assert messages == front + rest;
    assert forall m | m in front :: m in messages;
    assert forall m | m in rest :: m in messages;
  }

  lemma PolledIsClean(h: Head)
    requires CleanHead(h)
    ensures CleanHead(SteeringPolled(h)) && CleanHead(FollowUpsPolled(h))
  {
    StandalonePolled(h.queues.steeringMode, h.queues.steering);
    StandalonePolled(h.queues.followUpMode, h.queues.followUp);
  }

  lemma ClosedIsClean(h: Head, turn: Turn)
    requires CleanHead(h) && CleanTurn(turn) && Answered(turn) == |turn.reply.calls|
    ensures CleanHead(Closed(h, turn))
  {
    TurnIsHandedOn(h.run, turn);
  }

  lemma NextIsClean(closed: Head, turn: Turn)
    requires CleanHead(closed) && CleanArrivals(turn.late)
    ensures CleanHead(Polled(closed, turn)) && CleanHead(FollowUpsPolled(Polled(closed, turn)))
  {
    PolledIsClean(closed);
    PolledIsClean(Polled(closed, turn));
  }

  lemma CleanNext(h: Head, turn: Turn)
    requires CleanHead(h) && CleanTurn(turn) && !Fatal(turn.reply)
    ensures CleanHead(NextTurn(h, turn)) && CleanHead(FollowUpsPolled(NextTurn(h, turn)))
  {
    AnsweredWhole(turn);
    ClosedIsClean(h, turn);
    NextIsClean(Closed(h, turn), turn);
  }

  lemma HandedOver(requests: seq<seq<Message>>, request: seq<Message>)
    requires AllWellFormed(requests) && WellFormed(request)
    ensures AllWellFormed(requests + [request])
  {
  }

  /** From a clean start, with clean turns, every list handed to the model is well formed. */
  lemma {:induction false} CleanRunsHandOver(h: Head, turns: seq<Turn>)
    requires CleanHead(h) && AllWellFormed(h.run.requests) && forall t | t in turns :: CleanTurn(t)
    ensures AllWellFormed(Inner(h, turns).head.run.requests)
    decreases |turns|
  {
    if turns != [] {
      var next := NextTurn(h, turns[0]);
      assert turns[0] in turns && forall t | t in turns[1..] :: t in turns;
      TurnIsHandedOn(h.run, turns[0]);
      HandedOver(h.run.requests, h.run.context + h.run.pending);
      if !Stops(turns[0]) {
        CleanNext(h, turns[0]);
        OuterIs(next, turns[1..]);
        if HasMore(turns[0]) || next.run.pending != [] {
          CleanRunsHandOver(next, turns[1..]);
        } else if FollowUpsPolled(next).run.pending != [] {
          CleanRunsHandOver(FollowUpsPolled(next), turns[1..]);
        }
      }
    }
  }

  /** A clean turn that leaves no call of its reply unanswered: a fatal reply carries none. */
  ghost predicate TidyTurn(turn: Turn) {
    CleanTurn(turn) && Answered(turn) == |turn.reply.calls|
  }

  lemma TidyTurnStaysClean(h: Head, turn: Turn)
    requires CleanHead(h) && TidyTurn(turn)
    ensures CleanHead(Closed(h, turn)) && CleanHead(NextTurn(h, turn)) && CleanHead(FollowUpsPolled(NextTurn(h, turn)))
  {
    ClosedIsClean(h, turn);
    NextIsClean(Closed(h, turn), turn);
  }

  /** From a clean start, with tidy turns, a run leaves a well-formed context and clean queues, wherever it gets. */
  lemma {:induction false} TidyRunsStayClean(h: Head, turns: seq<Turn>)
    requires CleanHead(h) && forall t | t in turns :: TidyTurn(t)
    ensures CleanHead(Inner(h, turns).head)
    decreases |turns|
  {
    if turns != [] {
      var next := NextTurn(h, turns[0]);
      assert turns[0] in turns && forall t | t in turns[1..] :: t in turns;
      TidyTurnStaysClean(h, turns[0]);
      if !Stops(turns[0]) {
        OuterIs(next, turns[1..]);
        if HasMore(turns[0]) || next.run.pending != [] {
          TidyRunsStayClean(next, turns[1..]);
        } else if FollowUpsPolled(next).run.pending != [] {
          TidyRunsStayClean(FollowUpsPolled(next), turns[1..]);
        }
      }
    }
  }

  /** After a turn that keeps the context, the next list handed to the model is well formed exactly when no abort cut
      the batch of that turn short. */
  lemma NextRequestIffWhole(h: Head, turn: Turn)
    requires CleanHead(h) && !Fatal(turn.reply) && turn.replacement.None?
    requires AllStandalone(turn.arrived.steered.messages)
    ensures var next := NextTurn(h, turn).run; WellFormed(next.context + next.pending) <==> Whole(turn)
  {
    var next, q := NextTurn(h, turn).run, Arrive(h.queues, turn.arrived);
    StandalonePolled(q.steeringMode, q.steering);
    TurnIsHandedOn(h.run, turn);
    AnsweredWhole(turn);
    if Whole(turn) {
      InjectionKeepsWellFormed(next.context, next.pending);
    } else {
      CutIsHandedOn(h.run, turn, next.pending);
    }
  }

  lemma CutIsHandedOn(run: Run, turn: Turn, later: seq<Message>)
    requires WellFormed(run.context) && AllStandalone(run.pending) && Answered(turn) < |turn.reply.calls|
    requires AllStandalone(later)
    ensures !WellFormed(AfterTurn(run, turn).context + later)
  {
    var results := ToolResults(turn);
    InjectionKeepsWellFormed(run.context, run.pending);
    ToolResultsAnswer(turn);
    assert later != [] ==> Standalone(later[0]);
    CutBatchIsIllFormed(run.context + run.pending, turn.reply, results, later);
    RegroupAdded(run.context, run.pending, turn.reply, results);
    Joined(run.context + run.pending, [Assistant(turn.reply)] + results, later);
  }

  // ---- Whole runs ----

  /** The course of a run for prompts, from the transcript and the queues. */
  function CourseOf(transcript: seq<Message>, prompts: seq<Message>, queues: Queues, opening: Arrivals, skip: bool,
                    turns: seq<Turn>): Course
  {
    Inner(FirstHead(transcript + prompts, queues, opening, skip), turns)
  }

  /** While it is never replaced, the context of a run is the transcript followed by its new messages. */
  lemma RunKeepsContext(transcript: seq<Message>, prompts: seq<Message>, queues: Queues, opening: Arrivals, skip: bool,
                        turns: seq<Turn>)
    requires forall t | t in turns :: t.replacement.None?
    ensures var run := CourseOf(transcript, prompts, queues, opening, skip, turns).head.run;
      run.context == transcript + (prompts + run.added)
  {
    var h := FirstHead(transcript + prompts, queues, opening, skip);
    assert h.run.context == transcript + prompts + h.run.added;
    InnerKeepsContext(h, turns, transcript + prompts);
    Joined(transcript, prompts, CourseOf(transcript, prompts, queues, opening, skip, turns).head.run.added);
  }

  /** The model is first handed the transcript, the prompts and what the first poll gave. */
  lemma RunHandsOver(transcript: seq<Message>, prompts: seq<Message>, queues: Queues, opening: Arrivals, skip: bool,
                     turns: seq<Turn>)
    requires turns != []
    ensures [transcript + prompts + if skip then []
      else Front(opening.steered.mode, queues.steering + opening.steered.messages)]
      <= CourseOf(transcript, prompts, queues, opening, skip, turns).head.run.requests
  {
    InnerHandsOver(FirstHead(transcript + prompts, queues, opening, skip), turns);
  }

  lemma FirstHeadIsClean(context: seq<Message>, queues: Queues, opening: Arrivals, skip: bool)
    requires WellFormed(context) && CleanQueues(queues) && CleanArrivals(opening)
    ensures CleanHead(FirstHead(context, queues, opening, skip))
  {
    PolledIsClean(Later(Head(Run(context, [], [], [], [], [], Steered), queues), opening));
  }

  /** A clean run hands the model well-formed lists only. */
  lemma RunIsClean(transcript: seq<Message>, prompts: seq<Message>, queues: Queues, opening: Arrivals, skip: bool,
                   turns: seq<Turn>)
    requires WellFormed(transcript) && AllStandalone(prompts) && CleanQueues(queues) && CleanArrivals(opening)
    requires forall t | t in turns :: CleanTurn(t)
    ensures AllWellFormed(CourseOf(transcript, prompts, queues, opening, skip, turns).head.run.requests)
  {
    InjectionKeepsWellFormed(transcript, prompts);
    FirstHeadIsClean(transcript + prompts, queues, opening, skip);
    CleanRunsHandOver(FirstHead(transcript + prompts, queues, opening, skip), turns);
  }

  /** A tidy run that keeps its context leaves a well-formed transcript and clean queues. */
  lemma RunStaysClean(transcript: seq<Message>, prompts: seq<Message>, queues: Queues, opening: Arrivals, skip: bool,
                      turns: seq<Turn>)
    requires WellFormed(transcript) && AllStandalone(prompts) && CleanQueues(queues) && CleanArrivals(opening)
    requires forall t | t in turns :: TidyTurn(t) && t.replacement.None?
    ensures var head := CourseOf(transcript, prompts, queues, opening, skip, turns).head;
      WellFormed(transcript + (prompts + head.run.added)) && CleanQueues(head.queues)
  {
    InjectionKeepsWellFormed(transcript, prompts);
    FirstHeadIsClean(transcript + prompts, queues, opening, skip);
    TidyRunsStayClean(FirstHead(transcript + prompts, queues, opening, skip), turns);
    RunKeepsContext(transcript, prompts, queues, opening, skip, turns);
  }

  /** A run returns exactly when a turn stops it or leaves nothing to do; otherwise it takes every turn it is given. */
  lemma RunEnds(transcript: seq<Message>, prompts: seq<Message>, queues: Queues, opening: Arrivals, skip: bool,
                turns: seq<Turn>)
    ensures var o := CourseOf(transcript, prompts, queues, opening, skip, turns);
      Ends(Taken(turns, o), o) && |o.head.run.injections| == |Taken(turns, o)|
  {
    InnerEnds(FirstHead(transcript + prompts, queues, opening, skip), turns);
    InnerNotes(FirstHead(transcript + prompts, queues, opening, skip), turns);
  }
}
