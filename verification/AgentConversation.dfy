/** What an idle agent makes of a sequence of operations, as a function of its environment. */
module AgentConversation {
  import opened Basics
  import opened AgentEvents
  import opened AgentQueue
  import opened AgentLoop
  import opened AgentScript

  /** The transcript with where its messages come from, and the queues. */
  datatype Conversation = Conversation(messages: seq<Message>, origins: seq<Origin>, queues: Queues)

  datatype Op =
    | Steering(message: Message)
    | FollowingUp(message: Message)
    | SteeringBy(mode: QueueMode)
    | FollowingUpBy(mode: QueueMode)
    | Prompting(prompts: seq<Message>, opening: Arrivals, turns: seq<Turn>)
    | Continuing(opening: Arrivals, turns: seq<Turn>)

  /** What a run starts from: the messages it is for, where they come from, the queues without them, and whether the
      first poll of the steering queue is skipped. */
  datatype Launch = Launch(prompts: seq<Message>, origin: Origin, queues: Queues, skip: bool)

  datatype Refusal = Busy | NothingToContinue | LastIsReply

  predicate EndsInReply(messages: seq<Message>) {
    messages != [] && messages[|messages| - 1].Assistant?
  }

  /** A continuation after a reply is for queued steering messages, or else for follow-ups; otherwise it is for the
      transcript. */
  function Continuation(messages: seq<Message>, q: Queues): Launch {
    if !EndsInReply(messages) then Launch([], Prompted, q, false)
    else if q.steering != [] then
      Launch(Front(q.steeringMode, q.steering), Steered, q.(steering := Rest(q.steeringMode, q.steering)), true)
    else Launch(Front(q.followUpMode, q.followUp), Followed, q.(followUp := Rest(q.followUpMode, q.followUp)), false)
  }

  function Refused(messages: seq<Message>, q: Queues): Option<Refusal> {
    if messages == [] then Some(NothingToContinue)
    else if EndsInReply(messages) && q.steering == [] && q.followUp == [] then Some(LastIsReply)
    else None
  }

  function Launched(c: Conversation, op: Op): Launch {
    if op.Prompting? then Launch(op.prompts, Prompted, c.queues, false) else Continuation(c.messages, c.queues)
  }

  predicate Runs(c: Conversation, op: Op) {
    op.Prompting? || (op.Continuing? && Refused(c.messages, c.queues).None?)
  }

  function CourseFrom(c: Conversation, launch: Launch, opening: Arrivals, turns: seq<Turn>): Course {
    CourseOf(c.messages, launch.prompts, launch.queues, opening, launch.skip, turns)
  }

  /** The course of the run of an operation. */
  function CourseBy(c: Conversation, op: Op): Course
    requires Runs(c, op)
  {
    CourseFrom(c, Launched(c, op), op.opening, op.turns)
  }

  /** The transcript grows by the prompts and by what the run adds. */
  function Grown(c: Conversation, launch: Launch, head: Head): Conversation {
    Conversation(c.messages + (launch.prompts + head.run.added),
      c.origins + (Repeat(launch.origin, |launch.prompts|) + head.run.origins), head.queues)
  }

  /** An operation on an idle agent. */
  function Performed(c: Conversation, op: Op): Conversation {
    match op
    case Steering(message) => c.(queues := c.queues.(steering := c.queues.steering + [message]))
    case FollowingUp(message) => c.(queues := c.queues.(followUp := c.queues.followUp + [message]))
    case SteeringBy(mode) => c.(queues := c.queues.(steeringMode := mode))
    case FollowingUpBy(mode) => c.(queues := c.queues.(followUpMode := mode))
    case _ => if Runs(c, op) then Grown(c, Launched(c, op), CourseBy(c, op).head) else c
  }

  /** Whether the agent is idle again after the operation: its run, if any, has returned. */
  predicate Returns(c: Conversation, op: Op) {
    Runs(c, op) ==> CourseBy(c, op).returned
  }

  function PerformAll(c: Conversation, ops: seq<Op>): Conversation
    decreases |ops|
  {
    if ops == [] then c else PerformAll(Performed(c, ops[0]), ops[1..])
  }

  predicate AllReturn(c: Conversation, ops: seq<Op>)
    decreases |ops|
  {
    ops == [] || (Returns(c, ops[0]) && AllReturn(Performed(c, ops[0]), ops[1..]))
  }

  // ---- Conservation over a sequence of operations ----

  /** What an operation puts into a queue, at once or while its run goes on. */
  function Queued(c: Conversation, op: Op, origin: Origin): seq<Message> {
    match op
    case Steering(message) => if origin == Steered then [message] else []
    case FollowingUp(message) => if origin == Followed then [message] else []
    case SteeringBy(_) => []
    case FollowingUpBy(_) => []
    case _ => if Runs(c, op) then Carried(op.opening, origin) + Arrived(Taken(op.turns, CourseBy(c, op)), origin)
      else []
  }

  function QueuedAll(c: Conversation, ops: seq<Op>, origin: Origin): seq<Message>
    decreases |ops|
  {
    if ops == [] then [] else Queued(c, ops[0], origin) + QueuedAll(Performed(c, ops[0]), ops[1..], origin)
  }

  predicate Labelling(c: Conversation) {
    |c.messages| == |c.origins|
  }

  /** What the transcript shows injected from a queue, followed by what is still queued. */
  function Kept(c: Conversation, origin: Origin): seq<Message>
    requires Labelling(c)
  {
    Select(c.messages, c.origins, origin) + Lane(c.queues, origin)
  }

  /** The prompts of a launch that come from a queue. */
  function PromptsFrom(launch: Launch, origin: Origin): seq<Message> {
    if launch.origin == origin then launch.prompts else []
  }

  lemma LaunchTakesFront(c: Conversation, op: Op, origin: Origin)
    requires Runs(c, op) && Queueing(origin)
    ensures PromptsFrom(Launched(c, op), origin) + Lane(Launched(c, op).queues, origin) == Lane(c.queues, origin)
  {
  }

  lemma GrownWithoutPrompts(c: Conversation, q: Queues, head: Head)
    ensures Grown(c, Launch([], Prompted, q, false), head)
      == Conversation(c.messages + head.run.added, c.origins + head.run.origins, head.queues)
  {
    assert [] + head.run.added == head.run.added && Repeat(Prompted, 0) + head.run.origins == head.run.origins;
  }

  lemma GrownSelects(c: Conversation, launch: Launch, head: Head, origin: Origin)
    requires Labelling(c) && |head.run.added| == |head.run.origins|
    ensures Labelling(Grown(c, launch, head))
    ensures Select(Grown(c, launch, head).messages, Grown(c, launch, head).origins, origin)
      == Select(c.messages, c.origins, origin)
        + (PromptsFrom(launch, origin) + Select(head.run.added, head.run.origins, origin))
  {
    var labels := Repeat(launch.origin, |launch.prompts|);
    SelectConcat(c.messages, c.origins, launch.prompts + head.run.added, labels + head.run.origins, origin);
    SelectConcat(launch.prompts, labels, head.run.added, head.run.origins, origin);
    SelectAppend([], [], launch.prompts, launch.origin, origin);
    assert [] + launch.prompts == launch.prompts && [] + labels == labels;
  }

  lemma NothingPending(head: Head, origin: Origin)
    requires Labelled(head.run) && head.run.pending == []
    ensures Select(head.run.added, head.run.origins, origin) + Lane(head.queues, origin) == Through(head, origin)
  {
    var shown := Select(head.run.added, head.run.origins, origin);
    assert shown + [] == shown;
  }

  lemma RunHolds(messages: seq<Message>, launch: Launch, opening: Arrivals, turns: seq<Turn>, origin: Origin)
    requires Queueing(origin) && CourseOf(messages, launch.prompts, launch.queues, opening, launch.skip, turns).returned
    ensures var o := CourseOf(messages, launch.prompts, launch.queues, opening, launch.skip, turns);
      && Labelled(o.head.run)
      && Select(o.head.run.added, o.head.run.origins, origin) + Lane(o.head.queues, origin)
        == Lane(launch.queues, origin) + (Carried(opening, origin) + Arrived(Taken(turns, o), origin))
  {
    RunConserves(messages + launch.prompts, launch.queues, opening, launch.skip, turns, origin);
    NothingPending(CourseOf(messages, launch.prompts, launch.queues, opening, launch.skip, turns).head, origin);
  }

  lemma Regrouped<T>(shown: seq<T>, prompts: seq<T>, injected: seq<T>, left: seq<T>, launched: seq<T>, arrived: seq<T>,
                     lane: seq<T>)
    requires injected + left == launched + arrived && prompts + launched == lane
    ensures shown + (prompts + injected) + left == shown + lane + arrived
  {
    assert shown + (prompts + injected) + left == shown + (prompts + (injected + left));
    assert prompts + (launched + arrived) == lane + arrived;
  }

  /** The transcript grown by a run that holds what it was launched with and what arrived. */
  lemma GrownKeeps(c: Conversation, launch: Launch, head: Head, arrived: seq<Message>, origin: Origin)
    requires Labelling(c) && |head.run.added| == |head.run.origins|
    requires Select(head.run.added, head.run.origins, origin) + Lane(head.queues, origin)
      == Lane(launch.queues, origin) + arrived
    requires PromptsFrom(launch, origin) + Lane(launch.queues, origin) == Lane(c.queues, origin)
    ensures Labelling(Grown(c, launch, head)) && Kept(Grown(c, launch, head), origin) == Kept(c, origin) + arrived
  {
    GrownSelects(c, launch, head, origin);
    Regrouped(Select(c.messages, c.origins, origin), PromptsFrom(launch, origin),
      Select(head.run.added, head.run.origins, origin), Lane(head.queues, origin), Lane(launch.queues, origin), arrived,
      Lane(c.queues, origin));
  }

  /** One operation conserves both queues: what it puts in comes after what was kept. */
  lemma PerformedKeeps(c: Conversation, op: Op, origin: Origin)
    requires Labelling(c) && Returns(c, op) && Queueing(origin)
    ensures Labelling(Performed(c, op)) && Kept(Performed(c, op), origin) == Kept(c, origin) + Queued(c, op, origin)
  {
    if Runs(c, op) {
      var launch := Launched(c, op);
      LaunchTakesFront(c, op, origin);
      RunHolds(c.messages, launch, op.opening, op.turns, origin);
      GrownKeeps(c, launch, CourseBy(c, op).head, Queued(c, op, origin), origin);
    }
  }

  /** Conservation over any sequence of operations whose runs return: of either queue, what the transcript shows
      injected followed by what is still queued is what was there before followed by everything that was put into the
      queue since, in order and once each. */
  lemma {:induction false} QueuesAreConserved(c: Conversation, ops: seq<Op>, origin: Origin)
    requires Labelling(c) && AllReturn(c, ops) && Queueing(origin)
    ensures Labelling(PerformAll(c, ops))
    ensures Kept(PerformAll(c, ops), origin) == Kept(c, origin) + QueuedAll(c, ops, origin)
    decreases |ops|
  {
    if ops != [] {
      var next := Performed(c, ops[0]);
      PerformedKeeps(c, ops[0], origin);
      QueuesAreConserved(next, ops[1..], origin);
      Joined(Kept(c, origin), Queued(c, ops[0], origin), QueuedAll(next, ops[1..], origin));
    }
  }

  // ---- Well-formedness over a sequence of operations ----

  ghost predicate CleanConversation(c: Conversation) {
    WellFormed(c.messages) && CleanQueues(c.queues)
  }

  ghost predicate TidyTurns(turns: seq<Turn>) {
    forall t | t in turns :: TidyTurn(t) && t.replacement.None?
  }

  /** Only messages that stand alone are put in, and the turns are tidy and keep the context. */
  ghost predicate CleanOp(op: Op) {
    match op
    case Steering(message) => Standalone(message)
    case FollowingUp(message) => Standalone(message)
    case SteeringBy(_) => true
    case FollowingUpBy(_) => true
    case Prompting(prompts, opening, turns) => AllStandalone(prompts) && CleanArrivals(opening) && TidyTurns(turns)
    case Continuing(opening, turns) => CleanArrivals(opening) && TidyTurns(turns)
  }

  /** The lists handed to the model. */
  function Requests(c: Conversation, op: Op): seq<seq<Message>> {
    if Runs(c, op) then CourseBy(c, op).head.run.requests else []
  }

  function RequestsOfAll(c: Conversation, ops: seq<Op>): seq<seq<Message>>
    decreases |ops|
  {
    if ops == [] then [] else Requests(c, ops[0]) + RequestsOfAll(Performed(c, ops[0]), ops[1..])
  }

  lemma LaunchIsClean(c: Conversation, op: Op)
    requires CleanConversation(c) && CleanOp(op) && Runs(c, op)
    ensures AllStandalone(Launched(c, op).prompts) && CleanQueues(Launched(c, op).queues)
  {
    StandalonePolled(c.queues.steeringMode, c.queues.steering);
    StandalonePolled(c.queues.followUpMode, c.queues.followUp);
  }

  lemma PerformedStaysClean(c: Conversation, op: Op)
    requires CleanConversation(c) && CleanOp(op)
    ensures CleanConversation(Performed(c, op)) && AllWellFormed(Requests(c, op))
  {
    if Runs(c, op) {
      var launch := Launched(c, op);
      LaunchIsClean(c, op);
      RunIsClean(c.messages, launch.prompts, launch.queues, op.opening, launch.skip, op.turns);
      RunStaysClean(c.messages, launch.prompts, launch.queues, op.opening, launch.skip, op.turns);
    }
  }

  /** Over any sequence of clean operations every list handed to the model, by any of the runs, is well formed, and so
      is the transcript that is left. */
  lemma {:induction false} ConversationStaysClean(c: Conversation, ops: seq<Op>)
    requires CleanConversation(c) && forall op | op in ops :: CleanOp(op)
    ensures CleanConversation(PerformAll(c, ops)) && AllWellFormed(RequestsOfAll(c, ops))
    decreases |ops|
  {
    if ops != [] {
      assert ops[0] in ops && forall op | op in ops[1..] :: op in ops;
      PerformedStaysClean(c, ops[0]);
      ConversationStaysClean(Performed(c, ops[0]), ops[1..]);
    }
  }
}
