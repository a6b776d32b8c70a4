/** Executing the tool calls of one reply: in order, interleaved, or not at all. */
module AgentTools {
  import opened Basics
  import opened AgentEvents

  datatype ToolStep = Report(partial: int) | Settle

  /** What the hooks and the tool do with one call: answer it at once, or let the tool run and finalize its result.
      A tool may report progress before it settles and, wrongly, after. */
  datatype ToolScript = Immediate(outcome: Outcome) | Prepared(steps: seq<ToolStep>, outcome: Outcome)

  const TRUNCATED := -1

  /** The updates that are emitted: the reports made before the tool settles. */
  function Updates(call: ToolCall, steps: seq<ToolStep>): seq<Event> {
    if steps == [] || steps[0].Settle? then [] else [ToolUpdate(call, steps[0].partial)] + Updates(call, steps[1..])
  }

  /** The execution events of one call: one start, the updates, one end. */
  function Execution(call: ToolCall, script: ToolScript): seq<Event> {
    [ToolStart(call)] + (if script.Prepared? then Updates(call, script.steps) else []) + [ToolEnd(call, script.outcome)]
  }

  function Announce(results: seq<Message>): seq<Event>
    decreases |results|
  {
    if results == [] then []
    else
      var last := results[|results| - 1];
      Announce(results[..|results| - 1]) + [MessageStart(last), MessageEnd(last)]
  }

  function ShouldTerminate(outcomes: seq<Outcome>): bool {
    |outcomes| > 0 && forall o | o in outcomes :: o.terminate
  }

  /** The outcomes and the result messages of the first `n` calls, in source order. */
  function Outcomes(tools: nat -> ToolScript, n: nat): seq<Outcome> {
    seq(n, i requires 0 <= i => tools(i).outcome)
  }

  function Results(calls: seq<ToolCall>, tools: nat -> ToolScript, n: nat): seq<Message>
    requires n <= |calls|
  {
    seq(n, i requires 0 <= i < |calls| => ResultMessage(calls[i], tools(i).outcome))
  }

  /** How far a batch gets: to the end, or through the first call after which the run is found aborted. */
  predicate Reaches(n: nat, calls: seq<ToolCall>, aborted: nat -> bool) {
    && n <= |calls|
    && (forall i: nat | i < n - 1 :: !aborted(i))
    && (n < |calls| ==> n > 0 && aborted(n - 1))
  }

  /** How far a batch gets, by its calls and the points at which the run is found aborted. */
  function Reached(calls: seq<ToolCall>, aborted: nat -> bool, i: nat): (n: nat)
    requires i <= |calls|
    ensures i <= n <= |calls|
    decreases |calls| - i
  {
    if i == |calls| then i else if aborted(i) then i + 1 else Reached(calls, aborted, i + 1)
  }

  lemma {:induction false} ReachesIsReached(n: nat, calls: seq<ToolCall>, aborted: nat -> bool, i: nat)
    requires Reaches(n, calls, aborted) && i <= |calls| && (i < n || i == n == |calls|)
    requires forall j: nat | j < i :: !aborted(j)
    ensures n == Reached(calls, aborted, i)
    decreases |calls| - i
  {
    if i < |calls| && !aborted(i) {
      ReachesIsReached(n, calls, aborted, i + 1);
    }
  }

  lemma ResultsAnswer(calls: seq<ToolCall>, tools: nat -> ToolScript, n: nat)
    requires n <= |calls|
    ensures Answers(Results(calls, tools, n), calls[..n])
  {
    forall k | 0 <= k < n
      ensures Results(calls, tools, n)[k] == ResultMessage(calls[..n][k], tools(k).outcome)
    {
    }
  }

  // ---- What a batch of events does to the trace ----

  predicate ToolEvent(e: Event) {
    e.ToolStart? || e.ToolUpdate? || e.ToolEnd?
  }

  /** Events of a batch inside a turn: they leave the turn open, nothing pending, and complete exactly the results. */
  ghost predicate Batch(events: seq<Event>, results: seq<Message>) {
    Track(Turning, events) == Turning && Completed(events) == results
  }

  lemma BatchAppend(a: seq<Event>, x: seq<Message>, b: seq<Event>, y: seq<Message>)
    requires Batch(a, x) && Batch(b, y)
    ensures Batch(a + b, x + y)
  {
    TrackAppend(Turning, a, b);
    CompletedAppend(a, b);
  }

  lemma BatchMessage(m: Message)
    ensures Batch([MessageStart(m), MessageEnd(m)], [m])
  {
    var events := [MessageStart(m)];
    assert Track(Turning, []) == Turning;
    TrackSnoc(Turning, [], MessageStart(m));
    CompletedSnoc([], MessageStart(m));
    assert [] + events == events;
    TrackSnoc(Turning, events, MessageEnd(m));
    CompletedSnoc(events, MessageEnd(m));
    assert events + [MessageEnd(m)] == [MessageStart(m), MessageEnd(m)];
  }

  lemma {:induction false} BatchAnnounce(results: seq<Message>)
    ensures Batch(Announce(results), results)
    decreases |results|
  {
    if results != [] {
      var init, last := results[..|results| - 1], results[|results| - 1];
      BatchAnnounce(init);
      BatchMessage(last);
      BatchAppend(Announce(init), init, [MessageStart(last), MessageEnd(last)], [last]);
      assert init + [last] == results;
    }
  }

  lemma AnnounceSnoc(results: seq<Message>, last: Message)
    ensures Announce(results + [last]) == Announce(results) + [MessageStart(last), MessageEnd(last)]
  {
    assert (results + [last])[..|results|] == results;
  }

  /** Execution events inside a turn keep it open and complete nothing. */
  ghost predicate Running(events: seq<Event>) {
    Track(Turning, events).phase == InTurn && Completed(events) == []
  }

  lemma ToolSnoc(events: seq<Event>, e: Event)
    requires Running(events) && ToolEvent(e)
    ensures Running(events + [e]) && Track(Turning, events + [e]) == Advance(Track(Turning, events), e)
  {
    TrackSnoc(Turning, events, e);
    CompletedSnoc(events, e);
  }

  lemma {:induction false} RunningUpdates(call: ToolCall, before: seq<Event>, steps: seq<ToolStep>)
    requires Running(before)
    ensures Running(before + Updates(call, steps))
    ensures Track(Turning, before + Updates(call, steps)) == Track(Turning, before)
    decreases |steps|
  {
    if steps == [] || steps[0].Settle? {
      assert before + [] == before;
    } else {
      var first := ToolUpdate(call, steps[0].partial);
      ToolSnoc(before, first);
      RunningUpdates(call, before + [first], steps[1..]);
      assert before + ([first] + Updates(call, steps[1..])) == (before + [first]) + Updates(call, steps[1..]);
    }
  }

  lemma BatchExecution(call: ToolCall, script: ToolScript)
    ensures Batch(Execution(call, script), [])
  {
    var start, end := ToolStart(call), ToolEnd(call, script.outcome);
    assert Running([]);
    ToolSnoc([], start);
    assert [] + [start] == [start];
    var steps := if script.Prepared? then script.steps else [];
    RunningUpdates(call, [start], steps);
    ToolSnoc([start] + Updates(call, steps), end);
    assert Track(Turning, [start]).pending == {call.id};
    assert Execution(call, script) == [start] + Updates(call, steps) + [end];
    assert {call.id} - {call.id} == {};
  }

  /** One call after the other: its execution and then its result message. */
  function InTurns(calls: seq<ToolCall>, tools: nat -> ToolScript, n: nat): seq<Event>
    requires n <= |calls|
  {
    if n == 0 then []
    else
      InTurns(calls, tools, n - 1) + Execution(calls[n - 1], tools(n - 1))
      + Announce([ResultMessage(calls[n - 1], tools(n - 1).outcome)])
  }

  lemma {:induction false} BatchInTurns(calls: seq<ToolCall>, tools: nat -> ToolScript, n: nat)
    requires n <= |calls|
    ensures Batch(InTurns(calls, tools, n), Results(calls, tools, n))
  {
    if n > 0 {
      var execution, last := Execution(calls[n - 1], tools(n - 1)), ResultMessage(calls[n - 1], tools(n - 1).outcome);
      BatchInTurns(calls, tools, n - 1);
      BatchExecution(calls[n - 1], tools(n - 1));
      BatchAnnounce([last]);
      var before := Results(calls, tools, n - 1);
      BatchAppend(InTurns(calls, tools, n - 1), before, execution, []);
      BatchAppend(InTurns(calls, tools, n - 1) + execution, before + [], Announce([last]), [last]);
      assert before + [] + [last] == Results(calls, tools, n);
    } else {
      assert Results(calls, tools, 0) == [];
    }
  }

  // ---- Without running anything ----

  function CutOff(i: nat): ToolScript {
    Immediate(Outcome(TRUNCATED, true, false))
  }

  /** The calls of a reply that the token limit cut off are answered by errors; no tool script is consulted. */
  method FailTruncated(calls: seq<ToolCall>) returns (events: seq<Event>, results: seq<Message>, terminate: bool)
    ensures results == Results(calls, CutOff, |calls|) && events == InTurns(calls, CutOff, |calls|)
    ensures Batch(events, results) && !terminate
  {
    events, results, terminate := [], [], false;
    for i := 0 to |calls|
      invariant events == InTurns(calls, CutOff, i) && results == Results(calls, CutOff, i)
    {
      var finalized := Outcome(TRUNCATED, true, false);
      var result := ResultMessage(calls[i], finalized);
      events := events + ([ToolStart(calls[i])] + [] + [ToolEnd(calls[i], finalized)]);
      events := events + Announce([result]);
      results := results + [result];
    }
    BatchInTurns(calls, CutOff, |calls|);
  }

  lemma {:induction false} NothingRunsAfterCutOff(calls: seq<ToolCall>, n: nat)
    requires n <= |calls|
    ensures forall e | e in InTurns(calls, CutOff, n) :: !e.ToolUpdate? && (e.ToolEnd? ==> e.outcome.isError)
    ensures forall r | r in Results(calls, CutOff, n) :: r.ToolResult? && r.isError
  {
    if n > 0 {
      NothingRunsAfterCutOff(calls, n - 1);
      AnnounceSnoc([], ResultMessage(calls[n - 1], CutOff(n - 1).outcome));
    }
    forall k | 0 <= k < n
      ensures Results(calls, CutOff, n)[k] == ResultMessage(calls[k], CutOff(k).outcome)
    {
    }
  }

  // ---- One after the other ----

  method ExecutePrepared(call: ToolCall, steps: seq<ToolStep>) returns (events: seq<Event>)
    ensures events == Updates(call, steps)
  {
    events := [];
    var acceptingUpdates := true;
    for i := 0 to |steps|
      invariant acceptingUpdates ==> events + Updates(call, steps[i..]) == Updates(call, steps)
      invariant !acceptingUpdates ==> events == Updates(call, steps)
    {
      match steps[i]
      case Settle => acceptingUpdates := false;
      case Report(partial) =>
        if acceptingUpdates {
          events := events + [ToolUpdate(call, partial)];
        }
    }
  }

  method ExecuteOne(call: ToolCall, script: ToolScript) returns (events: seq<Event>)
    ensures events == Execution(call, script)
  {
    events := [ToolStart(call)];
    match script {
      case Immediate(_) =>
      case Prepared(steps, _) =>
        var updates := ExecutePrepared(call, steps);
        events := events + updates;
    }
    events := events + [ToolEnd(call, script.outcome)];
  }

  method ExecuteSequential(calls: seq<ToolCall>, tools: nat -> ToolScript, aborted: nat -> bool)
    returns (events: seq<Event>, results: seq<Message>, terminate: bool)
    ensures Reaches(|results|, calls, aborted)
    ensures results == Results(calls, tools, |results|)
    ensures events == InTurns(calls, tools, |results|) && Batch(events, results)
    ensures terminate == ShouldTerminate(Outcomes(tools, |results|))
  {
    events, results := [], [];
    var finalizedCalls := [];
    var i := 0;
    while i < |calls|
      invariant i <= |calls| && (forall j: nat | j < i :: !aborted(j))
      invariant events == InTurns(calls, tools, i) && results == Results(calls, tools, i)
      invariant finalizedCalls == Outcomes(tools, i)
    {
      var executed := ExecuteOne(calls[i], tools(i));
      var finalized := tools(i).outcome;
      var result := ResultMessage(calls[i], finalized);
      events := events + executed;
      events := events + Announce([result]);
      finalizedCalls := finalizedCalls + [finalized];
      results := results + [result];
      i := i + 1;
      assert finalizedCalls == Outcomes(tools, i) && results == Results(calls, tools, i);
      if aborted(i - 1) {
        break;
      }
    }
    terminate := ShouldTerminate(finalizedCalls);
    assert |results| == i;
    BatchInTurns(calls, tools, |results|);
  }

  // ---- Interleaved ----

  /** A tool at work: the steps it has taken, whether its updates are still accepted, whether its end was emitted. */
  datatype Task = Task(pos: nat, accepting: bool, ended: bool)

  predicate Consistent(script: ToolScript, task: Task) {
    match script
    case Immediate(_) => task.ended && !task.accepting
    case Prepared(steps, _) =>
      task.pos <= |steps| && (task.accepting ==> !task.ended && Settle !in steps[..task.pos])
  }

  function Emitted(call: ToolCall, script: ToolScript, task: Task): seq<Event>
    requires Consistent(script, task)
  {
    if script.Immediate? then []
    else Updates(call, if task.accepting then script.steps[..task.pos] else script.steps)
  }

  /** The execution events of a call so far. */
  function Progress(call: ToolCall, script: ToolScript, task: Task): seq<Event>
    requires Consistent(script, task)
  {
    [ToolStart(call)] + Emitted(call, script, task) + (if task.ended then [ToolEnd(call, script.outcome)] else [])
  }

  lemma {:induction false} UpdatesReport(call: ToolCall, steps: seq<ToolStep>, pos: nat)
    requires pos < |steps| && steps[pos].Report? && Settle !in steps[..pos]
    ensures Updates(call, steps[..pos + 1]) == Updates(call, steps[..pos]) + [ToolUpdate(call, steps[pos].partial)]
    decreases pos
  {
    if pos > 0 {
      assert steps[0] == steps[..pos][0];
      assert steps[1..][..pos - 1] == steps[..pos][1..] && steps[1..][..pos] == steps[..pos + 1][1..];
      UpdatesReport(call, steps[1..], pos - 1);
    }
  }

  lemma {:induction false} UpdatesSettled(call: ToolCall, steps: seq<ToolStep>, pos: nat)
    requires pos <= |steps| && Settle !in steps[..pos] && (pos < |steps| ==> steps[pos].Settle?)
    ensures Updates(call, steps) == Updates(call, steps[..pos])
    decreases pos
  {
    if pos > 0 {
      assert steps[0] == steps[..pos][0];
      assert steps[1..][..pos - 1] == steps[..pos][1..];
      UpdatesSettled(call, steps[1..], pos - 1);
    }
  }

  function Left(script: ToolScript, task: Task): nat
    requires Consistent(script, task)
  {
    (if script.Prepared? then |script.steps| - task.pos else 0) + (if task.accepting then 1 else 0)
    + (if task.ended then 0 else 1)
  }

  lemma ReportStep(call: ToolCall, script: ToolScript, task: Task)
    requires Consistent(script, task) && task.accepting && task.pos < |script.steps| && script.steps[task.pos].Report?
    ensures var next := task.(pos := task.pos + 1);
      Consistent(script, next)
      && Progress(call, script, next)
        == Progress(call, script, task) + [ToolUpdate(call, script.steps[task.pos].partial)]
  {
    UpdatesReport(call, script.steps, task.pos);
  }

  lemma SettleStep(call: ToolCall, script: ToolScript, task: Task)
    requires Consistent(script, task) && task.accepting
    requires task.pos < |script.steps| ==> script.steps[task.pos].Settle?
    ensures Consistent(script, task.(accepting := false))
    ensures Progress(call, script, task.(accepting := false)) == Progress(call, script, task) + []
  {
    UpdatesSettled(call, script.steps, task.pos);
  }

  /** One step of a prepared call. Once its tool has settled, a report is dropped and the end may be emitted. */
  method StepTool(call: ToolCall, script: ToolScript, task: Task) returns (next: Task, events: seq<Event>)
    requires Consistent(script, task) && !task.ended
    ensures Consistent(script, next) && Left(script, next) < Left(script, task)
    ensures Progress(call, script, next) == Progress(call, script, task) + events
    ensures |events| <= 1
    ensures next.ended ==> events == [ToolEnd(call, script.outcome)]
    ensures !next.ended ==> forall e | e in events :: e.ToolUpdate?
  {
    var steps, pos := script.steps, task.pos;
    if task.accepting {
      if pos < |steps| && steps[pos].Report? {
        ReportStep(call, script, task);
        next, events := task.(pos := pos + 1), [ToolUpdate(call, steps[pos].partial)];
      } else {
        SettleStep(call, script, task);
        next, events := task.(accepting := false), [];
      }
    } else {
      var late: bool :| true;
      if late && pos < |steps| {
        next, events := task.(pos := pos + 1), [];
      } else {
        next, events := task.(ended := true), [ToolEnd(call, script.outcome)];
      }
    }
  }

  ghost predicate AllConsistent(tools: nat -> ToolScript, tasks: seq<Task>) {
    forall i | 0 <= i < |tasks| :: Consistent(tools(i), tasks[i])
  }

  ghost function TotalLeft(tools: nat -> ToolScript, tasks: seq<Task>): nat
    requires AllConsistent(tools, tasks)
    decreases |tasks|
  {
    if tasks == [] then 0
    else TotalLeft(tools, tasks[..|tasks| - 1]) + Left(tools(|tasks| - 1), tasks[|tasks| - 1])
  }

  lemma {:induction false} StepLeavesLess(tools: nat -> ToolScript, tasks: seq<Task>, k: nat, next: Task)
    requires AllConsistent(tools, tasks) && k < |tasks| && Consistent(tools(k), next)
    requires Left(tools(k), next) < Left(tools(k), tasks[k])
    ensures AllConsistent(tools, tasks[k := next])
    ensures TotalLeft(tools, tasks[k := next]) < TotalLeft(tools, tasks)
    decreases |tasks|
  {
    var n := |tasks| - 1;
    if k < n {
      StepLeavesLess(tools, tasks[..n], k, next);
      assert tasks[k := next][..n] == tasks[..n][k := next];
    } else {
      assert tasks[k := next][..n] == tasks[..n];
    }
  }

  /** Every event belongs to one of the first calls. */
  ghost predicate OwnersBelow(owners: seq<int>, n: int) {
    forall j | 0 <= j < |owners| :: 0 <= owners[j] < n
  }

  lemma {:induction false} NotYetOwning(events: seq<Event>, owners: seq<int>, n: int)
    requires |events| == |owners| && OwnersBelow(owners, n)
    ensures Select(events, owners, n) == []
    decreases |events|
  {
    if events != [] {
      var m := |events| - 1;
      NotYetOwning(events[..m], owners[..m], n);
    }
  }

  /** The events so far, each with the call it belongs to: every call has made its own progress, in its own order. */
  ghost predicate Interleaved(events: seq<Event>, owners: seq<int>, calls: seq<ToolCall>, tools: nat -> ToolScript,
                              tasks: seq<Task>)
    requires |tasks| <= |calls|
  {
    && |events| == |owners| && OwnersBelow(owners, |tasks|)
    && AllConsistent(tools, tasks)
    && (forall i | 0 <= i < |tasks| :: Select(events, owners, i) == Progress(calls[i], tools(i), tasks[i]))
  }

  /** What is pending belongs to a call that has not ended. */
  ghost predicate PendingCovered(pending: set<string>, calls: seq<ToolCall>, tasks: seq<Task>)
    requires |tasks| <= |calls|
  {
    forall id | id in pending :: exists i :: 0 <= i < |tasks| && !tasks[i].ended && calls[i].id == id
  }

  lemma ShareAfterStart(events: seq<Event>, owners: seq<int>, n: int, first: seq<Event>, i: int)
    requires |events| == |owners| && OwnersBelow(owners, n)
    ensures Select(events + first, owners + Repeat(n, |first|), i) == if i == n then first
      else Select(events, owners, i)
  {
    NotYetOwning(events, owners, n);
    SelectAppend(events, owners, first, n, i);
    var own := Select(events, owners, i);
    assert own + [] == own && [] + first == first;
  }

  lemma InterleavedStart(events: seq<Event>, owners: seq<int>, calls: seq<ToolCall>, tools: nat -> ToolScript,
                         tasks: seq<Task>, task: Task)
    requires |tasks| < |calls| && Interleaved(events, owners, calls, tools, tasks) && Consistent(tools(|tasks|), task)
    ensures var first := Progress(calls[|tasks|], tools(|tasks|), task);
      Interleaved(events + first, owners + Repeat(|tasks|, |first|), calls, tools, tasks + [task])
  {
    var n: int := |tasks|;
    var first, more := Progress(calls[n], tools(n), task), tasks + [task];
    assert AllConsistent(tools, more);
    forall i | 0 <= i < |more|
      ensures Select(events + first, owners + Repeat(n, |first|), i) == Progress(calls[i], tools(i), more[i])
    {
      ShareAfterStart(events, owners, n, first, i);
      assert i < n ==> more[i] == tasks[i];
    }
  }

  lemma InterleavedStep(events: seq<Event>, owners: seq<int>, calls: seq<ToolCall>, tools: nat -> ToolScript,
                        tasks: seq<Task>, k: int, next: Task, more: seq<Event>)
    requires |tasks| <= |calls| && Interleaved(events, owners, calls, tools, tasks)
    requires 0 <= k < |tasks| && Consistent(tools(k), next)
    requires Progress(calls[k], tools(k), next) == Progress(calls[k], tools(k), tasks[k]) + more
    ensures Interleaved(events + more, owners + Repeat(k, |more|), calls, tools, tasks[k := next])
  {
    var after := tasks[k := next];
    assert AllConsistent(tools, after);
    forall i | 0 <= i < |after|
      ensures Select(events + more, owners + Repeat(k, |more|), i) == Progress(calls[i], tools(i), after[i])
    {
      SelectAppend(events, owners, more, k, i);
    }
  }

  /** Execution events in a turn, with nothing pending but calls that have not ended. */
  ghost predicate Covered(events: seq<Event>, calls: seq<ToolCall>, tasks: seq<Task>)
    requires |tasks| <= |calls|
  {
    Running(events) && PendingCovered(Track(Turning, events).pending, calls, tasks)
  }

  lemma CoveredStart(events: seq<Event>, calls: seq<ToolCall>, tasks: seq<Task>)
    requires |tasks| < |calls| && Covered(events, calls, tasks)
    ensures Covered(events + [ToolStart(calls[|tasks|])], calls, tasks + [Task(0, true, false)])
  {
    var more := tasks + [Task(0, true, false)];
    ToolSnoc(events, ToolStart(calls[|tasks|]));
    assert !more[|tasks|].ended;
    forall i | 0 <= i < |tasks| && !tasks[i].ended
      ensures !more[i].ended
    {
    }
  }

  lemma CoveredImmediate(events: seq<Event>, calls: seq<ToolCall>, tasks: seq<Task>, outcome: Outcome)
    requires |tasks| < |calls| && Covered(events, calls, tasks)
    ensures Covered(events + [ToolStart(calls[|tasks|]), ToolEnd(calls[|tasks|], outcome)], calls,
      tasks + [Task(0, false, true)])
  {
    var start, end := ToolStart(calls[|tasks|]), ToolEnd(calls[|tasks|], outcome);
    var more := tasks + [Task(0, false, true)];
    ToolSnoc(events, start);
    ToolSnoc(events + [start], end);
    assert events + [start] + [end] == events + [start, end];
    forall i | 0 <= i < |tasks| && !tasks[i].ended
      ensures !more[i].ended
    {
    }
  }

  lemma PendingStep(pending: set<string>, calls: seq<ToolCall>, tasks: seq<Task>, k: int, next: Task)
    requires |tasks| <= |calls| && PendingCovered(pending, calls, tasks) && 0 <= k < |tasks|
    ensures PendingCovered(if next.ended then pending - {calls[k].id} else pending, calls, tasks[k := next])
  {
    forall id | id in pending && (next.ended ==> id != calls[k].id)
      ensures exists i :: 0 <= i < |tasks| && !tasks[k := next][i].ended && calls[i].id == id
    {
      var i :| 0 <= i < |tasks| && !tasks[i].ended && calls[i].id == id;
      assert !tasks[k := next][i].ended;
    }
  }

  lemma StepPending(events: seq<Event>, call: ToolCall, ended: bool, more: seq<Event>)
    requires Running(events) && |more| <= 1
    requires ended ==> more != [] && more[0].ToolEnd? && more[0].call == call
    requires !ended ==> forall e | e in more :: e.ToolUpdate?
    ensures Running(events + more)
    ensures var pending := Track(Turning, events).pending;
      Track(Turning, events + more).pending == if ended then pending - {call.id} else pending
  {
    if more == [] {
      assert events + more == events;
    } else {
      var e := more[0];
      assert e in more && more == [e];
      assert if ended then e.ToolEnd? && e.call == call else e.ToolUpdate?;
      ToolSnoc(events, e);
      assert events + more == events + [e];
    }
  }

  lemma CoveredStep(events: seq<Event>, calls: seq<ToolCall>, tasks: seq<Task>, k: int, next: Task, more: seq<Event>)
    requires |tasks| <= |calls| && Covered(events, calls, tasks) && 0 <= k < |tasks| && |more| <= 1
    requires next.ended ==> more != [] && more[0].ToolEnd? && more[0].call == calls[k]
    requires !next.ended ==> forall e | e in more :: e.ToolUpdate?
    ensures Covered(events + more, calls, tasks[k := next])
  {
    StepPending(events, calls[k], next.ended, more);
    PendingStep(Track(Turning, events).pending, calls, tasks, k, next);
  }

  /** An interleaved batch: the executions of the calls, each whole and in its own order, and then their results. */
  ghost predicate Interleaving(events: seq<Event>, owners: seq<int>, calls: seq<ToolCall>, tools: nat -> ToolScript,
                               results: seq<Message>)
  {
    && |owners| <= |events| && |results| <= |calls| && events[|owners|..] == Announce(results)
    && (forall i | 0 <= i < |results| :: Select(events[..|owners|], owners, i) == Execution(calls[i], tools(i)))
    && OwnersBelow(owners, |results|)
  }

  /** First every call is prepared, in order; then the prepared ones run, in any interleaving of their steps; then the
      results are announced in source order. Each event of the execution is returned with the call it belongs to. */
  method ExecuteParallel(calls: seq<ToolCall>, tools: nat -> ToolScript, aborted: nat -> bool)
    returns (events: seq<Event>, owners: seq<int>, results: seq<Message>, terminate: bool)
    ensures Reaches(|results|, calls, aborted)
    ensures results == Results(calls, tools, |results|)
    ensures Interleaving(events, owners, calls, tools, results) && Batch(events, results)
    ensures terminate == ShouldTerminate(Outcomes(tools, |results|))
  {
    var tasks: seq<Task>;
    events, owners, tasks := PrepareAll(calls, tools, aborted);
    events, owners, tasks := RunAll(calls, tools, events, owners, tasks);
    AllEnded(events, owners, calls, tools, tasks);
    var messages;
    messages, results, terminate := AnnounceAll(calls, tools, |tasks|);
    BatchAnnounce(results);
    BatchAppend(events, [], messages, results);
    assert (events + messages)[..|owners|] == events && (events + messages)[|owners|..] == messages;
    events := events + messages;
  }

  method AnnounceAll(calls: seq<ToolCall>, tools: nat -> ToolScript, n: nat)
    returns (events: seq<Event>, results: seq<Message>, terminate: bool)
    requires n <= |calls|
    ensures results == Results(calls, tools, n) && events == Announce(results)
    ensures terminate == ShouldTerminate(Outcomes(tools, n))
  {
    var finalizedCalls := [];
    events, results := [], [];
    for i := 0 to n
      invariant finalizedCalls == Outcomes(tools, i) && results == Results(calls, tools, i)
      invariant events == Announce(results)
    {
      var finalized := tools(i).outcome;
      var result := ResultMessage(calls[i], finalized);
      AnnounceSnoc(results, result);
      finalizedCalls := finalizedCalls + [finalized];
      events := events + [MessageStart(result), MessageEnd(result)];
      results := results + [result];
    }
    terminate := ShouldTerminate(finalizedCalls);
  }

  lemma NothingStarted(calls: seq<ToolCall>, tools: nat -> ToolScript)
    ensures Interleaved([], [], calls, tools, []) && Covered([], calls, [])
  {
  }

  method PrepareAll(calls: seq<ToolCall>, tools: nat -> ToolScript, aborted: nat -> bool)
    returns (events: seq<Event>, owners: seq<int>, tasks: seq<Task>)
    ensures Reaches(|tasks|, calls, aborted)
    ensures Interleaved(events, owners, calls, tools, tasks) && Covered(events, calls, tasks)
  {
    events, owners, tasks := [], [], [];
    NothingStarted(calls, tools);
    while |tasks| < |calls|
      invariant |tasks| <= |calls| && (forall j: nat | j < |tasks| :: !aborted(j))
      invariant Interleaved(events, owners, calls, tools, tasks) && Covered(events, calls, tasks)
      decreases |calls| - |tasks|
    {
      events, owners, tasks := Prepare(calls, tools, events, owners, tasks);
      if aborted(|tasks| - 1) {
        break;
      }
    }
  }

  method Prepare(calls: seq<ToolCall>, tools: nat -> ToolScript, before: seq<Event>, owned: seq<int>,
                 started: seq<Task>)
    returns (events: seq<Event>, owners: seq<int>, tasks: seq<Task>)
    requires |started| < |calls|
    requires Interleaved(before, owned, calls, tools, started) && Covered(before, calls, started)
    ensures |tasks| == |started| + 1
    ensures Interleaved(events, owners, calls, tools, tasks) && Covered(events, calls, tasks)
  {
    var i := |started|;
    match tools(i) {
      case Immediate(outcome) =>
        CoveredImmediate(before, calls, started, outcome);
        InterleavedStart(before, owned, calls, tools, started, Task(0, false, true));
        assert Progress(calls[i], tools(i), Task(0, false, true)) == [ToolStart(calls[i]), ToolEnd(calls[i], outcome)];
        events := before + [ToolStart(calls[i]), ToolEnd(calls[i], outcome)];
        owners := owned + Repeat(i, 2);
        tasks := started + [Task(0, false, true)];
      case Prepared(steps, _) =>
        CoveredStart(before, calls, started);
        InterleavedStart(before, owned, calls, tools, started, Task(0, true, false));
        assert Progress(calls[i], tools(i), Task(0, true, false)) == [ToolStart(calls[i])];
        events := before + [ToolStart(calls[i])];
        owners := owned + Repeat(i, 1);
        tasks := started + [Task(0, true, false)];
    }
  }

  method RunAll(calls: seq<ToolCall>, tools: nat -> ToolScript, before: seq<Event>, owned: seq<int>,
                prepared: seq<Task>)
    returns (events: seq<Event>, owners: seq<int>, tasks: seq<Task>)
    requires |prepared| <= |calls|
    requires Interleaved(before, owned, calls, tools, prepared) && Covered(before, calls, prepared)
    ensures |tasks| == |prepared| && forall i | 0 <= i < |tasks| :: tasks[i].ended
    ensures Interleaved(events, owners, calls, tools, tasks) && Covered(events, calls, tasks)
  {
    events, owners, tasks := before, owned, prepared;
    while exists i :: 0 <= i < |tasks| && !tasks[i].ended
      invariant |tasks| == |prepared|
      invariant Interleaved(events, owners, calls, tools, tasks) && Covered(events, calls, tasks)
      decreases TotalLeft(tools, tasks)
    {
      var k :| 0 <= k < |tasks| && !tasks[k].ended;
      assert Consistent(tools(k), tasks[k]);
      var next, more := StepTool(calls[k], tools(k), tasks[k]);
      InterleavedStep(events, owners, calls, tools, tasks, k, next, more);
      CoveredStep(events, calls, tasks, k, next, more);
      StepLeavesLess(tools, tasks, k, next);
      events, owners, tasks := events + more, owners + Repeat(k, |more|), tasks[k := next];
    }
  }

  lemma AllEnded(events: seq<Event>, owners: seq<int>, calls: seq<ToolCall>, tools: nat -> ToolScript, tasks: seq<Task>)
    requires |tasks| <= |calls| && Interleaved(events, owners, calls, tools, tasks) && Covered(events, calls, tasks)
    requires forall i | 0 <= i < |tasks| :: tasks[i].ended
    ensures Batch(events, [])
    ensures forall i | 0 <= i < |tasks| :: Select(events, owners, i) == Execution(calls[i], tools(i))
  {
    forall i | 0 <= i < |tasks|
      ensures Progress(calls[i], tools(i), tasks[i]) == Execution(calls[i], tools(i))
    {
      assert Consistent(tools(i), tasks[i]);
    }
    assert Track(Turning, events).pending == {};
  }
}
