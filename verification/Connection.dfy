/** Connecting, the handshake, and failing: what a connection reports, settles, delivers and closes. */
module Connection {
  import opened Basics

  /** What leaves the connection, with the number of the connect call it belongs to. */
  datatype Output =
    | Connecting(id: nat)
    | Hello(id: nat)
    | Connected(id: nat)
    | Settled(id: nat, ok: bool)
    | Delivered(id: nat)
    | Disconnected(id: nat)

  // ---- What one connect call may put out ----

  datatype Report = Unheard | Trying | Joined | Over

  datatype Stage = Stage(report: Report, greeted: bool, settled: bool, proper: bool)

  /** One output of the call: it reports connecting, then at most one connected, then at most one disconnected; it
      settles its handshake once at most, successfully only after connecting; and it delivers only between its hello and
      its end. */
  function Advance(s: Stage, o: Output): Stage {
    match o
    case Connecting(_) => s.(report := Trying, proper := s.proper && s.report == Unheard)
    case Hello(_) => s.(greeted := true, proper := s.proper && s.report == Trying && !s.greeted)
    case Connected(_) => s.(report := Joined, proper := s.proper && s.report == Trying && s.greeted)
    case Settled(_, ok) => s.(settled := true, proper := s.proper && !s.settled && (ok ==> s.report == Joined))
    case Delivered(_) => s.(proper := s.proper && s.greeted && s.report == Joined)
    case Disconnected(_) =>
      s.(report := Over, proper := s.proper && (s.report == Trying || s.report == Joined) && s.settled)
  }

  function StageOf(log: seq<Output>, id: nat): Stage
    decreases |log|
  {
    if log == [] then Stage(Unheard, false, false, true)
    else
      var before := StageOf(log[..|log| - 1], id);
      if log[|log| - 1].id == id then Advance(before, log[|log| - 1]) else before
  }

  lemma StageSnoc(log: seq<Output>, o: Output)
    ensures forall id :: StageOf(log + [o], id) == if o.id == id then Advance(StageOf(log, id), o) else StageOf(log, id)
  {
    assert (log + [o])[..|log|] == log;
  }

  // ---- What a proper log says ----

  /** The part of a proper log before any point is proper, and what the point adds is allowed there. */
  lemma {:induction false} ProperPrefix(log: seq<Output>, id: nat, k: nat)
    requires StageOf(log, id).proper && k < |log|
    ensures StageOf(log[..k], id).proper && StageOf(log[..k + 1], id).proper
    decreases |log|
  {
    var n := |log| - 1;
    assert log[..n + 1] == log;
    if k < n {
      ProperPrefix(log[..n], id, k);
      assert log[..n][..k] == log[..k] && log[..n][..k + 1] == log[..k + 1];
    }
  }

  predicate Settles(o: Output, id: nat) {
    o.Settled? && o.id == id
  }

  lemma {:induction false} SettledIsSeen(log: seq<Output>, id: nat)
    ensures StageOf(log, id).settled <==> exists k :: 0 <= k < |log| && Settles(log[k], id)
    decreases |log|
  {
    if log != [] {
      var n := |log| - 1;
      SettledIsSeen(log[..n], id);
      if k :| 0 <= k < |log| && Settles(log[k], id) {
        assert k == n || log[..n][k] == log[k];
      }
    }
  }

  /** A handshake is settled at most once. */
  lemma SettledOnce(log: seq<Output>, id: nat, i: nat, j: nat)
    requires StageOf(log, id).proper && i < |log| && j < |log| && Settles(log[i], id) && Settles(log[j], id)
    ensures i == j
  {
    var first, second := if i < j then i else j, if i < j then j else i;
    if first < second {
      ProperPrefix(log, id, second);
      assert log[..second + 1][..second] == log[..second];
      assert Settles(log[..second][first], id);
      SettledIsSeen(log[..second], id);
    }
  }

  lemma {:induction false} GreetedIsSeen(log: seq<Output>, id: nat)
    ensures StageOf(log, id).greeted <==> Hello(id) in log
    decreases |log|
  {
    if log != [] {
      var n := |log| - 1;
      GreetedIsSeen(log[..n], id);
      assert log == log[..n] + [log[n]];
    }
  }

  /** No ordinary message is delivered before the connection's own hello. */
  lemma HelloComesFirst(log: seq<Output>, id: nat, k: nat)
    requires StageOf(log, id).proper && k < |log| && log[k] == Delivered(id)
    ensures Hello(id) in log[..k]
  {
    ProperPrefix(log, id, k);
    assert log[..k + 1][..k] == log[..k];
    GreetedIsSeen(log[..k], id);
  }

  /** Once a connection has reported its end, nothing more comes out of it. */
  lemma {:induction false} NothingAfterTheEnd(log: seq<Output>, id: nat, i: nat)
    requires StageOf(log, id).proper && i < |log| && log[i] == Disconnected(id)
    ensures StageOf(log, id).report == Over && forall j | i < j < |log| :: log[j].id != id
    decreases |log|
  {
    var n := |log| - 1;
    ProperPrefix(log, id, n);
    assert log[..n + 1] == log;
    if i < n {
      NothingAfterTheEnd(log[..n], id, i);
      OverIsSettled(log[..n], id);
      assert forall j | i < j < n :: log[j] == log[..n][j];
    }
  }

  lemma {:induction false} OverIsSettled(log: seq<Output>, id: nat)
    requires StageOf(log, id).proper && StageOf(log, id).report == Over
    ensures StageOf(log, id).settled
    decreases |log|
  {
    var n := |log| - 1;
    ProperPrefix(log, id, n);
    assert log[..n + 1] == log;
    if log[n].id != id || !log[n].Disconnected? {
      OverIsSettled(log[..n], id);
    }
  }

  // ---- The connection ----

  datatype Lifecycle =
    | Idle
    | Opening(id: nat, transport: bool)
    | Open(id: nat, handshake: bool)

  datatype ServerMessage = HelloMessage | HelloError | Ordinary

  /** What the callbacks do while one server message is handled: end the connection or not, and throw or not. */
  datatype Reaction = Reaction(onHandshakeEnds: bool, onHandshakeThrows: bool, onChangeEnds: bool, onMessageEnds: bool)

  /** Whether a lifecycle belongs to a call, has a transport, and still has its handshake to settle. */
  predicate Belongs(l: Lifecycle, id: nat) {
    !l.Idle? && l.id == id
  }

  predicate HasTransport(l: Lifecycle) {
    l.Open? || (l.Opening? && l.transport)
  }

  /** Where the log stands for a call, by the lifecycle: calls that are over have settled, exactly once. */
  predicate Fits(s: Stage, l: Lifecycle, id: nat, sequence: nat) {
    && s.proper
    && (if id == 0 || id > sequence then s.report == Unheard && !s.greeted && !s.settled
        else if !Belongs(l, id) then s.report == Over && s.settled
        else if l.Opening? then s.report == Trying && !s.greeted && !s.settled
        else s.greeted && s.settled == !l.handshake && (s.report == Joined || (l.handshake && s.report == Trying)))
  }

  /** The outputs of a failure: a pending handshake is rejected, then the end is reported. */
  function Ending(l: Lifecycle): seq<Output> {
    match l
    case Idle => []
    case Opening(id, _) => [Settled(id, false), Disconnected(id)]
    case Open(id, handshake) => if handshake then [Settled(id, false), Disconnected(id)] else [Disconnected(id)]
  }

  /** Whether a call goes on after a message, and with which outputs: the hello connects unless a callback ends the call
      or throws; an ordinary message is delivered once connected; any other message ends the call. */
  predicate GoesOn(l: Lifecycle, message: ServerMessage, reaction: Reaction) {
    if l.Opening? then
      message.HelloMessage? && !reaction.onHandshakeEnds && !reaction.onHandshakeThrows && !reaction.onChangeEnds
    else message.Ordinary? && !reaction.onMessageEnds
  }

  function After(l: Lifecycle, message: ServerMessage, reaction: Reaction): Lifecycle
    requires !l.Idle?
  {
    if GoesOn(l, message, reaction) then Open(l.id, false) else Idle
  }

  function Outputs(l: Lifecycle, message: ServerMessage, reaction: Reaction): seq<Output>
    requires !l.Idle?
  {
    if l.Opening? && message.HelloMessage? then
      [Hello(l.id)]
      + (if reaction.onHandshakeEnds || reaction.onHandshakeThrows then [] else [Connected(l.id)])
      + (if GoesOn(l, message, reaction) then [Settled(l.id, true)] else [Settled(l.id, false), Disconnected(l.id)])
    else if l.Open? && message.Ordinary? then
      [Delivered(l.id)] + (if reaction.onMessageEnds then Ending(l) else [])
    else Ending(l)
  }

  /** The outputs for the messages of a chunk: after a message that ends the call, the others are dropped. */
  function DataOutputs(l: Lifecycle, messages: seq<ServerMessage>, reactions: seq<Reaction>): seq<Output>
    requires |messages| == |reactions|
    decreases |messages|
  {
    if messages == [] || l.Idle? then []
    else
      Outputs(l, messages[0], reactions[0])
      + DataOutputs(After(l, messages[0], reactions[0]), messages[1..], reactions[1..])
  }

  function AfterData(l: Lifecycle, messages: seq<ServerMessage>, reactions: seq<Reaction>): Lifecycle
    requires |messages| == |reactions|
    decreases |messages|
  {
    if messages == [] || l.Idle? then l
    else AfterData(After(l, messages[0], reactions[0]), messages[1..], reactions[1..])
  }

  class Connection {
    var lifecycle: Lifecycle
    var sequence: nat
    /** By call: the transports the factory made, those the client closed, and those that reported themselves closed. */
    var created: set<nat>
    var closed: set<nat>
    var gone: set<nat>
    ghost var log: seq<Output>

    ghost predicate Valid()
      reads this
    {
      && (!lifecycle.Idle? ==> 0 < lifecycle.id <= sequence)
      && (HasTransport(lifecycle) ==> lifecycle.id in created)
      && (lifecycle.Opening? && !lifecycle.transport ==> lifecycle.id !in created)
      && (forall t | t in created :: 0 < t <= sequence && (t in closed || t in gone || Belongs(lifecycle, t)))
      && (forall id :: Fits(StageOf(log, id), lifecycle, id, sequence))
    }

    /** Between two segments no handshake is half done. */
    ghost predicate Ready()
      reads this
    {
      Valid() && (lifecycle.Open? ==> !lifecycle.handshake)
    }

    constructor ()
      ensures Ready() && lifecycle == Idle && sequence == 0 && log == []
    {
      lifecycle, sequence, created, closed, gone, log := Idle, 0, {}, {}, {}, [];
    }

    /** Every transport that the factory made is the current one, was closed by the client, or reported itself
        closed. */
    lemma NoTransportIsForgotten(t: nat)
      requires Valid() && t in created
      ensures t in closed || t in gone || (IsCurrent(t) && HasTransport(lifecycle))
    {
    }

    /** The handshake of every call that is not current has been settled, exactly once. */
    lemma HandshakeIsSettled(id: nat) returns (k: nat)
      requires Valid() && 0 < id <= sequence && !IsCurrent(id)
      ensures k < |log| && Settles(log[k], id) && forall j | 0 <= j < |log| && Settles(log[j], id) :: j == k
    {
      assert Fits(StageOf(log, id), lifecycle, id, sequence);
      SettledIsSeen(log, id);
      k :| 0 <= k < |log| && Settles(log[k], id);
      forall j | 0 <= j < |log| && Settles(log[j], id)
        ensures j == k
      {
        SettledOnce(log, id, j, k);
      }
    }

    ghost method Put(o: Output)
      modifies this`log
      ensures log == old(log) + [o]
      ensures forall id ::
        StageOf(log, id) == if o.id == id then Advance(StageOf(old(log), id), o) else StageOf(old(log), id)
    {
      StageSnoc(log, o);
      log := log + [o];
    }

    predicate IsCurrent(id: nat)
      reads this
    {
      Belongs(lifecycle, id)
    }

    // ---- Failing ----

    /** Ends the current call, if any, whose transport is closed, or has reported itself closed. */
    method EndCurrent(close: bool)
      requires Valid()
      requires !close && HasTransport(lifecycle) ==> lifecycle.id in gone
      modifies this`lifecycle, this`closed, this`log
      ensures Valid() && lifecycle == Idle
      ensures closed == old(closed) + (if close && old(HasTransport(lifecycle)) then {old(lifecycle).id} else {})
      ensures log == old(log) + Ending(old(lifecycle))
    {
      if lifecycle.Idle? {
        return;
      }
      var before := lifecycle;
      if before.Opening? || before.handshake {
        Put(Settled(before.id, false));
      }
      lifecycle := Idle;
      Put(Disconnected(before.id));
      if close && HasTransport(before) {
        closed := closed + {before.id};
      }
    }

    method FailAndClose()
      requires Valid()
      modifies this`lifecycle, this`closed, this`log
      ensures Valid() && lifecycle == Idle && log == old(log) + Ending(old(lifecycle))
      ensures closed == old(closed) + (if old(HasTransport(lifecycle)) then {old(lifecycle).id} else {})
    {
      EndCurrent(true);
    }

    // ---- Opening ----

    /** A call while another is current is refused; otherwise it gets the next number and reports that it is connecting,
        and the callback may end it at once. */
    method Connect(onChangeEnds: bool) returns (id: Option<nat>)
      requires Ready()
      modifies this`lifecycle, this`sequence, this`closed, this`log
      ensures Ready() && closed == old(closed)
      ensures id.None? <==> !old(lifecycle).Idle?
      ensures id.None? ==> lifecycle == old(lifecycle) && log == old(log) && sequence == old(sequence)
      ensures id.Some? ==> id.value == sequence == old(sequence) + 1
      ensures id.Some? ==> lifecycle == if onChangeEnds then Idle else Opening(sequence, false)
      ensures id.Some? ==>
        log == old(log) + [Connecting(sequence)] + if onChangeEnds then Ending(Opening(sequence, false)) else []
    {
      if !lifecycle.Idle? {
        return None;
      }
      sequence := sequence + 1;
      lifecycle := Opening(sequence, false);
      Put(Connecting(sequence));
      id := Some(sequence);
      if onChangeEnds {
        FailAndClose();
      }
    }

    /** The transport of a call: kept if the call is still waiting for it, and closed otherwise. */
    method TransportMade(id: nat)
      requires Ready() && 0 < id <= sequence && id !in created
      modifies this`lifecycle, this`created, this`closed
      ensures Ready() && created == old(created) + {id}
      ensures lifecycle == if old(lifecycle) == Opening(id, false) then Opening(id, true) else old(lifecycle)
      ensures closed == old(closed) + if old(lifecycle) == Opening(id, false) then {} else {id}
    {
      created := created + {id};
      if lifecycle.Opening? && lifecycle.id == id {
        lifecycle := Opening(id, true);
      } else {
        closed := closed + {id};
      }
    }

    method TransportFailed(id: nat)
      requires Ready() && 0 < id <= sequence && id !in created
      modifies this`lifecycle, this`closed, this`log
      ensures Ready() && closed == old(closed)
      ensures lifecycle == if old(IsCurrent(id)) then Idle else old(lifecycle)
      ensures log == old(log) + if old(IsCurrent(id)) then Ending(old(lifecycle)) else []
    {
      if IsCurrent(id) {
        EndCurrent(false);
      }
    }

    // ---- What the transport reports ----

    /** Closing: the call ends if it is current; nothing is left to close. */
    method OnClose(id: nat)
      requires Ready()
      modifies this`lifecycle, this`closed, this`gone, this`log
      ensures Ready() && gone == old(gone) + {id} && closed == old(closed)
      ensures lifecycle == if old(IsCurrent(id)) then Idle else old(lifecycle)
      ensures log == old(log) + if old(IsCurrent(id)) then Ending(old(lifecycle)) else []
    {
      gone := gone + {id};
      if IsCurrent(id) {
        EndCurrent(false);
      }
    }

    /** An error, or the failure of the hello: the current call ends, and its transport is closed. */
    method OnError(id: nat)
      requires Ready()
      modifies this`lifecycle, this`closed, this`log
      ensures Ready() && log == old(log) + if old(IsCurrent(id)) then Ending(old(lifecycle)) else []
      ensures lifecycle == if old(IsCurrent(id)) then Idle else old(lifecycle)
      ensures closed == old(closed) + if old(IsCurrent(id) && HasTransport(lifecycle)) then {id} else {}
    {
      if IsCurrent(id) {
        FailAndClose();
      }
    }

    /** The failure of an earlier send ends the call that still uses the transport. */
    method OnSendFailed(id: nat)
      requires Ready()
      modifies this`lifecycle, this`closed, this`log
      ensures Ready() && log == old(log) + if old(IsCurrent(id) && HasTransport(lifecycle)) then Ending(old(lifecycle))
        else []
      ensures lifecycle == if old(IsCurrent(id) && HasTransport(lifecycle)) then Idle else old(lifecycle)
      ensures closed == old(closed) + if old(IsCurrent(id) && HasTransport(lifecycle)) then {id} else {}
    {
      if HasTransport(lifecycle) && lifecycle.id == id {
        FailAndClose();
      }
    }

    method Disconnect()
      requires Ready()
      modifies this`lifecycle, this`closed, this`log
      ensures Ready() && lifecycle == Idle && log == old(log) + Ending(old(lifecycle))
      ensures closed == old(closed) + if old(HasTransport(lifecycle)) then {old(lifecycle).id} else {}
    {
      FailAndClose();
    }

    /** The messages of a chunk, or nothing when the decoder fails, each handled while the call is current. */
    method OnData(id: nat, decoded: Option<seq<ServerMessage>>, reactions: seq<Reaction>)
      requires Ready() && (decoded.Some? ==> |reactions| == |decoded.value|)
      modifies this`lifecycle, this`closed, this`log
      ensures Ready()
      ensures !old(IsCurrent(id)) ==> lifecycle == old(lifecycle) && log == old(log)
      ensures old(IsCurrent(id)) && (!old(HasTransport(lifecycle)) || decoded.None?) ==>
        lifecycle == Idle && log == old(log) + Ending(old(lifecycle))
      ensures old(IsCurrent(id) && HasTransport(lifecycle)) && decoded.Some? ==>
        (lifecycle == AfterData(old(lifecycle), decoded.value, reactions)
        && log == old(log) + DataOutputs(old(lifecycle), decoded.value, reactions))
      ensures closed == old(closed) + if old(IsCurrent(id) && HasTransport(lifecycle)) && lifecycle.Idle? then {id}
        else {}
    {
      if !IsCurrent(id) {
        return;
      }
      if (lifecycle.Opening? && !lifecycle.transport) || decoded.None? {
        FailAndClose();
        return;
      }
      var messages := decoded.value;
      ghost var all := log + DataOutputs(lifecycle, messages, reactions);
      for i := 0 to |messages|
        invariant Ready() && closed == old(closed) + if lifecycle.Idle? then {id} else {}
        invariant lifecycle.Idle? || (IsCurrent(id) && HasTransport(lifecycle))
        invariant log + DataOutputs(lifecycle, messages[i..], reactions[i..]) == all
        invariant AfterData(lifecycle, messages[i..], reactions[i..]) == AfterData(old(lifecycle), messages, reactions)
      {
        if lifecycle.Idle? {
          return;
        }
        NextMessage(lifecycle, messages, reactions, i, log);
        HandleMessage(messages[i], reactions[i]);
      }
    }

    method HandleMessage(message: ServerMessage, reaction: Reaction)
      requires Ready() && HasTransport(lifecycle)
      modifies this`lifecycle, this`closed, this`log
      ensures Ready()
      ensures closed == old(closed) + if old(GoesOn(lifecycle, message, reaction)) then {} else {old(lifecycle).id}
      ensures lifecycle == After(old(lifecycle), message, reaction)
      ensures log == old(log) + Outputs(old(lifecycle), message, reaction)
    {
      if lifecycle.Opening? {
        if message.HelloMessage? {
          HandleHello(reaction);
        } else {
          FailAndClose();
        }
        return;
      }
      if !message.Ordinary? {
        FailAndClose();
        return;
      }
      Put(Delivered(lifecycle.id));
      if reaction.onMessageEnds {
        FailAndClose();
      }
    }

    /** The hello connects: the snapshot is handed over, the change is reported, and only then the handshake resolves. A
        callback that ends the call, or throws, leaves it ended, with the handshake rejected. */
    method HandleHello(reaction: Reaction)
      requires Ready() && lifecycle.Opening? && lifecycle.transport
      modifies this`lifecycle, this`closed, this`log
      ensures Ready()
      ensures closed == old(closed) + if GoesOn(old(lifecycle), HelloMessage, reaction) then {} else {old(lifecycle).id}
      ensures lifecycle == After(old(lifecycle), HelloMessage, reaction)
      ensures log == old(log) + Outputs(old(lifecycle), HelloMessage, reaction)
    {
      var id := lifecycle.id;
      Put(Hello(id));
      lifecycle := Open(id, true);
      if reaction.onHandshakeEnds {
        FailAndClose();
      }
      if reaction.onHandshakeThrows {
        if IsCurrent(id) {
          FailAndClose();
        }
        return;
      }
      if !IsCurrent(id) {
        return;
      }
      Put(Connected(id));
      if reaction.onChangeEnds {
        FailAndClose();
        return;
      }
      lifecycle := Open(id, false);
      Put(Settled(id, true));
    }
  }

  lemma NextMessage(l: Lifecycle, messages: seq<ServerMessage>, reactions: seq<Reaction>, i: nat, log: seq<Output>)
    requires i < |messages| == |reactions| && !l.Idle?
    ensures var next := After(l, messages[i], reactions[i]);
      && AfterData(l, messages[i..], reactions[i..]) == AfterData(next, messages[i + 1..], reactions[i + 1..])
      && log + DataOutputs(l, messages[i..], reactions[i..])
        == (log + Outputs(l, messages[i], reactions[i])) + DataOutputs(next, messages[i + 1..], reactions[i + 1..])
  {
    assert messages[i..][0] == messages[i] && messages[i..][1..] == messages[i + 1..];
    assert reactions[i..][0] == reactions[i] && reactions[i..][1..] == reactions[i + 1..];
  }
}
