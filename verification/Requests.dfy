/** Requests of the client and their answers: every promise is settled once, and only by what may settle it. */
module Requests {
  import opened Basics

  type Command = string

  datatype Settlement = Fulfilled(id: nat, command: Command) | Rejected(id: nat)

  /** Why a request is refused before it gets an id. */
  datatype Refusal = ClientDisposed | NotConnected

  // ---- The settlements so far ----

  function Ids(log: seq<Settlement>): set<nat>
    decreases |log|
  {
    if log == [] then {} else Ids(log[..|log| - 1]) + {log[|log| - 1].id}
  }

  predicate Once(log: seq<Settlement>)
    decreases |log|
  {
    log == [] || (Once(log[..|log| - 1]) && log[|log| - 1].id !in Ids(log[..|log| - 1]))
  }

  /** What is fulfilled is a request that was made, by a result of its own command. */
  predicate Answered(log: seq<Settlement>, commands: map<nat, Command>)
    decreases |log|
  {
    log == [] ||
    (Answered(log[..|log| - 1], commands)
     && (log[|log| - 1].Fulfilled? ==>
       log[|log| - 1].id in commands && commands[log[|log| - 1].id] == log[|log| - 1].command))
  }

  lemma SettledSnoc(log: seq<Settlement>, s: Settlement, commands: map<nat, Command>)
    ensures Ids(log + [s]) == Ids(log) + {s.id}
    ensures Once(log + [s]) <==> Once(log) && s.id !in Ids(log)
    ensures Answered(log + [s], commands) <==>
      Answered(log, commands) && (s.Fulfilled? ==> s.id in commands && commands[s.id] == s.command)
  {
    assert (log + [s])[..|log|] == log;
  }

  /** No promise is settled twice. */
  lemma {:induction false} SettledOnce(log: seq<Settlement>, i: nat, j: nat)
    requires Once(log) && i < j < |log|
    ensures log[i].id != log[j].id
    decreases |log|
  {
    var n := |log| - 1;
    if j < n {
      SettledOnce(log[..n], i, j);
    } else {
      IdsAreSettled(log[..n], log[i].id);
      assert log[..n][i] == log[i];
    }
  }

  lemma {:induction false} IdsAreSettled(log: seq<Settlement>, id: nat)
    ensures id in Ids(log) <==> exists i :: 0 <= i < |log| && log[i].id == id
    decreases |log|
  {
    if log != [] {
      var n := |log| - 1;
      IdsAreSettled(log[..n], id);
      if i :| 0 <= i < |log| && log[i].id == id {
        assert i == n || log[..n][i] == log[i];
      }
    }
  }

  lemma {:induction false} FulfilledByOwnCommand(log: seq<Settlement>, commands: map<nat, Command>, i: nat)
    requires Answered(log, commands) && i < |log| && log[i].Fulfilled?
    ensures log[i].id in commands && commands[log[i].id] == log[i].command
    decreases |log|
  {
    var n := |log| - 1;
    if i < n {
      FulfilledByOwnCommand(log[..n], commands, i);
    }
  }

  lemma {:induction false} AnsweredLater(log: seq<Settlement>, commands: map<nat, Command>, id: nat, command: Command)
    requires Answered(log, commands) && id !in commands
    ensures Answered(log, commands[id := command])
    decreases |log|
  {
    if log != [] {
      AnsweredLater(log[..|log| - 1], commands, id, command);
    }
  }

  /** The rejections of the pending requests, in the order in which the requests were made. */
  function Rejections(pending: map<nat, Command>, n: nat): seq<Settlement> {
    if n == 0 then []
    else Rejections(pending, n - 1) + (if n in pending then [Rejected(n)] else [])
  }

  /** Rejecting what is pending settles it, once. */
  lemma {:induction false} RejectionsSettle(log: seq<Settlement>, pending: map<nat, Command>, n: nat,
                                            commands: map<nat, Command>)
    requires Once(log) && Answered(log, commands) && forall id | id in pending :: id !in Ids(log)
    ensures var after := log + Rejections(pending, n);
      Once(after) && Answered(after, commands) && forall id :: id in Ids(after) <==>
        id in Ids(log) || (id in pending && 0 < id <= n)
    decreases n
  {
    if n == 0 {
      assert log + [] == log;
    } else {
      var before := log + Rejections(pending, n - 1);
      RejectionsSettle(log, pending, n - 1, commands);
      if n in pending {
        SettledSnoc(before, Rejected(n), commands);
        assert log + Rejections(pending, n) == before + [Rejected(n)];
      } else {
        assert log + Rejections(pending, n) == before;
      }
    }
  }

  class Client {
    var pendingRequests: map<nat, Command>
    var requestSequence: nat
    var disposed: bool
    var connected: bool
    /** The settlements so far, the commands of all requests, and the last request before the current connection. */
    ghost var log: seq<Settlement>
    ghost var commands: map<nat, Command>
    ghost var earlier: nat

    /** Every request is either pending or settled, and settled once; a fulfilled one by its own command; the pending
        ones belong to the current connection. */
    ghost predicate Table()
      reads this
    {
      && Once(log) && earlier <= requestSequence
      && (forall id :: id in Ids(log) <==> 0 < id <= requestSequence && id !in pendingRequests)
      && (forall id | id in pendingRequests :: earlier < id <= requestSequence)
      && (forall id :: id in commands <==> 0 < id <= requestSequence)
      && (forall id | id in pendingRequests :: commands[id] == pendingRequests[id])
      && Answered(log, commands)
    }

    /** Without a connection nothing is pending. */
    ghost predicate Valid()
      reads this
    {
      Table() && (disposed || !connected ==> pendingRequests == map[])
    }

    constructor ()
      ensures Valid() && !connected && !disposed && requestSequence == 0
    {
      pendingRequests, requestSequence, disposed, connected := map[], 0, false, false;
      log, commands, earlier := [], map[], 0;
    }

    /** Settles a pending request: it is taken out of the table first. */
    method Settle(id: nat, ok: bool)
      requires Table() && id in pendingRequests
      modifies this`pendingRequests, this`log
      ensures Table() && pendingRequests == old(pendingRequests) - {id}
      ensures log == old(log) + [if ok then Fulfilled(id, old(pendingRequests)[id]) else Rejected(id)]
    {
      ghost var settlement := if ok then Fulfilled(id, pendingRequests[id]) else Rejected(id);
      SettledSnoc(log, settlement, commands);
      pendingRequests := pendingRequests - {id};
      log := log + [settlement];
    }

    /** Clears the table, then rejects what was pending, in the order of the requests. */
    method RejectPendingRequests()
      requires Table()
      modifies this`pendingRequests, this`log
      ensures Table() && pendingRequests == map[]
      ensures log == old(log) + Rejections(old(pendingRequests), requestSequence)
    {
      var requests := pendingRequests;
      pendingRequests := map[];
      ghost var start := log;
      for id := 0 to requestSequence
        invariant log == start + Rejections(requests, id)
      {
        if id + 1 in requests {
          log := log + [Rejected(id + 1)];
        }
      }
      RejectionsSettle(start, requests, requestSequence, commands);
    }

    method Connected()
      requires Valid() && !connected && !disposed
      modifies this`connected, this`earlier
      ensures Valid() && connected && earlier == requestSequence
    {
      connected, earlier := true, requestSequence;
    }

    /** The end of the connection settles every request. */
    method Disconnected()
      requires Valid()
      modifies this`pendingRequests, this`connected, this`log
      ensures Valid() && !connected
      ensures forall id | 0 < id <= requestSequence :: id in Ids(log)
      ensures log == old(log) + Rejections(old(pendingRequests), requestSequence)
    {
      connected := false;
      RejectPendingRequests();
    }

    /** A second call does nothing. */
    method Dispose()
      requires Valid()
      modifies this`pendingRequests, this`connected, this`disposed, this`log
      ensures Valid() && disposed
      ensures forall id | 0 < id <= requestSequence :: id in Ids(log)
      ensures log == if old(disposed) then old(log) else old(log) + Rejections(old(pendingRequests), requestSequence)
      ensures !old(disposed) ==> !connected
    {
      if disposed {
        return;
      }
      RejectPendingRequests();
      disposed := true;
      ghost var rejected := log;
      if connected {
        Disconnected();
        NothingToReject(requestSequence);
        assert rejected + [] == log;
      }
    }

    lemma NothingToReject(n: nat)
      ensures Rejections(map[], n) == []
    {
    }

    method Register(command: Command) returns (id: nat)
      requires Table()
      modifies this`requestSequence, this`pendingRequests, this`commands
      ensures Table() && id == requestSequence == old(requestSequence) + 1
      ensures id !in old(pendingRequests) && pendingRequests == old(pendingRequests)[id := command]
      ensures commands == old(commands)[id := command]
    {
      id := requestSequence + 1;
      requestSequence := id;
      AnsweredLater(log, commands, id, command);
      commands := commands[id := command];
      pendingRequests := pendingRequests[id := command];
    }

    /** Makes a request: refused without an id when there is no connection, rejected when it cannot be encoded, and lost
        with everything else pending when sending it ends the connection. */
    method Request(command: Command, encodes: bool, sendFails: bool) returns (r: Result<nat, Refusal>)
      requires Valid()
      modifies this`pendingRequests, this`requestSequence, this`connected, this`log, this`commands
      ensures Valid() && commands == if r.Ok? then old(commands)[r.value := command] else old(commands)
      ensures r == Err(ClientDisposed) <==> old(disposed)
      ensures r == Err(NotConnected) <==> !old(disposed) && !old(connected)
      ensures r.Err? ==>
        log == old(log) && requestSequence == old(requestSequence) && pendingRequests == old(pendingRequests)
      ensures r.Ok? ==> r.value == requestSequence == old(requestSequence) + 1
      ensures r.Ok? && !encodes ==>
        log == old(log) + [Rejected(r.value)] && pendingRequests == old(pendingRequests) && connected
      ensures r.Ok? && encodes && !sendFails ==>
        log == old(log) && pendingRequests == old(pendingRequests)[r.value := command] && connected
      ensures r.Ok? && encodes && sendFails ==> !connected && pendingRequests == map[]
      ensures r.Ok? && encodes && sendFails ==>
        log == old(log) + Rejections(old(pendingRequests)[r.value := command], r.value)
    {
      if disposed {
        return Err(ClientDisposed);
      }
      if !connected {
        return Err(NotConnected);
      }
      var id := Register(command);
      if !encodes {
        Settle(id, false);
      } else if sendFails {
        Disconnected();
      }
      r := Ok(id);
    }

    /** A response settles the request with its id: it is fulfilled only by a success with its own command. A response
        to nothing pending, or with another command, ends the connection. */
    method HandleResponse(id: nat, ok: bool, command: Command)
      requires Valid() && connected
      modifies this`pendingRequests, this`connected, this`log
      ensures Valid()
      ensures id !in old(pendingRequests) ==>
        !connected && log == old(log) + Rejections(old(pendingRequests), requestSequence)
      ensures id in old(pendingRequests) && (!ok || command == old(pendingRequests)[id]) ==>
        (connected && pendingRequests == old(pendingRequests) - {id}
        && log == old(log) + [if ok then Fulfilled(id, command) else Rejected(id)])
      ensures id in old(pendingRequests) && ok && command != old(pendingRequests)[id] ==>
        (!connected && log == old(log) + [Rejected(id)] + Rejections(old(pendingRequests) - {id}, requestSequence))
    {
      if id !in pendingRequests {
        Disconnected();
        return;
      }
      if !ok {
        Settle(id, false);
        return;
      }
      if command != pendingRequests[id] {
        Settle(id, false);
        Disconnected();
        return;
      }
      Settle(id, true);
    }
  }
}
