/** The lease maps of the client, over all sessions: each method does to a session what the books of that session
    say. */
module SessionLeases {
  import opened Basics
  import opened LeaseBooks

  /** What the maps hold about one session: the part of its books that they are. */
  datatype Held = Held(count: nat, exclusive: Option<nat>, generation: nat)

  function HeldIn(b: Books): Held {
    Held(b.count, b.exclusive, b.generation)
  }

  /** Books of which the maps hold this part. */
  function BooksOf(h: Held, next: nat): Books {
    Books(h.count, h.exclusive, h.generation, map[], map[], map[], None, next)
  }

  /** What a reservation, its return and an invalidation do to this part depends on nothing else in the books. */
  lemma HeldIsEnough(b: Books, mode: Mode, token: nat)
    ensures var part := BooksOf(HeldIn(b), b.next);
      && (Reserve(b, mode).Ok? <==> Reserve(part, mode).Ok?)
      && (Reserve(b, mode).Ok? ==> HeldIn(Reserve(b, mode).value) == HeldIn(Reserve(part, mode).value))
      && HeldIn(Unreserve(b, token)) == HeldIn(Unreserve(part, token))
      && HeldIn(Invalidate(b)) == HeldIn(Invalidate(part))
      && HeldIn(InvalidateIfReserved(b)) == HeldIn(InvalidateIfReserved(part))
  {
  }

  function Emptied(h: Held): Held {
    Held(0, None, h.generation + 1)
  }

  lemma EmptiedIfCounted(h: Held)
    ensures HeldIn(InvalidateIfReserved(BooksOf(h, 0))) == if h.count > 0 then Emptied(h) else h
  {
  }

  class SessionLeases {
    var sessionLeaseCounts: map<string, nat>
    var exclusiveSessionLeases: map<string, nat>
    var sessionLeaseGenerations: map<string, nat>
    var sessionCleanupRequired: set<string>

    /** A session is counted only while something holds it. */
    ghost predicate Valid()
      reads this
    {
      forall id | id in sessionLeaseCounts :: sessionLeaseCounts[id] > 0
    }

    function At(id: string): Held
      reads this
    {
      Held(if id in sessionLeaseCounts then sessionLeaseCounts[id] else 0,
        if id in exclusiveSessionLeases then Some(exclusiveSessionLeases[id]) else None,
        if id in sessionLeaseGenerations then sessionLeaseGenerations[id] else 0)
    }

    /** No other session is touched. */
    twostate predicate OthersKept(id: string)
      reads this
    {
      forall other | other != id ::
        At(other) == old(At(other)) && (other in sessionCleanupRequired <==> other in old(sessionCleanupRequired))
    }

    constructor ()
      ensures Valid() && sessionCleanupRequired == {} && forall id :: At(id) == HeldIn(NoBooks)
    {
      sessionLeaseCounts, exclusiveSessionLeases, sessionLeaseGenerations, sessionCleanupRequired :=
        map[], map[], map[], {};
    }

    /** Reserves as the books do, whatever else they hold, and refuses when they do. */
    method ReserveSessionLease(id: string, mode: Mode, token: nat) returns (ok: bool)
      requires Valid()
      modifies this
      ensures Valid() && OthersKept(id) && sessionCleanupRequired == old(sessionCleanupRequired)
      ensures ok <==> Reserve(BooksOf(old(At(id)), token), mode).Ok?
      ensures At(id) == if ok then HeldIn(Reserve(BooksOf(old(At(id)), token), mode).value) else old(At(id))
    {
      var count := if id in sessionLeaseCounts then sessionLeaseCounts[id] else 0;
      if mode == Exclusive && count > 0 {
        return false;
      }
      if mode == Shared && id in exclusiveSessionLeases {
        return false;
      }
      sessionLeaseCounts := sessionLeaseCounts[id := count + 1];
      if mode == Exclusive {
        exclusiveSessionLeases := exclusiveSessionLeases[id := token];
      }
      ok := true;
    }

    /** Gives a reservation back as the books do. */
    method ReleaseSessionLease(id: string, token: nat)
      requires Valid()
      modifies this
      ensures Valid() && OthersKept(id) && sessionCleanupRequired == old(sessionCleanupRequired)
      ensures At(id) == HeldIn(Unreserve(BooksOf(old(At(id)), token), token))
    {
      var count := if id in sessionLeaseCounts then sessionLeaseCounts[id] else 0;
      if count <= 1 {
        sessionLeaseCounts := sessionLeaseCounts - {id};
      } else {
        sessionLeaseCounts := sessionLeaseCounts[id := count - 1];
      }
      if id in exclusiveSessionLeases && exclusiveSessionLeases[id] == token {
        exclusiveSessionLeases := exclusiveSessionLeases - {id};
      }
    }

    method InvalidateSessionLeases(id: string)
      requires Valid()
      modifies this
      ensures Valid() && OthersKept(id) && sessionCleanupRequired == old(sessionCleanupRequired) - {id}
      ensures sessionLeaseCounts == old(sessionLeaseCounts) - {id}
      ensures At(id) == HeldIn(Invalidate(BooksOf(old(At(id)), 0)))
    {
      sessionLeaseCounts := sessionLeaseCounts - {id};
      exclusiveSessionLeases := exclusiveSessionLeases - {id};
      sessionCleanupRequired := sessionCleanupRequired - {id};
      sessionLeaseGenerations :=
        sessionLeaseGenerations[id := (if id in sessionLeaseGenerations then sessionLeaseGenerations[id] else 0) + 1];
    }

    /** Invalidates every session that is counted, and forgets every cleanup. */
    method InvalidateAllSessionLeases()
      requires Valid()
      modifies this
      ensures Valid() && sessionLeaseCounts == map[] && sessionCleanupRequired == {}
      ensures forall id :: At(id) == HeldIn(InvalidateIfReserved(BooksOf(old(At(id)), 0)))
    {
      ghost var counted := sessionLeaseCounts.Keys;
      while sessionLeaseCounts != map[]
        invariant Valid() && sessionLeaseCounts.Keys <= counted
        invariant forall id ::
          At(id) == if id in counted && id !in sessionLeaseCounts then Emptied(old(At(id))) else old(At(id))
        decreases sessionLeaseCounts.Keys
      {
        var id :| id in sessionLeaseCounts;
        label before:
        InvalidateSessionLeases(id);
        forall other
          ensures At(other) == if other in counted && other !in sessionLeaseCounts then Emptied(old(At(other)))
            else old(At(other))
        {
          if other != id {
            assert At(other) == old@before(At(other));
          }
        }
      }
      sessionCleanupRequired := {};
      forall id
        ensures At(id) == HeldIn(InvalidateIfReserved(BooksOf(old(At(id)), 0)))
      {
        EmptiedIfCounted(old(At(id)));
      }
    }
  }
}
