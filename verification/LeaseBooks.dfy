/** The books of a session's leases: reservations, leases and detaches, and what every change of them keeps. */
module LeaseBooks {
  import opened Basics

  datatype Mode = Shared | Exclusive

  datatype LeaseState = Active | Releasing(detach: nat) | Released | Invalidated

  datatype Lease = Lease(mode: Mode, generation: nat, state: LeaseState)

  /** A detach request that was `sent` can be answered by the server; another one can only fail. */
  datatype DetachStatus = DetachPending(sent: bool) | DetachSettled(ok: bool) | DetachFailing | DetachFinished

  datatype Detach = Detach(lease: nat, relinquish: bool, status: DetachStatus)

  /**
   * The lease count, the token of the exclusive lease and the generation of one session, with the acquires that hold a
   * reservation, the leases made so far, their detaches, and the detach that new acquires wait for.
   */
  datatype Books = Books(
    count: nat,
    exclusive: Option<nat>,
    generation: nat,
    pending: map<nat, Mode>,
    leases: map<nat, Lease>,
    detaches: map<nat, Detach>,
    detachment: Option<nat>,
    next: nat)

  const NoBooks := Books(0, None, 0, map[], map[], map[], None, 0)

  // ---- Changes ----

  function Reserve(b: Books, mode: Mode): Result<Books, ()> {
    if mode == Exclusive && b.count > 0 then Err(())
    else if mode == Shared && b.exclusive.Some? then Err(())
    else Ok(b.(count := b.count + 1, exclusive := if mode == Exclusive then Some(b.next) else b.exclusive,
               pending := b.pending[b.next := mode], next := b.next + 1))
  }

  /** Gives one reservation back: whatever the count is, it goes down, and the token is dropped if it is this one. */
  function Unreserve(b: Books, token: nat): Books {
    b.(count := if b.count <= 1 then 0 else b.count - 1,
       exclusive := if b.exclusive == Some(token) then None else b.exclusive)
  }

  function Finish(b: Books, a: nat): Books
    requires a in b.pending
  {
    b.(pending := b.pending - {a}, leases := b.leases[a := Lease(b.pending[a], b.generation, Active)])
  }

  function Fail(b: Books, a: nat): Books {
    Unreserve(b, a).(pending := b.pending - {a})
  }

  function SetState(b: Books, l: nat, state: LeaseState): Books
    requires l in b.leases
  {
    b.(leases := b.leases[l := b.leases[l].(state := state)])
  }

  function SetStatus(b: Books, d: nat, status: DetachStatus): Books
    requires d in b.detaches
  {
    b.(detaches := b.detaches[d := b.detaches[d].(status := status)])
  }

  function StartDetach(b: Books, l: nat, relinquish: bool, sent: bool): Books
    requires l in b.leases
  {
    SetState(b, l, Releasing(b.next))
    .(detaches := b.detaches[b.next := Detach(l, relinquish, DetachPending(sent))], detachment := Some(b.next),
      next := b.next + 1)
  }

  predicate Live(b: Books, l: nat) {
    l in b.leases && b.leases[l].generation == b.generation &&
      (b.leases[l].state.Active? || b.leases[l].state.Releasing?)
  }

  predicate Owned(b: Books, d: nat) {
    d in b.detaches && b.detaches[d].lease in b.leases
  }

  /** The release that awaited the detach goes on: it releases the lease, or it forgets the failed detach. */
  function Resume(b: Books, d: nat): Books
    requires Owned(b, d) && b.detaches[d].status.DetachSettled?
  {
    var l := b.detaches[d].lease;
    var b' := b.(detachment := if b.detachment == Some(d) then None else b.detachment);
    if b.detaches[d].status.ok then SetState(SetStatus(Unreserve(b', l), d, DetachFinished), l, Released)
    else SetStatus(b', d, DetachFailing)
  }

  /** The failure handler of a release. */
  function Handle(b: Books, d: nat): Books
    requires Owned(b, d)
  {
    var l := b.detaches[d].lease;
    var b' := SetStatus(b, d, DetachFinished);
    if b.leases[l].state != Releasing(d) then b'
    else if b.leases[l].generation != b.generation then SetState(b', l, Invalidated)
    else if b.detaches[d].relinquish then SetState(Unreserve(b', l), l, Released)
    else SetState(b', l, Active)
  }

  function Invalidate(b: Books): Books {
    b.(count := 0, exclusive := None, generation := b.generation + 1)
  }

  /** Invalidating all sessions bumps only those that have reservations. */
  function InvalidateIfReserved(b: Books): Books {
    if b.count > 0 then Invalidate(b) else b
  }

  /** Requests in flight are rejected when the connection is lost. */
  function Unsend(b: Books): Books {
    b.(detaches := map d | d in b.detaches ::
         if b.detaches[d].status.DetachPending? then b.detaches[d].(status := DetachPending(false)) else b.detaches[d])
  }

  // ---- The accounting ----

  /** The live leases with their modes. */
  ghost function LiveModes(leases: map<nat, Lease>, generation: nat): map<nat, Mode> {
    map l | l in leases && leases[l].generation == generation &&
      (leases[l].state.Active? || leases[l].state.Releasing?) ::
      leases[l].mode
  }

  ghost predicate Fresh(b: Books) {
    && b.pending.Keys !! b.leases.Keys
    && (forall a | a in b.pending :: a < b.next)
    && (forall l | l in b.leases :: l < b.next && b.leases[l].generation <= b.generation)
    && (forall d | d in b.detaches :: d < b.next && b.detaches[d].lease in b.leases)
  }

  /** The count is the number of pending acquires and live leases, and an exclusive one of them is the only one. */
  ghost predicate Counted(count: nat, exclusive: Option<nat>, pending: map<nat, Mode>, live: map<nat, Mode>) {
    && count == |pending| + |live|
    && (exclusive.Some? ==> count == 1 && (exclusive.value in pending || exclusive.value in live))
    && (forall a | a in pending :: pending[a] == Exclusive <==> exclusive == Some(a))
    && (forall l | l in live :: live[l] == Exclusive <==> exclusive == Some(l))
  }

  ghost predicate CountedBooks(b: Books) {
    Counted(b.count, b.exclusive, b.pending, LiveModes(b.leases, b.generation))
  }

  /** A detach whose release has not run to its end. */
  predicate Unfinished(b: Books, d: nat) {
    d in b.detaches && b.detaches[d].status != DetachFinished
  }

  predicate ReleasingOn(b: Books, l: nat, d: nat) {
    Live(b, l) && b.leases[l].state == Releasing(d)
  }

  /** At most one detach is unfinished; it belongs to the live lease releasing on it, and acquires wait for it. */
  ghost predicate Detaching(b: Books) {
    && (forall d | Unfinished(b, d) :: ReleasingOn(b, b.detaches[d].lease, d))
    && (forall d, d' | Unfinished(b, d) && Unfinished(b, d') :: d == d')
    && (forall d | Unfinished(b, d) :: b.detachment == if b.detaches[d].status == DetachFailing then None else Some(d))
    && (b.detachment.Some? ==> Unfinished(b, b.detachment.value))
  }

  ghost predicate Accounting(b: Books) {
    Fresh(b) && CountedBooks(b) && Detaching(b)
  }

  /** Nothing that holds a reservation until a promise settles is in flight. */
  ghost predicate Idle(b: Books) {
    b.pending == map[] && forall d :: !Unfinished(b, d)
  }

  lemma NoBooksAccounting()
    ensures Accounting(NoBooks) && Idle(NoBooks)
  {
    assert LiveModes(map[], 0) == map[];
  }

  // ---- Counting ----

  /** When the count is one, the holder is the only one. */
  lemma LastHolder(b: Books, l: nat)
    requires CountedBooks(b) && Live(b, l) && b.count <= 1
    ensures b.count == 1 && b.pending == map[] && forall k | Live(b, k) :: k == l
  {
    var live := LiveModes(b.leases, b.generation);
    assert l in live && |live.Keys - {l}| == |live| - 1;
    assert live.Keys - {l} == {};
    assert forall k | Live(b, k) :: k in live;
  }

  /** An exclusive lease never coexists with another live lease or with a pending acquire. */
  lemma ExclusiveIsAlone(b: Books, l: nat)
    requires Accounting(b) && Live(b, l) && b.leases[l].mode == Exclusive
    ensures b.pending == map[] && b.count == 1 && forall k | Live(b, k) :: k == l
  {
    assert LiveModes(b.leases, b.generation)[l] == Exclusive;
    LastHolder(b, l);
  }

  /** The token of the exclusive holder is held by it, so while another holder exists it is not set. */
  lemma Sole(b: Books, h: nat)
    requires CountedBooks(b) && (h in b.pending || Live(b, h))
    ensures b.exclusive.Some? ==> b.exclusive == Some(h)
  {
    var live := LiveModes(b.leases, b.generation);
    if b.exclusive.Some? && b.exclusive != Some(h) {
      var t := b.exclusive.value;
      assert h in b.pending ==> {h} <= b.pending.Keys;
      assert h !in b.pending ==> h in live && {h} <= live.Keys;
      Pair(b.pending, live, h, t);
    }
  }

  lemma Pair(p: map<nat, Mode>, q: map<nat, Mode>, h: nat, t: nat)
    requires h != t && (h in p || h in q) && (t in p || t in q)
    ensures |p| + |q| >= 2
  {
    if h in p && t in p {
      assert {h, t} <= p.Keys && |p.Keys - {h, t}| == |p| - 2;
    } else if h in q && t in q {
      assert {h, t} <= q.Keys && |q.Keys - {h, t}| == |q| - 2;
    }
  }

  lemma SizeAdd(m: map<nat, Mode>, k: nat, mode: Mode)
    requires k !in m
    ensures |m[k := mode]| == |m| + 1
  {
  }

  lemma SizeDrop(m: map<nat, Mode>, k: nat)
    requires k in m
    ensures |m - {k}| == |m| - 1
  {
    assert (m - {k}).Keys == m.Keys - {k};
    assert |(m - {k}).Keys| == |m.Keys| - 1;
  }

  lemma LiveAdd(leases: map<nat, Lease>, g: nat, a: nat, mode: Mode)
    requires a !in leases
    ensures LiveModes(leases[a := Lease(mode, g, Active)], g) == LiveModes(leases, g)[a := mode]
  {
  }

  lemma LiveDrop(leases: map<nat, Lease>, g: nat, l: nat)
    requires l in leases
    ensures LiveModes(leases[l := leases[l].(state := Released)], g) == LiveModes(leases, g) - {l}
  {
  }

  // ---- What each change keeps ----

  /** Fresh ids and the rules about detaches: the part of the accounting that does not count. */
  ghost predicate Orderly(b: Books) {
    Fresh(b) && Detaching(b)
  }

  /** Detaches do not care about acquires, counts and leases that are not releasing. */
  lemma KeepDetaching(b: Books, b': Books)
    requires Detaching(b) && b'.detaches == b.detaches && b'.detachment == b.detachment && b'.generation == b.generation
    requires forall l | Live(b, l) && b.leases[l].state.Releasing? :: l in b'.leases && b'.leases[l] == b.leases[l]
    ensures Detaching(b')
  {
    assert forall d | Unfinished(b, d) :: ReleasingOn(b, b.detaches[d].lease, d);
    assert forall d :: Unfinished(b', d) == Unfinished(b, d);
  }

  /** A reservation that succeeds adds a holder; an exclusive one is alone. */
  lemma ReserveCounts(b: Books, mode: Mode)
    requires CountedBooks(b) && b.next !in b.pending && !Live(b, b.next) && Reserve(b, mode).Ok?
    ensures CountedBooks(Reserve(b, mode).value)
  {
    SizeAdd(b.pending, b.next, mode);
    var live := LiveModes(b.leases, b.generation);
    assert b.count == 0 ==> b.pending.Keys == {} && live.Keys == {};
  }

  lemma KeepReserve(b: Books, mode: Mode)
    requires Accounting(b) && Reserve(b, mode).Ok?
    ensures Accounting(Reserve(b, mode).value)
  {
    ReserveCounts(b, mode);
    ReserveOrder(b, mode);
  }

  lemma ReserveOrder(b: Books, mode: Mode)
    requires Orderly(b) && Reserve(b, mode).Ok?
    ensures Orderly(Reserve(b, mode).value)
  {
    KeepDetaching(b, Reserve(b, mode).value);
  }

  /** A finished acquire turns its reservation into a live lease. */
  lemma FinishCounts(b: Books, a: nat)
    requires CountedBooks(b) && a in b.pending && a !in b.leases
    ensures CountedBooks(Finish(b, a))
  {
    var live, b' := LiveModes(b.leases, b.generation), Finish(b, a);
    LiveAdd(b.leases, b.generation, a, b.pending[a]);
    SizeAdd(live, a, b.pending[a]);
    SizeDrop(b.pending, a);
  }

  lemma KeepFinish(b: Books, a: nat)
    requires Accounting(b) && a in b.pending
    ensures Accounting(Finish(b, a))
  {
    FinishCounts(b, a);
    FinishOrder(b, a);
  }

  lemma FinishOrder(b: Books, a: nat)
    requires Orderly(b) && a in b.pending
    ensures Orderly(Finish(b, a))
  {
    KeepDetaching(b, Finish(b, a));
  }

  /** A failed acquire gives its reservation back. */
  lemma FailCounts(b: Books, a: nat)
    requires CountedBooks(b) && a in b.pending && a !in b.leases
    ensures CountedBooks(Fail(b, a))
  {
    SizeDrop(b.pending, a);
    Sole(b, a);
  }

  lemma KeepFail(b: Books, a: nat)
    requires Accounting(b) && a in b.pending
    ensures Accounting(Fail(b, a))
  {
    FailCounts(b, a);
    FailOrder(b, a);
  }

  lemma FailOrder(b: Books, a: nat)
    requires Orderly(b) && a in b.pending
    ensures Orderly(Fail(b, a))
  {
    KeepDetaching(b, Fail(b, a));
  }

  /** A release whose lease is not the last holder gives its reservation back at once. */
  lemma ReleaseCounts(b: Books, l: nat)
    requires CountedBooks(b) && Live(b, l) && l !in b.pending
    ensures CountedBooks(SetState(Unreserve(b, l), l, Released))
  {
    var live, b' := LiveModes(b.leases, b.generation), SetState(Unreserve(b, l), l, Released);
    LiveDrop(b.leases, b.generation, l);
    SizeDrop(live, l);
    Sole(b, l);
  }

  lemma KeepReleaseNow(b: Books, l: nat)
    requires Accounting(b) && Live(b, l) && b.leases[l].state.Active? && b.count > 1
    ensures Accounting(SetState(Unreserve(b, l), l, Released))
  {
    ReleaseCounts(b, l);
    ReleaseOrder(b, l);
  }

  lemma ReleaseOrder(b: Books, l: nat)
    requires Orderly(b) && l in b.leases && b.leases[l].state.Active?
    ensures Orderly(SetState(Unreserve(b, l), l, Released))
  {
    KeepDetaching(b, SetState(Unreserve(b, l), l, Released));
  }

  /** A change of a lease that stays live, or stays dead, does not count. */
  lemma SameCounts(b: Books, b': Books)
    requires CountedBooks(b) && b'.pending == b.pending && b'.count == b.count && b'.exclusive == b.exclusive
    requires LiveModes(b'.leases, b'.generation) == LiveModes(b.leases, b.generation)
    ensures CountedBooks(b')
  {
  }

  /** A detach starts only for the last holder, so no other one is unfinished. */
  lemma StartDetachOrder(b: Books, l: nat, relinquish: bool, sent: bool)
    requires Orderly(b) && Live(b, l) && b.leases[l].state.Active? && forall k | Live(b, k) :: k == l
    ensures Orderly(StartDetach(b, l, relinquish, sent))
  {
    var b' := StartDetach(b, l, relinquish, sent);
    assert forall d | Unfinished(b, d) :: ReleasingOn(b, b.detaches[d].lease, d);
    assert forall d :: Unfinished(b', d) <==> d == b.next;
    assert ReleasingOn(b', l, b.next);
  }

  lemma KeepStartDetach(b: Books, l: nat, relinquish: bool, sent: bool)
    requires Accounting(b) && Live(b, l) && b.leases[l].state.Active? && b.count <= 1
    ensures Accounting(StartDetach(b, l, relinquish, sent))
  {
    var b' := StartDetach(b, l, relinquish, sent);
    LastHolder(b, l);
    StartDetachOrder(b, l, relinquish, sent);
    assert LiveModes(b'.leases, b'.generation) == LiveModes(b.leases, b.generation);
  }

  /** Noticing that a handle is stale changes nothing that counts. */
  lemma KeepInvalidated(b: Books, l: nat)
    requires Accounting(b) && l in b.leases && b.leases[l].generation != b.generation
    ensures Accounting(SetState(b, l, Invalidated))
  {
    InvalidatedOrder(b, l);
    assert LiveModes(SetState(b, l, Invalidated).leases, b.generation) == LiveModes(b.leases, b.generation);
  }

  lemma InvalidatedOrder(b: Books, l: nat)
    requires Orderly(b) && l in b.leases && b.leases[l].generation != b.generation
    ensures Orderly(SetState(b, l, Invalidated))
  {
    KeepDetaching(b, SetState(b, l, Invalidated));
  }

  lemma AnswerOrder(b: Books, d: nat, ok: bool)
    requires Orderly(b) && d in b.detaches && b.detaches[d].status.DetachPending?
    ensures Orderly(SetStatus(b, d, DetachSettled(ok)))
  {
    var b' := SetStatus(b, d, DetachSettled(ok));
    assert forall e | Unfinished(b, e) :: ReleasingOn(b, b.detaches[e].lease, e);
    assert forall e :: Unfinished(b', e) == Unfinished(b, e);
  }

  lemma ResumeOrder(b: Books, d: nat)
    requires Orderly(b) && Owned(b, d) && b.detaches[d].status.DetachSettled?
    ensures Orderly(Resume(b, d)) && Live(b, b.detaches[d].lease)
  {
    var b', l := Resume(b, d), b.detaches[d].lease;
    assert Unfinished(b, d) && ReleasingOn(b, l, d);
    assert forall e :: Unfinished(b', e) <==> e == d && !b.detaches[d].status.ok;
  }

  lemma ResumeCounts(b: Books, d: nat)
    requires CountedBooks(b) && Owned(b, d) && b.detaches[d].status.DetachSettled?
    requires Live(b, b.detaches[d].lease) && b.detaches[d].lease !in b.pending
    ensures CountedBooks(Resume(b, d))
  {
    var l := b.detaches[d].lease;
    if b.detaches[d].status.ok {
      ReleaseCounts(b, l);
      SameCounts(SetState(Unreserve(b, l), l, Released), Resume(b, d));
    }
  }

  lemma HandleOrder(b: Books, d: nat)
    requires Orderly(b) && Owned(b, d) && b.detaches[d].status == DetachFailing
    ensures Orderly(Handle(b, d)) && ReleasingOn(b, b.detaches[d].lease, d)
  {
    var b' := Handle(b, d);
    assert Unfinished(b, d) && ReleasingOn(b, b.detaches[d].lease, d);
    assert forall e :: Unfinished(b', e) ==> Unfinished(b, e) && e != d;
  }

  lemma HandleCounts(b: Books, d: nat)
    requires CountedBooks(b) && Owned(b, d) && ReleasingOn(b, b.detaches[d].lease, d)
    requires b.detaches[d].lease !in b.pending
    ensures CountedBooks(Handle(b, d))
  {
    var l, b' := b.detaches[d].lease, Handle(b, d);
    if b.detaches[d].relinquish {
      ReleaseCounts(b, l);
      SameCounts(SetState(Unreserve(b, l), l, Released), b');
    } else {
      assert LiveModes(b'.leases, b'.generation) == LiveModes(b.leases, b.generation);
    }
  }

  lemma UnsendOrder(b: Books)
    requires Orderly(b)
    ensures Orderly(Unsend(b)) && forall d :: Unfinished(Unsend(b), d) == Unfinished(b, d)
  {
    assert forall d | Unfinished(b, d) :: ReleasingOn(b, b.detaches[d].lease, d);
    assert forall d :: Unfinished(Unsend(b), d) == Unfinished(b, d);
  }

  lemma KeepLost(b: Books)
    requires Accounting(b)
    ensures Accounting(InvalidateIfReserved(Unsend(b))) <==> Idle(b)
    ensures forall l :: !Live(InvalidateIfReserved(Unsend(b)), l)
  {
    UnsendOrder(b);
    InvalidateIfReservedKeepsIffIdle(Unsend(b));
  }

  lemma KeepAnswer(b: Books, d: nat, ok: bool)
    requires Accounting(b) && Owned(b, d) && b.detaches[d].status.DetachPending?
    ensures Accounting(SetStatus(b, d, DetachSettled(ok)))
  {
    AnswerOrder(b, d, ok);
  }

  lemma KeepResume(b: Books, d: nat)
    requires Accounting(b) && Owned(b, d) && b.detaches[d].status.DetachSettled?
    ensures Accounting(Resume(b, d))
  {
    ResumeOrder(b, d);
    ResumeCounts(b, d);
  }

  lemma KeepHandle(b: Books, d: nat)
    requires Accounting(b) && Owned(b, d) && b.detaches[d].status == DetachFailing
    ensures Accounting(Handle(b, d))
  {
    HandleOrder(b, d);
    HandleCounts(b, d);
  }

  // ---- What never comes back ----

  /** Ids are used once: pending acquires and leases are different, and new ids are new. */
  ghost predicate Ids(b: Books) {
    && b.pending.Keys !! b.leases.Keys
    && (forall a | a in b.pending :: a < b.next)
    && (forall l | l in b.leases :: l < b.next)
  }

  predicate Terminal(state: LeaseState) {
    state.Released? || state.Invalidated?
  }

  /** Whatever happens, leases stay listed with their generation, ended ones stay ended, and generations only grow. */
  ghost predicate Later(b: Books, b': Books) {
    && Ids(b') && b.generation <= b'.generation && b.next <= b'.next
    && forall l | l in b.leases :: l in b'.leases && b'.leases[l].generation == b.leases[l].generation
                                   && (Terminal(b.leases[l].state) ==> Terminal(b'.leases[l].state))
  }

  lemma ReserveLater(b: Books, mode: Mode)
    requires Ids(b) && Reserve(b, mode).Ok?
    ensures Later(b, Reserve(b, mode).value) && Later(b, Finish(Reserve(b, mode).value, b.next))
  {
  }

  lemma AcquireLater(b: Books, a: nat)
    requires Ids(b) && a in b.pending
    ensures Later(b, Finish(b, a)) && Later(b, Fail(b, a))
  {
  }

  lemma ReleaseLater(b: Books, l: nat, relinquish: bool, sent: bool)
    requires Ids(b) && l in b.leases
    ensures Later(b, SetState(b, l, Invalidated)) && Later(b, SetState(Unreserve(b, l), l, Released))
    ensures b.leases[l].state.Active? ==> Later(b, StartDetach(b, l, relinquish, sent))
  {
  }

  lemma DetachLater(b: Books, d: nat, status: DetachStatus)
    requires Ids(b) && Owned(b, d)
    ensures Later(b, SetStatus(b, d, status)) && Later(b, Handle(b, d))
    ensures b.detaches[d].status.DetachSettled? ==> Later(b, Resume(b, d))
  {
  }

  lemma {:induction false} LaterTransitive(a: Books, b: Books, c: Books)
    requires Later(a, b) && Later(b, c)
    ensures Later(a, c)
  {
  }

  // ---- Invalidation ----

  /** An invalidation keeps the accounting exactly when nothing is in flight. */
  lemma InvalidateKeepsIffIdle(b: Books)
    requires Accounting(b)
    ensures Accounting(Invalidate(b)) <==> Idle(b)
    ensures forall l :: !Live(Invalidate(b), l)
  {
    assert LiveModes(b.leases, b.generation + 1) == map[];
    assert forall d :: Unfinished(Invalidate(b), d) == Unfinished(b, d);
    assert forall l, d :: !ReleasingOn(Invalidate(b), l, d);
    assert |b.pending| == 0 ==> b.pending.Keys == {};
  }

  /** Without reservations nothing is in flight or live. */
  lemma NothingHeld(b: Books)
    requires Accounting(b) && b.count == 0
    ensures Idle(b) && forall l :: !Live(b, l)
  {
    assert b.pending.Keys == {} && LiveModes(b.leases, b.generation).Keys == {};
    assert forall l :: Live(b, l) ==> l in LiveModes(b.leases, b.generation);
    assert forall d :: Unfinished(b, d) ==> ReleasingOn(b, b.detaches[d].lease, d);
  }

  lemma InvalidateIfReservedKeepsIffIdle(b: Books)
    requires Accounting(b)
    ensures Accounting(InvalidateIfReserved(b)) <==> Idle(b)
    ensures forall l :: !Live(InvalidateIfReserved(b), l)
  {
    if b.count > 0 {
      InvalidateKeepsIffIdle(b);
    } else {
      NothingHeld(b);
    }
  }
}
