/**
 * Session leases of the client, for one session, as a transition system. A step is one synchronous stretch of client
 * code between two awaits, one message from the server, or one call by the user.
 */
module Leases {
  import opened Basics
  import opened LeaseBooks

  datatype Snapshot = Snapshot(revision: nat, attached: bool)

  /** What the client knows of the session: whether it is attached, and its last snapshot. */
  datatype View = View(attached: bool, snapshot: Option<Snapshot>)

  /** Where a pending acquire waits: for a detach, for a reconciliation, or for an attach. */
  datatype Phase = AfterDetach(detach: nat) | AfterReconcile(reconcile: nat) | AfterAttach(attach: nat)

  datatype AttachStatus = AttachPending(sent: bool) | AttachDone(ok: bool)

  datatype Attach = Attach(owner: nat, previous: Option<Snapshot>, status: AttachStatus)

  datatype ReconcileStatus = ReconcilePending(sent: bool) | Answered | Cleared | Refused | ReconcileDone(ok: bool)

  datatype Reconcile = Reconcile(owner: nat, status: ReconcileStatus)

  /** The shared requests of pending acquires, and which of them each acquire waits for. */
  datatype Waiting = Waiting(
    phases: map<nat, Phase>,
    attaches: map<nat, Attach>,
    attachment: Option<nat>,
    reconciles: map<nat, Reconcile>,
    reconciliation: Option<nat>,
    next: nat)

  /** What has been seen since a dispose failed: nothing, the detach that repairs it, or also the attach after it. */
  datatype Repair = Clean | Dirty | Detached

  datatype Session = Session(
    books: Books,
    waiting: Waiting,
    view: View,
    cleanup: bool,
    connected: bool,
    disposed: bool,
    creating: bool,
    repair: Repair)

  const Initial :=
    Session(NoBooks, Waiting(map[], map[], None, map[], None, 0), View(false, None), false, false, false, false, Clean)

  datatype Event =
    | AcquireCall(mode: Mode, sent: bool)
    | ResumeAfterDetach(acquire: nat, sent: bool)
    | ResumeAfterReconcile(acquire: nat, sent: bool)
    | ResumeAfterAttach(acquire: nat)
    | CreateResult(snap: Snapshot)
    | CreateFinish
    | ReleaseCall(lease: nat, relinquish: bool, sent: bool)
    | DetachAnswer(detach: nat, ok: bool)
    | DetachResume(detach: nat)
    | DetachHandler(detach: nat)
    | AttachAnswer(attach: nat, ok: bool, snap: Snapshot)
    | ReconcileAnswer(reconcile: nat, ok: bool)
    | ReconcileClear(reconcile: nat)
    | ReconcileFinally(reconcile: nat)
    | SessionRemoved
    | Disconnected
    | Connected
    | Disposed
    | SnapshotSeen(snap: Snapshot)

  // ---- Attachment state ----

  function ApplySnapshot(v: View, snap: Snapshot): View {
    if v.snapshot.Some? && snap.revision < v.snapshot.value.revision then v else View(snap.attached, Some(snap))
  }

  function ApplyDetach(v: View): View {
    View(false, if v.snapshot.Some? then Some(v.snapshot.value.(attached := false)) else None)
  }

  // ---- The stretches of an acquire ----

  function FinishAcquire(s: Session, a: nat): Session
    requires a in s.books.pending
  {
    s.(books := Finish(s.books, a), waiting := s.waiting.(phases := s.waiting.phases - {a}))
  }

  function FailAcquire(s: Session, a: nat): Session {
    s.(books := Fail(s.books, a), waiting := s.waiting.(phases := s.waiting.phases - {a}))
  }

  /** Waits for the attach in flight, or starts one. */
  function AwaitAttach(w: Waiting, a: nat, previous: Option<Snapshot>, sent: bool): Waiting {
    match w.attachment
    case Some(t) => w.(phases := w.phases[a := AfterAttach(t)])
    case None =>
      w.(phases := w.phases[a := AfterAttach(w.next)],
        attaches := w.attaches[w.next := Attach(a, previous, AttachPending(sent))],
         attachment := Some(w.next), next := w.next + 1)
  }

  /** Waits for the reconciliation in flight, or starts one. */
  function AwaitReconcile(w: Waiting, a: nat, sent: bool): Waiting {
    match w.reconciliation
    case Some(r) => w.(phases := w.phases[a := AfterReconcile(r)])
    case None =>
      w.(phases := w.phases[a := AfterReconcile(w.next)],
        reconciles := w.reconciles[w.next := Reconcile(a, ReconcilePending(sent))],
         reconciliation := Some(w.next), next := w.next + 1)
  }

  /** After any reconciliation: shares or starts the attach, or makes the lease when the session is attached. */
  function ContinueAttach(s: Session, a: nat, reconciled: bool, sent: bool): Session
    requires a in s.books.pending
  {
    if reconciled || !s.view.attached then
      s.(waiting := AwaitAttach(s.waiting, a, s.view.snapshot, sent),
         view := if s.waiting.attachment == None then s.view.(snapshot := None) else s.view)
    else FinishAcquire(s, a)
  }

  /** After any detachment: shares or starts the reconciliation when the session is marked for cleanup. */
  function ContinueCleanup(s: Session, a: nat, sent: bool): Session
    requires a in s.books.pending
  {
    if s.cleanup then s.(waiting := AwaitReconcile(s.waiting, a, sent)) else ContinueAttach(s, a, false, sent)
  }

  function StartAcquire(s: Session, mode: Mode, sent: bool): Session {
    if s.disposed then s
    else match Reserve(s.books, mode)
      case Err(_) => s
      case Ok(books) =>
        if books.detachment.Some? then
          var phases := s.waiting.phases[s.books.next := AfterDetach(books.detachment.value)];
          s.(books := books, waiting := s.waiting.(phases := phases))
        else ContinueCleanup(s.(books := books), s.books.next, sent)
  }

  // ---- The stretches of a release ----

  /** A call of detach or dispose: nothing on a stale or released handle, an error on an inactive one. */
  function StartRelease(s: Session, l: nat, relinquish: bool, sent: bool): Session
    requires l in s.books.leases
  {
    var lease, b := s.books.leases[l], s.books;
    if (lease.state.Active? || lease.state.Releasing?) && lease.generation != b.generation then
      s.(books := SetState(b, l, Invalidated))
    else if !lease.state.Active? || s.disposed || !s.connected || !s.view.attached then s
    else if b.count <= 1 then s.(books := StartDetach(b, l, relinquish, sent))
    else s.(books := SetState(Unreserve(b, l), l, Released))
  }

  /** The failure handler of a release gives up a disposed lease and marks its session for cleanup. */
  function HandleFailure(s: Session, d: nat): Session
    requires Owned(s.books, d)
  {
    var givenUp := ReleasingOn(s.books, s.books.detaches[d].lease, d) && s.books.detaches[d].relinquish;
    s.(books := Handle(s.books, d), cleanup := s.cleanup || givenUp, repair := if givenUp then Dirty else s.repair)
  }

  // ---- Losing the connection ----

  function Unsend(w: Waiting): Waiting {
    w.(attaches := map t | t in w.attaches :: if w.attaches[t].status.AttachPending?
                     then w.attaches[t].(status := AttachPending(false)) else w.attaches[t],
       reconciles := map r | r in w.reconciles :: if w.reconciles[r].status.ReconcilePending?
                       then w.reconciles[r].(status := ReconcilePending(false)) else w.reconciles[r])
  }

  /** Attachments are cleared, reserved sessions invalidated and requests in flight rejected. */
  function Disconnect(s: Session): Session {
    s.(books := InvalidateIfReserved(LeaseBooks.Unsend(s.books)), waiting := Unsend(s.waiting),
       view := s.view.(attached := false), connected := false, cleanup := false, repair := Clean)
  }

  // ---- Steps ----

  /** A waiter on a detach resumes only after that release has run all its stretches: it registered behind them. */
  predicate CanResume(s: Session, a: nat) {
    && a in s.waiting.phases && a in s.books.pending
    && match s.waiting.phases[a]
       case AfterDetach(d) => d in s.books.detaches && s.books.detaches[d].status == DetachFinished
       case AfterReconcile(r) => r in s.waiting.reconciles && s.waiting.reconciles[r].status.ReconcileDone?
       case AfterAttach(t) => t in s.waiting.attaches && s.waiting.attaches[t].status.AttachDone?
  }

  /**
   * When an event can happen. A create names a session that this client has not used yet, and its continuation runs
   * before the answer to any detach sent after it.
   */
  predicate Enabled(s: Session, e: Event) {
    match e
    case AcquireCall(_, sent) => sent ==> s.connected && !s.disposed
    case ResumeAfterDetach(a, sent) =>
      (sent ==> s.connected && !s.disposed) && CanResume(s, a) && s.waiting.phases[a].AfterDetach?
    case ResumeAfterReconcile(a, sent) =>
      (sent ==> s.connected && !s.disposed) && CanResume(s, a) && s.waiting.phases[a].AfterReconcile?
    case ResumeAfterAttach(a) => CanResume(s, a) && s.waiting.phases[a].AfterAttach?
    case CreateResult(_) => s.connected && s.books.next == 0
    case CreateFinish => s.creating
    case ReleaseCall(l, _, sent) => l in s.books.leases && (sent ==> s.connected && !s.disposed)
    case DetachAnswer(d, ok) =>
      Owned(s.books, d) && s.books.detaches[d].status.DetachPending? && (ok ==> s.books.detaches[d].status.sent) &&
        !s.creating
    case DetachResume(d) => Owned(s.books, d) && s.books.detaches[d].status.DetachSettled?
    case DetachHandler(d) => Owned(s.books, d) && s.books.detaches[d].status == DetachFailing
    case AttachAnswer(t, ok, _) =>
      t in s.waiting.attaches && s.waiting.attaches[t].status.AttachPending? &&
        (ok ==> s.waiting.attaches[t].status.sent)
    case ReconcileAnswer(r, ok) =>
      r in s.waiting.reconciles && s.waiting.reconciles[r].status.ReconcilePending? &&
        (ok ==> s.waiting.reconciles[r].status.sent)
    case ReconcileClear(r) => r in s.waiting.reconciles && s.waiting.reconciles[r].status == Answered
    case ReconcileFinally(r) => r in s.waiting.reconciles && s.waiting.reconciles[r].status in {Cleared, Refused}
    case SessionRemoved => s.connected
    case Disconnected => true
    case Connected => !s.connected && !s.disposed
    case Disposed => !s.disposed
    case SnapshotSeen(_) => s.connected
  }

  function SetAttach(w: Waiting, t: nat, status: AttachStatus): Waiting
    requires t in w.attaches
  {
    w.(attaches := w.attaches[t := w.attaches[t].(status := status)])
  }

  function SetReconcile(w: Waiting, r: nat, status: ReconcileStatus): Waiting
    requires r in w.reconciles
  {
    w.(reconciles := w.reconciles[r := w.reconciles[r].(status := status)])
  }

  function Next(s: Session, e: Event): Session
    requires Enabled(s, e)
  {
    match e
    case AcquireCall(mode, sent) => StartAcquire(s, mode, sent)
    case ResumeAfterDetach(a, sent) => ContinueCleanup(s, a, sent)
    case ResumeAfterReconcile(a, sent) =>
      if s.waiting.reconciles[s.waiting.phases[a].reconcile].status.ok then ContinueAttach(s, a, true, sent)
        else FailAcquire(s, a)
    case ResumeAfterAttach(a) =>
      var t := s.waiting.phases[a].attach;
      var s' := s.(waiting := s.waiting.(attachment := if s.waiting.attachment == Some(t) then None
        else s.waiting.attachment));
      if s.waiting.attaches[t].status.ok then FinishAcquire(s', a) else FailAcquire(s', a)
    case CreateResult(snap) => s.(view := ApplySnapshot(s.view, snap), creating := true)
    case CreateFinish =>
      (match Reserve(s.books, Exclusive)
       case Err(_) => s.(creating := false)
       case Ok(books) => s.(books := Finish(books, s.books.next), creating := false))
    case ReleaseCall(l, relinquish, sent) => StartRelease(s, l, relinquish, sent)
    case DetachAnswer(d, ok) =>
      s.(books := SetStatus(s.books, d, DetachSettled(ok)), view := if ok then ApplyDetach(s.view) else s.view)
    case DetachResume(d) => s.(books := Resume(s.books, d))
    case DetachHandler(d) => HandleFailure(s, d)
    case AttachAnswer(t, ok, snap) =>
      s.(waiting := SetAttach(s.waiting, t, AttachDone(ok)),
         view := if ok then ApplySnapshot(s.view, snap)
                 else if s.view.snapshot == None then s.view.(snapshot := s.waiting.attaches[t].previous) else s.view,
         repair := if ok && s.repair == Detached then Clean else s.repair)
    case ReconcileAnswer(r, ok) =>
      s.(waiting := SetReconcile(s.waiting, r, if ok then Answered else Refused),
         view := if ok then ApplyDetach(s.view) else s.view, repair := if ok then Detached else s.repair)
    case ReconcileClear(r) => s.(waiting := SetReconcile(s.waiting, r, Cleared), cleanup := false)
    case ReconcileFinally(r) =>
      s.(waiting := SetReconcile(s.waiting, r,
        ReconcileDone(s.waiting.reconciles[r].status == Cleared)).(reconciliation := None))
    case SessionRemoved =>
      s.(books := Invalidate(s.books), cleanup := false, view := View(false, None), repair := Clean)
    case Disconnected => Disconnect(s)
    case Connected => s.(connected := true, view := View(false, None))
    case Disposed => Disconnect(s).(disposed := true, view := View(false, None))
    case SnapshotSeen(snap) => s.(view := ApplySnapshot(s.view, snap))
  }

  // ---- Accounting over runs ----

  /** What an event can do to the books. */
  ghost predicate Moves(b: Books, b': Books, e: Event) {
    match e
    case AcquireCall(mode, _) =>
      b' == b || (Reserve(b, mode).Ok? &&
        (b' == Reserve(b, mode).value || b' == Finish(Reserve(b, mode).value, b.next)))
    case ResumeAfterDetach(a, _) => a in b.pending && (b' == b || b' == Finish(b, a))
    case ResumeAfterReconcile(a, _) => a in b.pending && (b' == b || b' == Finish(b, a) || b' == Fail(b, a))
    case ResumeAfterAttach(a) => a in b.pending && (b' == Finish(b, a) || b' == Fail(b, a))
    case CreateFinish => b' == b || (Reserve(b, Exclusive).Ok? && b' == Finish(Reserve(b, Exclusive).value, b.next))
    case ReleaseCall(l, relinquish, sent) =>
      b' == b ||
      (l in b.leases &&
       ((b.leases[l].generation != b.generation && b' == SetState(b, l, Invalidated)) ||
        (Live(b, l) && b.leases[l].state.Active? &&
         b' == if b.count <= 1 then StartDetach(b, l, relinquish, sent) else SetState(Unreserve(b, l), l, Released))))
    case DetachAnswer(d, ok) =>
      Owned(b, d) && b.detaches[d].status.DetachPending? && b' == SetStatus(b, d, DetachSettled(ok))
    case DetachResume(d) => Owned(b, d) && b.detaches[d].status.DetachSettled? && b' == Resume(b, d)
    case DetachHandler(d) => Owned(b, d) && b.detaches[d].status == DetachFailing && b' == Handle(b, d)
    case SessionRemoved => b' == Invalidate(b)
    case Disconnected => b' == InvalidateIfReserved(LeaseBooks.Unsend(b))
    case Disposed => b' == InvalidateIfReserved(LeaseBooks.Unsend(b))
    case _ => b' == b
  }

  lemma StepMoves(s: Session, e: Event)
    requires Enabled(s, e)
    ensures Moves(s.books, Next(s, e).books, e)
  {
    if e.AcquireCall? {
      StartMoves(s, e.mode, e.sent);
    } else if e.ReleaseCall? {
      ReleaseMoves(s, e.lease, e.relinquish, e.sent);
    } else if e.ResumeAfterDetach? || e.ResumeAfterReconcile? || e.ResumeAfterAttach? {
      ResumeMoves(s, e);
    }
  }

  lemma StartMoves(s: Session, mode: Mode, sent: bool)
    ensures Moves(s.books, StartAcquire(s, mode, sent).books, AcquireCall(mode, sent))
  {
  }

  lemma ReleaseMoves(s: Session, l: nat, relinquish: bool, sent: bool)
    requires l in s.books.leases
    ensures Moves(s.books, StartRelease(s, l, relinquish, sent).books, ReleaseCall(l, relinquish, sent))
  {
  }

  lemma ResumeMoves(s: Session, e: Event)
    requires Enabled(s, e) && (e.ResumeAfterDetach? || e.ResumeAfterReconcile? || e.ResumeAfterAttach?)
    ensures Moves(s.books, Next(s, e).books, e)
  {
  }

  predicate Invalidating(e: Event) {
    e.SessionRemoved? || e.Disconnected? || e.Disposed?
  }

  /** No acquire or detach is pending when the session is invalidated. */
  ghost predicate NoStraddle(b: Books, e: Event) {
    Invalidating(e) ==> Idle(b)
  }

  /** Every move keeps the accounting; an invalidation does so exactly when no acquire or detach is pending. */
  lemma MoveAccounting(b: Books, b': Books, e: Event)
    requires Accounting(b) && Moves(b, b', e)
    ensures Accounting(b') <==> NoStraddle(b, e)
  {
    if Invalidating(e) {
      InvalidateKeepsIffIdle(b);
      KeepLost(b);
      assert b' == if e.SessionRemoved? then Invalidate(b) else InvalidateIfReserved(LeaseBooks.Unsend(b));
    } else if e.AcquireCall? || e.CreateFinish? {
      ReservingAccounting(b, b', e);
    } else if e.ReleaseCall? {
      ReleaseAccounting(b, b', e);
    } else if e.DetachAnswer? || e.DetachResume? || e.DetachHandler? {
      DetachAccounting(b, b', e);
    } else {
      ResumeAccounting(b, b', e);
    }
  }

  lemma ReservingAccounting(b: Books, b': Books, e: Event)
    requires Accounting(b) && Moves(b, b', e) && (e.AcquireCall? || e.CreateFinish?)
    ensures Accounting(b')
  {
    var mode := if e.CreateFinish? then Exclusive else e.mode;
    if b' != b {
      KeepReserve(b, mode);
      KeepFinish(Reserve(b, mode).value, b.next);
    }
  }

  lemma ResumeAccounting(b: Books, b': Books, e: Event)
    requires Accounting(b) && Moves(b, b', e) && !Invalidating(e)
    requires !e.AcquireCall? && !e.CreateFinish? && !e.ReleaseCall? && !e.DetachAnswer? && !e.DetachResume?
    requires !e.DetachHandler?
    ensures Accounting(b')
  {
    if b' != b {
      KeepFinish(b, e.acquire);
      KeepFail(b, e.acquire);
    }
  }

  lemma ReleaseAccounting(b: Books, b': Books, e: Event)
    requires Accounting(b) && Moves(b, b', e) && e.ReleaseCall?
    ensures Accounting(b')
  {
    if b' != b {
      if b.leases[e.lease].generation != b.generation {
        KeepInvalidated(b, e.lease);
      } else if b.count <= 1 {
        KeepStartDetach(b, e.lease, e.relinquish, e.sent);
      } else {
        KeepReleaseNow(b, e.lease);
      }
    }
  }

  lemma DetachAccounting(b: Books, b': Books, e: Event)
    requires Accounting(b) && Moves(b, b', e) && (e.DetachAnswer? || e.DetachResume? || e.DetachHandler?)
    ensures Accounting(b')
  {
    match e
    case DetachAnswer(d, ok) => KeepAnswer(b, d, ok);
    case DetachResume(d) => KeepResume(b, d);
    case DetachHandler(d) => KeepHandle(b, d);
  }

  /** A run: every event can happen when its turn comes. */
  ghost predicate Run(s: Session, events: seq<Event>, s': Session)
    decreases |events|
  {
    if events == [] then s == s'
    else Enabled(s, events[0]) && Run(Next(s, events[0]), events[1..], s')
  }

  /** A run none of whose invalidations meets a pending acquire or detach. */
  ghost predicate NoStraddling(s: Session, events: seq<Event>)
    decreases |events|
  {
    events == [] || (Enabled(s, events[0]) && NoStraddle(s.books, events[0]) &&
      NoStraddling(Next(s, events[0]), events[1..]))
  }

  lemma {:induction false} RunAccounting(s: Session, events: seq<Event>, s': Session)
    requires Accounting(s.books) && Run(s, events, s') && NoStraddling(s, events)
    ensures Accounting(s'.books)
    decreases |events|
  {
    if events != [] {
      StepMoves(s, events[0]);
      MoveAccounting(s.books, Next(s, events[0]).books, events[0]);
      RunAccounting(Next(s, events[0]), events[1..], s');
    }
  }

  /** Whether a handle is active, as its user sees it. */
  predicate IsActive(s: Session, l: nat) {
    Live(s.books, l) && s.books.leases[l].state.Active? && s.view.attached
  }

  /** In every run without straddling, an exclusive active handle is the only active one and nothing else is
      reserved. */
  lemma ExclusiveHandleIsAlone(events: seq<Event>, s: Session, l: nat)
    requires Run(Initial, events, s) && NoStraddling(Initial, events)
    requires IsActive(s, l) && s.books.leases[l].mode == Exclusive
    ensures s.books.count == 1 && s.books.pending == map[] && forall k | IsActive(s, k) :: k == l
  {
    NoBooksAccounting();
    RunAccounting(Initial, events, s);
    ExclusiveIsAlone(s.books, l);
  }

  // ---- Handles after an invalidation ----

  lemma MoveLater(b: Books, b': Books, e: Event)
    requires Ids(b) && Moves(b, b', e)
    ensures Later(b, b')
  {
    match e
    case AcquireCall(mode, _) => if b' != b { ReserveLater(b, mode); }
    case ResumeAfterDetach(a, _) => AcquireLater(b, a);
    case ResumeAfterReconcile(a, _) => AcquireLater(b, a);
    case ResumeAfterAttach(a) => AcquireLater(b, a);
    case CreateFinish => if b' != b { ReserveLater(b, Exclusive); }
    case ReleaseCall(l, relinquish, sent) => if b' != b { ReleaseLater(b, l, relinquish, sent); }
    case DetachAnswer(d, ok) => DetachLater(b, d, DetachSettled(ok));
    case DetachResume(d) => DetachLater(b, d, DetachFinished);
    case DetachHandler(d) => DetachLater(b, d, DetachFinished);
    case _ =>
  }

  lemma {:induction false} RunLater(s: Session, events: seq<Event>, s': Session)
    requires Ids(s.books) && Run(s, events, s')
    ensures Later(s.books, s'.books)
    decreases |events|
  {
    if events != [] {
      StepMoves(s, events[0]);
      MoveLater(s.books, Next(s, events[0]).books, events[0]);
      RunLater(Next(s, events[0]), events[1..], s');
      LaterTransitive(s.books, Next(s, events[0]).books, s'.books);
    }
  }

  /**
   * After a disconnect or a removal of the session no handle made before it is ever active again, even when the same
   * session is attached again later. Only the run before it must not straddle an invalidation.
   */
  lemma InvalidationIsFinal(before: seq<Event>, s: Session, e: Event, after: seq<Event>, s': Session, l: nat)
    requires Run(Initial, before, s) && NoStraddling(Initial, before)
    requires Invalidating(e) && Enabled(s, e) && l in s.books.leases
    requires Run(Next(s, e), after, s')
    ensures !IsActive(s', l)
  {
    NoBooksAccounting();
    RunAccounting(Initial, before, s);
    StepEnds(s, e, l);
    EndedStaysEnded(Next(s, e), after, s', l);
  }

  predicate Ended(b: Books, l: nat) {
    l in b.leases && (b.leases[l].generation < b.generation || Terminal(b.leases[l].state))
  }

  lemma EndedStaysEnded(s: Session, events: seq<Event>, s': Session, l: nat)
    requires Ids(s.books) && Ended(s.books, l) && Run(s, events, s')
    ensures !IsActive(s', l)
  {
    RunLater(s, events, s');
  }

  lemma StepEnds(s: Session, e: Event, l: nat)
    requires Accounting(s.books) && Invalidating(e) && Enabled(s, e) && l in s.books.leases
    ensures Ids(Next(s, e).books) && Ended(Next(s, e).books, l)
  {
    StepMoves(s, e);
    EndsAll(s.books, Next(s, e).books, e, l);
  }

  /** An invalidation ends every lease there is. */
  lemma EndsAll(b: Books, b': Books, e: Event, l: nat)
    requires Accounting(b) && Invalidating(e) && Moves(b, b', e) && l in b.leases
    ensures Ids(b') && Ended(b', l)
  {
    InvalidateKeepsIffIdle(b);
    KeepLost(b);
    MoveLater(b, b', e);
    assert !Live(b', l) && b.leases[l].generation <= b.generation;
  }
}
