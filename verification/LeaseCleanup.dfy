/** Failed disposals: a session marked for cleanup has no live lease until a detach and a new attach have repaired
    it. */
module LeaseCleanup {
  import opened Basics
  import opened LeaseBooks
  import opened Leases

  // ---- The hypotheses ----

  /** A disposed lease whose detach has failed is about to be given up, but its failure handler has not run yet. */
  predicate Abandons(b: Books, d: nat) {
    d in b.detaches && b.detaches[d].status == DetachFailing && b.detaches[d].relinquish
  }

  ghost predicate GivingUp(b: Books) {
    exists d :: Abandons(b, d)
  }

  /** A snapshot event that shows the session attached between the detach and the attach of a repair. */
  predicate Interferes(s: Session, snap: Snapshot) {
    s.repair == Detached && ApplySnapshot(s.view, snap).attached
  }

  /**
   * No acquire or detach straddles an invalidation, no snapshot event interferes with a repair, and no acquire gets a
   * reservation while a failed disposal waits for its handler.
   */
  ghost predicate Calm(s: Session, e: Event) {
    && NoStraddle(s.books, e)
    && (e.SnapshotSeen? ==> !Interferes(s, e.snap))
    && (e.AcquireCall? && GivingUp(s.books) ==> s.disposed || Reserve(s.books, e.mode).Err?)
  }

  ghost predicate CalmRun(s: Session, events: seq<Event>)
    decreases |events|
  {
    events == [] || (Enabled(s, events[0]) && Calm(s, events[0]) && CalmRun(Next(s, events[0]), events[1..]))
  }

  // ---- The invariant ----

  /** While the last holder detaches, everyone else waits for that detach. */
  ghost predicate OnlyWaiters(b: Books, phases: map<nat, Phase>, d: nat)
    requires d in b.detaches
  {
    (forall a | a in phases :: phases[a] == AfterDetach(d)) && (forall l | Live(b, l) :: l == b.detaches[d].lease)
  }

  ghost predicate Alone(b: Books, phases: map<nat, Phase>) {
    forall d | Unfinished(b, d) && (b.detaches[d].status != DetachFailing || b.detaches[d].relinquish) ::
      OnlyWaiters(b, phases, d)
  }

  /** What an acquire may wait for while the session is marked for cleanup. */
  predicate Parks(w: Waiting, phase: Phase) {
    phase.AfterDetach? ||
    (phase.AfterReconcile? && phase.reconcile in w.reconciles &&
     w.reconciles[phase.reconcile].status in {ReconcilePending(true), ReconcilePending(false), Answered, Refused,
       ReconcileDone(false)})
  }

  ghost predicate Parked(s: Session) {
    s.cleanup ==>
      (forall l :: !Live(s.books, l)) && forall a | a in s.waiting.phases :: Parks(s.waiting, s.waiting.phases[a])
  }

  /** An unsettled reconciliation is the current one, its owner waits for it, and the mark stands until it is
      cleared. */
  ghost predicate Reconciling(w: Waiting, cleanup: bool) {
    && (forall r | r in w.reconciles :: r < w.next)
    && (forall r | r in w.reconciles && !w.reconciles[r].status.ReconcileDone? ::
          && w.reconciliation == Some(r)
          && w.reconciles[r].owner in w.phases && w.phases[w.reconciles[r].owner] == AfterReconcile(r)
          && (cleanup <==> w.reconciles[r].status != Cleared))
    && (w.reconciliation.Some? ==>
      w.reconciliation.value in w.reconciles && !w.reconciles[w.reconciliation.value].status.ReconcileDone?)
  }

  /** A pending attach is the current one, and the owner of the current one waits for it. */
  ghost predicate Attaching(w: Waiting) {
    && (forall t | t in w.attaches :: t < w.next)
    && (forall t | t in w.attaches && w.attaches[t].status.AttachPending? ::
          && w.attachment == Some(t)
          && w.attaches[t].owner in w.phases && w.phases[w.attaches[t].owner] == AfterAttach(t))
    && (w.attachment.Some? ==>
          && w.attachment.value in w.attaches && w.attaches[w.attachment.value].owner in w.phases
          && w.phases[w.attaches[w.attachment.value].owner] == AfterAttach(w.attachment.value))
  }

  /** No attach has succeeded for this acquire. */
  predicate Unattached(w: Waiting, phase: Phase) {
    phase.AfterAttach? ==> phase.attach in w.attaches && w.attaches[phase.attach].status != AttachDone(true)
  }

  ghost predicate Repaired(s: Session) {
    && (s.repair == Dirty ==>
      s.cleanup && forall r | r in s.waiting.reconciles :: s.waiting.reconciles[r].status != Answered)
    && (s.cleanup ==> s.repair != Clean)
    && (s.repair == Detached ==>
          && !s.view.attached && (forall l :: !Live(s.books, l))
          && forall a | a in s.waiting.phases :: Unattached(s.waiting, s.waiting.phases[a]))
  }

  ghost predicate Young(s: Session) {
    s.creating || s.books.next == 0 ==>
      !s.cleanup && s.repair == Clean && s.waiting.reconciles == map[] &&
      forall d | d in s.books.detaches :: s.books.detaches[d].status.DetachPending?
  }

  /** The rules of the mark, of the repair and of a new session. */
  ghost predicate Marked(s: Session) {
    Parked(s) && Repaired(s) && Young(s)
  }

  ghost predicate Tidy(s: Session) {
    && Accounting(s.books) && s.waiting.phases.Keys == s.books.pending.Keys
    && Alone(s.books, s.waiting.phases) && Reconciling(s.waiting, s.cleanup) && Attaching(s.waiting) && Marked(s)
  }

  lemma InitialTidy()
    ensures Tidy(Initial)
  {
    NoBooksAccounting();
  }

  // ---- Detaches ----

  /** Nothing new is live, and no detach but possibly the one that moved is constrained. */
  ghost predicate Shrinks(b: Books, b': Books, d: nat) {
    && (forall l | Live(b', l) :: Live(b, l))
    && (forall e | Unfinished(b', e) :: e == d && Unfinished(b, d) && b'.detaches[d].lease == b.detaches[d].lease
                                        && b'.detaches[d].relinquish == b.detaches[d].relinquish)
    && b'.pending == b.pending && b'.next == b.next && b'.detaches.Keys == b.detaches.Keys
  }

  lemma AnswerShrinks(b: Books, d: nat, ok: bool)
    requires Accounting(b) && Owned(b, d) && b.detaches[d].status.DetachPending?
    ensures Shrinks(b, SetStatus(b, d, DetachSettled(ok)), d)
  {
    assert Unfinished(b, d);
    assert forall e :: Unfinished(SetStatus(b, d, DetachSettled(ok)), e) == Unfinished(b, e);
  }

  lemma ResumeShrinks(b: Books, d: nat)
    requires Accounting(b) && Owned(b, d) && b.detaches[d].status.DetachSettled?
    ensures Shrinks(b, Resume(b, d), d)
  {
    assert Unfinished(b, d);
    assert forall e :: Unfinished(Resume(b, d), e) ==> Unfinished(b, e);
  }

  lemma HandleShrinks(b: Books, d: nat)
    requires Accounting(b) && Owned(b, d) && b.detaches[d].status == DetachFailing
    ensures Shrinks(b, Handle(b, d), d) && ReleasingOn(b, b.detaches[d].lease, d)
    ensures forall e :: !Unfinished(Handle(b, d), e)
    ensures b.detaches[d].relinquish ==> !Live(Handle(b, d), b.detaches[d].lease)
  {
    assert Unfinished(b, d);
    assert forall e :: Unfinished(Handle(b, d), e) ==> Unfinished(b, e) && e != d;
  }

  lemma AloneShrinks(b: Books, b': Books, phases: map<nat, Phase>, d: nat)
    requires Alone(b, phases) && Shrinks(b, b', d)
    requires Unfinished(b', d) && b.detaches[d].status == DetachFailing ==> b'.detaches[d].status == DetachFailing
    ensures Alone(b', phases)
  {
    if Unfinished(b', d) && (b'.detaches[d].status != DetachFailing || b'.detaches[d].relinquish) {
      assert OnlyWaiters(b, phases, d);
    }
  }

  lemma TidyDetachAnswer(s: Session, d: nat, ok: bool)
    requires Tidy(s) && Enabled(s, DetachAnswer(d, ok))
    ensures Tidy(Next(s, DetachAnswer(d, ok)))
  {
    var b' := SetStatus(s.books, d, DetachSettled(ok));
    KeepAnswer(s.books, d, ok);
    AnswerShrinks(s.books, d, ok);
    AloneShrinks(s.books, b', s.waiting.phases, d);
  }

  lemma TidyDetachResume(s: Session, d: nat)
    requires Tidy(s) && Enabled(s, DetachResume(d))
    ensures Tidy(Next(s, DetachResume(d)))
  {
    var b' := Resume(s.books, d);
    KeepResume(s.books, d);
    ResumeShrinks(s.books, d);
    AloneShrinks(s.books, b', s.waiting.phases, d);
  }

  lemma HandlerAlone(b: Books, phases: map<nat, Phase>, d: nat)
    requires Accounting(b) && Owned(b, d) && b.detaches[d].status == DetachFailing && Alone(b, phases)
    ensures Alone(Handle(b, d), phases)
    ensures b.detaches[d].relinquish ==> OnlyWaiters(b, phases, d) && forall l :: !Live(Handle(b, d), l)
  {
    HandleShrinks(b, d);
    assert Unfinished(b, d);
  }

  lemma NothingElseWaits(w: Waiting, cleanup: bool, d: nat)
    requires Reconciling(w, cleanup) && forall a | a in w.phases :: w.phases[a] == AfterDetach(d)
    ensures Reconciling(w, true) && forall r | r in w.reconciles :: w.reconciles[r].status.ReconcileDone?
  {
    assert forall a | a in w.phases :: !w.phases[a].AfterReconcile?;
  }

  /** Giving a lease up marks the session: everyone else still waits for the failed detach. */
  lemma GivenUpMarked(s: Session, b': Books, d: nat)
    requires Reconciling(s.waiting, s.cleanup)
    requires forall a | a in s.waiting.phases :: s.waiting.phases[a] == AfterDetach(d)
    requires b'.next > 0 && !s.creating && forall l :: !Live(b', l)
    ensures Marked(s.(books := b', cleanup := true, repair := Dirty)) && Reconciling(s.waiting, true)
  {
    NothingElseWaits(s.waiting, s.cleanup, d);
  }

  lemma HandlerMarked(s: Session, d: nat)
    requires Accounting(s.books) && Alone(s.books, s.waiting.phases) && Reconciling(s.waiting, s.cleanup) && Marked(s)
    requires Enabled(s, DetachHandler(d))
    ensures Marked(Next(s, DetachHandler(d))) && Reconciling(s.waiting, Next(s, DetachHandler(d)).cleanup)
  {
    var b' := Handle(s.books, d);
    assert !s.creating && s.books.next > 0;
    HandlerAlone(s.books, s.waiting.phases, d);
    HandleShrinks(s.books, d);
    if s.books.detaches[d].relinquish {
      GivenUpMarked(s, b', d);
    } else {
      assert Marked(s.(books := b'));
    }
  }

  lemma TidyDetachHandler(s: Session, d: nat)
    requires Tidy(s) && Enabled(s, DetachHandler(d))
    ensures Tidy(Next(s, DetachHandler(d)))
  {
    KeepHandle(s.books, d);
    HandlerAlone(s.books, s.waiting.phases, d);
    HandleShrinks(s.books, d);
    HandlerMarked(s, d);
  }

  // ---- Attaches and reconciliations ----

  lemma AnswerAttaching(w: Waiting, t: nat, ok: bool, cleanup: bool)
    requires Attaching(w) && Reconciling(w, cleanup) && t in w.attaches && w.attaches[t].status.AttachPending?
    ensures Attaching(SetAttach(w, t, AttachDone(ok))) && Reconciling(SetAttach(w, t, AttachDone(ok)), cleanup)
  {
  }

  /** A pending attach rules the mark out: its owner would not be parked. */
  lemma AttachingIsUnmarked(s: Session, t: nat)
    requires Attaching(s.waiting) && Parked(s) && t in s.waiting.attaches && s.waiting.attaches[t].status.AttachPending?
    ensures !s.cleanup
  {
    assert s.waiting.phases[s.waiting.attaches[t].owner] == AfterAttach(t);
  }

  lemma AttachAnswerMarked(s: Session, t: nat, ok: bool, snap: Snapshot)
    requires Marked(s) && !s.cleanup && Enabled(s, AttachAnswer(t, ok, snap))
    ensures Marked(Next(s, AttachAnswer(t, ok, snap)))
  {
    var s' := Next(s, AttachAnswer(t, ok, snap));
    if s'.repair == Detached {
      assert forall phase | Unattached(s.waiting, phase) :: Unattached(s'.waiting, phase);
    }
  }

  lemma TidyAttachAnswer(s: Session, t: nat, ok: bool, snap: Snapshot)
    requires Tidy(s) && Enabled(s, AttachAnswer(t, ok, snap))
    ensures Tidy(Next(s, AttachAnswer(t, ok, snap)))
  {
    AttachingIsUnmarked(s, t);
    AnswerAttaching(s.waiting, t, ok, s.cleanup);
    AttachAnswerMarked(s, t, ok, snap);
  }

  lemma AnswerReconciling(w: Waiting, r: nat, ok: bool)
    requires Reconciling(w, true) && r in w.reconciles && w.reconciles[r].status.ReconcilePending?
    ensures var w' := SetReconcile(w, r, if ok then Answered else Refused);
            Reconciling(w', true) && forall phase | Parks(w, phase) :: Parks(w', phase)
  {
  }

  lemma SetReconcileAttaching(w: Waiting, r: nat, status: ReconcileStatus)
    requires Attaching(w) && r in w.reconciles
    ensures Attaching(SetReconcile(w, r, status)) && Attaching(SetReconcile(w, r, status).(reconciliation := None))
    ensures forall phase | Unattached(w, phase) :: Unattached(SetReconcile(w, r, status), phase)
  {
  }

  lemma ReconcileAnswerMarked(s: Session, r: nat, ok: bool)
    requires Marked(s) && Attaching(s.waiting) && Reconciling(s.waiting, s.cleanup)
    requires Enabled(s, ReconcileAnswer(r, ok))
    ensures Marked(Next(s, ReconcileAnswer(r, ok))) && s.cleanup
  {
    assert s.cleanup;
    AnswerReconciling(s.waiting, r, ok);
    SetReconcileAttaching(s.waiting, r, if ok then Answered else Refused);
    assert forall a | a in s.waiting.phases :: Parks(s.waiting, s.waiting.phases[a]);
    ParkedIsUnattached(s);
  }

  lemma ParkedIsUnattached(s: Session)
    requires Parked(s) && s.cleanup
    ensures forall a | a in s.waiting.phases :: !s.waiting.phases[a].AfterAttach?
  {
    assert forall a | a in s.waiting.phases :: Parks(s.waiting, s.waiting.phases[a]);
  }

  lemma TidyReconcileAnswer(s: Session, r: nat, ok: bool)
    requires Tidy(s) && Enabled(s, ReconcileAnswer(r, ok))
    ensures Tidy(Next(s, ReconcileAnswer(r, ok)))
  {
    ReconcileAnswerMarked(s, r, ok);
    AnswerReconciling(s.waiting, r, ok);
    SetReconcileAttaching(s.waiting, r, if ok then Answered else Refused);
  }

  lemma TidyReconcileClear(s: Session, r: nat)
    requires Tidy(s) && Enabled(s, ReconcileClear(r))
    ensures Tidy(Next(s, ReconcileClear(r)))
  {
    assert s.cleanup && s.repair == Detached;
  }

  lemma FinallyReconciling(w: Waiting, r: nat, cleanup: bool)
    requires Reconciling(w, cleanup) && r in w.reconciles && w.reconciles[r].status in {Cleared, Refused}
    ensures var w' := SetReconcile(w, r, ReconcileDone(w.reconciles[r].status == Cleared)).(reconciliation := None);
            Reconciling(w', cleanup) && (cleanup ==> forall phase | Parks(w, phase) :: Parks(w', phase))
  {
  }

  lemma FinallyMarked(s: Session, r: nat)
    requires Marked(s) && Reconciling(s.waiting, s.cleanup) && Enabled(s, ReconcileFinally(r))
    ensures Marked(Next(s, ReconcileFinally(r)))
  {
    FinallyReconciling(s.waiting, r, s.cleanup);
    if s.cleanup {
      assert forall a | a in s.waiting.phases :: Parks(s.waiting, s.waiting.phases[a]);
    }
  }

  lemma TidyReconcileFinally(s: Session, r: nat)
    requires Tidy(s) && Enabled(s, ReconcileFinally(r))
    ensures Tidy(Next(s, ReconcileFinally(r)))
  {
    FinallyReconciling(s.waiting, r, s.cleanup);
    FinallyMarked(s, r);
    SetReconcileAttaching(s.waiting, r, ReconcileDone(s.waiting.reconciles[r].status == Cleared));
  }

  // ---- Acquires ----

  /** No detach constrains who may hold a reservation. */
  ghost predicate Unconstrained(b: Books) {
    forall d | Unfinished(b, d) :: b.detaches[d].status == DetachFailing && !b.detaches[d].relinquish
  }

  lemma UnconstrainedAlone(b: Books, b': Books, phases: map<nat, Phase>)
    requires Unconstrained(b) && b'.detaches == b.detaches
    ensures Alone(b', phases)
  {
    assert forall d :: Unfinished(b', d) == Unfinished(b, d);
  }

  lemma FailedIsQuiet(b: Books, a: nat)
    ensures Fail(b, a).detaches == b.detaches && forall l :: Live(Fail(b, a), l) == Live(b, l)
  {
  }

  /** An acquire that waits for anything but an unfinished detach is not held up by one. */
  lemma NotHeldUp(s: Session, a: nat)
    requires Tidy(s) && CanResume(s, a)
    ensures Unconstrained(s.books)
  {
    forall d | Unfinished(s.books, d)
      ensures s.books.detaches[d].status == DetachFailing && !s.books.detaches[d].relinquish
    {
      assert s.waiting.phases[a] != AfterDetach(d);
    }
  }

  lemma LeaveWaiting(w: Waiting, a: nat, cleanup: bool)
    requires Attaching(w) && Reconciling(w, cleanup) && Settled(w, a)
    ensures Attaching(w.(phases := w.phases - {a})) && Reconciling(w.(phases := w.phases - {a}), cleanup)
  {
  }

  /** A pending acquire that gets its lease: allowed when the session is neither marked nor under repair. */
  lemma TidyFinish(s: Session, a: nat)
    requires Tidy(s) && a in s.books.pending && Unconstrained(s.books) && Settled(s.waiting, a)
    requires !s.cleanup && s.repair != Detached
    ensures Tidy(FinishAcquire(s, a))
  {
    KeepFinish(s.books, a);
    LeaveWaiting(s.waiting, a, s.cleanup);
    UnconstrainedAlone(s.books, Finish(s.books, a), s.waiting.phases - {a});
  }

  /** The acquire owns no unsettled request, and not the current attach. */
  ghost predicate Settled(w: Waiting, a: nat) {
    && (forall t | t in w.attaches && w.attaches[t].status.AttachPending? :: w.attaches[t].owner != a)
    && (forall r | r in w.reconciles && !w.reconciles[r].status.ReconcileDone? :: w.reconciles[r].owner != a)
    && (w.attachment.Some? && w.attachment.value in w.attaches ==> w.attaches[w.attachment.value].owner != a)
  }

  lemma FailMarked(s: Session, a: nat)
    requires Marked(s)
    ensures Marked(FailAcquire(s, a))
  {
    FailedIsQuiet(s.books, a);
  }

  lemma TidyFail(s: Session, a: nat)
    requires Tidy(s) && a in s.books.pending && Unconstrained(s.books) && Settled(s.waiting, a)
    ensures Tidy(FailAcquire(s, a))
  {
    KeepFail(s.books, a);
    LeaveWaiting(s.waiting, a, s.cleanup);
    UnconstrainedAlone(s.books, Fail(s.books, a), s.waiting.phases - {a});
    FailedIsQuiet(s.books, a);
    FailMarked(s, a);
  }

  lemma WaiterIsSettled(s: Session, a: nat)
    requires Tidy(s) && CanResume(s, a)
    requires s.waiting.phases[a].AfterAttach? ==> s.waiting.attachment != Some(s.waiting.phases[a].attach)
    ensures Settled(s.waiting, a)
  {
  }

  lemma AwaitAttaching(w: Waiting, a: nat, previous: Option<Snapshot>, sent: bool, cleanup: bool)
    requires Attaching(w) && Reconciling(w, cleanup) && Settled(w, a)
    ensures var w' := AwaitAttach(w, a, previous, sent);
            Attaching(w') && Reconciling(w', cleanup)
  {
  }

  lemma AttachMarked(s: Session, a: nat, sent: bool)
    requires Marked(s) && Attaching(s.waiting) && a in s.books.pending && !s.cleanup
    ensures Marked(ContinueAttach(s, a, true, sent))
  {
    var w, w' := s.waiting, AwaitAttach(s.waiting, a, s.view.snapshot, sent);
    if s.repair == Detached {
      assert w.attachment.Some? ==> Unattached(w, w.phases[w.attaches[w.attachment.value].owner]);
      assert forall phase | Unattached(w, phase) :: Unattached(w', phase);
    }
  }

  lemma TidyAwaitAttach(s: Session, a: nat, sent: bool)
    requires Tidy(s) && a in s.books.pending && Unconstrained(s.books) && Settled(s.waiting, a) && !s.cleanup
    ensures Tidy(ContinueAttach(s, a, true, sent))
  {
    AwaitAttaching(s.waiting, a, s.view.snapshot, sent, s.cleanup);
    AttachMarked(s, a, sent);
    UnconstrainedAlone(s.books, s.books, AwaitAttach(s.waiting, a, s.view.snapshot, sent).phases);
  }

  lemma AwaitReconciling(w: Waiting, a: nat, sent: bool)
    requires Attaching(w) && Reconciling(w, true) && Settled(w, a)
    ensures var w' := AwaitReconcile(w, a, sent);
            && Attaching(w') && Reconciling(w', true) && Parks(w', w'.phases[a])
            && forall phase | Parks(w, phase) :: Parks(w', phase)
  {
  }

  lemma ReconcileMarked(s: Session, a: nat, sent: bool)
    requires Marked(s) && Attaching(s.waiting) && Reconciling(s.waiting, true) && Settled(s.waiting, a) && s.cleanup
    ensures Marked(s.(waiting := AwaitReconcile(s.waiting, a, sent)))
  {
    var w, w' := s.waiting, AwaitReconcile(s.waiting, a, sent);
    AwaitReconciling(w, a, sent);
    assert forall x | x in w.phases :: Parks(w, w.phases[x]);
  }

  lemma TidyAwaitReconcile(s: Session, a: nat, sent: bool)
    requires Tidy(s) && a in s.books.pending && Unconstrained(s.books) && Settled(s.waiting, a) && s.cleanup
    ensures Tidy(s.(waiting := AwaitReconcile(s.waiting, a, sent)))
  {
    AwaitReconciling(s.waiting, a, sent);
    ReconcileMarked(s, a, sent);
    UnconstrainedAlone(s.books, s.books, AwaitReconcile(s.waiting, a, sent).phases);
  }

  lemma TidyContinueCleanup(s: Session, a: nat, sent: bool)
    requires Tidy(s) && a in s.books.pending && Unconstrained(s.books) && Settled(s.waiting, a)
    ensures Tidy(ContinueCleanup(s, a, sent))
  {
    if s.cleanup {
      TidyAwaitReconcile(s, a, sent);
    } else if !s.view.attached {
      TidyAwaitAttach(s, a, sent);
    } else {
      TidyFinish(s, a);
    }
  }

  lemma TidyResume(s: Session, e: Event)
    requires Tidy(s) && Enabled(s, e) && (e.ResumeAfterDetach? || e.ResumeAfterReconcile?)
    ensures Tidy(Next(s, e))
  {
    NotHeldUp(s, e.acquire);
    WaiterIsSettled(s, e.acquire);
    if e.ResumeAfterDetach? {
      TidyContinueCleanup(s, e.acquire, e.sent);
    } else if s.waiting.reconciles[s.waiting.phases[e.acquire].reconcile].status.ok {
      assert !Parks(s.waiting, s.waiting.phases[e.acquire]);
      TidyAwaitAttach(s, e.acquire, e.sent);
    } else {
      TidyFail(s, e.acquire);
    }
  }

  lemma TidyResumeAfterAttach(s: Session, a: nat)
    requires Tidy(s) && Enabled(s, ResumeAfterAttach(a))
    ensures Tidy(Next(s, ResumeAfterAttach(a)))
  {
    NotHeldUp(s, a);
    var t := s.waiting.phases[a].attach;
    var s' := s.(waiting := s.waiting.(attachment := if s.waiting.attachment == Some(t) then None
      else s.waiting.attachment));
    TidyForget(s, a);
    WaiterIsSettled(s', a);
    if s.waiting.attaches[t].status.ok {
      assert !Parks(s.waiting, s.waiting.phases[a]);
      assert s.repair == Detached ==> Unattached(s.waiting, s.waiting.phases[a]);
      TidyFinish(s', a);
    } else {
      TidyFail(s', a);
    }
  }

  lemma TidyForget(s: Session, a: nat)
    requires Tidy(s) && Enabled(s, ResumeAfterAttach(a))
    ensures var t := s.waiting.phases[a].attach;
            Tidy(s.(waiting := s.waiting.(attachment := if s.waiting.attachment == Some(t) then None
              else s.waiting.attachment)))
  {
    assert s.cleanup ==> !Parks(s.waiting, s.waiting.phases[a]);
  }

  /** A reservation made while no disposal is being given up: it waits for the detach in flight, if there is one. */
  ghost function Queued(s: Session, mode: Mode, phase: Phase): Session
    requires Reserve(s.books, mode).Ok?
  {
    s.(books := Reserve(s.books, mode).value, waiting := s.waiting.(phases := s.waiting.phases[s.books.next := phase]))
  }

  lemma JoinWaiting(w: Waiting, a: nat, phase: Phase, cleanup: bool)
    requires Attaching(w) && Reconciling(w, cleanup) && a !in w.phases
    ensures var w' := w.(phases := w.phases[a := phase]); Attaching(w') && Reconciling(w', cleanup) && Settled(w', a)
  {
  }

  lemma QueuedAlone(b: Books, phases: map<nat, Phase>, mode: Mode, phase: Phase)
    requires Accounting(b) && Reserve(b, mode).Ok? && Alone(b, phases) && !GivingUp(b)
    requires b.detachment.Some? ==> phase == AfterDetach(b.detachment.value)
    ensures Alone(Reserve(b, mode).value, phases[b.next := phase])
    ensures b.detachment == None ==> Unconstrained(Reserve(b, mode).value)
  {
    var b' := Reserve(b, mode).value;
    assert forall d :: Unfinished(b', d) == Unfinished(b, d);
    assert forall l :: Live(b', l) == Live(b, l);
    forall d | Unfinished(b', d) && (b'.detaches[d].status != DetachFailing || b'.detaches[d].relinquish)
      ensures OnlyWaiters(b', phases[b.next := phase], d) && b.detachment == Some(d)
    {
      assert !Abandons(b, d);
      assert OnlyWaiters(b, phases, d);
    }
  }

  lemma QueuedMarked(s: Session, mode: Mode, d: nat)
    requires Marked(s) && Reserve(s.books, mode).Ok?
    ensures Marked(Queued(s, mode, AfterDetach(d)))
  {
    assert forall l :: Live(Reserve(s.books, mode).value, l) == Live(s.books, l);
  }

  lemma TidyQueued(s: Session, mode: Mode, d: nat)
    requires Tidy(s) && Reserve(s.books, mode).Ok? && !GivingUp(s.books)
    requires s.books.detachment.Some? ==> d == s.books.detachment.value
    ensures Tidy(Queued(s, mode, AfterDetach(d)))
  {
    KeepReserve(s.books, mode);
    QueuedAlone(s.books, s.waiting.phases, mode, AfterDetach(d));
    QueuedMarked(s, mode, d);
    JoinWaiting(s.waiting, s.books.next, AfterDetach(d), s.cleanup);
  }

  /** Going on overwrites or removes the phase, so it does not matter that the acquire was not listed before. */
  lemma SkipQueue(s: Session, mode: Mode, sent: bool)
    requires Reserve(s.books, mode).Ok? && s.books.next !in s.waiting.phases
    ensures ContinueCleanup(Queued(s, mode, AfterDetach(0)), s.books.next, sent)
            == ContinueCleanup(s.(books := Reserve(s.books, mode).value), s.books.next, sent)
  {
    var a := s.books.next;
    var w := s.waiting.(phases := s.waiting.phases[a := AfterDetach(0)]);
    SkipAwait(s.waiting, a, s.view.snapshot, sent);
    assert w.phases - {a} == s.waiting.phases - {a};
  }

  lemma SkipAwait(w: Waiting, a: nat, previous: Option<Snapshot>, sent: bool)
    ensures var w' := w.(phases := w.phases[a := AfterDetach(0)]);
            && AwaitReconcile(w', a, sent) == AwaitReconcile(w, a, sent)
            && AwaitAttach(w', a, previous, sent) == AwaitAttach(w, a, previous, sent)
  {
    var m: map<nat, Phase>, r := w.phases, if w.reconciliation.Some? then w.reconciliation.value else w.next;
    var t := if w.attachment.Some? then w.attachment.value else w.next;
    assert m[a := AfterDetach(0)][a := AfterReconcile(r)] == m[a := AfterReconcile(r)];
    assert m[a := AfterDetach(0)][a := AfterAttach(t)] == m[a := AfterAttach(t)];
  }

  lemma TidyAcquire(s: Session, mode: Mode, sent: bool)
    requires Tidy(s) && (GivingUp(s.books) ==> s.disposed || Reserve(s.books, mode).Err?)
    ensures Tidy(StartAcquire(s, mode, sent))
  {
    if !s.disposed && Reserve(s.books, mode).Ok? {
      if s.books.detachment.Some? {
        TidyQueued(s, mode, s.books.detachment.value);
      } else {
        TidyQueued(s, mode, 0);
        QueuedAlone(s.books, s.waiting.phases, mode, AfterDetach(0));
        JoinWaiting(s.waiting, s.books.next, AfterDetach(0), s.cleanup);
        TidyContinueCleanup(Queued(s, mode, AfterDetach(0)), s.books.next, sent);
        SkipQueue(s, mode, sent);
      }
    }
  }

  /**
   * An acquire that gets a reservation while a disposal is being given up goes past the detach it should wait for: it
   * becomes a holder that does not wait.
   */
  lemma AcquireSlipsThrough(s: Session, mode: Mode, sent: bool, d: nat)
    requires Accounting(s.books) && Abandons(s.books, d) && !s.disposed && Reserve(s.books, mode).Ok?
    ensures var s' := StartAcquire(s, mode, sent);
            && s'.books.detaches == s.books.detaches
            && (Live(s'.books, s.books.next) ||
                (s.books.next in s'.waiting.phases && !s'.waiting.phases[s.books.next].AfterDetach?))
  {
    assert Unfinished(s.books, d);
    ContinuingDoesNotWait(s.(books := Reserve(s.books, mode).value), s.books.next, sent);
  }

  lemma ContinuingDoesNotWait(s: Session, a: nat, sent: bool)
    requires a in s.books.pending
    ensures var s' := ContinueCleanup(s, a, sent);
            && s'.books.detaches == s.books.detaches
            && (Live(s'.books, a) || (a in s'.waiting.phases && !s'.waiting.phases[a].AfterDetach?))
  {
  }

  lemma SlippingIsUntidy(s: Session, mode: Mode, sent: bool)
    requires Tidy(s) && GivingUp(s.books) && !s.disposed && Reserve(s.books, mode).Ok?
    ensures !Tidy(StartAcquire(s, mode, sent))
  {
    var d :| Abandons(s.books, d);
    var s', a := StartAcquire(s, mode, sent), s.books.next;
    AcquireSlipsThrough(s, mode, sent, d);
    assert Unfinished(s'.books, d) && s'.books.detaches[d].lease != a;
    assert !OnlyWaiters(s'.books, s'.waiting.phases, d);
  }

  /** An acquire keeps the session tidy exactly when it is refused or no disposal is being given up. */
  lemma AcquireTidyIff(s: Session, mode: Mode, sent: bool)
    requires Tidy(s)
    ensures Tidy(StartAcquire(s, mode, sent)) <==> s.disposed || Reserve(s.books, mode).Err? || !GivingUp(s.books)
  {
    if s.disposed || Reserve(s.books, mode).Err? || !GivingUp(s.books) {
      TidyAcquire(s, mode, sent);
    } else {
      SlippingIsUntidy(s, mode, sent);
    }
  }

  /** The consequence, in every such state: once the handler has run, the new handle is active on a marked session. */
  lemma ActiveOnMarkedSession(s: Session, mode: Mode, sent: bool, d: nat)
    requires Tidy(s) && Abandons(s.books, d) && !s.disposed && Reserve(s.books, mode).Ok? && s.view.attached
    requires Enabled(s, AcquireCall(mode, sent))
    ensures var s1 := Next(s, AcquireCall(mode, sent));
            Enabled(s1, DetachHandler(d)) && var s2 := Next(s1, DetachHandler(d));
            s2.cleanup && IsActive(s2, s.books.next)
  {
    assert Unfinished(s.books, d) && ReleasingOn(s.books, s.books.detaches[d].lease, d);
    assert Live(s.books, s.books.detaches[d].lease);
  }

  // ---- Creates, releases and the connection ----

  lemma TidyCreateFinish(s: Session)
    requires Tidy(s) && s.creating
    ensures Tidy(Next(s, CreateFinish))
  {
    if Reserve(s.books, Exclusive).Ok? {
      var b := Reserve(s.books, Exclusive).value;
      KeepReserve(s.books, Exclusive);
      KeepFinish(b, s.books.next);
      NothingHeld(s.books);
      assert s.waiting.phases.Keys == {};
      assert forall d :: Unfinished(Finish(b, s.books.next), d) == Unfinished(s.books, d);
    }
  }

  lemma StartDetachAlone(b: Books, l: nat, relinquish: bool, sent: bool)
    requires Accounting(b) && Live(b, l) && b.leases[l].state.Active? && b.count <= 1
    ensures Alone(StartDetach(b, l, relinquish, sent), map[]) && b.pending == map[]
  {
    var b' := StartDetach(b, l, relinquish, sent);
    LastHolder(b, l);
    assert forall k :: Live(b', k) ==> Live(b, k);
    KeepStartDetach(b, l, relinquish, sent);
    assert Unfinished(b', b.next);
  }

  lemma ReleaseAlone(b: Books, b': Books, phases: map<nat, Phase>, e: Event)
    requires Accounting(b) && Moves(b, b', e) && e.ReleaseCall? && Alone(b, phases) && phases.Keys == b.pending.Keys
    ensures Alone(b', phases)
  {
    if b' != b && b.leases[e.lease].generation == b.generation && b.count <= 1 {
      StartDetachAlone(b, e.lease, e.relinquish, e.sent);
      assert phases == map[];
    } else {
      assert forall d :: Unfinished(b', d) == Unfinished(b, d);
      assert forall k :: Live(b', k) ==> Live(b, k);
    }
  }

  lemma ReleaseQuiet(b: Books, b': Books, e: Event)
    requires Moves(b, b', e) && e.ReleaseCall?
    ensures (forall l | Live(b', l) :: Live(b, l)) && b'.pending == b.pending && b.next <= b'.next
    ensures forall d | d in b'.detaches ::
      (d in b.detaches && b'.detaches[d] == b.detaches[d]) || b'.detaches[d].status.DetachPending?
  {
  }

  lemma ReleaseMarked(s: Session, b': Books, e: Event)
    requires Marked(s) && Moves(s.books, b', e) && e.ReleaseCall?
    ensures Marked(s.(books := b'))
  {
    ReleaseQuiet(s.books, b', e);
  }

  lemma TidyRelease(s: Session, l: nat, relinquish: bool, sent: bool)
    requires Tidy(s) && l in s.books.leases
    ensures Tidy(StartRelease(s, l, relinquish, sent))
  {
    var e, s' := ReleaseCall(l, relinquish, sent), StartRelease(s, l, relinquish, sent);
    assert s' == s.(books := s'.books);
    ReleaseMoves(s, l, relinquish, sent);
    MoveAccounting(s.books, s'.books, e);
    ReleaseAlone(s.books, s'.books, s.waiting.phases, e);
    ReleaseQuiet(s.books, s'.books, e);
    ReleaseMarked(s, s'.books, e);
  }

  /** With nothing in flight, an invalidation leaves a tidy session without a mark. */
  lemma TidyInvalidation(s: Session, e: Event)
    requires Tidy(s) && Enabled(s, e) && Invalidating(e) && Idle(s.books)
    ensures Tidy(Next(s, e))
  {
    var s' := Next(s, e);
    StepMoves(s, e);
    MoveAccounting(s.books, s'.books, e);
    assert s.waiting.phases.Keys == {};
    LostDetaches(s.books, s'.books, e);
    NothingAwaited(s.waiting, s.cleanup, s'.waiting);
    QuietIsTidy(s');
    assert Young(s) && (s'.creating == s.creating) && s'.books.next == s.books.next;
  }

  /** When no acquire is pending, nothing shared is in flight, and losing the connection leaves it so. */
  lemma NothingAwaited(w: Waiting, cleanup: bool, w': Waiting)
    requires Reconciling(w, cleanup) && Attaching(w) && w.phases.Keys == {}
    requires w' == w || w' == Leases.Unsend(w)
    ensures w' == w && Reconciling(w', false) && Attaching(w')
  {
    assert forall r | r in w.reconciles :: w.reconciles[r].status.ReconcileDone?;
    assert forall t | t in w.attaches :: !w.attaches[t].status.AttachPending?;
    assert w'.attaches == w.attaches && w'.reconciles == w.reconciles;
  }

  lemma QuietIsTidy(s: Session)
    requires Accounting(s.books) && s.waiting.phases.Keys == s.books.pending.Keys == {}
    requires forall d :: !Unfinished(s.books, d)
    requires Reconciling(s.waiting, s.cleanup) && Attaching(s.waiting) && !s.cleanup && s.repair == Clean
    ensures Young(s) ==> Tidy(s)
  {
  }

  lemma LostDetaches(b: Books, b': Books, e: Event)
    requires Invalidating(e) && Moves(b, b', e) && Idle(b)
    ensures forall d :: !Unfinished(b', d)
    ensures b'.pending == b.pending && b'.next == b.next && b'.detaches.Keys == b.detaches.Keys
    ensures (forall d | d in b.detaches :: b.detaches[d].status.DetachPending?) ==> b'.detaches == b.detaches == map[]
  {
    forall d ensures !Unfinished(b', d) { assert !Unfinished(b, d); }
    if forall d | d in b.detaches :: b.detaches[d].status.DetachPending? {
      assert forall d :: d in b.detaches ==> Unfinished(b, d);
    }
  }

  /** A snapshot event keeps the session tidy exactly when it does not interfere with a repair. */
  lemma SnapshotTidyIff(s: Session, snap: Snapshot)
    requires Tidy(s) && Enabled(s, SnapshotSeen(snap))
    ensures Tidy(Next(s, SnapshotSeen(snap))) <==> !Interferes(s, snap)
  {
    var s' := Next(s, SnapshotSeen(snap));
    assert s' == s.(view := ApplySnapshot(s.view, snap));
  }

  lemma AcquireStepTidy(s: Session, e: Event)
    requires Tidy(s) && Enabled(s, e) && Calm(s, e)
    requires e.AcquireCall? || e.ResumeAfterDetach? || e.ResumeAfterReconcile? || e.ResumeAfterAttach?
    ensures Tidy(Next(s, e))
  {
    match e
    case AcquireCall(mode, sent) => TidyAcquire(s, mode, sent);
    case ResumeAfterAttach(a) => TidyResumeAfterAttach(s, a);
    case _ => TidyResume(s, e);
  }

  lemma DetachStepTidy(s: Session, e: Event)
    requires Tidy(s) && Enabled(s, e) && (e.ReleaseCall? || e.DetachAnswer? || e.DetachResume? || e.DetachHandler?)
    ensures Tidy(Next(s, e))
  {
    match e
    case ReleaseCall(l, relinquish, sent) => TidyRelease(s, l, relinquish, sent);
    case DetachAnswer(d, ok) => TidyDetachAnswer(s, d, ok);
    case DetachResume(d) => TidyDetachResume(s, d);
    case DetachHandler(d) => TidyDetachHandler(s, d);
  }

  lemma RepairStepTidy(s: Session, e: Event)
    requires Tidy(s) && Enabled(s, e)
    requires e.AttachAnswer? || e.ReconcileAnswer? || e.ReconcileClear? || e.ReconcileFinally?
    ensures Tidy(Next(s, e))
  {
    match e
    case AttachAnswer(t, ok, snap) => TidyAttachAnswer(s, t, ok, snap);
    case ReconcileAnswer(r, ok) => TidyReconcileAnswer(s, r, ok);
    case ReconcileClear(r) => TidyReconcileClear(s, r);
    case ReconcileFinally(r) => TidyReconcileFinally(s, r);
  }

  /** A calm step keeps the session tidy. */
  lemma CalmStepTidy(s: Session, e: Event)
    requires Tidy(s) && Enabled(s, e) && Calm(s, e)
    ensures Tidy(Next(s, e))
  {
    if e.AcquireCall? || e.ResumeAfterDetach? || e.ResumeAfterReconcile? || e.ResumeAfterAttach? {
      AcquireStepTidy(s, e);
    } else if e.ReleaseCall? || e.DetachAnswer? || e.DetachResume? || e.DetachHandler? {
      DetachStepTidy(s, e);
    } else if e.AttachAnswer? || e.ReconcileAnswer? || e.ReconcileClear? || e.ReconcileFinally? {
      RepairStepTidy(s, e);
    } else {
      SessionStepTidy(s, e);
    }
  }

  lemma SessionStepTidy(s: Session, e: Event)
    requires Tidy(s) && Enabled(s, e) && Calm(s, e)
    requires e.CreateResult? || e.CreateFinish? || e.Connected? || e.SnapshotSeen? || Invalidating(e)
    ensures Tidy(Next(s, e))
  {
    match e
    case CreateResult(snap) => TidyCreateResult(s, snap);
    case CreateFinish => TidyCreateFinish(s);
    case Connected => TidyConnected(s);
    case SnapshotSeen(snap) => SnapshotTidyIff(s, snap);
    case _ => TidyInvalidation(s, e);
  }

  /** A step keeps the session tidy exactly when it is calm: each of the three conditions is needed wherever it
      fails. */
  lemma StepTidyIff(s: Session, e: Event)
    requires Tidy(s) && Enabled(s, e)
    ensures Tidy(Next(s, e)) <==> Calm(s, e)
  {
    if Calm(s, e) {
      CalmStepTidy(s, e);
    } else if e.AcquireCall? {
      AcquireTidyIff(s, e.mode, e.sent);
    } else if e.SnapshotSeen? {
      SnapshotTidyIff(s, e.snap);
    } else {
      StepMoves(s, e);
      MoveAccounting(s.books, Next(s, e).books, e);
    }
  }

  lemma TidyCreateResult(s: Session, snap: Snapshot)
    requires Tidy(s) && Enabled(s, CreateResult(snap))
    ensures Tidy(Next(s, CreateResult(snap)))
  {
    assert s.books.pending.Keys == {};
  }

  lemma TidyConnected(s: Session)
    requires Tidy(s) && Enabled(s, Connected)
    ensures Tidy(Next(s, Connected))
  {
  }

  lemma {:induction false} RunTidy(s: Session, events: seq<Event>, s': Session)
    requires Tidy(s) && Run(s, events, s') && CalmRun(s, events)
    ensures Tidy(s')
    decreases |events|
  {
    if events != [] {
      CalmStepTidy(s, events[0]);
      RunTidy(Next(s, events[0]), events[1..], s');
    }
  }

  // ---- What it means ----

  /** A session marked for cleanup has no live lease, so no active handle. */
  lemma MarkedHasNoLiveLease(events: seq<Event>, s: Session, l: nat)
    requires Run(Initial, events, s) && CalmRun(Initial, events) && s.cleanup
    ensures !Live(s.books, l) && !IsActive(s, l)
  {
    InitialTidy();
    RunTidy(Initial, events, s);
  }

  /** The reconciling detach never cuts off a live handle. */
  lemma ReconcilingCutsNothingOff(events: seq<Event>, s: Session, r: nat, ok: bool, l: nat)
    requires Run(Initial, events, s) && CalmRun(Initial, events) && Enabled(s, ReconcileAnswer(r, ok))
    ensures !Live(s.books, l)
  {
    InitialTidy();
    RunTidy(Initial, events, s);
  }

  /**
   * A lease that is live after a failed disposal was made after a detach and then an attach have succeeded: the repair
   * is neither missing nor half done.
   */
  lemma LiveLeaseIsRepaired(events: seq<Event>, s: Session, l: nat)
    requires Run(Initial, events, s) && CalmRun(Initial, events) && Live(s.books, l)
    ensures s.repair == Clean
  {
    InitialTidy();
    RunTidy(Initial, events, s);
  }
}
