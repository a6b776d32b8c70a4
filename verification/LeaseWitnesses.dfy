/** Runs that show why the hypotheses on leases are needed. */
module LeaseWitnesses {
  import opened Basics
  import opened LeaseBooks
  import opened Leases
  import opened LeaseCleanup

  lemma RunStep(s: Session, e: Event, rest: seq<Event>, s': Session)
    requires Enabled(s, e) && Run(Next(s, e), rest, s')
    ensures Run(s, [e] + rest, s')
  {
    assert ([e] + rest)[1..] == rest;
  }

  lemma RunTwo(s: Session, e: Event, f: Event)
    requires Enabled(s, e) && Enabled(Next(s, e), f)
    ensures Run(s, [e, f], Next(Next(s, e), f))
  {
    RunStep(Next(s, e), f, [], Next(Next(s, e), f));
    RunStep(s, e, [f], Next(Next(s, e), f));
  }

  lemma {:induction false} RunAppend(s: Session, first: seq<Event>, s': Session, second: seq<Event>, s'': Session)
    requires Run(s, first, s') && Run(s', second, s'')
    ensures Run(s, first + second, s'')
    decreases |first|
  {
    if first == [] {
      assert first + second == second;
    } else {
      RunAppend(Next(s, first[0]), first[1..], s', second, s'');
      assert (first + second)[1..] == first[1..] + second;
    }
  }

  lemma Chain(a: Session, first: seq<Event>, b: Session, second: seq<Event>, c: Session, third: seq<Event>, d: Session)
    requires Run(a, first, b) && Run(b, second, c) && Run(c, third, d)
    ensures Run(a, first + (second + third), d)
  {
    RunAppend(b, second, c, third, d);
    RunAppend(a, first, b, second + third, d);
  }

  const Snap := Snapshot(0, true)

  const Opened := Initial.(connected := true)

  /** A shared acquire waits for its attach. */
  const Requested := Opened.(
    books := Books(1, None, 0, map[0 := Shared], map[], map[], None, 1),
    waiting := Waiting(map[0 := AfterAttach(0)], map[0 := Attach(0, None, AttachPending(true))], Some(0), map[],
      None, 1))

  const Requesting := [Connected, AcquireCall(Shared, true)]

  lemma ReachRequested()
    ensures Run(Initial, Requesting, Requested)
  {
    assert Next(Initial, Connected) == Opened;
    RunTwo(Initial, Connected, AcquireCall(Shared, true));
  }

  // ---- Straddling a removal ----

  /** The session is removed meanwhile and an exclusive acquire comes in. */
  const Straddled := Requested.(
    books := Books(1, Some(1), 1, map[0 := Shared, 1 := Exclusive], map[], map[], None, 2),
    waiting := Requested.waiting.(phases := map[0 := AfterAttach(0), 1 := AfterAttach(0)]))

  lemma ReachStraddled()
    ensures Run(Requested, [SessionRemoved, AcquireCall(Exclusive, true)], Straddled)
  {
    assert Next(Requested, SessionRemoved)
      == Requested.(books := Books(0, None, 1, map[0 := Shared], map[], map[], None, 1));
    RunTwo(Requested, SessionRemoved, AcquireCall(Exclusive, true));
  }

  lemma BothBecomeActive() returns (s: Session)
    ensures Run(Straddled, [AttachAnswer(0, true, Snap)] + [ResumeAfterAttach(0), ResumeAfterAttach(1)], s)
    ensures IsActive(s, 0) && IsActive(s, 1) && s.books.leases[1].mode == Exclusive && s.books.count == 1
  {
    var s1 := Next(Straddled, AttachAnswer(0, true, Snap));
    s := Next(Next(s1, ResumeAfterAttach(0)), ResumeAfterAttach(1));
    RunTwo(s1, ResumeAfterAttach(0), ResumeAfterAttach(1));
    RunStep(Straddled, AttachAnswer(0, true, Snap), [ResumeAfterAttach(0), ResumeAfterAttach(1)], s);
  }

  /** In this run both handles become active: a shared one beside an exclusive one, with a count of one. */
  lemma StraddlingSharesAnExclusiveLease() returns (s: Session)
    ensures Run(Initial,
      Requesting + ([SessionRemoved, AcquireCall(Exclusive, true)] +
                    ([AttachAnswer(0, true, Snap)] + [ResumeAfterAttach(0), ResumeAfterAttach(1)])), s)
    ensures IsActive(s, 0) && IsActive(s, 1) && s.books.leases[1].mode == Exclusive && s.books.count == 1
  {
    ReachRequested();
    ReachStraddled();
    s := BothBecomeActive();
    Chain(Initial, Requesting, Requested, [SessionRemoved, AcquireCall(Exclusive, true)], Straddled,
      [AttachAnswer(0, true, Snap)] + [ResumeAfterAttach(0), ResumeAfterAttach(1)], s);
  }

  // ---- Acquiring while a disposal is being given up ----

  const Attached := Opened.(
    books := Books(1, None, 0, map[], map[0 := Lease(Shared, 0, Active)], map[], None, 1),
    waiting := Waiting(map[], map[0 := Attach(0, None, AttachDone(true))], None, map[], None, 1),
    view := View(true, Some(Snap)))

  /** A disposed lease whose detach was refused and whose failure handler has not run. */
  const Abandoned := Attached.(
    books := Books(1, None, 0, map[], map[0 := Lease(Shared, 0, Releasing(1))],
      map[1 := Detach(0, true, DetachFailing)], None, 2))

  const Abandoning := Requesting + ([AttachAnswer(0, true, Snap), ResumeAfterAttach(0)] +
                                    ([ReleaseCall(0, true, true)] + [DetachAnswer(1, false), DetachResume(1)]))

  lemma ReachAttached()
    ensures Run(Requested, [AttachAnswer(0, true, Snap), ResumeAfterAttach(0)], Attached)
  {
    assert Next(Requested, AttachAnswer(0, true, Snap)) == Requested.(
      waiting := Requested.waiting.(attaches := map[0 := Attach(0, None, AttachDone(true))]),
      view := View(true, Some(Snap)));
    RunTwo(Requested, AttachAnswer(0, true, Snap), ResumeAfterAttach(0));
  }

  lemma GiveUp()
    ensures Run(Attached, [ReleaseCall(0, true, true)] + [DetachAnswer(1, false), DetachResume(1)], Abandoned)
  {
    var s1 := Next(Attached, ReleaseCall(0, true, true));
    assert Next(Next(s1, DetachAnswer(1, false)), DetachResume(1)) == Abandoned;
    RunTwo(s1, DetachAnswer(1, false), DetachResume(1));
    RunStep(Attached, ReleaseCall(0, true, true), [DetachAnswer(1, false), DetachResume(1)], Abandoned);
  }

  lemma ReachAbandoned()
    ensures Run(Initial, Abandoning, Abandoned)
  {
    ReachRequested();
    ReachAttached();
    GiveUp();
    Chain(Initial, Requesting, Requested, [AttachAnswer(0, true, Snap), ResumeAfterAttach(0)], Attached,
      [ReleaseCall(0, true, true)] + [DetachAnswer(1, false), DetachResume(1)], Abandoned);
  }

  /** In this run an acquire at that point becomes an active handle on a session that is then marked for cleanup. */
  lemma WindowLeavesActiveHandleOnMarkedSession() returns (s: Session)
    ensures Run(Initial, Abandoning + [AcquireCall(Shared, true), DetachHandler(1)], s)
    ensures s.cleanup && IsActive(s, 2)
  {
    s := AcquireInWindow();
    ReachAbandoned();
    RunAppend(Initial, Abandoning, Abandoned, [AcquireCall(Shared, true), DetachHandler(1)], s);
  }

  lemma AcquireInWindow() returns (s: Session)
    ensures Run(Abandoned, [AcquireCall(Shared, true), DetachHandler(1)], s)
    ensures s.cleanup && IsActive(s, 2)
  {
    s := Next(Next(Abandoned, AcquireCall(Shared, true)), DetachHandler(1));
    RunTwo(Abandoned, AcquireCall(Shared, true), DetachHandler(1));
  }

  // ---- A snapshot event in the middle of a repair ----

  const Later := Snapshot(1, true)

  /** The mark is cleared by a reconciliation for acquire 2; the attach that completes the repair has not been sent. */
  const HalfRepaired := Opened.(
    books := Books(1, None, 0, map[2 := Shared], map[0 := Lease(Shared, 0, Released)],
      map[1 := Detach(0, true, DetachFinished)], None, 3),
    waiting := Waiting(map[2 := AfterReconcile(1)], map[0 := Attach(0, None, AttachDone(true))], None,
                       map[1 := Reconcile(2, Cleared)], Some(1), 2),
    view := View(false, Some(Snapshot(0, false))), repair := Detached)

  const Repairing := [DetachHandler(1), AcquireCall(Shared, true)] + [ReconcileAnswer(1, true), ReconcileClear(1)]

  lemma AcquireMarked() returns (s: Session)
    ensures Run(Abandoned, [DetachHandler(1), AcquireCall(Shared, true)], s)
    ensures s == HalfRepaired.(
      waiting := HalfRepaired.waiting.(reconciles := map[1 := Reconcile(2, ReconcilePending(true))]),
      view := View(true, Some(Snap)), cleanup := true, repair := Dirty)
  {
    s := Next(Next(Abandoned, DetachHandler(1)), AcquireCall(Shared, true));
    RunTwo(Abandoned, DetachHandler(1), AcquireCall(Shared, true));
  }

  lemma ReachHalfRepaired()
    ensures Run(Abandoned, Repairing, HalfRepaired)
  {
    var s := AcquireMarked();
    assert Next(Next(s, ReconcileAnswer(1, true)), ReconcileClear(1)) == HalfRepaired;
    RunTwo(s, ReconcileAnswer(1, true), ReconcileClear(1));
    RunAppend(Abandoned, [DetachHandler(1), AcquireCall(Shared, true)], s,
      [ReconcileAnswer(1, true), ReconcileClear(1)], HalfRepaired);
  }

  lemma AcquireUnrepaired() returns (s: Session)
    ensures Run(HalfRepaired, [SnapshotSeen(Later), AcquireCall(Shared, true)], s)
    ensures s.repair == Detached && IsActive(s, 3)
  {
    s := Next(Next(HalfRepaired, SnapshotSeen(Later)), AcquireCall(Shared, true));
    RunTwo(HalfRepaired, SnapshotSeen(Later), AcquireCall(Shared, true));
  }

  /** In this run the event makes the session look attached, and the next acquire gets an active handle without an
      attach. */
  lemma SnapshotLeavesRepairHalfDone() returns (s: Session)
    ensures Run(Initial, Abandoning + (Repairing + [SnapshotSeen(Later), AcquireCall(Shared, true)]), s)
    ensures s.repair == Detached && IsActive(s, 3)
  {
    s := AcquireUnrepaired();
    ReachAbandoned();
    ReachHalfRepaired();
    Chain(Initial, Abandoning, Abandoned, Repairing, HalfRepaired, [SnapshotSeen(Later), AcquireCall(Shared, true)], s);
  }
}
