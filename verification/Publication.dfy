/** Refreshing the model catalog of one provider: generations, abort signals, and the chain of publications. */
module Publication {
  import opened Basics

  /** What a publication does to the store: nothing, remove the catalog, or write one. */
  datatype Persist = Untouched | Remove | Write(catalog: int)

  /** Waiting for the one before it; its store operation started, which may have taken effect; or settled. */
  datatype Status = Waiting | Storing(effected: bool) | Published | Refused | Broken

  datatype Pub = Pub(generation: nat, persist: Persist, update: Option<int>, previous: Option<nat>, status: Status) {
    predicate Settled() {
      !status.Waiting? && !status.Storing?
    }
  }

  /** A provider: its generation and controller, the aborted generations, its publications with the last one in the
      chain, the catalogs in the store and in memory, and by generation the store operations started, those that took
      effect, and the updates in memory. */
  datatype Provider = Provider(
    generation: nat, controller: Option<nat>, aborted: set<nat>, pubs: seq<Pub>, chain: Option<nat>,
    store: Option<int>, memory: Option<int>, starts: seq<nat>, writes: seq<nat>, updates: seq<nat>)

  const Untold := Provider(0, None, {}, [], None, None, None, [], [], [])

  datatype Event =
    | Supersede
    | Begin
    | Finish(refresh: nat)
    | Abort(refresh: nat)
    | Publish(refresh: nat, persist: Persist, update: Option<int>)
    | Start(k: nat)
    | Effect(k: nat)
    | Settle(k: nat, ok: bool)
    | CleanUp(k: nat)

  // ---- The steps ----

  function Superseded(p: Provider): Provider {
    p.(generation := p.generation + 1, controller := None,
       aborted := p.aborted + (if p.controller.Some? then {p.controller.value} else {}))
  }

  function Begun(p: Provider): Provider {
    Superseded(p).(controller := Some(p.generation + 1))
  }

  predicate Stale(p: Provider, refresh: nat) {
    refresh in p.aborted || p.generation != refresh
  }

  function Enqueued(p: Provider, refresh: nat, persist: Persist, update: Option<int>): Provider {
    p.(pubs := p.pubs + [Pub(refresh, persist, update, p.chain, Waiting)], chain := Some(|p.pubs|))
  }

  function SetStatus(p: Provider, k: nat, status: Status): Provider
    requires k < |p.pubs|
  {
    p.(pubs := p.pubs[k := p.pubs[k].(status := status)])
  }

  /** The check after the store operation, and the update. */
  function Completed(p: Provider, k: nat): Provider
    requires k < |p.pubs|
  {
    var pub := p.pubs[k];
    if Stale(p, pub.generation) then SetStatus(p, k, Refused)
    else
      SetStatus(p, k, Published).(
        memory := if pub.update.Some? then pub.update else p.memory, updates := p.updates + [pub.generation])
  }

  function Started(p: Provider, k: nat): Provider
    requires k < |p.pubs|
  {
    var pub := p.pubs[k];
    if Stale(p, pub.generation) then SetStatus(p, k, Refused)
    else if pub.persist.Untouched? then Completed(p, k)
    else SetStatus(p, k, Storing(false)).(starts := p.starts + [pub.generation])
  }

  function Stored(persist: Persist, store: Option<int>): Option<int> {
    match persist
    case Untouched => store
    case Remove => None
    case Write(catalog) => Some(catalog)
  }

  function Effected(p: Provider, k: nat): Provider
    requires k < |p.pubs|
  {
    SetStatus(p, k, Storing(true)).(
      store := Stored(p.pubs[k].persist, p.store), writes := p.writes + [p.pubs[k].generation])
  }

  /** A publication waits for the one that was last in the chain when it was made; a store operation that succeeds has
      taken effect, one that fails may have; the tail of a publication is removed once it has settled. */
  predicate Enabled(p: Provider, e: Event) {
    match e
    case Supersede => true
    case Begin => true
    case Finish(_) => true
    case Abort(refresh) => refresh <= p.generation
    case Publish(refresh, _, _) => 0 < refresh <= p.generation
    case Start(k) =>
      k < |p.pubs| && p.pubs[k].status.Waiting?
      && (p.pubs[k].previous.Some? ==>
        p.pubs[k].previous.value < |p.pubs| && p.pubs[p.pubs[k].previous.value].Settled())
    case Effect(k) => k < |p.pubs| && p.pubs[k].status == Storing(false)
    case Settle(k, ok) => k < |p.pubs| && p.pubs[k].status.Storing? && (ok ==> p.pubs[k].status.effected)
    case CleanUp(k) => k < |p.pubs| && p.pubs[k].Settled()
  }

  function Next(p: Provider, e: Event): Provider
    requires Enabled(p, e)
  {
    match e
    case Supersede => Superseded(p)
    case Begin => Begun(p)
    case Finish(refresh) => if p.controller == Some(refresh) then p.(controller := None) else p
    case Abort(refresh) => p.(aborted := p.aborted + {refresh})
    case Publish(refresh, persist, update) => Enqueued(p, refresh, persist, update)
    case Start(k) => Started(p, k)
    case Effect(k) => Effected(p, k)
    case Settle(k, ok) => if ok then Completed(p, k) else SetStatus(p, k, Broken)
    case CleanUp(k) => if p.chain == Some(k) then p.(chain := None) else p
  }

  ghost predicate Run(from: Provider, events: seq<Event>, to: Provider)
    decreases |events|
  {
    if events == [] then to == from
    else Enabled(from, events[0]) && Run(Next(from, events[0]), events[1..], to)
  }

  // ---- The line of publications ----

  /** Only the chain orders publications: one that has started has only settled ones before it; one that waits does so
      for the one before it, unless all before it have settled; and the chain holds the last one unless all have
      settled. */
  ghost predicate InLine(pubs: seq<Pub>, chain: Option<nat>) {
    && (forall k, j | 0 <= j < k < |pubs| && !pubs[k].status.Waiting? :: pubs[j].Settled())
    && (forall k, j | 0 <= j < k < |pubs| && pubs[k].previous != Some(k - 1) :: pubs[j].Settled())
    && (chain.Some? ==> chain.value + 1 == |pubs|)
    && (chain.None? ==> forall j | 0 <= j < |pubs| :: pubs[j].Settled())
  }

  lemma EnqueuedInLine(pubs: seq<Pub>, chain: Option<nat>, pub: Pub)
    requires InLine(pubs, chain) && pub.status.Waiting? && pub.previous == chain
    ensures InLine(pubs + [pub], Some(|pubs|))
  {
    var more := pubs + [pub];
    assert forall j | 0 <= j < |pubs| :: more[j] == pubs[j];
  }

  /** A publication that may go on has only settled ones before it, so whatever becomes of it keeps the line. */
  lemma ChangedInLine(pubs: seq<Pub>, chain: Option<nat>, k: nat, status: Status)
    requires InLine(pubs, chain) && k < |pubs| && !status.Waiting? && !pubs[k].Settled()
    requires pubs[k].status.Storing? || pubs[k].previous.None? ||
      (pubs[k].previous.value < |pubs| && pubs[pubs[k].previous.value].Settled())
    ensures InLine(pubs[k := pubs[k].(status := status)], chain)
  {
    assert forall j | 0 <= j < k :: pubs[j].Settled() by {
      if pubs[k].status.Waiting? && pubs[k].previous == Some(k - 1) {
        assert pubs[k - 1].Settled();
        assert forall j | 0 <= j < k - 1 :: pubs[j].Settled();
      }
    }
    var after := pubs[k := pubs[k].(status := status)];
    assert forall i | 0 <= i < |pubs| && i != k :: after[i] == pubs[i];
  }

  lemma StepInLine(p: Provider, e: Event)
    requires Enabled(p, e) && InLine(p.pubs, p.chain)
    ensures InLine(Next(p, e).pubs, Next(p, e).chain)
  {
    match e
    case Publish(refresh, persist, update) =>
      EnqueuedInLine(p.pubs, p.chain, Pub(refresh, persist, update, p.chain, Waiting));
    case Start(k) => ChangedInLine(p.pubs, p.chain, k, Next(p, e).pubs[k].status);
    case Effect(k) => ChangedInLine(p.pubs, p.chain, k, Storing(true));
    case Settle(k, _) => ChangedInLine(p.pubs, p.chain, k, Next(p, e).pubs[k].status);
    case CleanUp(k) =>
      if p.chain == Some(k) {
        LastSettled(p.pubs, k);
      }
    case _ =>
  }

  lemma LastSettled(pubs: seq<Pub>, k: nat)
    requires InLine(pubs, Some(k)) && pubs[k].Settled()
    ensures InLine(pubs, None)
  {
    assert !pubs[k].status.Waiting?;
    assert forall j | 0 <= j < k :: pubs[j].Settled();
  }

  /** Publications never overlap: at most one store operation is under way. */
  lemma OneAtATime(p: Provider, j: nat, k: nat)
    requires InLine(p.pubs, p.chain) && j < |p.pubs| && k < |p.pubs|
    requires p.pubs[j].status.Storing? && p.pubs[k].status.Storing?
    ensures j == k
  {
    assert !p.pubs[j].status.Waiting? && !p.pubs[k].status.Waiting?;
    assert !p.pubs[j].Settled() && !p.pubs[k].Settled();
  }

  // ---- The order of generations ----

  predicate Sorted(s: seq<nat>) {
    forall i, j | 0 <= i < j < |s| :: s[i] <= s[j]
  }

  /** In order, and none later than the bound. */
  predicate Through(s: seq<nat>, bound: nat) {
    Sorted(s) && forall g | g in s :: g <= bound
  }

  lemma ThroughSnoc(s: seq<nat>, g: nat)
    requires Through(s, g)
    ensures Through(s + [g], g)
  {
    assert forall i | 0 <= i < |s| :: (s + [g])[i] == s[i] && s[i] in s;
  }

  lemma ThroughLater(s: seq<nat>, g: nat, bound: nat)
    requires Through(s, g) && g <= bound
    ensures Through(s, bound)
  {
  }

  function Last(s: seq<nat>): nat {
    if s == [] then 0 else s[|s| - 1]
  }

  /** Store operations start, and updates happen, in the order of generations up to the current one; the operations that
      took effect are no later than the last one started, and the one under way is the last one started. */
  ghost predicate Logged(p: Provider) {
    && Through(p.starts, p.generation) && Through(p.updates, p.generation)
    && Through(p.writes, Last(p.starts)) && Last(p.starts) <= p.generation
    && forall k | 0 <= k < |p.pubs| && p.pubs[k].status.Storing? :: p.pubs[k].generation == Last(p.starts)
  }

  lemma StatusLogged(p: Provider, k: nat, status: Status)
    requires Logged(p) && k < |p.pubs| && (status.Storing? ==> p.pubs[k].status.Storing?)
    ensures Logged(SetStatus(p, k, status))
  {
    var after := SetStatus(p, k, status);
    forall i | 0 <= i < |p.pubs| && after.pubs[i].status.Storing?
      ensures after.pubs[i].generation == Last(p.starts)
    {
      assert p.pubs[i].status.Storing? && after.pubs[i].generation == p.pubs[i].generation;
    }
  }

  lemma CompletedLogged(p: Provider, k: nat)
    requires Logged(p) && k < |p.pubs|
    ensures Logged(Completed(p, k))
  {
    var pub := p.pubs[k];
    if Stale(p, pub.generation) {
      StatusLogged(p, k, Refused);
    } else {
      StatusLogged(p, k, Published);
      ThroughSnoc(p.updates, p.generation);
    }
  }

  /** A store operation starts only when no other is under way. */
  lemma StartedLogged(p: Provider, k: nat)
    requires Logged(p) && Enabled(p, Start(k)) && InLine(p.pubs, p.chain)
    ensures Logged(Started(p, k))
  {
    var pub := p.pubs[k];
    if Stale(p, pub.generation) {
      StatusLogged(p, k, Refused);
    } else if pub.persist.Untouched? {
      CompletedLogged(p, k);
    } else {
      ThroughSnoc(p.starts, p.generation);
      ThroughLater(p.writes, Last(p.starts), p.generation);
      ChangedInLine(p.pubs, p.chain, k, Storing(false));
      var after := Started(p, k);
      assert Last(after.starts) == p.generation;
      forall i | 0 <= i < |p.pubs| && after.pubs[i].status.Storing?
        ensures after.pubs[i].generation == p.generation
      {
        OneAtATime(after, i, k);
      }
    }
  }

  lemma EffectedLogged(p: Provider, k: nat)
    requires Logged(p) && Enabled(p, Effect(k))
    ensures Logged(Effected(p, k))
  {
    StatusLogged(p, k, Storing(true));
    assert p.pubs[k].generation == Last(p.starts);
    ThroughSnoc(p.writes, Last(p.starts));
  }

  lemma SupersededLogged(p: Provider)
    requires Logged(p)
    ensures Logged(Superseded(p)) && Logged(Begun(p))
  {
    ThroughLater(p.starts, p.generation, p.generation + 1);
    ThroughLater(p.updates, p.generation, p.generation + 1);
  }

  lemma EnqueuedLogged(p: Provider, refresh: nat, persist: Persist, update: Option<int>)
    requires Logged(p)
    ensures Logged(Enqueued(p, refresh, persist, update))
  {
    var after := Enqueued(p, refresh, persist, update);
    forall i | 0 <= i < |after.pubs| && after.pubs[i].status.Storing?
      ensures after.pubs[i].generation == Last(p.starts)
    {
      assert after.pubs[i] == p.pubs[i];
    }
  }

  lemma StepLogged(p: Provider, e: Event)
    requires Enabled(p, e) && InLine(p.pubs, p.chain) && Logged(p)
    ensures Logged(Next(p, e))
  {
    match e
    case Supersede => SupersededLogged(p);
    case Begin => SupersededLogged(p);
    case Finish(_) =>
    case Abort(_) =>
    case Publish(refresh, persist, update) => EnqueuedLogged(p, refresh, persist, update);
    case Start(k) => StartedLogged(p, k);
    case Effect(k) => EffectedLogged(p, k);
    case Settle(k, ok) =>
      if ok {
        CompletedLogged(p, k);
      } else {
        StatusLogged(p, k, Broken);
      }
    case CleanUp(_) =>
  }

  // ---- The store shows what is being published ----

  ghost predicate Shown(pubs: seq<Pub>, store: Option<int>) {
    forall k | 0 <= k < |pubs| && pubs[k].status.Storing? ::
      !pubs[k].persist.Untouched? && (pubs[k].status.effected ==> store == Stored(pubs[k].persist, store))
  }

  lemma ChangedShown(pubs: seq<Pub>, store: Option<int>, k: nat, status: Status)
    requires Shown(pubs, store) && k < |pubs| && (status.Storing? ==> !status.effected && !pubs[k].persist.Untouched?)
    ensures Shown(pubs[k := pubs[k].(status := status)], store)
  {
    var after := pubs[k := pubs[k].(status := status)];
    assert forall i | 0 <= i < |pubs| && i != k :: after[i] == pubs[i];
  }

  lemma StepShown(p: Provider, e: Event)
    requires Enabled(p, e) && InLine(p.pubs, p.chain) && Shown(p.pubs, p.store)
    ensures Shown(Next(p, e).pubs, Next(p, e).store)
  {
    match e
    case Publish(refresh, persist, update) =>
      assert forall i | 0 <= i < |p.pubs| :: Next(p, e).pubs[i] == p.pubs[i];
    case Start(k) => ChangedShown(p.pubs, p.store, k, Next(p, e).pubs[k].status);
    case Effect(k) => EffectedShown(p, k);
    case Settle(k, _) => ChangedShown(p.pubs, p.store, k, Next(p, e).pubs[k].status);
    case _ =>
  }

  lemma EffectedShown(p: Provider, k: nat)
    requires Enabled(p, Effect(k)) && InLine(p.pubs, p.chain) && Shown(p.pubs, p.store)
    ensures Shown(Effected(p, k).pubs, Effected(p, k).store)
  {
    var after := Effected(p, k);
    forall i | 0 <= i < |after.pubs| && after.pubs[i].status.Storing?
      ensures i == k
    {
      if i != k {
        assert p.pubs[i].status.Storing?;
        OneAtATime(p, i, k);
      }
    }
  }

  // ---- Whole runs ----

  ghost predicate Orderly(p: Provider) {
    InLine(p.pubs, p.chain) && Logged(p) && Shown(p.pubs, p.store)
  }

  lemma {:induction false} RunIsOrderly(from: Provider, events: seq<Event>, to: Provider)
    requires Orderly(from) && Run(from, events, to)
    ensures Orderly(to)
    decreases |events|
  {
    if events != [] {
      StepInLine(from, events[0]);
      StepLogged(from, events[0]);
      StepShown(from, events[0]);
      RunIsOrderly(Next(from, events[0]), events[1..], to);
    }
  }

  lemma UntoldIsOrderly()
    ensures Orderly(Untold)
  {
  }

  /** What was added at the end of a log. */
  function Since(before: seq<nat>, after: seq<nat>): seq<nat> {
    if before <= after then after[|before|..] else after
  }

  lemma SinceThrough(a: seq<nat>, b: seq<nat>, c: seq<nat>, bound: nat)
    requires a <= b <= c
    requires (forall g | g in Since(a, b) :: g >= bound) && (forall g | g in Since(b, c) :: g >= bound)
    ensures forall g | g in Since(a, c) :: g >= bound
  {
    assert Since(a, c) == Since(a, b) + Since(b, c);
  }

  /** A step lets a store operation start, and updates memory, only for the generation current at that instant and not
      aborted; and memory changes only with an update. */
  lemma OnlyTheCurrentRefreshPublishes(p: Provider, e: Event)
    requires Enabled(p, e)
    ensures var q := Next(p, e);
      && p.starts <= q.starts && p.updates <= q.updates
      && (forall g | g in Since(p.starts, q.starts) :: g == p.generation && g !in p.aborted)
      && (forall g | g in Since(p.updates, q.updates) :: g == p.generation && g !in p.aborted)
      && (q.memory != p.memory ==> q.updates == p.updates + [p.generation])
  {
  }

  /** From any moment on, whatever the superseded refreshes still publish, no store operation starts and no update
      happens for a generation before the one current at that moment. */
  lemma {:induction false} SupersededPublishNothing(from: Provider, events: seq<Event>, to: Provider)
    requires Run(from, events, to)
    ensures from.generation <= to.generation && from.starts <= to.starts && from.updates <= to.updates
    ensures forall g | g in Since(from.starts, to.starts) :: g >= from.generation
    ensures forall g | g in Since(from.updates, to.updates) :: g >= from.generation
    decreases |events|
  {
    if events != [] {
      var p := Next(from, events[0]);
      OnlyTheCurrentRefreshPublishes(from, events[0]);
      SupersededPublishNothing(p, events[1..], to);
      SinceThrough(from.starts, p.starts, to.starts, from.generation);
      SinceThrough(from.updates, p.updates, to.updates, from.generation);
    }
  }

  /** The catalogs reach the store in the order of their generations: the store never goes back to an older refresh. */
  lemma StoreNeverGoesBack(events: seq<Event>, p: Provider, i: nat, j: nat)
    requires Run(Untold, events, p) && i < j < |p.writes|
    ensures p.writes[i] <= p.writes[j]
  {
    UntoldIsOrderly();
    RunIsOrderly(Untold, events, p);
  }

  /** When a publication with a store operation completes, store and memory agree on it. */
  lemma PublishedTogether(events: seq<Event>, p: Provider, k: nat)
    requires Run(Untold, events, p) && Enabled(p, Settle(k, true)) && Next(p, Settle(k, true)).pubs[k].status.Published?
    ensures p.store == Stored(p.pubs[k].persist, None)
    ensures p.pubs[k].update.Some? ==> Next(p, Settle(k, true)).memory == p.pubs[k].update
  {
    UntoldIsOrderly();
    RunIsOrderly(Untold, events, p);
  }
}
