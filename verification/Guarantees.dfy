/** Ownership over whole runs, and what an abort leaves behind. */
module Guarantees {
  import opened Lists
  import opened Registry
  import opened Runtime
  import opened Teardown
  import opened Currency
  import opened Settling
  import opened Runs
  import opened Ownership
  import opened OwnedActions
  import opened OwnedRuns
  import opened Shutdown

  /** The state after a run whose host catches every exception and goes on. */
  function After(rounds: nat, s: State, run: seq<Call>): State
    decreases |run|
  {
    if run == [] then s else After(rounds, Host(run[0].plugins, rounds, s, run[0].step).state, run[1..])
  }

  /** The registration is made and announced; its undo is not filed yet. */
  function Published(s: State, u: Uid, r: RealmId, name: Name): State {
    Notify(s.(store := Register(s.store, Slot(OwnerOf(s.store.realms, r, name), name), u)), name)
  }

  /** The registration a provide makes. */
  function NewImpl(s: State, u: Uid, r: RealmId, name: Name): Impl {
    Impl(Slot(OwnerOf(s.store.realms, r, name), name), u, s.store.serial + 1)
  }

  predicate Accepted(s: State, u: Uid, r: RealmId, name: Name) {
    && Acting(s, u) && r < |s.store.realms|
    && Slot(OwnerOf(s.store.realms, r, name), name) !in s.store.impls
  }

  /** The settle a provide leads to, if any, returns and leaves the provider in the load it was in. */
  ghost predicate Smooth(w: Behaviour, rounds: nat, s: State, u: Uid, r: RealmId, name: Name) {
    Accepted(s, u, r, name) && Woken(s, s.mounted, name) != [] ==>
      var t := Settle(w, Published(s, u, r, name), rounds);
      t.Done? && u < |t.state.fibers| && t.state.fibers[u].phase == Active && !StartedSince(|s.log|, t.state.log, u)
  }

  /** The one host call ownership does not survive in general is a provide: its dependents settle before
      its undo is filed, so they must settle smoothly. */
  ghost predicate SmoothCall(w: Behaviour, rounds: nat, s: State, h: HostStep) {
    h.HostProvide? ==> Smooth(w, rounds, s, h.who, h.realm, h.name)
  }

  ghost predicate Orderly(rounds: nat, s: State, run: seq<Call>)
    decreases |run|
  {
    run != [] ==>
      && SmoothCall(run[0].plugins, rounds, s, run[0].step)
      && Orderly(rounds, Host(run[0].plugins, rounds, s, run[0].step).state, run[1..])
  }

  ghost predicate Healthy(s: State) {
    Own(s, {}) && exists x :: Steady(s, x, [])
  }

  /** Every live registration belongs to a mounted ACTIVE fiber that holds its undo; fibers in any
      other phase own no service, no child and no effect. */
  ghost predicate WellOwned(s: State) {
    && (forall slot :: slot in s.store.impls ==>
         var i := s.store.impls[slot];
         i.owner < |s.fibers| && i.owner in s.mounted && s.fibers[i.owner].phase == Active
           && Undo(i) in s.fibers[i.owner].effects)
    && (forall u: Uid :: u < |s.fibers| && s.fibers[u].phase != Active ==> Bare(s.fibers[u]))
  }

  lemma {:induction false} HealthyWellOwned(s: State)
    requires Healthy(s)
    ensures WellOwned(s) && LogCalm(s)
  {
    OwnersHoldEffects(s);
    forall slot | slot in s.store.impls
      ensures Undo(s.store.impls[slot]) in s.fibers[s.store.impls[slot].owner].effects
    {
      assert Files(s.fibers[s.store.impls[slot].owner], s.store.impls[slot]);
    }
  }

  // ---- a provide from outside a settle ----------------------------------------------------------

  lemma {:induction false} PublishedKept(s: State, u: Uid, r: RealmId, name: Name)
    requires Kept(s) && Accepted(s, u, r, name)
    ensures Kept(Published(s, u, r, name), {NewImpl(s, u, r, name)})
  {
    var p := Published(s, u, r, name);
    var i := NewImpl(s, u, r, name);
    TreeSame(s, p);
    forall v: Uid | v < |p.fibers|
      ensures EffectsOk(p.store, v, p.fibers[v].effects) && Undo(i) !in p.fibers[v].effects
    {
      assert EffectsOk(s.store, v, s.fibers[v].effects);
    }
    forall slot | slot in p.store.impls
      ensures p.store.impls[slot] == i || Files(p.fibers[p.store.impls[slot].owner], p.store.impls[slot])
    {
      if slot != i.slot { assert Files(s.fibers[s.store.impls[slot].owner], s.store.impls[slot]); }
    }
  }

  /** The published registration is spare until its undo is filed. */
  lemma {:induction false} PublishedOwned(s: State, u: Uid, r: RealmId, name: Name, x: set<Uid>)
    requires Own(s, {}) && Steady(s, x, []) && Accepted(s, u, r, name)
    ensures var p := Published(s, u, r, name);
      && Owned(|s.log|, p, {NewImpl(s, u, r, name)}) && Held(p, {NewImpl(s, u, r, name)}) && InStep(p, {})
      && Steady(p, x, [])
  {
    hide Sound, Due, Kept, InStep;
    var p := Published(s, u, r, name);
    RegisterCore(s, NewImpl(s, u, r, name).slot, u, {}, x, []);
    CoreBoundKnown(s, {}, x, []);
    PublishedKept(s, u, r, name);
    CarriesInStep(s, p, {});
  }

  /** Filing the undo of the one spare registration, with its owner still ACTIVE. */
  lemma {:induction false} FiledOwn(s: State, u: Uid, i: Impl)
    requires Own(s, {}, {i}) && u < |s.fibers| && i.owner == u && s.fibers[u].phase == Active
    ensures Own(FileProvide(s, u, i), {})
  {
    var r := FileProvide(s, u, i);
    TreeSame(s, r);
    FiledKept(s, u, i);
    hide Filed, Tree;
    CarriesInStep(s, r, {});
  }

  lemma {:induction false} FiledKept(s: State, u: Uid, i: Impl)
    requires Filed(s, {i}) && u < |s.fibers| && i.owner == u
    ensures Filed(FileProvide(s, u, i))
  {
    var r := FileProvide(s, u, i);
    assert i in {i} && IsLive(s.store, i) && Unfiled(s, i);
    assert r.fibers[u].effects[|s.fibers[u].effects|] == Undo(i);
    forall v: Uid | v < |r.fibers| ensures EffectsOk(r.store, v, r.fibers[v].effects) {
      assert EffectsOk(s.store, v, s.fibers[v].effects);
    }
    forall slot | slot in r.store.impls ensures Files(r.fibers[r.store.impls[slot].owner], r.store.impls[slot]) {
      assert s.store.impls[slot] == i || Files(s.fibers[s.store.impls[slot].owner], s.store.impls[slot]);
    }
  }

  lemma {:induction false} NotLost(since: nat, s: State, u: Uid, i: Impl)
    requires i.owner == u && u < |s.fibers| && s.fibers[u].phase == Active && !StartedSince(since, s.log, u)
    ensures !Lost(since, s, {i})
  {
  }

  lemma {:induction false} ProvideSmoothOwn(
    w: Behaviour, rounds: nat, s: State, u: Uid, r: RealmId, name: Name, x: set<Uid>)
    requires Own(s, {}) && Steady(s, x, []) && Accepted(s, u, r, name) && Smooth(w, rounds, s, u, r, name)
    ensures Own(ProvideAndSettle(w, rounds, s, u, r, name).state, {})
  {
    hide Kept, InStep, Steady, Settle, Lost, StartedSince;
    var p := Published(s, u, r, name);
    var i := NewImpl(s, u, r, name);
    PublishedOwned(s, u, r, name, x);
    var t := if Woken(s, s.mounted, name) == [] then Done(p) else Settle(w, p, rounds);
    SettleOwned(|s.log|, w, p, rounds, x, {i});
    if Woken(s, s.mounted, name) != [] { NotLost(|s.log|, t.state, u, i); }
    FiledOwn(t.state, u, i);
  }

  lemma {:induction false} HostOwn(w: Behaviour, rounds: nat, s: State, h: HostStep, x: set<Uid>)
    requires Own(s, {}) && Steady(s, x, []) && SmoothCall(w, rounds, s, h)
    ensures Own(Host(w, rounds, s, h).state, {})
  {
    hide Own, Rest, Sound, Due;
    CoreBoundKnown(s, {}, x, []);
    match h {
      case HostMount(entry, d, isolated) => MountOwn(s, None, 0, entry, d, isolated, {});
      case HostSettle => SettleOwn(w, s, rounds, x);
      case HostRestart(u) =>
        RestartOwn(s, u, {});
        RestartStepSteady(s, u, x);
        SettleOwn(w, RestartStep(s, u), rounds, x);
      case HostEnqueue(u) => OwnIgnoresQueue(s, s.pending + [u]);
      case HostProvide(u, r, name) =>
        if Accepted(s, u, r, name) { ProvideSmoothOwn(w, rounds, s, u, r, name, x); }
      case HostWithdraw(u, k) =>
        if Acting(s, u) && k < |s.fibers[u].effects| {
          WithdrawOwn(s, u, k, {});
          WithdrawSteady(s, u, k, x);
          SettleOwn(w, WithdrawStep(s, u, k), rounds, x);
        }
      case HostFile(u, tag) => if Acting(s, u) { FileOwn(s, u, tag, {}); }
      case HostPlugin(u, r, entry, d, isolated) =>
        if Acting(s, u) && r < |s.store.realms| {
          MountOwn(s, Some(u), r, entry, d, isolated, {});
          MountSteady(s, Some(u), r, entry, d, isolated, x);
          SettleOwn(w, MountStep(s, Some(u), r, entry, d, isolated).state, rounds, x);
        }
    }
  }

  lemma {:induction false} ResumableSteady(r: Result, x: set<Uid>)
    requires Resumable(r, x, [])
    ensures exists y :: Steady(r.state, y, [])
  {
    if r.Aborted? {
      var u: Uid :| u < |r.state.fibers| && Steady(r.state, x + {u}, []);
    } else {
      assert Steady(r.state, x, []);
    }
  }

  lemma {:induction false} AfterHealthy(rounds: nat, s: State, run: seq<Call>)
    requires Healthy(s) && Orderly(rounds, s, run)
    ensures Healthy(After(rounds, s, run))
    decreases |run|
  {
    if run != [] {
      var x :| Steady(s, x, []);
      var t := Host(run[0].plugins, rounds, s, run[0].step);
      HostOwn(run[0].plugins, rounds, s, run[0].step, x);
      HostSteady(run[0].plugins, rounds, s, run[0].step, x);
      ResumableSteady(t, x);
      AfterHealthy(rounds, t.state, run[1..]);
    }
  }

  lemma {:induction false} EmptyHealthy()
    ensures Healthy(EMPTY)
  {
    EmptySteady();
    assert Steady(EMPTY, {}, []);
  }

  /** Main result: over every run and every plugin behaviour in every call, through aborts and divergence,
      ownership is never lost, no apply ever started beside a half-loaded neighbour, and disposing
      the root leaves no registration, no effect and no mounted fiber. */
  lemma {:induction false} RunsStayOwned(rounds: nat, run: seq<Call>)
    requires Orderly(rounds, EMPTY, run)
    ensures var s := After(rounds, EMPTY, run);
      && WellOwned(s) && LogCalm(s)
      && RootDispose(s).mounted == [] && RootDispose(s).store.impls == map[]
      && forall v: Uid :: v < |RootDispose(s).fibers| ==>
        RootDispose(s).fibers[v].phase == Disposed && Bare(RootDispose(s).fibers[v])
  {
    EmptyHealthy();
    AfterHealthy(rounds, EMPTY, run);
    var s := After(rounds, EMPTY, run);
    HealthyWellOwned(s);
    var x :| Steady(s, x, []);
    DisposeLeavesNothing(s, x);
  }

  lemma {:induction false} ExecIsAfter(rounds: nat, s: State, run: seq<Call>)
    requires Exec(rounds, s, run).Done?
    ensures Exec(rounds, s, run).state == After(rounds, s, run)
    decreases |run|
  {
    if run != [] { ExecIsAfter(rounds, Host(run[0].plugins, rounds, s, run[0].step).state, run[1..]); }
  }

  /** Main result: after any orderly abort-free run that ended quiescent, teardown is consumers
      first: no disposer of an active fiber runs after a service it resolves is gone. */
  lemma {:induction false} RunsTearDownConsumersFirst(rounds: nat, run: seq<Call>)
    requires Orderly(rounds, EMPTY, run) && Exec(rounds, EMPTY, run).Done?
    requires Exec(rounds, EMPTY, run).state.pending == []
    ensures var s := Exec(rounds, EMPTY, run).state;
      forall k :: |s.log| <= k < |RootDispose(s).log| ==> StillServed(s, RootDispose(s).log[k])
  {
    EmptyHealthy();
    EmptySteady();
    AfterHealthy(rounds, EMPTY, run);
    ExecIsAfter(rounds, EMPTY, run);
    ExecSteady(rounds, EMPTY, run);
    ConsumersFirst(Exec(rounds, EMPTY, run).state);
  }

  // ---- aborts ----------------------------------------------------------------------------------

  /** The queue only grows while one fiber is refreshed. */
  lemma {:induction false} ActQueue(s: State, u: Uid, a: Action)
    requires u < |s.fibers|
    ensures s.pending <= Act(s, u, a).state.pending
  {
    match a {
      case Drop(k) =>
        if k < |s.fibers[u].children| && u < s.fibers[u].children[k] < |s.fibers| {
          DisposeWanes(s, s.fibers[u].children[k]);
        }
      case _ =>
    }
  }

  lemma {:induction false} RunQueue(s: State, u: Uid, actions: seq<Action>)
    requires u < |s.fibers|
    ensures s.pending <= RunActions(s, u, actions).state.pending
    decreases |actions|
  {
    if actions != [] {
      ActQueue(s, u, actions[0]);
      ActGrows(s, u, actions[0]);
      var t := Act(s, u, actions[0]);
      if t.Ok? { RunQueue(t.state, u, actions[1..]); }
    }
  }

  lemma {:induction false} EndLoadQueue(s: State, u: Uid, ending: Ending)
    requires u < |s.fibers|
    ensures s.pending <= EndLoad(s, u, ending).state.pending
  {
    DiscardWanes(s, u);
  }

  lemma {:induction false} LoadQueue(w: Behaviour, s: State, u: Uid)
    requires u < |s.fibers|
    ensures s.pending <= Load(w, s, u).state.pending
  {
    var s1 := SetPhase(s, u, Loading);
    var script := w(u, s1);
    if script.config == Aborts {
      DiscardWanes(s1, u);
    } else if script.config == Returns {
      var b := BeginApply(s1, u);
      RunQueue(b, u, script.actions);
      var t := RunActions(b, u, script.actions);
      DiscardWanes(t.state, u);
      if t.Ok? { EndLoadQueue(t.state, u, script.ending); }
    }
  }

  lemma {:induction false} FollowQueue(w: Behaviour, s: State, u: Uid)
    requires u < |s.fibers|
    ensures s.pending <= Follow(w, s, u).state.pending
  {
    var s1 := SetEpoch(s, u, ComputeEpoch(s, u), Bindings(s, u));
    UnloadWanes(s1, u);
    LoadQueue(w, s1, u);
    LoadQueue(w, Unload(s1, u), u);
  }

  lemma {:induction false} RefreshQueue(w: Behaviour, s: State, u: Uid)
    requires u < |s.fibers|
    ensures s.pending <= Refresh(w, s, u).state.pending
  {
    if s.fibers[u].phase != Disposed {
      if s.fibers[u].restart {
        UnloadWanes(Put(s, u, s.fibers[u].(restart := false)), u);
        FollowQueue(w, TakeRestart(s, u), u);
      } else {
        FollowQueue(w, s, u);
      }
    }
  }

  /** An abort at position k of a batch: those before it were refreshed, those behind it are still
      queued, in order and ahead of everything woken in this round. */
  ghost predicate StoppedAt(w: Behaviour, s: State, batch: seq<Uid>, k: nat, before: State) {
    && k < |batch| && Uids(s, batch[..k]) && batch[k] < |before.fibers|
    && RunBatch(w, s, batch[..k]) == Done(before)
    && Refresh(w, before, batch[k]).Aborted?
    && Uids(s, batch)
    && before.pending <= Refresh(w, before, batch[k]).state.pending
    && RunBatch(w, s, batch) ==
       Aborted(Refresh(w, before, batch[k]).state.(
         pending := batch[k + 1..] + Refresh(w, before, batch[k]).state.pending))
  }

  lemma {:induction false} StoppedLater(w: Behaviour, s: State, batch: seq<Uid>, k: nat, before: State)
    requires Uids(s, batch) && batch != [] && batch[0] < |s.fibers| && Refresh(w, s, batch[0]).Done?
    requires Uids(Refresh(w, s, batch[0]).state, batch[1..])
    requires StoppedAt(w, Refresh(w, s, batch[0]).state, batch[1..], k, before)
    ensures StoppedAt(w, s, batch, k + 1, before)
  {
    var t := Refresh(w, s, batch[0]).state;
    var head := batch[..k + 1];
    assert head[0] == batch[0] && head[1..] == batch[1..][..k];
    assert batch[k + 2..] == batch[1..][k + 1..];
    assert Uids(s, head) by { assert forall v :: v in head ==> v in batch; }
    assert RunBatch(w, s, head) == RunBatch(w, t, head[1..]);
  }

  lemma {:induction false} AbortKeepsQueue(w: Behaviour, s: State, batch: seq<Uid>)
    requires Uids(s, batch) && RunBatch(w, s, batch).Aborted?
    ensures exists k: nat, before: State :: StoppedAt(w, s, batch, k, before)
    decreases |batch|
  {
    if batch != [] {
      var u, rest := batch[0], batch[1..];
      assert u in batch && forall v :: v in rest ==> v in batch;
      var t := Refresh(w, s, u);
      if t.Done? {
        AbortKeepsQueue(w, t.state, rest);
        var k: nat, before: State :| StoppedAt(w, t.state, rest, k, before);
        StoppedLater(w, s, batch, k, before);
      } else {
        RefreshQueue(w, s, u);
        assert batch[..0] == [] && batch[0 + 1..] == rest;
        assert StoppedAt(w, s, batch, 0, s);
      }
    }
  }

  lemma {:induction false} RequeueAborted(s: State, u: Uid)
    requires Steady(s, {u}, []) && u < |s.fibers|
    ensures Steady(Enqueue(s, u), {}, [])
  {
    var q := Enqueue(s, u);
    Requeue(s, {u}, [], s.pending + [u], []);
    assert u in q.pending;
    forall v: Uid | Due(q, v, {}, []) ensures q.fibers[v].epoch == ComputeEpoch(q, v) {
      assert Due(q, v, {u}, []);
    }
  }

  lemma {:induction false} SettleNoStale(w: Behaviour, s: State, rounds: nat)
    requires Steady(s, {}, []) && Settle(w, s, rounds).Done?
    ensures NoStale(Settle(w, s, rounds).state)
  {
    SettleSteady(w, s, rounds, {});
    QuietNoStale(Settle(w, s, rounds).state);
  }

  /** u is PENDING and inert: no live epoch, effect, child or service, but for the registrations in
      `spare`. */
  ghost predicate LeftInert(s: State, u: Uid, spare: set<Impl> := {}) {
    && u < |s.fibers| && Dormant(s, u)
    && forall slot :: slot in s.store.impls ==> s.store.impls[slot].owner != u || s.store.impls[slot] in spare
  }

  /** What the host does about an aborted fiber: queue it and settle. */
  function Retry(w: Behaviour, u: Uid): seq<Call> {
    [Call(w, HostEnqueue(u)), Call(w, HostSettle)]
  }

  ghost predicate Revivable(s: State, u: Uid) {
    forall w, rounds :: Exec(rounds, s, Retry(w, u)).Done? ==> NoStale(Exec(rounds, s, Retry(w, u)).state)
  }

  lemma {:induction false} RetrySettles(w: Behaviour, rounds: nat, s: State, u: Uid)
    requires u < |s.fibers|
    ensures Exec(rounds, s, Retry(w, u)) == Settle(w, Enqueue(s, u), rounds)
  {
    hide Settle, Host;
    var calls, q := Retry(w, u), Enqueue(s, u);
    var rest := [Call(w, HostSettle)];
    assert calls[1..] == rest && rest[1..] == [];
    assert Host(w, rounds, s, HostEnqueue(u)) == Done(q) by { hide *; QueueCall(w, rounds, s, u); }
    assert Host(w, rounds, q, HostSettle) == Settle(w, q, rounds) by { hide *; SettleCall(w, rounds, q); }
    var t := Settle(w, q, rounds);
    assert Exec(rounds, q, rest) == if t.Done? then Exec(rounds, t.state, []) else t;
    assert t.Done? ==> Exec(rounds, t.state, []) == Done(t.state);
    assert Exec(rounds, s, calls) == Exec(rounds, q, rest);
  }

  lemma {:induction false} QueueCall(w: Behaviour, rounds: nat, s: State, u: Uid)
    requires u < |s.fibers|
    ensures Host(w, rounds, s, HostEnqueue(u)) == Done(Enqueue(s, u))
  {
  }

  lemma {:induction false} SettleCall(w: Behaviour, rounds: nat, s: State)
    ensures Host(w, rounds, s, HostSettle) == Settle(w, s, rounds)
  {
  }

  lemma {:induction false} DormantInert(s: State, u: Uid, spare: set<Impl>)
    requires Kept(s, spare) && u < |s.fibers| && Dormant(s, u)
    ensures LeftInert(s, u, spare)
  {
    forall slot | slot in s.store.impls ensures s.store.impls[slot].owner != u || s.store.impls[slot] in spare {
      assert s.store.impls[slot] in spare || Files(s.fibers[s.store.impls[slot].owner], s.store.impls[slot]);
    }
  }

  lemma {:induction false} RequeuedRevives(s: State, u: Uid)
    requires Steady(s, {u}, []) && u < |s.fibers|
    ensures Revivable(s, u)
  {
    RequeueAborted(s, u);
    hide Steady, NoStale, Settle, Exec;
    forall w, rounds | Exec(rounds, s, Retry(w, u)).Done? ensures NoStale(Exec(rounds, s, Retry(w, u)).state) {
      RetrySettles(w, rounds, s, u);
      SettleNoStale(w, Enqueue(s, u), rounds);
    }
  }

  /** An aborted settle leaves one fiber inert, and revivable. */
  lemma {:induction false} AbortedSettle(since: nat, w: Behaviour, rounds: nat, s: State, spare: set<Impl>)
    requires Steady(s, {}, []) && Owned(since, s, spare) && Settle(w, s, rounds).Aborted?
    ensures exists u: Uid :: LeftInert(Settle(w, s, rounds).state, u, spare) && Revivable(Settle(w, s, rounds).state, u)
  {
    SettleOwned(since, w, s, rounds, {}, spare);
    var t := Settle(w, s, rounds).state;
    var u: Uid :| u < |t.fibers| && Dormant(t, u) && Steady(t, {} + {u}, []);
    assert {} + {u} == {u};
    DormantInert(t, u, spare);
    RequeuedRevives(t, u);
  }

  /** Main result: an abort loses no work. The aborted fiber is inert and PENDING, and queueing it
      again and settling, under any behaviour and budget, restores freedom from stale references. */
  lemma {:induction false} AbortResumes(w: Behaviour, rounds: nat, s: State)
    requires Steady(s, {}, []) && Own(s, {}) && Settle(w, s, rounds).Aborted?
    ensures exists u: Uid :: LeftInert(Settle(w, s, rounds).state, u) && Revivable(Settle(w, s, rounds).state, u)
  {
    hide Own, Steady, Settle, LeftInert, Revivable;
    OwnedIsOwn(0, s);
    AbortedSettle(0, w, rounds, s, {});
  }

  /** The registration a host provide has announced when its settle aborts. */
  function Announced(s: State, h: HostStep): set<Impl> {
    if h.HostProvide? && Accepted(s, h.who, h.realm, h.name) then {NewImpl(s, h.who, h.realm, h.name)} else {}
  }

  /** The same over whole runs: whichever call aborts first, after an orderly run. An aborting provide
      leaves its registration announced, and nothing else, with the fiber that aborted. */
  lemma {:induction false} RunsResumeAfterAbort(rounds: nat, run: seq<Call>, w: Behaviour, h: HostStep)
    requires Orderly(rounds, EMPTY, run) && Exec(rounds, EMPTY, run).Done?
    requires Host(w, rounds, Exec(rounds, EMPTY, run).state, h).Aborted?
    ensures var s := Exec(rounds, EMPTY, run).state;
      var t := Host(w, rounds, s, h).state;
      exists u: Uid :: LeftInert(t, u, Announced(s, h)) && Revivable(t, u)
  {
    var s := Exec(rounds, EMPTY, run).state;
    EmptyHealthy();
    EmptySteady();
    AfterHealthy(rounds, EMPTY, run);
    ExecIsAfter(rounds, EMPTY, run);
    ExecSteady(rounds, EMPTY, run);
    HostAbort(w, rounds, s, h);
  }

  lemma {:induction false} HostAbort(w: Behaviour, rounds: nat, s: State, h: HostStep)
    requires Steady(s, {}, []) && Own(s, {}) && Host(w, rounds, s, h).Aborted?
    ensures var t := Host(w, rounds, s, h).state;
      exists u: Uid :: LeftInert(t, u, Announced(s, h)) && Revivable(t, u)
  {
    hide Own, Rest, Sound, Due, LeftInert, Revivable, Owned;
    match h {
      case HostSettle => AbortResumes(w, rounds, s);
      case HostRestart(u) =>
        RestartOwn(s, u, {});
        RestartStepSteady(s, u, {});
        AbortResumes(w, rounds, RestartStep(s, u));
      case HostProvide(u, r, name) =>
        PublishedOwned(s, u, r, name, {});
        AbortedSettle(|s.log|, w, rounds, Published(s, u, r, name), {NewImpl(s, u, r, name)});
      case HostWithdraw(u, k) =>
        WithdrawOwn(s, u, k, {});
        WithdrawSteady(s, u, k, {});
        AbortResumes(w, rounds, WithdrawStep(s, u, k));
      case HostPlugin(u, r, entry, d, isolated) =>
        MountOwn(s, Some(u), r, entry, d, isolated, {});
        MountSteady(s, Some(u), r, entry, d, isolated, {});
        AbortResumes(w, rounds, MountStep(s, Some(u), r, entry, d, isolated).state);
      case _ =>
    }
  }
}
