/** Fiber.provide called by the host outside a settle: exactly when ownership survives it. The
    dependents settle before the undo is filed (src/aka/core/fiber.py:351-358, 462-476), so a
    dependent that aborts leaves a registration nothing will ever withdraw. */
module HostProvides {
  import opened Lists
  import opened Registry
  import opened Runtime
  import opened Teardown
  import opened Currency
  import opened Settling
  import opened Runs
  import opened Ownership
  import opened OwnedRuns
  import opened Shutdown
  import opened Guarantees

  /** i is live and no fiber holds its undo: nothing can withdraw it. */
  ghost predicate Orphaned(s: State, i: Impl) {
    IsLive(s.store, i) && Unfiled(s, i)
  }

  ghost predicate EffectsFrom(s: State, t: State) {
    && t.store == s.store && |t.fibers| == |s.fibers|
    && forall u: Uid :: u < |s.fibers| ==> forall e :: e in t.fibers[u].effects ==> e in s.fibers[u].effects
  }

  lemma {:induction false} OrphanKept(s: State, t: State, i: Impl)
    requires Orphaned(s, i) && EffectsFrom(s, t)
    ensures Orphaned(t, i)
  {
  }

  lemma {:induction false} UnwindOrphans(s: State, u: Uid, i: Impl)
    requires u < |s.fibers| && Orphaned(s, i) && Serialized(s.store)
    ensures Orphaned(Unwind(s, u), i) && Serialized(Unwind(s, u).store)
    decreases |s.fibers[u].effects|
  {
    if s.fibers[u].effects != [] {
      var n := |s.fibers[u].effects| - 1;
      UnwindStep(s, u);
      WithdrawOrphans(s, u, n, i);
      UnwindOrphans(WithdrawStep(s, u, n), u, i);
    }
  }

  lemma {:induction false} WithdrawOrphans(s: State, u: Uid, k: nat, i: Impl)
    requires u < |s.fibers| && k < |s.fibers[u].effects| && Orphaned(s, i) && Serialized(s.store)
    ensures Orphaned(WithdrawStep(s, u, k), i) && Serialized(WithdrawStep(s, u, k).store)
  {
    var es := s.fibers[u].effects;
    assert es[k] in es;
    assert forall e :: e in Cut(es, k) ==> e in es;
  }

  lemma {:induction false} DiscardOrphans(s: State, u: Uid, i: Impl)
    requires u < |s.fibers| && Orphaned(s, i) && Serialized(s.store)
    ensures Orphaned(Discard(s, u), i) && Serialized(Discard(s, u).store)
    decreases |s.fibers| - u, 1, 0
  {
    var s1 := DisposeAll(s, u, s.fibers[u].children);
    DisposeAllOrphans(s, u, s.fibers[u].children, i);
    var s2 := Put(s1, u, s1.fibers[u].(provided := {}));
    OrphanKept(s1, s2, i);
    UnwindOrphans(s2, u, i);
  }

  lemma {:induction false} DisposeAllOrphans(s: State, u: Uid, cs: seq<Uid>, i: Impl)
    requires u < |s.fibers| && Orphaned(s, i) && Serialized(s.store)
    ensures Orphaned(DisposeAll(s, u, cs), i) && Serialized(DisposeAll(s, u, cs).store)
    decreases |s.fibers| - u, 0, |cs|
  {
    if cs != [] {
      if u < cs[0] < |s.fibers| {
        DisposeOrphans(s, cs[0], i);
        DisposeAllOrphans(Dispose(s, cs[0]), u, cs[1..], i);
      } else {
        DisposeAllOrphans(s, u, cs[1..], i);
      }
    }
  }

  lemma {:induction false} UnloadOrphans(s: State, u: Uid, i: Impl)
    requires u < |s.fibers| && Orphaned(s, i) && Serialized(s.store)
    ensures Orphaned(Unload(s, u), i) && Serialized(Unload(s, u).store)
    decreases |s.fibers| - u, 2
  {
    var t := SetPhase(s, u, Unloading);
    OrphanKept(s, t, i);
    DiscardOrphans(t, u, i);
    OrphanKept(Discard(t, u), Unload(s, u), i);
  }

  lemma {:induction false} DisposeOrphans(s: State, u: Uid, i: Impl)
    requires u < |s.fibers| && Orphaned(s, i) && Serialized(s.store)
    ensures Orphaned(Dispose(s, u), i) && Serialized(Dispose(s, u).store)
    decreases |s.fibers| - u, 3
  {
    hide Discard, Unload, Serialized;
    if s.fibers[u].phase == Failed {
      DiscardOrphans(s, u, i);
      OrphanKept(Discard(s, u), Dispose(s, u), i);
    } else if s.fibers[u].phase != Disposed {
      UnloadOrphans(s, u, i);
      OrphanKept(Unload(s, u), Dispose(s, u), i);
    }
  }

  lemma {:induction false} DisposeEachOrphans(s: State, us: seq<Uid>, i: Impl)
    requires Orphaned(s, i) && Serialized(s.store)
    ensures Orphaned(DisposeEach(s, us), i)
    decreases |us|
  {
    if us != [] {
      if us[0] < |s.fibers| {
        DisposeOrphans(s, us[0], i);
        DisposeEachOrphans(Dispose(s, us[0]), us[1..], i);
      } else {
        DisposeEachOrphans(s, us[1..], i);
      }
    }
  }

  /** An orphaned registration outlives Root.dispose. */
  lemma {:induction false} OrphansOutliveRoot(s: State, i: Impl)
    requires Orphaned(s, i) && Serialized(s.store)
    ensures IsLive(RootDispose(s).store, i)
  {
    DisposeEachOrphans(s, Sorted(s, s.mounted), i);
  }

  // ---- exactly when ownership survives -------------------------------------------------------------

  /** The behaviour under which no load gets past its config. */
  function Aborter(): Behaviour {
    (u: Uid, s: State) => Script(Aborts, [], Returns)
  }

  /** The settle the provide leads to comes to rest without a single load, the provider still ACTIVE. No
      plugin code is asked, so this can be worked out from the state before the call. */
  ghost predicate Loadless(s: State, u: Uid, r: RealmId, name: Name, rounds: nat) {
    var t := Settle(Aborter(), Published(s, u, r, name), rounds);
    t.Done? && u < |t.state.fibers| && t.state.fibers[u].phase == Active
  }

  /** Where no load is tried, every behaviour does the same, and only disposers run. */
  lemma {:induction false} RefreshSame(w: Behaviour, s: State, v: Uid)
    requires v < |s.fibers| && Refresh(Aborter(), s, v).Done?
    ensures Refresh(w, s, v) == Refresh(Aborter(), s, v) && OnlyRan(s.log, Refresh(w, s, v).state.log)
  {
    if s.fibers[v].phase != Disposed {
      var m := if s.fibers[v].restart then TakeRestart(s, v) else s;
      UnloadLogs(Put(s, v, s.fibers[v].(restart := false)), v);
      UnloadLogs(SetEpoch(m, v, ComputeEpoch(m, v), Bindings(m, v)), v);
    }
  }

  lemma {:induction false} BatchSame(w: Behaviour, s: State, batch: seq<Uid>)
    requires Uids(s, batch) && RunBatch(Aborter(), s, batch).Done?
    ensures RunBatch(w, s, batch) == RunBatch(Aborter(), s, batch) && OnlyRan(s.log, RunBatch(w, s, batch).state.log)
    decreases |batch|
  {
    hide Refresh;
    if batch != [] {
      assert batch[0] in batch && forall v :: v in batch[1..] ==> v in batch;
      RefreshSame(w, s, batch[0]);
      BatchSame(w, Refresh(w, s, batch[0]).state, batch[1..]);
    }
  }

  lemma {:induction false} SettleSame(w: Behaviour, s: State, rounds: nat)
    requires Settle(Aborter(), s, rounds).Done?
    ensures Settle(w, s, rounds) == Settle(Aborter(), s, rounds) && OnlyRan(s.log, Settle(w, s, rounds).state.log)
    decreases rounds
  {
    hide RunBatch, Dedup;
    if s.pending != [] {
      BatchSame(w, s.(pending := []), Dedup(s.pending));
      SettleSame(w, RunBatch(w, s.(pending := []), Dedup(s.pending)).state, rounds - 1);
    }
  }

  lemma {:induction false} LoadlessIsSmooth(w: Behaviour, s: State, u: Uid, r: RealmId, name: Name, rounds: nat)
    requires Loadless(s, u, r, name, rounds)
    ensures Smooth(w, rounds, s, u, r, name)
  {
    hide Settle;
    SettleSame(w, Published(s, u, r, name), rounds);
  }

  /** A settle that tries a load may abort it, and one that ends without the provider leaves it with a
      registration it should not have. */
  lemma {:induction false} LoadfulLeaks(s: State, u: Uid, r: RealmId, name: Name, rounds: nat, x: set<Uid>)
    requires Own(s, {}) && Steady(s, x, []) && Accepted(s, u, r, name)
    requires Woken(s, s.mounted, name) != [] && !Loadless(s, u, r, name, rounds)
    ensures !WellOwned(ProvideAndSettle(Aborter(), rounds, s, u, r, name).state)
  {
    hide Settle, Kept, InStep, Steady, Lost, WellOwned;
    var p := Published(s, u, r, name);
    var i := NewImpl(s, u, r, name);
    PublishedOwned(s, u, r, name, x);
    SettleOwned(|s.log|, Aborter(), p, rounds, x, {i});
    var t := Settle(Aborter(), p, rounds);
    SpareIsOrphaned(t.state, i);
    if t.Done? && u < |t.state.fibers| {
      OwnerMustBeActive(FileProvide(t.state, u, i), i);
    } else {
      OrphanNotOwned(t.state, i);
    }
  }

  lemma {:induction false} SpareIsOrphaned(s: State, i: Impl)
    requires Kept(s, {i})
    ensures Orphaned(s, i)
  {
    assert i in {i};
  }

  lemma {:induction false} OrphanNotOwned(s: State, i: Impl)
    requires Orphaned(s, i)
    ensures !WellOwned(s)
  {
  }

  lemma {:induction false} OwnerMustBeActive(s: State, i: Impl)
    requires IsLive(s.store, i) && i.owner < |s.fibers| && s.fibers[i.owner].phase != Active
    ensures !WellOwned(s)
  {
  }

  /** Main result: from any owned state, whatever is queued, excused or about to restart, an accepted host
      provide keeps ownership under every plugin behaviour if and only if it wakes nobody or the settle
      it leads to needs no load and leaves the provider ACTIVE. */
  lemma {:induction false} ProvideKeepsOwnershipIff(s: State, u: Uid, r: RealmId, name: Name, rounds: nat, x: set<Uid>)
    requires Own(s, {}) && Steady(s, x, []) && Accepted(s, u, r, name)
    ensures (forall w :: WellOwned(ProvideAndSettle(w, rounds, s, u, r, name).state))
      <==> Woken(s, s.mounted, name) == [] || Loadless(s, u, r, name, rounds)
  {
    hide Own, Steady, Settle, WellOwned, Loadless;
    if Woken(s, s.mounted, name) == [] || Loadless(s, u, r, name, rounds) {
      forall w ensures WellOwned(ProvideAndSettle(w, rounds, s, u, r, name).state) {
        if Woken(s, s.mounted, name) != [] { LoadlessIsSmooth(w, s, u, r, name, rounds); }
        ProvideSmoothOwn(w, rounds, s, u, r, name, x);
        ProvideSteady(w, rounds, s, u, r, name, x);
        ResumableSteady(ProvideAndSettle(w, rounds, s, u, r, name), x);
        HealthyWellOwned(ProvideAndSettle(w, rounds, s, u, r, name).state);
      }
    } else {
      LoadfulLeaks(s, u, r, name, rounds, x);
    }
  }

  // ---- quiescent states --------------------------------------------------------------------------------

  /** The new service changes the epoch of no fiber that declares its name. */
  predicate Unstirred(s: State, u: Uid, r: RealmId, name: Name) {
    forall v :: v in Woken(s, s.mounted, name) ==> Calm(Published(s, u, r, name), v)
  }

  /** Every load of v aborts while its config is resolved. */
  ghost predicate Doomed(w: Behaviour, v: Uid) {
    forall s :: w(v, s).config == Aborts
  }

  /** v would load when refreshed. */
  ghost predicate Stirs(s: State, v: Uid) {
    && v < |s.fibers| && !s.fibers[v].restart && s.fibers[v].phase !in {Failed, Disposed}
    && ComputeEpoch(s, v) != s.fibers[v].epoch && ComputeEpoch(s, v).Live?
  }

  lemma {:induction false} BatchAborts(w: Behaviour, s: State, batch: seq<Uid>, v: Uid)
    requires v in batch && Stirs(s, v) && forall x :: x in batch ==> Calm(s, x) || (Stirs(s, x) && Doomed(w, x))
    requires Uids(s, batch)
    ensures RunBatch(w, s, batch).Aborted?
    decreases |batch|
  {
    var x, rest := batch[0], batch[1..];
    assert x in batch && forall y :: y in rest ==> y in batch;
    if !Stirs(s, x) { BatchAborts(w, s, rest, v); }
  }

  lemma {:induction false} SettleAborts(w: Behaviour, s: State, rounds: nat, v: Uid)
    requires rounds > 0 && v in s.pending && Stirs(s, v)
    requires forall x :: x in s.pending ==> Calm(s, x) || (Stirs(s, x) && Doomed(w, x))
    requires Uids(s, s.pending)
    ensures Settle(w, s, rounds).Aborted?
  {
    var s0 := s.(pending := []);
    forall x | x in Dedup(s.pending) ensures Calm(s0, x) || (Stirs(s0, x) && Doomed(w, x)) {
      EpochAgree(s, s0, x);
    }
    EpochAgree(s, s0, v);
    BatchAborts(w, s0, Dedup(s.pending), v);
  }

  /** Nothing is queued, no restart is requested, and every epoch is current. */
  ghost predicate Quiet(s: State) {
    Steady(s, {}, []) && s.pending == [] && forall v :: v in s.mounted ==> !s.fibers[v].restart
  }

  /** A new service can only turn an epoch live. */
  lemma {:induction false} WokenStirs(s: State, u: Uid, r: RealmId, name: Name, v: Uid)
    requires Quiet(s) && v in s.mounted
    requires Slot(OwnerOf(s.store.realms, r, name), name) !in s.store.impls
    ensures Calm(Published(s, u, r, name), v) || Stirs(Published(s, u, r, name), v)
  {
    var t := Published(s, u, r, name);
    if s.fibers[v].phase !in {Failed, Disposed} {
      assert Due(s, v, {}, []);
      LiveIffResolved(s, v);
      LiveIffResolved(t, v);
      if ComputeEpoch(s, v).Live? {
        forall n | n in s.fibers[v].decl.inject ensures Resolve(t.store, s.fibers[v].realm, n).Some? {
          assert Resolve(s.store, s.fibers[v].realm, n).Some?;
        }
      }
    }
  }

  lemma {:induction false} StirredProvideAborts(w: Behaviour, s: State, u: Uid, r: RealmId, name: Name, rounds: nat)
    requires Quiet(s) && Accepted(s, u, r, name) && rounds > 0 && !Unstirred(s, u, r, name)
    requires forall v :: v in Woken(s, s.mounted, name) && !Calm(Published(s, u, r, name), v) ==> Doomed(w, v)
    ensures Settle(w, Published(s, u, r, name), rounds).Aborted? && Woken(s, s.mounted, name) != []
  {
    var t := Published(s, u, r, name);
    PublishedQueue(s, u, r, name);
    hide Calm, Stirs, Doomed, Steady, Settle, Quiet, Published;
    forall v | v in Woken(s, s.mounted, name) ensures Calm(t, v) || (Stirs(t, v) && Doomed(w, v)) {
      WokenStirs(s, u, r, name, v);
    }
    var v :| v in Woken(s, s.mounted, name) && !Calm(t, v);
    SettleAborts(w, t, rounds, v);
  }

  lemma {:induction false} PublishedQueue(s: State, u: Uid, r: RealmId, name: Name)
    requires Quiet(s)
    ensures var t := Published(s, u, r, name);
      Uids(t, t.pending) && forall x :: x in t.pending <==> x in Woken(s, s.mounted, name)
    ensures !Unstirred(s, u, r, name) ==>
      exists v :: v in Woken(s, s.mounted, name) && !Calm(Published(s, u, r, name), v)
  {
    hide Calm, Sound, Due, Rest;
  }

  /** In a quiet state the condition reads: the new service changes the epoch of no mounted fiber. */
  lemma {:induction false} QuietProvideIff(s: State, u: Uid, r: RealmId, name: Name, rounds: nat)
    requires Own(s, {}) && Quiet(s) && Accepted(s, u, r, name) && rounds > 0
    ensures (forall w :: WellOwned(ProvideAndSettle(w, rounds, s, u, r, name).state)) <==> Unstirred(s, u, r, name)
  {
    hide Own, Settle, WellOwned;
    ProvideKeepsOwnershipIff(s, u, r, name, rounds, {});
    if Unstirred(s, u, r, name) {
      CalmSettle(Aborter(), Published(s, u, r, name), rounds);
      QuietProvider(s, u);
    } else {
      forall v ensures Doomed(Aborter(), v) { }
      StirredProvideAborts(Aborter(), s, u, r, name, rounds);
    }
  }

  lemma {:induction false} QuietProvider(s: State, u: Uid)
    requires Quiet(s) && Acting(s, u)
    ensures s.fibers[u].phase == Active
  {
  }
}
