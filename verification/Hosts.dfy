/** What a host call does to a quiet tree: it returns with the queue drained and nothing stale, what was
    mounted is there, and what was withdrawn is let go of by everybody, for good. */
module Hosts {
  import opened Lists
  import opened Registry
  import opened Runtime
  import opened Teardown
  import opened Currency
  import opened Settling
  import opened Runs
  import opened Ownership

  // ---- what no step takes back -------------------------------------------------------------------------

  /** Realms stay, and every registration live later was live before or carries a newer serial. */
  ghost predicate Fresher(g: Store, g': Store) {
    && g.serial <= g'.serial && g.realms <= g'.realms
    && forall i :: IsLive(g', i) ==> IsLive(g, i) || g.serial < i.serial
  }

  /** From s to t serials are only ever new, and what a fiber was mounted with stays. */
  ghost predicate Later(s: State, t: State) {
    && |s.fibers| <= |t.fibers| && s.log <= t.log && Fresher(s.store, t.store)
    && forall v: Uid :: v < |s.fibers| ==>
         && t.fibers[v].entry == s.fibers[v].entry && t.fibers[v].decl == s.fibers[v].decl
         && t.fibers[v].realm == s.fibers[v].realm && t.fibers[v].parent == s.fibers[v].parent
  }

  lemma {:induction false} LaterTrans(s: State, t: State, r: State)
    requires Later(s, t) && Later(t, r)
    ensures Later(s, r)
  {
    forall i | IsLive(r.store, i) ensures IsLive(s.store, i) || s.store.serial < i.serial {
      assert IsLive(t.store, i) || t.store.serial < i.serial;
    }
  }

  lemma {:induction false} WaneLater(s: State, t: State, low: nat, mine: set<Uid>)
    requires Wane(s, t, low, mine) && s.log <= t.log
    ensures Later(s, t)
  {
    forall v: Uid | v < |s.fibers| ensures Stable(s.fibers[v], t.fibers[v]) {
      assert Fades(s.fibers[v], t.fibers[v], v in mine);
    }
    forall i | IsLive(t.store, i) ensures IsLive(s.store, i) {
      assert i.slot in t.store.impls;
    }
  }

  lemma {:induction false} DiscardLater(s: State, u: Uid)
    requires u < |s.fibers|
    ensures Later(s, Discard(s, u))
  {
    DiscardWanes(s, u);
    DiscardLogs(s, u);
    WaneLater(s, Discard(s, u), u + 1, {u});
  }

  lemma {:induction false} UnloadLater(s: State, u: Uid)
    requires u < |s.fibers|
    ensures Later(s, Unload(s, u))
  {
    UnloadWanes(s, u);
    UnloadLogs(s, u);
    WaneLater(SetPhase(s, u, Pending), Unload(s, u), u + 1, {u});
  }

  lemma {:induction false} RegisterLater(g: Store, slot: Slot, u: Uid)
    ensures Fresher(g, Register(g, slot, u))
  {
    forall i | IsLive(Register(g, slot, u), i) ensures IsLive(g, i) || g.serial < i.serial {
    }
  }

  lemma {:induction false} ProvideLater(s: State, u: Uid, r: RealmId, name: Name)
    requires u < |s.fibers|
    ensures Later(s, ProvideStep(s, u, r, name).state)
  {
    hide OwnerOf, Woken, Fresher;
    var slot := Slot(OwnerOf(s.store.realms, r, name), name);
    RegisterLater(s.store, slot, u);
    assert Fresher(s.store, s.store) by { hide *; SameStore(s.store); }
  }

  lemma {:induction false} SameStore(g: Store)
    ensures Fresher(g, g)
  {
  }

  lemma {:induction false} WithdrawLater(s: State, u: Uid, k: nat)
    requires u < |s.fibers| && k < |s.fibers[u].effects|
    ensures Later(s, WithdrawStep(s, u, k))
  {
  }

  lemma {:induction false} MountLater(
    s: State, parent: Option<Uid>, r: RealmId, entry: string, d: Decl, isolated: set<Name>)
    ensures Later(s, MountStep(s, parent, r, entry, d, isolated).state)
  {
  }

  lemma {:induction false} ActLater(s: State, u: Uid, a: Action)
    requires u < |s.fibers|
    ensures Later(s, Act(s, u, a).state)
  {
    hide Dispose, ProvideStep, WithdrawStep, MountStep;
    match a {
      case Provide(who, r, name, _) => if who < |s.fibers| { ProvideLater(s, who, r, name); }
      case Withdraw(who, k) => if Acting(s, who) && k < |s.fibers[who].effects| { WithdrawLater(s, who, k); }
      case Mount(who, r, entry, d, isolated, _) => MountLater(s, Some(who), r, entry, d, isolated);
      case Drop(k) =>
        if k < |s.fibers[u].children| && u < s.fibers[u].children[k] < |s.fibers| {
          var c := s.fibers[u].children[k];
          DisposeWanes(s, c);
          DisposeLogs(s, c);
          WaneLater(s, Dispose(s, c), c, {});
        }
      case _ =>
    }
  }

  lemma {:induction false} RunLater(s: State, u: Uid, actions: seq<Action>)
    requires u < |s.fibers|
    ensures Later(s, RunActions(s, u, actions).state)
    decreases |actions|
  {
    hide Act;
    if actions == [] {
      SameStore(s.store);
    } else {
      hide Later;
      ActGrows(s, u, actions[0]);
      ActLater(s, u, actions[0]);
      var t := Act(s, u, actions[0]);
      if t.Ok? {
        RunLater(t.state, u, actions[1..]);
        LaterTrans(s, t.state, RunActions(t.state, u, actions[1..]).state);
      }
    }
  }

  /** The ways a load can end. */
  lemma {:induction false} EndLater(s: State, t: State, u: Uid, ending: Ending)
    requires Later(s, t) && u < |t.fibers|
    ensures Later(s, Fail(t, u)) && Later(s, Reset(t, u)) && Later(s, Fail(Discard(t, u), u))
    ensures Later(s, EndLoad(t, u, ending).state)
  {
    hide Fresher;
    DiscardLater(t, u);
    LaterTrans(s, t, Discard(t, u));
    hide Discard;
  }

  lemma {:induction false} LoadLater(w: Behaviour, s: State, u: Uid)
    requires u < |s.fibers|
    ensures Later(s, Load(w, s, u).state)
  {
    var s1 := SetPhase(s, u, Loading);
    var b := BeginApply(s1, u);
    var script := w(u, s1);
    SameStore(s.store);
    hide Fresher;
    assert Later(s, s1) && Later(s, b);
    hide Later, Discard, RunActions, Fail, Reset, EndLoad;
    RunLater(b, u, script.actions);
    var t := RunActions(b, u, script.actions).state;
    LaterTrans(s, b, t);
    EndLater(s, s1, u, script.ending);
    EndLater(s, t, u, script.ending);
  }

  lemma {:induction false} FollowLater(w: Behaviour, s: State, u: Uid)
    requires u < |s.fibers|
    ensures Later(s, Follow(w, s, u).state)
  {
    var s1 := SetEpoch(s, u, ComputeEpoch(s, u), Bindings(s, u));
    SameStore(s.store);
    hide Fresher, Load, Unload, ComputeEpoch;
    assert Later(s, s) && Later(s, s1);
    hide Later;
    UnloadLater(s1, u);
    LaterTrans(s, s1, Unload(s1, u));
    LoadLater(w, s1, u);
    LaterTrans(s, s1, Load(w, s1, u).state);
    LoadLater(w, Unload(s1, u), u);
    LaterTrans(s, Unload(s1, u), Load(w, Unload(s1, u), u).state);
  }

  lemma {:induction false} TakenLater(s: State, u: Uid)
    requires u < |s.fibers|
    ensures Later(s, TakeRestart(s, u))
  {
    SameStore(s.store);
    UnloadLater(Put(s, u, s.fibers[u].(restart := false)), u);
    hide Unload, Fresher;
  }

  lemma {:induction false} RefreshLater(w: Behaviour, s: State, u: Uid)
    requires u < |s.fibers|
    ensures Later(s, Refresh(w, s, u).state)
  {
    SameStore(s.store);
    assert Later(s, s);
    hide Follow, Later, TakeRestart;
    TakenLater(s, u);
    FollowLater(w, s, u);
    FollowLater(w, TakeRestart(s, u), u);
    LaterTrans(s, TakeRestart(s, u), Follow(w, TakeRestart(s, u), u).state);
  }

  lemma {:induction false} BatchLater(w: Behaviour, s: State, batch: seq<Uid>)
    requires Uids(s, batch)
    ensures Later(s, RunBatch(w, s, batch).state)
    decreases |batch|
  {
    hide Refresh;
    if batch == [] {
      SameStore(s.store);
    } else {
      assert batch[0] in batch && forall v :: v in batch[1..] ==> v in batch;
      RefreshLater(w, s, batch[0]);
      var t := Refresh(w, s, batch[0]);
      if t.Done? {
        BatchLater(w, t.state, batch[1..]);
        LaterTrans(s, t.state, RunBatch(w, t.state, batch[1..]).state);
      }
    }
  }

  lemma {:induction false} SettleLater(w: Behaviour, s: State, rounds: nat)
    ensures Later(s, Settle(w, s, rounds).state)
    decreases rounds
  {
    SameStore(s.store);
    if s.pending != [] && rounds != 0 && Uids(s, s.pending) {
      var s0 := s.(pending := []);
      var t := RunBatch(w, s0, Dedup(s.pending));
      BatchLater(w, s0, Dedup(s.pending));
      hide RunBatch;
      if t.Done? {
        SettleLater(w, t.state, rounds - 1);
        LaterTrans(s, t.state, Settle(w, t.state, rounds - 1).state);
      }
    }
  }

  // ---- whole calls and runs ------------------------------------------------------------------------------

  lemma {:induction false} ProvideOutsideLater(
    w: Behaviour, rounds: nat, s: State, u: Uid, r: RealmId, name: Name)
    requires u < |s.fibers|
    ensures Later(s, ProvideAndSettle(w, rounds, s, u, r, name).state)
  {
    hide OwnerOf, Settle, Woken;
    var slot := Slot(OwnerOf(s.store.realms, r, name), name);
    var s1 := Notify(s.(store := Register(s.store, slot, u)), name);
    SameStore(s.store);
    RegisterLater(s.store, slot, u);
    SettleLater(w, s1, rounds);
    hide Fresher;
    LaterTrans(s, s1, Settle(w, s1, rounds).state);
  }

  lemma {:induction false} HostLater(w: Behaviour, rounds: nat, s: State, h: HostStep)
    ensures Later(s, Host(w, rounds, s, h).state)
  {
    SameStore(s.store);
    assert Later(s, s);
    hide Settle, MountStep, Woken, ProvideAndSettle, WithdrawStep, Fresher;
    match h {
      case HostMount(entry, d, isolated) => MountLater(s, None, 0, entry, d, isolated);
      case HostSettle => SettleLater(w, s, rounds);
      case HostRestart(u) =>
        SettleLater(w, RestartStep(s, u), rounds);
        LaterTrans(s, RestartStep(s, u), Settle(w, RestartStep(s, u), rounds).state);
      case HostProvide(u, r, name) => if u < |s.fibers| { ProvideOutsideLater(w, rounds, s, u, r, name); }
      case HostWithdraw(u, k) =>
        if Acting(s, u) && k < |s.fibers[u].effects| {
          var t := WithdrawStep(s, u, k);
          WithdrawLater(s, u, k);
          SettleLater(w, t, rounds);
          hide Later;
          LaterTrans(s, t, Settle(w, t, rounds).state);
        }
      case HostPlugin(u, r, entry, d, isolated) =>
        var t := MountStep(s, Some(u), r, entry, d, isolated).state;
        MountLater(s, Some(u), r, entry, d, isolated);
        SettleLater(w, t, rounds);
        hide Later;
        LaterTrans(s, t, Settle(w, t, rounds).state);
      case _ =>
    }
  }

  lemma {:induction false} ExecLater(rounds: nat, s: State, run: seq<Call>)
    ensures Later(s, Exec(rounds, s, run).state)
    decreases |run|
  {
    hide Host;
    if run == [] {
      SameStore(s.store);
    } else {
      HostLater(run[0].plugins, rounds, s, run[0].step);
      var t := Host(run[0].plugins, rounds, s, run[0].step);
      if t.Done? {
        ExecLater(rounds, t.state, run[1..]);
        LaterTrans(s, t.state, Exec(rounds, t.state, run[1..]).state);
      }
    }
  }

  /** No fiber twice, everyone once, and in the order of their first places in the queue. */
  ghost predicate EachOnce(queue: seq<Uid>, batch: seq<Uid>) {
    && NoDup(batch) && (forall u :: u in batch <==> u in queue)
    && forall u, v :: u in batch && v in batch && Pos(batch, u) < Pos(batch, v) ==> Pos(queue, u) < Pos(queue, v)
  }

  lemma {:induction false} DedupInOrder(s: seq<Uid>)
    ensures forall u, v :: u in s && v in s && Pos(Dedup(s), u) < Pos(Dedup(s), v) ==> Pos(s, u) < Pos(s, v)
    decreases |s|
  {
    if s != [] {
      var rest := Without(s[1..], s[0]);
      DedupInOrder(rest);
      forall u, v | u in s && v in s && Pos(Dedup(s), u) < Pos(Dedup(s), v) ensures Pos(s, u) < Pos(s, v) {
        assert Dedup(s) == [s[0]] + Dedup(rest) && Dedup(s)[1..] == Dedup(rest);
        if u != s[0] && v != s[0] { WithoutKeepsOrder(s[1..], s[0], u, v); }
      }
    }
  }

  /** A settle with work left takes one round after another: each gives every queued fiber one turn, and what
      is queued meanwhile waits for the next. */
  lemma {:induction false} RoundByRound(w: Behaviour, s: State, rounds: nat) returns (batch: seq<Uid>)
    requires s.pending != [] && Uids(s, s.pending) && rounds > 0
    ensures EachOnce(s.pending, batch) && Uids(s, batch)
    ensures var t := RunBatch(w, s.(pending := []), batch);
      Settle(w, s, rounds) == if t.Done? then Settle(w, t.state, rounds - 1) else t
  {
    batch := Dedup(s.pending);
    NoDupDedup(s.pending);
    DedupInOrder(s.pending);
  }

  /** Main result: a registration that is gone never comes back: no run, however it ends, registers it again. */
  lemma {:induction false} RetiredForGood(rounds: nat, s: State, run: seq<Call>, i: Impl)
    requires i.serial <= s.store.serial && !IsLive(s.store, i)
    ensures !IsLive(Exec(rounds, s, run).state.store, i)
  {
    hide Exec;
    ExecLater(rounds, s, run);
  }

  predicate Queues(h: HostStep) {
    h.HostMount? || h.HostEnqueue?
  }

  /** Main result: whatever the host calls on a quiet tree, but a bare mount or enqueue, has settled by the time
      it returns: the queue is empty and nobody holds a stale reference. */
  lemma {:induction false} CallsSettle(w: Behaviour, rounds: nat, s: State, h: HostStep)
    requires Steady(s, {}, []) && s.pending == [] && !Queues(h) && Host(w, rounds, s, h).Done?
    ensures Host(w, rounds, s, h).state.pending == [] && NoStale(Host(w, rounds, s, h).state)
  {
    HostSteady(w, rounds, s, h, {});
    CallsDrain(w, rounds, s, h);
    hide Host, Steady, NoStale;
    QuietNoStale(Host(w, rounds, s, h).state);
  }

  lemma {:induction false} SettleDrains(w: Behaviour, s: State, rounds: nat)
    requires Settle(w, s, rounds).Done?
    ensures Settle(w, s, rounds).state.pending == []
    decreases rounds
  {
    if s.pending != [] {
      hide RunBatch;
      SettleDrains(w, RunBatch(w, s.(pending := []), Dedup(s.pending)).state, rounds - 1);
    }
  }

  lemma {:induction false} CallsDrain(w: Behaviour, rounds: nat, s: State, h: HostStep)
    requires s.pending == [] && !Queues(h) && Host(w, rounds, s, h).Done?
    ensures Host(w, rounds, s, h).state.pending == []
  {
    hide Settle, Woken, WithdrawStep, MountStep, OwnerOf;
    match h {
      case HostSettle => SettleDrains(w, s, rounds);
      case HostRestart(u) =>
        if u < |s.fibers| && s.fibers[u].phase != Disposed { SettleDrains(w, RestartStep(s, u), rounds); }
      case HostProvide(u, r, name) =>
        var s0 := s.(store := Register(s.store, Slot(OwnerOf(s.store.realms, r, name), name), u));
        if Settle(w, Notify(s0, name), rounds).Done? { SettleDrains(w, Notify(s0, name), rounds); }
        if Woken(s, s.mounted, name) == [] { EmptyIfNone(Woken(s0, s.mounted, name)); }
      case HostWithdraw(u, k) =>
        if Acting(s, u) && k < |s.fibers[u].effects| {
          var s1 := WithdrawStep(s, u, k);
          if s1.pending != s.pending { SettleDrains(w, s1, rounds); }
        }
      case HostPlugin(u, r, entry, d, isolated) =>
        var s1 := MountStep(s, Some(u), r, entry, d, isolated).state;
        if Settle(w, s1, rounds).Done? { SettleDrains(w, s1, rounds); }
      case _ =>
    }
  }

  // ---- what a call leaves --------------------------------------------------------------------------------

  /** No mounted, active fiber holds i: neither in what its apply started from nor in what it resolves. */
  ghost predicate LetGo(s: State, i: Impl) {
    && !IsLive(s.store, i)
    && forall v: Uid :: v < |s.fibers| && s.fibers[v].phase == Active ==> Some(i) !in s.fibers[v].bound
  }

  lemma {:induction false} DeadIsLetGo(s: State, i: Impl)
    requires NoStale(s) && !IsLive(s.store, i) && OneHome(s.store)
    ensures LetGo(s, i)
  {
    forall v: Uid | v < |s.fibers| && s.fibers[v].phase == Active ensures Some(i) !in s.fibers[v].bound {
      var f := s.fibers[v];
      assert f.bound == Bindings(s, v);
      forall k | 0 <= k < |f.bound| && f.bound[k].Some? ensures IsLive(s.store, f.bound[k].value) {
        assert f.bound[k] == Resolve(s.store, f.realm, f.decl.Names()[k]);
      }
    }
  }

  /** Every registration knows the slot it is under. */
  ghost predicate OneHome(g: Store) {
    forall slot :: slot in g.impls ==> g.impls[slot].slot == slot
  }

  /** Main result: a service a host withdraws from a quiet tree is gone when the call returns, its disposer was
      the first thing to run, and no ACTIVE fiber was loaded with it; and however the call ends, it is never
      live again. */
  lemma {:induction false} WithdrawnIsLetGo(w: Behaviour, rounds: nat, s: State, u: Uid, k: nat)
    requires Steady(s, {}, []) && Kept(s) && s.pending == []
    requires Acting(s, u) && k < |s.fibers[u].effects|
    ensures var r := Host(w, rounds, s, HostWithdraw(u, k));
      var e := s.fibers[u].effects[k];
      && |s.log| < |r.state.log| && r.state.log[|s.log|] == Ran(u, e, s.store.impls)
      && (e.Undo? ==> !IsLive(r.state.store, e.impl))
      && (e.Undo? && r.Done? ==> LetGo(r.state, e.impl))
  {
    var e := s.fibers[u].effects[k];
    var s1 := WithdrawStep(s, u, k);
    var h := HostWithdraw(u, k);
    var r := Host(w, rounds, s, h);
    hide Host, WithdrawStep, Steady, Kept, LetGo, NoStale, OneHome;
    WithdrawRetires(s, u, k);
    WithdrawCallLater(w, rounds, s, u, k);
    if e.Undo? && r.Done? {
      CallsSettle(w, rounds, s, h);
      CallKeepsHomes(w, rounds, s, h);
      DeadIsLetGo(r.state, e.impl);
    }
  }

  lemma {:induction false} WithdrawCallLater(w: Behaviour, rounds: nat, s: State, u: Uid, k: nat)
    requires Acting(s, u) && k < |s.fibers[u].effects|
    ensures Later(WithdrawStep(s, u, k), Host(w, rounds, s, HostWithdraw(u, k)).state)
  {
    hide Settle, WithdrawStep;
    SameStore(WithdrawStep(s, u, k).store);
    SettleLater(w, WithdrawStep(s, u, k), rounds);
  }

  lemma {:induction false} CallKeepsHomes(w: Behaviour, rounds: nat, s: State, h: HostStep)
    requires Steady(s, {}, []) && Host(w, rounds, s, h).Done?
    ensures OneHome(Host(w, rounds, s, h).state.store)
  {
    HostSteady(w, rounds, s, h, {});
    hide Host, Sound, Due;
  }

  lemma {:induction false} WithdrawRetires(s: State, u: Uid, k: nat)
    requires Steady(s, {}, []) && Kept(s) && u < |s.fibers| && k < |s.fibers[u].effects|
    ensures var e := s.fibers[u].effects[k];
      var t := WithdrawStep(s, u, k);
      && t.log == s.log + [Ran(u, e, s.store.impls)]
      && (e.Undo? ==> !IsLive(t.store, e.impl) && e.impl.serial <= t.store.serial)
  {
    hide Sound, Due;
    assert EffectsOk(s.store, u, s.fibers[u].effects);
  }

  /** v was mounted in t with this declaration under this id, and sees the names of realm r, except that those
      isolated are its own. */
  ghost predicate MountedAs(
    s: State, t: State, parent: Option<Uid>, r: RealmId, entry: string, d: Decl, isolated: set<Name>)
  {
    var v := |s.fibers|;
    && v < |t.fibers|
    && t.fibers[v].entry == entry && t.fibers[v].decl == d && t.fibers[v].parent == parent
    && (forall name :: name !in isolated ==>
      OwnerOf(t.store.realms, t.fibers[v].realm, name) == OwnerOf(s.store.realms, r, name))
    && (forall name :: name in isolated ==> OwnerOf(t.store.realms, t.fibers[v].realm, name) == |s.store.realms|)
  }

  lemma {:induction false} MountMeans(
    s: State, parent: Option<Uid>, r: RealmId, entry: string, d: Decl, isolated: set<Name>)
    requires Forest(s.store.realms) && r < |s.store.realms|
    ensures var m := MountStep(s, parent, r, entry, d, isolated);
      && (m.Err? <==> exists v :: v in s.mounted && v < |s.fibers| && s.fibers[v].entry == entry)
      && (m.Err? ==> m.state == s)
      && (m.Ok? ==> MountedAs(s, m.state, parent, r, entry, d, isolated))
      && (m.Ok? ==> m.state.fibers[|s.fibers|].phase == Pending)
      && (m.Ok? ==> |s.fibers| in m.state.mounted && |s.fibers| in m.state.pending)
  {
    forall name ensures isolated != {} ==>
      OwnerOf(AddRealm(s.store, r, isolated).realms, |s.store.realms|, name)
      == if name in isolated then |s.store.realms| else OwnerOf(s.store.realms, r, name)
    {
      OwnerOfStable(s.store.realms, Realm(Some(r), isolated), r, name);
    }
  }

  /** What the host asks to mount, for a plugin of its own or for one that is acting. */
  predicate Asks(s: State, h: HostStep, parent: Option<Uid>, entry: string, d: Decl) {
    match h
    case HostMount(e, decl, _) => parent == None && e == entry && decl == d
    case HostPlugin(u, r, e, decl, _) =>
      parent == Some(u) && e == entry && decl == d && Acting(s, u) && r < |s.store.realms|
    case _ => false
  }

  /** In a tree that only grew, a realm owns what it owned. */
  lemma {:induction false} OwnerStays(realms: seq<Realm>, later: seq<Realm>, r: RealmId, name: Name)
    requires Forest(realms) && realms <= later && r < |realms|
    ensures OwnerOf(later, r, name) == OwnerOf(realms, r, name)
    decreases r
  {
    assert later[r] == realms[r];
    if realms[r].parent.Some? && name !in realms[r].isolated {
      OwnerStays(realms, later, realms[r].parent.value, name);
    }
  }

  lemma {:induction false} MountedStays(
    s: State, m: State, t: State, parent: Option<Uid>, r: RealmId, entry: string, d: Decl, isolated: set<Name>)
    requires MountedAs(s, m, parent, r, entry, d, isolated) && Later(m, t) && Forest(m.store.realms)
    requires m.fibers[|s.fibers|].realm < |m.store.realms|
    ensures MountedAs(s, t, parent, r, entry, d, isolated)
  {
    forall name
      ensures OwnerOf(t.store.realms, t.fibers[|s.fibers|].realm, name)
        == OwnerOf(m.store.realms, m.fibers[|s.fibers|].realm, name)
    {
      OwnerStays(m.store.realms, t.store.realms, m.fibers[|s.fibers|].realm, name);
    }
  }

  lemma {:induction false} MountForest(
    s: State, parent: Option<Uid>, r: RealmId, entry: string, d: Decl, isolated: set<Name>)
    requires Forest(s.store.realms) && r < |s.store.realms|
    ensures var m := MountStep(s, parent, r, entry, d, isolated);
      Forest(m.state.store.realms) && (m.Ok? ==> m.state.fibers[|s.fibers|].realm < |m.state.store.realms|)
  {
  }

  /** A host's mount: refused, and nothing else, when the id is in use; otherwise the fiber is there for good,
      under its parent, with its declaration, and in the realm it asked for, however the settle ends. */
  lemma {:induction false} HostMounts(
    w: Behaviour, rounds: nat, s: State, h: HostStep, parent: Option<Uid>, entry: string, d: Decl)
    requires Forest(s.store.realms) && Asks(s, h, parent, entry, d)
    ensures var t := Host(w, rounds, s, h).state;
      var r := if h.HostPlugin? then h.base else 0;
      var taken := exists v :: v in s.mounted && v < |s.fibers| && s.fibers[v].entry == entry;
      (taken ==> t == s) && (!taken ==> MountedAs(s, t, parent, r, entry, d, h.isolated))
  {
    var r := if h.HostPlugin? then h.base else 0;
    var m := MountStep(s, parent, r, entry, d, h.isolated);
    var t := Host(w, rounds, s, h).state;
    MountMeans(s, parent, r, entry, d, h.isolated);
    MountForest(s, parent, r, entry, d, h.isolated);
    SettleLater(w, m.state, rounds);
    assert t == s || t == m.state || t == Settle(w, m.state, rounds).state;
    SameStore(m.state.store);
    hide MountStep, Settle, MountedAs, Host;
    if m.Ok? { MountedStays(s, m.state, Settle(w, m.state, rounds).state, parent, r, entry, d, h.isolated); }
  }
}
