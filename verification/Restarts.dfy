/** Fiber.restart: whoever is asked to restart is started again, after its effects ran backwards, and a
    failed fiber gets another try. */
module Restarts {
  import opened Lists
  import opened Registry
  import opened Runtime
  import opened Teardown
  import opened Currency
  import opened Settling
  import opened Runs
  import opened Ownership
  import opened OwnedRuns
  import opened Shutdown

  // ---- what the others may do to u ------------------------------------------------------------------

  /** From s to t, u kept its phase or was disposed; a requested restart and its place in the queue stand. */
  ghost predicate Bystander(s: State, t: State, u: Uid) {
    && u < |s.fibers| <= |t.fibers| && s.log <= t.log && s.pending <= t.pending
    && (t.fibers[u].phase == Disposed
        || (t.fibers[u].phase == s.fibers[u].phase && (s.fibers[u].restart ==> t.fibers[u].restart)))
  }

  lemma {:induction false} BystanderTrans(s: State, t: State, r: State, u: Uid)
    requires Bystander(s, t, u) && Bystander(t, r, u)
    requires s.fibers[u].phase == Disposed ==> r.fibers[u].phase == Disposed
    requires t.fibers[u].phase == Disposed ==> r.fibers[u].phase == Disposed
    ensures Bystander(s, r, u)
  {
  }

  lemma {:induction false} WaneBystander(s: State, t: State, low: nat, mine: set<Uid>, u: Uid)
    requires Wane(s, t, low, mine) && s.log <= t.log && u < |s.fibers|
    ensures Bystander(s, t, u)
  {
    assert Fades(s.fibers[u], t.fibers[u], u in mine);
  }

  lemma {:induction false} UnloadBystander(s: State, v: Uid, u: Uid)
    requires v < |s.fibers| && u < |s.fibers| && u != v
    ensures Bystander(s, Unload(s, v), u)
  {
    UnloadWanes(s, v);
    UnloadLogs(s, v);
    WaneBystander(SetPhase(s, v, Pending), Unload(s, v), v + 1, {v}, u);
  }

  lemma {:induction false} DiscardBystander(s: State, v: Uid, u: Uid)
    requires v < |s.fibers| && u < |s.fibers|
    ensures Bystander(s, Discard(s, v), u)
  {
    DiscardWanes(s, v);
    DiscardLogs(s, v);
    WaneBystander(s, Discard(s, v), v + 1, {v}, u);
  }

  lemma {:induction false} ProvideBystander(s: State, who: Uid, r: RealmId, name: Name, u: Uid)
    requires who < |s.fibers| && u < |s.fibers|
    ensures Bystander(s, ProvideStep(s, who, r, name).state, u)
    ensures s.fibers[u].phase == Disposed ==> ProvideStep(s, who, r, name).state.fibers[u].phase == Disposed
  {
    hide Woken, OwnerOf;
  }

  lemma {:induction false} WithdrawBystander(s: State, who: Uid, k: nat, u: Uid)
    requires who < |s.fibers| && k < |s.fibers[who].effects| && u < |s.fibers|
    ensures Bystander(s, WithdrawStep(s, who, k), u)
    ensures s.fibers[u].phase == Disposed ==> WithdrawStep(s, who, k).fibers[u].phase == Disposed
  {
    hide Woken, OwnerOf, IsLive;
  }

  lemma {:induction false} MountBystander(
    s: State, parent: Option<Uid>, r: RealmId, entry: string, d: Decl, isolated: set<Name>, u: Uid)
    requires u < |s.fibers|
    ensures var t := MountStep(s, parent, r, entry, d, isolated).state;
      Bystander(s, t, u) && (s.fibers[u].phase == Disposed ==> t.fibers[u].phase == Disposed)
  {
    hide EntryTaken;
  }

  /** No action changes u's phase, but disposing it. */
  lemma {:induction false} ActBystander(s: State, v: Uid, a: Action, u: Uid)
    requires v < |s.fibers| && u < |s.fibers|
    ensures Bystander(s, Act(s, v, a).state, u)
    ensures s.fibers[u].phase == Disposed ==> Act(s, v, a).state.fibers[u].phase == Disposed
  {
    hide Dispose, ProvideStep, WithdrawStep, MountStep;
    match a {
      case Provide(who, r, name, _) => if who < |s.fibers| { ProvideBystander(s, who, r, name, u); }
      case Withdraw(who, k) => if Acting(s, who) && k < |s.fibers[who].effects| { WithdrawBystander(s, who, k, u); }
      case Mount(who, r, entry, d, isolated, _) => MountBystander(s, Some(who), r, entry, d, isolated, u);
      case Drop(k) =>
        if k < |s.fibers[v].children| && v < s.fibers[v].children[k] < |s.fibers| {
          var c := s.fibers[v].children[k];
          DisposeWanes(s, c);
          DisposeLogs(s, c);
          WaneBystander(s, Dispose(s, c), c, {}, u);
        }
      case _ =>
    }
  }

  lemma {:induction false} RunBystander(s: State, v: Uid, actions: seq<Action>, u: Uid)
    requires v < |s.fibers| && u < |s.fibers|
    ensures Bystander(s, RunActions(s, v, actions).state, u)
    ensures s.fibers[u].phase == Disposed ==> RunActions(s, v, actions).state.fibers[u].phase == Disposed
    decreases |actions|
  {
    if actions != [] {
      hide Act;
      ActGrows(s, v, actions[0]);
      var t := Act(s, v, actions[0]);
      ActBystander(s, v, actions[0], u);
      if t.Ok? {
        RunBystander(t.state, v, actions[1..], u);
        BystanderTrans(s, t.state, RunActions(t.state, v, actions[1..]).state, u);
      }
    }
  }

  /** Once disposed, u stays disposed while others are torn down or loaded. */
  lemma {:induction false} DiscardKeepsDisposed(s: State, v: Uid, u: Uid)
    requires v < |s.fibers| && u < |s.fibers| && s.fibers[u].phase == Disposed
    ensures Discard(s, v).fibers[u].phase == Disposed
  {
    DiscardWanes(s, v);
    assert Fades(s.fibers[u], Discard(s, v).fibers[u], u in {v});
  }

  lemma {:induction false} EndBystander(s: State, t: State, v: Uid, ending: Ending, u: Uid)
    requires Bystander(s, t, u) && v < |t.fibers| && u != v
    requires s.fibers[u].phase == Disposed ==> t.fibers[u].phase == Disposed
    ensures Bystander(s, EndLoad(t, v, ending).state, u)
    ensures s.fibers[u].phase == Disposed ==> EndLoad(t, v, ending).state.fibers[u].phase == Disposed
  {
    DiscardBystander(t, v, u);
    if t.fibers[u].phase == Disposed { DiscardKeepsDisposed(t, v, u); }
    hide Discard;
    BystanderTrans(s, t, Discard(t, v), u);
  }

  lemma {:induction false} LoadBystander(w: Behaviour, s: State, v: Uid, u: Uid)
    requires v < |s.fibers| && u < |s.fibers| && u != v
    ensures Bystander(s, Load(w, s, v).state, u)
    ensures s.fibers[u].phase == Disposed ==> Load(w, s, v).state.fibers[u].phase == Disposed
  {
    var s1 := SetPhase(s, v, Loading);
    var script := w(v, s1);
    hide Discard;
    if script.config != Returns {
      DiscardBystander(s1, v, u);
      if s.fibers[u].phase == Disposed { DiscardKeepsDisposed(s1, v, u); }
    } else {
      var b := BeginApply(s1, v);
      RunBystander(b, v, script.actions, u);
      var t := RunActions(b, v, script.actions).state;
      assert Bystander(s, t, u);
      hide RunActions;
      EndBystander(s, t, v, script.ending, u);
      DiscardBystander(t, v, u);
      if t.fibers[u].phase == Disposed { DiscardKeepsDisposed(t, v, u); }
      BystanderTrans(s, t, Discard(t, v), u);
    }
  }

  lemma {:induction false} UnloadKeepsDisposed(s: State, v: Uid, u: Uid)
    requires v < |s.fibers| && u < |s.fibers| && u != v && s.fibers[u].phase == Disposed
    ensures Unload(s, v).fibers[u].phase == Disposed
  {
    UnloadWanes(s, v);
    assert Fades(SetPhase(s, v, Pending).fibers[u], Unload(s, v).fibers[u], u in {v});
  }

  /** Refreshing another fiber. */
  lemma {:induction false} FollowBystander(w: Behaviour, s: State, v: Uid, u: Uid)
    requires v < |s.fibers| && u < |s.fibers| && u != v
    ensures Bystander(s, Follow(w, s, v).state, u)
    ensures s.fibers[u].phase == Disposed ==> Follow(w, s, v).state.fibers[u].phase == Disposed
  {
    var s1 := SetEpoch(s, v, ComputeEpoch(s, v), Bindings(s, v));
    var z := Unload(s1, v);
    UnloadBystander(s1, v, u);
    if s.fibers[u].phase == Disposed { UnloadKeepsDisposed(s1, v, u); }
    LoadBystander(w, s1, v, u);
    LoadBystander(w, z, v, u);
    hide Load, Unload, ComputeEpoch;
    BystanderTrans(s1, z, Load(w, z, v).state, u);
  }

  lemma {:induction false} RefreshBystander(w: Behaviour, s: State, v: Uid, u: Uid)
    requires v < |s.fibers| && u < |s.fibers| && u != v
    ensures Bystander(s, Refresh(w, s, v).state, u)
    ensures s.fibers[u].phase == Disposed ==> Refresh(w, s, v).state.fibers[u].phase == Disposed
  {
    hide Follow, Unload;
    if s.fibers[v].phase != Disposed {
      var s1 := Put(s, v, s.fibers[v].(restart := false));
      UnloadBystander(s1, v, u);
      if s.fibers[u].phase == Disposed { UnloadKeepsDisposed(s1, v, u); }
      var t := if s.fibers[v].restart then TakeRestart(s, v) else s;
      assert Bystander(s, t, u) && (s.fibers[u].phase == Disposed ==> t.fibers[u].phase == Disposed);
      FollowBystander(w, t, v, u);
      BystanderTrans(s, t, Follow(w, t, v).state, u);
    }
  }

  // ---- a restart that is owed --------------------------------------------------------------------------

  ghost predicate ConfigReturns(w: Behaviour, u: Uid) {
    forall t :: w(u, t).config.Returns?
  }

  /** u was started since, or waits, or is gone, or still has its restart coming. */
  ghost predicate Owing(since: nat, s: State, rest: seq<Uid>, u: Uid) {
    && u < |s.fibers| && since <= |s.log|
    && (StartedSince(since, s.log, u) || s.fibers[u].phase in {Pending, Disposed}
        || (s.fibers[u].phase in {Active, Failed} && s.fibers[u].restart && (u in s.pending || u in rest)))
  }

  lemma {:induction false} StartedStill(since: nat, log: seq<Mark>, log': seq<Mark>, u: Uid)
    requires StartedSince(since, log, u) && log <= log'
    ensures StartedSince(since, log', u)
  {
    var k :| since <= k < |log| && log[k].Start? && log[k].who == u;
    assert log'[k] == log[k];
  }

  lemma {:induction false} OwingBystander(since: nat, s: State, t: State, rest: seq<Uid>, u: Uid)
    requires Owing(since, s, rest, u) && Bystander(s, t, u)
    requires s.fibers[u].phase == Disposed ==> t.fibers[u].phase == Disposed
    ensures Owing(since, t, rest, u)
  {
    if StartedSince(since, s.log, u) { StartedStill(since, s.log, t.log, u); }
  }

  /** A load of u whose config returns starts its apply. */
  lemma {:induction false} LoadStarts(w: Behaviour, s: State, u: Uid)
    requires u < |s.fibers| && w(u, SetPhase(s, u, Loading)).config.Returns?
    ensures var log := Load(w, s, u).state.log;
      s.log <= log && |s.log| < |log| && log[|s.log|].Start? && log[|s.log|].who == u
  {
    var s1 := SetPhase(s, u, Loading);
    var b := BeginApply(s1, u);
    var script := w(u, s1);
    RunRises(b, u, script.actions);
    var t := RunActions(b, u, script.actions).state;
    DiscardLogs(t, u);
    hide Discard, RunActions;
  }

  /** u's own turn: it ends started, or waiting, or gone. */
  lemma {:induction false} OwnTurn(since: nat, w: Behaviour, s: State, rest: seq<Uid>, u: Uid)
    requires Owing(since, s, rest, u) && ConfigReturns(w, u)
    ensures Owing(since, Refresh(w, s, u).state, [], u)
  {
    hide Load, Unload;
    RefreshRises(w, s, u);
    var t := if s.fibers[u].restart then TakeRestart(s, u) else s;
    if StartedSince(since, s.log, u) {
      StartedStill(since, s.log, Refresh(w, s, u).state.log, u);
    } else if s.fibers[u].phase != Disposed {
      if s.fibers[u].restart {
        UnloadWanes(Put(s, u, s.fibers[u].(restart := false)), u);
        RestartRises(s, u);
      }
      assert t.fibers[u].phase == Pending && since <= |t.log|;
      PendingTurn(since, w, t, u);
    }
  }

  lemma {:induction false} PendingTurn(since: nat, w: Behaviour, s: State, u: Uid)
    requires u < |s.fibers| && s.fibers[u].phase == Pending && since <= |s.log| && ConfigReturns(w, u)
    ensures Owing(since, Follow(w, s, u).state, [], u)
  {
    var s1 := SetEpoch(s, u, ComputeEpoch(s, u), Bindings(s, u));
    UnloadLogs(s1, u);
    hide Load, Unload, ComputeEpoch;
    LoadStarts(w, s1, u);
    LoadStarts(w, Unload(s1, u), u);
  }

  lemma {:induction false} RefreshOwing(since: nat, w: Behaviour, s: State, v: Uid, rest: seq<Uid>, u: Uid)
    requires Owing(since, s, [v] + rest, u) && v < |s.fibers| && ConfigReturns(w, u)
    ensures Owing(since, Refresh(w, s, v).state, rest, u)
  {
    hide Refresh;
    if v == u {
      OwnTurn(since, w, s, [v] + rest, u);
    } else {
      assert u in [v] + rest ==> u in rest;
      RefreshBystander(w, s, v, u);
      OwingBystander(since, s, Refresh(w, s, v).state, rest, u);
    }
  }

  lemma {:induction false} BatchOwing(since: nat, w: Behaviour, s: State, batch: seq<Uid>, u: Uid)
    requires Owing(since, s, batch, u) && Uids(s, batch) && ConfigReturns(w, u) && RunBatch(w, s, batch).Done?
    ensures Owing(since, RunBatch(w, s, batch).state, [], u)
    decreases |batch|
  {
    if batch != [] {
      hide Refresh, Owing;
      assert batch[0] in batch && batch == [batch[0]] + batch[1..] && forall v :: v in batch[1..] ==> v in batch;
      RefreshOwing(since, w, s, batch[0], batch[1..], u);
      BatchOwing(since, w, Refresh(w, s, batch[0]).state, batch[1..], u);
    }
  }

  lemma {:induction false} OwingDrawn(since: nat, s: State, u: Uid)
    requires Owing(since, s, [], u)
    ensures Owing(since, s.(pending := []), Dedup(s.pending), u)
  {
  }

  lemma {:induction false} SettleOwing(since: nat, w: Behaviour, s: State, rounds: nat, u: Uid)
    requires Owing(since, s, [], u) && ConfigReturns(w, u) && Settle(w, s, rounds).Done?
    ensures Owing(since, Settle(w, s, rounds).state, [], u)
    decreases rounds
  {
    if s.pending != [] {
      hide RunBatch, Owing, Dedup;
      var s0 := s.(pending := []);
      OwingDrawn(since, s, u);
      BatchOwing(since, w, s0, Dedup(s.pending), u);
      SettleOwing(since, w, RunBatch(w, s0, Dedup(s.pending)).state, rounds - 1, u);
    }
  }

  /** What the settle leaves: u was started since, unless it is gone or its services are. */
  lemma {:induction false} OwedIsPaid(since: nat, w: Behaviour, s: State, rounds: nat, u: Uid)
    requires Owing(since, s, [], u) && ConfigReturns(w, u) && Steady(s, {}, []) && Settle(w, s, rounds).Done?
    ensures var t := Settle(w, s, rounds).state;
      u < |t.fibers| && (t.fibers[u].phase != Disposed && FedAt(t, u) ==> StartedSince(since, t.log, u))
  {
    var t := Settle(w, s, rounds).state;
    SettleOwing(since, w, s, rounds, u);
    SettleSteady(w, s, rounds, {});
    hide Settle, Steady;
    QuietNoStale(t);
  }

  /** Every required injection resolves. */
  ghost predicate FedAt(s: State, u: Uid)
    requires u < |s.fibers|
  {
    forall n :: n in s.fibers[u].decl.inject ==> Resolve(s.store, s.fibers[u].realm, n).Some?
  }

  /** Main result: after a host restart of any mounted fiber, from any steady state and whatever was queued,
      once the call returns the fiber's apply was started again, unless it is gone by then or a service it
      requires is. */
  lemma {:induction false} RestartRestarts(w: Behaviour, rounds: nat, s: State, u: Uid)
    requires Steady(s, {}, []) && u < |s.fibers| && s.fibers[u].phase != Disposed && ConfigReturns(w, u)
    requires Host(w, rounds, s, HostRestart(u)).Done?
    ensures var t := Host(w, rounds, s, HostRestart(u)).state;
      u < |t.fibers| && (t.fibers[u].phase != Disposed && FedAt(t, u) ==> StartedSince(|s.log|, t.log, u))
  {
    var s1 := RestartStep(s, u);
    RestartStepSteady(s, u, {});
    assert s1.pending[|s.pending|] == u;
    OwedIsPaid(|s.log|, w, s1, rounds, u);
  }

  /** Where in the log to look for u's new start: past the load that asked, if it was u's own. */
  function Since(s: State, v: Uid, u: Uid): nat {
    |s.log| + if u == v then 1 else 0
  }

  /** Main result: the same when a plugin asks for it. In the load of v the k-th action asks for a restart of
      u, v itself maybe; whatever follows in that apply, the rest of the batch and the settle, once the queue
      has drained u's apply was started again since, unless it is gone by then or a service it requires is. */
  lemma {:induction false} RequestedRestarts(
    w: Behaviour, s: State, v: Uid, k: nat, u: Uid, rest: seq<Uid>, rounds: nat)
    requires v < |s.fibers| && Rest(s, {v})
    requires ConfigReturns(w, u) && w(v, SetPhase(s, v, Loading)).config.Returns?
    requires var actions := w(v, SetPhase(s, v, Loading)).actions;
      k < |actions| && actions[k] == Restart(u) && Reached(w, s, v, k, u)
    requires Load(w, s, v).Done? && Steady(Load(w, s, v).state, {}, rest) && Uids(Load(w, s, v).state, rest)
    requires RunBatch(w, Load(w, s, v).state, rest).Done?
    requires Settle(w, RunBatch(w, Load(w, s, v).state, rest).state, rounds).Done?
    ensures var t := Settle(w, RunBatch(w, Load(w, s, v).state, rest).state, rounds).state;
      u < |t.fibers| && (t.fibers[u].phase != Disposed && FedAt(t, u) ==> StartedSince(Since(s, v, u), t.log, u))
  {
    if u == v { OwnLoadOwing(w, s, u, k); } else { LoadOwing(w, s, v, k, u); }
    var l := Load(w, s, v).state;
    hide Load, RunBatch, Settle, Owing;
    MoreRest(Since(s, v, u), l, rest, u);
    BatchOwing(Since(s, v, u), w, l, rest, u);
    RunBatchSteady(w, l, rest, {});
    OwedIsPaid(Since(s, v, u), w, RunBatch(w, l, rest).state, rounds, u);
  }

  lemma {:induction false} MoreRest(since: nat, s: State, rest: seq<Uid>, u: Uid)
    requires Owing(since, s, [], u)
    ensures Owing(since, s, rest, u)
  {
  }

  /** The apply of v comes to its k-th action, and u is mounted then. */
  ghost predicate Reached(w: Behaviour, s: State, v: Uid, k: nat, u: Uid)
    requires v < |s.fibers|
  {
    var s1 := SetPhase(s, v, Loading);
    var actions := w(v, s1).actions;
    k <= |actions| &&
    var t := RunActions(BeginApply(s1, v), v, actions[..k]);
    t.Ok? && u < |t.state.fibers| && t.state.fibers[u].phase != Disposed
  }

  lemma {:induction false} RunSplit(s: State, v: Uid, a: seq<Action>, b: seq<Action>)
    requires v < |s.fibers| && RunActions(s, v, a).Ok?
    ensures RunActions(s, v, a + b) == RunActions(RunActions(s, v, a).state, v, b)
    decreases |a|
  {
    if a == [] {
      assert a + b == b;
    } else {
      hide Act;
      ActGrows(s, v, a[0]);
      assert (a + b)[1..] == a[1..] + b;
      RunSplit(Act(s, v, a[0]).state, v, a[1..], b);
    }
  }

  lemma {:induction false} LoadOwing(w: Behaviour, s: State, v: Uid, k: nat, u: Uid)
    requires v < |s.fibers| && u != v && Rest(s, {v}) && w(v, SetPhase(s, v, Loading)).config.Returns?
    requires var actions := w(v, SetPhase(s, v, Loading)).actions;
      k < |actions| && actions[k] == Restart(u) && Reached(w, s, v, k, u)
    ensures Owing(|s.log|, Load(w, s, v).state, [], u)
  {
    var s1 := SetPhase(s, v, Loading);
    var script := w(v, s1);
    var b := BeginApply(s1, v);
    var pre, post := script.actions[..k], script.actions[k + 1..];
    var t := RunActions(b, v, pre).state;
    RunRises(b, v, pre);
    RunRest(b, v, pre, {v});
    RunSplit(b, v, pre, script.actions[k..]);
    assert pre + script.actions[k..] == script.actions;
    assert script.actions[k..][0] == Restart(u) && script.actions[k..][1..] == post;
    var t1 := Act(t, v, Restart(u)).state;
    assert t1.pending[|t.pending|] == u;
    assert Owing(|s.log|, t1, [], u);
    assert RunActions(t, v, script.actions[k..]) == RunActions(t1, v, post);
    hide Owing;
    RunBystander(t1, v, post, u);
    var e := RunActions(t1, v, post).state;
    OwingBystander(|s.log|, t1, e, [], u);
    EndBystander(e, e, v, script.ending, u);
    DiscardBystander(e, v, u);
    if e.fibers[u].phase == Disposed { DiscardKeepsDisposed(e, v, u); }
    hide RunActions, Discard, Act;
    OwingBystander(|s.log|, e, EndLoad(e, v, script.ending).state, [], u);
    OwingBystander(|s.log|, e, Discard(e, v), [], u);
    OwingFails(|s.log|, Discard(e, v), v, u);
  }

  /** Where u's own apply stops, its restart is requested and queued. */
  lemma {:induction false} OwnRunOwing(s: State, u: Uid, actions: seq<Action>, k: nat)
    requires u < |s.fibers| && s.fibers[u].phase == Loading && k < |actions| && actions[k] == Restart(u)
    requires RunActions(s, u, actions[..k]).Ok?
    requires u < |RunActions(s, u, actions[..k]).state.fibers|
    requires RunActions(s, u, actions[..k]).state.fibers[u].phase != Disposed
    ensures var e := RunActions(s, u, actions).state;
      && u < |e.fibers| && e.fibers[u].phase == Loading && e.fibers[u].restart && u in e.pending && s.log <= e.log
  {
    var t := RunActions(s, u, actions[..k]).state;
    var post := actions[k + 1..];
    RunRises(s, u, actions[..k]);
    RunSplit(s, u, actions[..k], actions[k..]);
    assert actions[..k] + actions[k..] == actions;
    assert actions[k..][0] == Restart(u) && actions[k..][1..] == post;
    var t1 := Act(t, u, Restart(u)).state;
    assert t1.pending[|t.pending|] == u && t1.fibers[u].restart;
    assert RunActions(t, u, actions[k..]) == RunActions(t1, u, post);
    hide RunActions, Act;
    RunBystander(t1, u, post, u);
    RunKeepsLoad(s, u, actions);
  }

  lemma {:induction false} OwnLoadOwing(w: Behaviour, s: State, u: Uid, k: nat)
    requires u < |s.fibers| && w(u, SetPhase(s, u, Loading)).config.Returns? && Load(w, s, u).Done?
    requires var actions := w(u, SetPhase(s, u, Loading)).actions;
      k < |actions| && actions[k] == Restart(u) && Reached(w, s, u, k, u)
    ensures Owing(|s.log| + 1, Load(w, s, u).state, [], u)
  {
    var s1 := SetPhase(s, u, Loading);
    var b := BeginApply(s1, u);
    var actions := w(u, s1).actions;
    OwnRunOwing(b, u, actions, k);
    var e := RunActions(b, u, actions).state;
    hide RunActions;
    DiscardBystander(e, u, u);
    DiscardWanes(e, u);
    hide Discard;
    assert Fades(e.fibers[u], Discard(e, u).fibers[u], u in {u});
  }

  lemma {:induction false} OwingFails(since: nat, s: State, v: Uid, u: Uid)
    requires Owing(since, s, [], u) && v < |s.fibers| && u != v
    ensures Owing(since, Fail(s, v), [], u)
  {
  }

  // ---- who an unload leaves alone ------------------------------------------------------------------------

  /** v sits below u in the tree. */
  ghost predicate Under(s: State, u: Uid, v: Uid)
    decreases v
  {
    && v < |s.fibers| && s.fibers[v].parent.Some? && s.fibers[v].parent.value < v
    && (s.fibers[v].parent.value == u || Under(s, u, s.fibers[v].parent.value))
  }

  lemma {:induction false} UnderTrans(s: State, u: Uid, v: Uid, x: Uid)
    requires Under(s, u, v) && Under(s, v, x)
    ensures Under(s, u, x)
    decreases x
  {
    if s.fibers[x].parent.value != v { UnderTrans(s, u, v, s.fibers[x].parent.value); }
  }

  lemma {:induction false} UnderSame(s: State, t: State, u: Uid, v: Uid)
    requires |t.fibers| == |s.fibers|
    requires forall x: Uid :: x < |s.fibers| ==> t.fibers[x].parent == s.fibers[x].parent
    ensures Under(t, u, v) == Under(s, u, v)
    decreases v
  {
    if v < |s.fibers| && s.fibers[v].parent.Some? && s.fibers[v].parent.value < v {
      UnderSame(s, t, u, s.fibers[v].parent.value);
    }
  }

  /** Whoever is neither u nor below it kept phase and effects. */
  ghost predicate Aside(s: State, t: State, u: Uid) {
    && |t.fibers| == |s.fibers|
    && (forall v: Uid :: v < |s.fibers| ==> t.fibers[v].parent == s.fibers[v].parent)
    && (forall v: Uid :: v < |s.fibers| && v != u && !Under(s, u, v) ==>
      t.fibers[v].phase == s.fibers[v].phase && t.fibers[v].effects == s.fibers[v].effects)
  }

  lemma {:induction false} AsideTrans(s: State, t: State, r: State, u: Uid)
    requires Aside(s, t, u) && Aside(t, r, u)
    ensures Aside(s, r, u)
  {
    forall v: Uid | v < |s.fibers| && v != u && !Under(s, u, v)
      ensures r.fibers[v].phase == s.fibers[v].phase && r.fibers[v].effects == s.fibers[v].effects
    {
      UnderSame(s, t, u, v);
    }
  }

  /** What a child's disposal leaves alone, the parent's does. */
  lemma {:induction false} AsideUp(s: State, t: State, u: Uid, c: Uid)
    requires Aside(s, t, c) && Under(s, u, c)
    ensures Aside(s, t, u)
  {
    forall v: Uid | v < |s.fibers| && v != u && !Under(s, u, v) ensures v != c && !Under(s, c, v) {
      if Under(s, c, v) { UnderTrans(s, u, c, v); }
    }
  }

  lemma {:induction false} DiscardAside(s: State, u: Uid)
    requires Kept(s) && u < |s.fibers|
    ensures Aside(s, Discard(s, u), u)
    decreases |s.fibers| - u, 1, 0
  {
    var s1 := DisposeAll(s, u, s.fibers[u].children);
    DisposeAllAside(s, u, s.fibers[u].children);
    var s2 := Put(s1, u, s1.fibers[u].(provided := {}));
    UnwindAlone(s2, u);
    UnwindWanes(s2, u);
    var r := Unwind(s2, u);
    assert Fades(s2.fibers[u], r.fibers[u], u in {u});
    assert Aside(s1, r, u);
    AsideTrans(s, s1, r, u);
  }

  lemma {:induction false} DisposeAllAside(s: State, u: Uid, cs: seq<Uid>)
    requires Kept(s) && u < |s.fibers|
    requires forall c :: c in cs && c < |s.fibers| ==> s.fibers[c].parent == Some(u)
    ensures Aside(s, DisposeAll(s, u, cs), u)
    decreases |s.fibers| - u, 0, |cs|
  {
    if cs != [] {
      assert cs[0] in cs && forall c :: c in cs[1..] ==> c in cs;
      if u < cs[0] < |s.fibers| {
        var t := Dispose(s, cs[0]);
        DisposeAside(s, cs[0]);
        DisposeKept(s, cs[0]);
        AsideUp(s, t, u, cs[0]);
        DisposeAllAside(t, u, cs[1..]);
        AsideTrans(s, t, DisposeAll(t, u, cs[1..]), u);
      } else {
        DisposeAllAside(s, u, cs[1..]);
      }
    }
  }

  lemma {:induction false} UnloadAside(s: State, u: Uid)
    requires Kept(s) && u < |s.fibers| && s.fibers[u].phase != Disposed
    ensures Aside(s, Unload(s, u), u)
    decreases |s.fibers| - u, 2
  {
    var t := SetPhase(s, u, Unloading);
    PutKept(s, u, s.fibers[u].(phase := Unloading));
    assert t == Put(s, u, s.fibers[u].(phase := Unloading));
    DiscardAside(t, u);
    hide Discard;
    AsideTrans(s, t, Discard(t, u), u);
    AsideTrans(s, Discard(t, u), Unload(s, u), u);
  }

  lemma {:induction false} DisposeAside(s: State, u: Uid)
    requires Kept(s) && u < |s.fibers|
    ensures Aside(s, Dispose(s, u), u)
    decreases |s.fibers| - u, 3
  {
    hide Discard, Unload, Aside, Kept, Forget;
    if s.fibers[u].phase == Failed {
      DiscardAside(s, u);
      ForgetAside(Discard(s, u), u);
      AsideTrans(s, Discard(s, u), Forget(Discard(s, u), u), u);
    } else if s.fibers[u].phase != Disposed {
      UnloadAside(s, u);
      ForgetAside(Unload(s, u), u);
      AsideTrans(s, Unload(s, u), Forget(Unload(s, u), u), u);
    } else {
      ForgetAside(s, u);
    }
  }

  lemma {:induction false} ForgetAside(s: State, u: Uid)
    requires u < |s.fibers|
    ensures Aside(s, Forget(s, u), u) && Aside(s, s, u)
  {
  }

  // ---- what u requires stands while it restarts ----------------------------------------------------------

  /** Whatever is ACTIVE below u became so after u. */
  lemma {:induction false} UnderLater(s: State, u: Uid, v: Uid)
    requires Own(s, {}) && Rest(s, {}) && Under(s, u, v) && s.fibers[v].phase == Active
    ensures u in s.activation && Pos(s.activation, u) < Pos(s.activation, v)
    decreases v
  {
    var p := s.fibers[v].parent.value;
    assert Placed(s, v, {});
    assert v in s.fibers[p].children;
    if p != u {
      assert s.fibers[p].phase == Active;
      UnderLater(s, u, p);
    }
  }

  /** A registration u's apply started from belongs to nobody an unload of u touches. */
  lemma {:induction false} ProviderAside(s: State, u: Uid, b: Impl)
    requires Own(s, {}) && Rest(s, {}) && u < |s.fibers| && s.fibers[u].phase == Active && IsLive(s.store, b)
    requires Some(b) in s.fibers[u].bound
    ensures b.owner != u && !Under(s, u, b.owner) && b.owner < |s.fibers| && Files(s.fibers[b.owner], b)
  {
    assert Placed(s, u, {});
    var i :| 0 <= i < |s.fibers[u].bound| && s.fibers[u].bound[i] == Some(b);
    assert Precedes(s, b.owner, u);
    LiveFiled(s, b);
    if Under(s, u, b.owner) { UnderLater(s, u, b.owner); }
  }

  lemma {:induction false} StillFed(s: State, t: State, u: Uid)
    requires Own(s, {}) && Rest(s, {}) && NoStale(s) && u < |s.fibers| && s.fibers[u].phase == Active && FedAt(s, u)
    requires Aside(s, t, u) && Filed(t) && t.store.realms == s.store.realms
    requires t.fibers[u].decl == s.fibers[u].decl && t.fibers[u].realm == s.fibers[u].realm
    ensures FedAt(t, u)
  {
    var names := s.fibers[u].decl.Names();
    forall n | n in t.fibers[u].decl.inject ensures Resolve(t.store, t.fibers[u].realm, n).Some? {
      assert Resolve(s.store, s.fibers[u].realm, n).Some?;
      var i :| 0 <= i < |s.fibers[u].decl.inject| && s.fibers[u].decl.inject[i] == n;
      assert names[i] == n;
      var b := s.fibers[u].bound[i].value;
      assert s.fibers[u].bound[i] == Resolve(s.store, s.fibers[u].realm, n);
      assert s.store.impls[b.slot] == b by { assert Filed(s); }
      ProviderAside(s, u, b);
      assert EffectsOk(t.store, b.owner, t.fibers[b.owner].effects);
      var k :| 0 <= k < |t.fibers[b.owner].effects| && t.fibers[b.owner].effects[k] == Undo(b);
    }
  }

  // ---- the log of a restart ------------------------------------------------------------------------------

  /** From log to log' only disposers of fibers above u ran. */
  ghost predicate RanAbove(log: seq<Mark>, log': seq<Mark>, u: Uid) {
    log <= log' && forall k :: |log| <= k < |log'| ==> log'[k].Ran? && log'[k].who > u
  }

  lemma {:induction false} DisposeAbove(s: State, c: Uid, u: Uid)
    requires u < c < |s.fibers|
    ensures RanAbove(s.log, Dispose(s, c).log, u)
    decreases |s.fibers| - c, 3
  {
    if s.fibers[c].phase == Failed {
      DiscardAbove(s, c, u);
    } else if s.fibers[c].phase != Disposed {
      DiscardAbove(SetPhase(s, c, Unloading), c, u);
    }
  }

  lemma {:induction false} DiscardAbove(s: State, c: Uid, u: Uid)
    requires u < c < |s.fibers|
    ensures RanAbove(s.log, Discard(s, c).log, u)
    decreases |s.fibers| - c, 1, 0
  {
    var s1 := DisposeAll(s, c, s.fibers[c].children);
    DisposeAllAbove(s, c, s.fibers[c].children, u);
    UnwindMarks(Put(s1, c, s1.fibers[c].(provided := {})), c);
  }

  lemma {:induction false} DisposeAllAbove(s: State, c: Uid, cs: seq<Uid>, u: Uid)
    requires c < |s.fibers| && u <= c
    ensures RanAbove(s.log, DisposeAll(s, c, cs).log, u)
    decreases |s.fibers| - c, 0, |cs|
  {
    if cs != [] {
      if c < cs[0] < |s.fibers| {
        DisposeAbove(s, cs[0], u);
        DisposeAllAbove(Dispose(s, cs[0]), c, cs[1..], u);
      } else {
        DisposeAllAbove(s, c, cs[1..], u);
      }
    }
  }

  /** From position `from` on, after disposers of others up to position a, the log shows u's disposers of es,
      the newest first, and then u's apply starting. */
  ghost predicate Cycled(log: seq<Mark>, from: nat, a: nat, u: Uid, es: seq<Effect>) {
    && from <= a && a + |es| < |log|
    && (forall k :: from <= k < a ==> log[k].Ran? && log[k].who != u)
    && (forall k :: a <= k < a + |es| ==>
      log[k].Ran? && log[k].who == u && log[k].effect == es[a + |es| - 1 - k])
    && log[a + |es|].Start? && log[a + |es|].who == u
  }

  lemma {:induction false} CycledStill(log: seq<Mark>, log': seq<Mark>, from: nat, a: nat, u: Uid, es: seq<Effect>)
    requires Cycled(log, from, a, u, es) && log <= log'
    ensures Cycled(log', from, a, u, es)
  {
    assert forall k :: 0 <= k < |log| ==> log'[k] == log[k];
  }

  /** Unloading u: the disposers of what it mounted, then its own, backwards. */
  lemma {:induction false} UnloadRuns(s: State, u: Uid) returns (a: nat)
    requires u < |s.fibers| && s.fibers[u].phase != Disposed
    ensures var log := Unload(s, u).log;
      && s.log <= log && |s.log| <= a <= |log| && RanAbove(s.log, log[..a], u)
      && RanBackwards(log, a, u, s.fibers[u].effects)
  {
    var t := SetPhase(s, u, Unloading);
    var s1 := DisposeAll(t, u, s.fibers[u].children);
    DisposeAllAbove(t, u, s.fibers[u].children, u);
    DisposeAllWanes(t, u, s.fibers[u].children);
    assert Fades(t.fibers[u], s1.fibers[u], false);
    var s2 := Put(s1, u, s1.fibers[u].(provided := {}));
    UnwindRunsBackwards(s2, u);
    UnwindMarks(s2, u);
    a := |s1.log|;
    assert Unload(s, u).log == Unwind(s2, u).log;
    assert Unwind(s2, u).log[..a] == s1.log;
  }

  lemma {:induction false} BatchGrows(w: Behaviour, s: State, batch: seq<Uid>)
    requires Uids(s, batch)
    ensures s.log <= RunBatch(w, s, batch).state.log
    decreases |batch|
  {
    if batch != [] {
      hide Refresh;
      assert batch[0] in batch && forall v :: v in batch[1..] ==> v in batch;
      RefreshRises(w, s, batch[0]);
      if Refresh(w, s, batch[0]).Done? { BatchGrows(w, Refresh(w, s, batch[0]).state, batch[1..]); }
    }
  }

  lemma {:induction false} SettleGrows(w: Behaviour, s: State, rounds: nat)
    ensures s.log <= Settle(w, s, rounds).state.log
    decreases rounds
  {
    if s.pending != [] && rounds != 0 && Uids(s, s.pending) {
      hide RunBatch;
      var s0 := s.(pending := []);
      BatchGrows(w, s0, Dedup(s.pending));
      var t := RunBatch(w, s0, Dedup(s.pending));
      if t.Done? { SettleGrows(w, t.state, rounds - 1); }
    }
  }

  /** The state u's restart finds when nothing else is queued. */
  function Flagged(s: State, u: Uid): State
    requires u < |s.fibers|
  {
    Put(s, u, s.fibers[u].(restart := true))
  }

  lemma {:induction false} AloneInQueue(w: Behaviour, rounds: nat, s: State, u: Uid)
    requires u < |s.fibers| && s.pending == [] && s.fibers[u].phase != Disposed && rounds > 0
    ensures var r := Host(w, rounds, s, HostRestart(u));
      var t := Refresh(w, Flagged(s, u), u);
      && t.state.log <= r.state.log
      && (t.Done? ==> r == Settle(w, t.state, rounds - 1))
  {
    var s1 := RestartStep(s, u);
    var us: seq<Uid> := [u];
    assert s1.pending == us && NoDup(us);
    DedupIsIdentity(us);
    var s0 := s1.(pending := []);
    assert s0 == Flagged(s, u);
    hide Refresh;
    assert us[1..] == [];
    var t := Refresh(w, s0, u);
    assert RunBatch(w, s0, us) ==
      if t.Done? then RunBatch(w, t.state, []) else Aborted(t.state.(pending := [] + t.state.pending));
    if t.Done? { SettleGrows(w, t.state, rounds - 1); }
  }

  // ---- an ACTIVE fiber ---------------------------------------------------------------------------------------

  /** The flag makes no difference but to the refresh. */
  lemma {:induction false} FlaggedOwn(s: State, u: Uid)
    requires Own(s, {}) && Rest(s, {}) && NoStale(s) && u < |s.fibers| && FedAt(s, u)
    ensures var f := Put(Flagged(s, u), u, Flagged(s, u).fibers[u].(restart := false));
      && Own(f, {}) && Rest(f, {}) && NoStale(f) && FedAt(f, u)
  {
    var f := Put(Flagged(s, u), u, Flagged(s, u).fibers[u].(restart := false));
    PutOwn(s, u, s.fibers[u].(restart := false), {});
    assert f == Put(s, u, s.fibers[u].(restart := false));
    forall v: Uid | v < |s.fibers| ensures Bindings(f, v) == Bindings(s, v) { EpochAgree(s, f, v); }
  }

  lemma {:induction false} UnloadedFed(s: State, u: Uid)
    requires Own(s, {}) && Rest(s, {}) && NoStale(s) && u < |s.fibers| && s.fibers[u].phase == Active && FedAt(s, u)
    ensures FedAt(Unload(s, u), u) && Unload(s, u).fibers[u].phase == Pending
  {
    UnloadWanes(s, u);
    assert Fades(SetPhase(s, u, Pending).fibers[u], Unload(s, u).fibers[u], u in {u});
    UnloadAside(s, u);
    UnloadKept(s, u);
    hide Unload;
    StillFed(s, Unload(s, u), u);
  }

  /** From an inactive epoch, whoever is fed loads. */
  lemma {:induction false} FedLoads(w: Behaviour, s: State, u: Uid)
    requires u < |s.fibers| && s.fibers[u].phase == Pending && FedAt(s, u) && ConfigReturns(w, u)
    ensures var t := SetEpoch(s, u, Inactive, s.fibers[u].seen);
      var log := Follow(w, t, u).state.log;
      s.log <= log && |s.log| < |log| && log[|s.log|].Start? && log[|s.log|].who == u
  {
    var t := SetEpoch(s, u, Inactive, s.fibers[u].seen);
    EpochAgree(s, t, u);
    LiveIffResolved(t, u);
    assert FedAt(t, u);
    LoadStarts(w, SetEpoch(t, u, ComputeEpoch(t, u), Bindings(t, u)), u);
    hide Load;
  }

  /** Main result: restarting an ACTIVE fiber of a quiet tree, every disposer of what it mounted and then each
      of its own effects runs, the newest first, and then its apply starts again, whatever becomes of the rest
      of the settle. */
  lemma {:induction false} RestartCycles(w: Behaviour, rounds: nat, s: State, u: Uid) returns (a: nat)
    requires Steady(s, {}, []) && Own(s, {}) && s.pending == [] && rounds > 0
    requires u < |s.fibers| && s.fibers[u].phase == Active && FedAt(s, u) && ConfigReturns(w, u)
    ensures s.log <= Host(w, rounds, s, HostRestart(u)).state.log
    ensures Cycled(Host(w, rounds, s, HostRestart(u)).state.log, |s.log|, a, u, s.fibers[u].effects)
  {
    AloneInQueue(w, rounds, s, u);
    QuietNoStale(s);
    FlaggedOwn(s, u);
    var f := Put(Flagged(s, u), u, Flagged(s, u).fibers[u].(restart := false));
    hide Own, Rest, NoStale, Core;
    UnloadedFed(f, u);
    a := UnloadRuns(f, u);
    var t := Unload(f, u);
    FedLoads(w, t, u);
    var r := Refresh(w, Flagged(s, u), u);
    assert r == Follow(w, SetEpoch(t, u, Inactive, t.fibers[u].seen), u);
    hide Unload, Follow, Refresh, Host;
    CycleEnds(s.log, t.log, r.state.log, a, u, s.fibers[u].effects);
    CycledStill(r.state.log, Host(w, rounds, s, HostRestart(u)).state.log, |s.log|, a, u, s.fibers[u].effects);
  }

  lemma {:induction false} CycleEnds(
    log: seq<Mark>, log1: seq<Mark>, log2: seq<Mark>, a: nat, u: Uid, es: seq<Effect>)
    requires log <= log1 <= log2 && |log| <= a <= |log1| && RanAbove(log, log1[..a], u) && RanBackwards(log1, a, u, es)
    requires |log1| < |log2| && log2[|log1|].Start? && log2[|log1|].who == u
    ensures Cycled(log2, |log|, a, u, es)
  {
    forall k | 0 <= k < |log1| ensures log2[k] == log1[k] { }
    forall k | |log| <= k < a ensures log2[k].Ran? && log2[k].who != u { assert log1[..a][k] == log1[k]; }
  }

  // ---- a FAILED fiber ------------------------------------------------------------------------------------------

  /** The tree as the config of a failed fiber's new load finds it: its epoch computed, nothing queued. */
  function Asked(s: State, u: Uid): State
    requires u < |s.fibers|
  {
    Put(s, u, s.fibers[u].(restart := false, phase := Loading, epoch := ComputeEpoch(s, u), seen := Bindings(s, u)))
  }

  /** The apply that is asked there does all it wants to, provides what it declares, and returns. */
  ghost predicate Succeeds(w: Behaviour, s: State, u: Uid)
    requires u < |s.fibers|
  {
    var script := w(u, Asked(s, u));
    && script.config.Returns? && script.ending.Returns?
    && var t := RunActions(BeginApply(Asked(s, u), u), u, script.actions);
      t.Ok? && t.state.fibers[u].decl.provide <= t.state.fibers[u].provided
  }

  /** u has not failed, or was started since. */
  ghost predicate Unfailed(since: nat, s: State, u: Uid) {
    u < |s.fibers| && since <= |s.log| && (StartedSince(since, s.log, u) || s.fibers[u].phase != Failed)
  }

  lemma {:induction false} FollowUnfailed(since: nat, w: Behaviour, s: State, u: Uid)
    requires Unfailed(since, s, u) && ConfigReturns(w, u)
    ensures Unfailed(since, Follow(w, s, u).state, u)
  {
    FollowRises(w, s, u);
    var s1 := SetEpoch(s, u, ComputeEpoch(s, u), Bindings(s, u));
    UnloadWanes(s1, u);
    UnloadLogs(s1, u);
    LoadStarts(w, s1, u);
    LoadStarts(w, Unload(s1, u), u);
    hide Load, Unload, ComputeEpoch, Follow;
    if StartedSince(since, s.log, u) {
      StartedStill(since, s.log, Follow(w, s, u).state.log, u);
    } else {
      FollowEither(w, s, u);
    }
  }

  /** A refresh of a fiber that has not failed loads it or leaves it unfailed. */
  lemma {:induction false} FollowEither(w: Behaviour, s: State, u: Uid)
    requires u < |s.fibers| && s.fibers[u].phase != Failed
    ensures var s1 := SetEpoch(s, u, ComputeEpoch(s, u), Bindings(s, u));
      var r := Follow(w, s, u);
      || r == Done(s) || r == Done(s1) || r == Done(Unload(s1, u)) || r == Load(w, s1, u)
      || r == Load(w, Unload(s1, u), u)
  {
  }

  lemma {:induction false} RefreshUnfailed(since: nat, w: Behaviour, s: State, v: Uid, u: Uid)
    requires Unfailed(since, s, u) && v < |s.fibers| && ConfigReturns(w, u)
    ensures Unfailed(since, Refresh(w, s, v).state, u)
  {
    hide Follow, Unload;
    if v != u {
      RefreshBystander(w, s, v, u);
      if StartedSince(since, s.log, u) { StartedStill(since, s.log, Refresh(w, s, v).state.log, u); }
    } else if s.fibers[u].phase != Disposed {
      var t := if s.fibers[u].restart then TakeRestart(s, u) else s;
      if s.fibers[u].restart {
        RestartRises(s, u);
        UnloadWanes(Put(s, u, s.fibers[u].(restart := false)), u);
        if StartedSince(since, s.log, u) { StartedStill(since, s.log, t.log, u); }
      }
      FollowUnfailed(since, w, t, u);
    }
  }

  lemma {:induction false} BatchUnfailed(since: nat, w: Behaviour, s: State, batch: seq<Uid>, u: Uid)
    requires Unfailed(since, s, u) && Uids(s, batch) && ConfigReturns(w, u) && RunBatch(w, s, batch).Done?
    ensures Unfailed(since, RunBatch(w, s, batch).state, u)
    decreases |batch|
  {
    if batch != [] {
      hide Refresh, Unfailed;
      assert batch[0] in batch && forall v :: v in batch[1..] ==> v in batch;
      RefreshUnfailed(since, w, s, batch[0], u);
      BatchUnfailed(since, w, Refresh(w, s, batch[0]).state, batch[1..], u);
    }
  }

  lemma {:induction false} SettleUnfailed(since: nat, w: Behaviour, s: State, rounds: nat, u: Uid)
    requires Unfailed(since, s, u) && ConfigReturns(w, u) && Settle(w, s, rounds).Done?
    ensures Unfailed(since, Settle(w, s, rounds).state, u)
    decreases rounds
  {
    if s.pending != [] {
      hide RunBatch;
      var s0 := s.(pending := []);
      assert Unfailed(since, s0, u);
      BatchUnfailed(since, w, s0, Dedup(s.pending), u);
      SettleUnfailed(since, w, RunBatch(w, s0, Dedup(s.pending)).state, rounds - 1, u);
    }
  }

  /** The same just before that load begins. */
  function Retried(s: State, u: Uid): State
    requires u < |s.fibers|
  {
    Put(s, u, Asked(s, u).fibers[u].(phase := Pending))
  }

  /** The refresh of a failed fiber whose restart was requested is a load of it. */
  lemma {:induction false} FailedReloads(w: Behaviour, s: State, u: Uid)
    requires u < |s.fibers| && s.fibers[u].phase == Failed && FedAt(s, u)
    ensures Refresh(w, Flagged(s, u), u) == Load(w, Retried(s, u), u)
    ensures SetPhase(Retried(s, u), u, Loading) == Asked(s, u)
  {
    var p := TakeRestart(Flagged(s, u), u);
    EpochAgree(s, p, u);
    LiveIffResolved(s, u);
    hide Load, Unload;
    assert Bindings(p, u) == Bindings(s, u) && ComputeEpoch(p, u) == ComputeEpoch(s, u);
    assert SetEpoch(p, u, ComputeEpoch(p, u), Bindings(p, u)).fibers == Retried(s, u).fibers;
    assert SetEpoch(p, u, ComputeEpoch(p, u), Bindings(p, u)) == Retried(s, u);
    assert SetPhase(Retried(s, u), u, Loading).fibers == Asked(s, u).fibers;
  }

  /** Main result: restarting a FAILED fiber whose required injections resolve starts its apply at once. */
  lemma {:induction false} RestartTries(w: Behaviour, rounds: nat, s: State, u: Uid)
    requires u < |s.fibers| && s.pending == [] && rounds > 0
    requires s.fibers[u].phase == Failed && FedAt(s, u) && ConfigReturns(w, u)
    ensures var log := Host(w, rounds, s, HostRestart(u)).state.log;
      s.log <= log && |s.log| < |log| && log[|s.log|].Start? && log[|s.log|].who == u
  {
    AloneInQueue(w, rounds, s, u);
    FailedReloads(w, s, u);
    hide Host, Load, Refresh, Asked, Flagged;
    LoadStarts(w, Retried(s, u), u);
  }

  /** Main result: and if that apply succeeds now, the fiber is ACTIVE when the call returns, unless it was
      started once more, is gone, or lost a service it requires. */
  lemma {:induction false} RestartRevives(w: Behaviour, rounds: nat, s: State, u: Uid)
    requires Steady(s, {}, []) && s.pending == [] && rounds > 0
    requires u < |s.fibers| && s.fibers[u].phase == Failed && FedAt(s, u) && ConfigReturns(w, u)
    requires Succeeds(w, s, u) && Host(w, rounds, s, HostRestart(u)).Done?
    ensures var t := Host(w, rounds, s, HostRestart(u)).state;
      && u < |t.fibers|
      && (t.fibers[u].phase == Active || t.fibers[u].phase == Disposed || !FedAt(t, u)
          || StartedSince(|s.log| + 1, t.log, u))
  {
    RestartQuiet(w, rounds, s, u);
    AloneInQueue(w, rounds, s, u);
    FailedReloads(w, s, u);
    RevivedActive(w, s, u);
    hide Load, Refresh, RunActions, Succeeds, Host, Asked, Flagged, Steady, Settle;
    SettleUnfailed(|s.log| + 1, w, Load(w, Retried(s, u), u).state, rounds - 1, u);
  }

  lemma {:induction false} RestartQuiet(w: Behaviour, rounds: nat, s: State, u: Uid)
    requires Steady(s, {}, []) && u < |s.fibers| && s.fibers[u].phase != Disposed
    requires Host(w, rounds, s, HostRestart(u)).Done?
    ensures NoStale(Host(w, rounds, s, HostRestart(u)).state)
  {
    RestartStepSteady(s, u, {});
    hide Steady, Settle, NoStale;
    SettleSteady(w, RestartStep(s, u), rounds, {});
    QuietNoStale(Host(w, rounds, s, HostRestart(u)).state);
  }

  lemma {:induction false} RevivedActive(w: Behaviour, s: State, u: Uid)
    requires u < |s.fibers| && Succeeds(w, s, u) && SetPhase(Retried(s, u), u, Loading) == Asked(s, u)
    ensures var r := Load(w, Retried(s, u), u);
      r.Done? && u < |r.state.fibers| && r.state.fibers[u].phase == Active && |s.log| + 1 <= |r.state.log|
  {
    RunRises(BeginApply(Asked(s, u), u), u, w(u, Asked(s, u)).actions);
  }
}
