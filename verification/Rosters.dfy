/** Row ids: at any moment at most one mounted fiber carries an id, in every run. */
module Rosters {
  import opened Lists
  import opened Registry
  import opened Runtime
  import opened Teardown
  import opened Runs

  /** No two mounted fibers carry the same id. */
  ghost predicate OneEach(s: State) {
    && Uids(s, s.mounted)
    && forall u, v :: u in s.mounted && v in s.mounted && s.fibers[u].entry == s.fibers[v].entry ==> u == v
  }

  /** From s to t fibers only left the mounted ones. */
  ghost predicate Thins(s: State, t: State) {
    && |t.fibers| == |s.fibers| && (forall v :: v in t.mounted ==> v in s.mounted)
    && forall v: Uid :: v < |s.fibers| ==> t.fibers[v].entry == s.fibers[v].entry
  }

  lemma {:induction false} ThinsKeeps(s: State, t: State)
    requires OneEach(s) && Thins(s, t)
    ensures OneEach(t)
  {
  }

  lemma {:induction false} UnwindThins(s: State, u: Uid)
    requires u < |s.fibers|
    ensures Thins(s, Unwind(s, u))
  {
    UnwindAlone(s, u);
    UnwindWanes(s, u);
    assert Fades(s.fibers[u], Unwind(s, u).fibers[u], u in {u});
  }

  lemma {:induction false} DiscardThins(s: State, u: Uid)
    requires u < |s.fibers|
    ensures Thins(s, Discard(s, u))
    decreases |s.fibers| - u, 1, 0
  {
    var s1 := DisposeAll(s, u, s.fibers[u].children);
    DisposeAllThins(s, u, s.fibers[u].children);
    UnwindThins(Put(s1, u, s1.fibers[u].(provided := {})), u);
  }

  lemma {:induction false} DisposeAllThins(s: State, u: Uid, cs: seq<Uid>)
    requires u < |s.fibers|
    ensures Thins(s, DisposeAll(s, u, cs))
    decreases |s.fibers| - u, 0, |cs|
  {
    if cs != [] {
      if u < cs[0] < |s.fibers| {
        DisposeThins(s, cs[0]);
        DisposeAllThins(Dispose(s, cs[0]), u, cs[1..]);
      } else {
        DisposeAllThins(s, u, cs[1..]);
      }
    }
  }

  lemma {:induction false} UnloadThins(s: State, u: Uid)
    requires u < |s.fibers|
    ensures Thins(s, Unload(s, u))
    decreases |s.fibers| - u, 2
  {
    DiscardThins(SetPhase(s, u, Unloading), u);
  }

  lemma {:induction false} DisposeThins(s: State, u: Uid)
    requires u < |s.fibers|
    ensures Thins(s, Dispose(s, u))
    decreases |s.fibers| - u, 3
  {
    if s.fibers[u].phase == Failed {
      DiscardThins(s, u);
    } else if s.fibers[u].phase != Disposed {
      UnloadThins(s, u);
    }
  }

  // ---- every step keeps it -------------------------------------------------------------------------------

  lemma {:induction false} MountOneEach(
    s: State, parent: Option<Uid>, r: RealmId, entry: string, d: Decl, isolated: set<Name>)
    requires OneEach(s)
    ensures OneEach(MountStep(s, parent, r, entry, d, isolated).state)
  {
  }

  lemma {:induction false} ActOneEach(s: State, u: Uid, a: Action)
    requires OneEach(s) && u < |s.fibers|
    ensures OneEach(Act(s, u, a).state)
  {
    hide Dispose, Woken, OwnerOf, MountStep;
    match a {
      case Mount(who, r, entry, d, isolated, _) => MountOneEach(s, Some(who), r, entry, d, isolated);
      case Drop(k) =>
        if k < |s.fibers[u].children| && u < s.fibers[u].children[k] < |s.fibers| {
          DisposeThins(s, s.fibers[u].children[k]);
        }
      case _ =>
    }
  }

  lemma {:induction false} RunOneEach(s: State, u: Uid, actions: seq<Action>)
    requires OneEach(s) && u < |s.fibers|
    ensures OneEach(RunActions(s, u, actions).state)
    decreases |actions|
  {
    if actions != [] {
      hide Act, OneEach;
      ActGrows(s, u, actions[0]);
      ActOneEach(s, u, actions[0]);
      var t := Act(s, u, actions[0]);
      if t.Ok? { RunOneEach(t.state, u, actions[1..]); }
    }
  }

  /** The ways a load can end. */
  lemma {:induction false} EndsOneEach(s: State, u: Uid, ending: Ending)
    requires OneEach(s) && u < |s.fibers|
    ensures OneEach(Fail(s, u)) && OneEach(Reset(s, u)) && OneEach(Fail(Discard(s, u), u))
    ensures OneEach(EndLoad(s, u, ending).state)
  {
    DiscardThins(s, u);
    hide Discard;
    assert Thins(s, Fail(s, u)) && Thins(s, Reset(s, u)) && Thins(s, Fail(Discard(s, u), u));
    assert Thins(s, SetPhase(s, u, Active));
    hide Fail, Reset, Thins;
    ThinsKeeps(s, Fail(s, u));
    ThinsKeeps(s, Reset(s, u));
    ThinsKeeps(s, Fail(Discard(s, u), u));
    ThinsKeeps(s, SetPhase(s, u, Active));
  }

  lemma {:induction false} LoadOneEach(w: Behaviour, s: State, u: Uid)
    requires OneEach(s) && u < |s.fibers|
    ensures OneEach(Load(w, s, u).state)
  {
    var s1 := SetPhase(s, u, Loading);
    var b := BeginApply(s1, u);
    var script := w(u, s1);
    ThinsKeeps(s, s1);
    ThinsKeeps(s, b);
    hide OneEach, Thins, Discard, RunActions, Fail, Reset, EndLoad;
    EndsOneEach(s1, u, script.ending);
    RunOneEach(b, u, script.actions);
    EndsOneEach(RunActions(b, u, script.actions).state, u, script.ending);
  }

  lemma {:induction false} FollowOneEach(w: Behaviour, s: State, u: Uid)
    requires OneEach(s) && u < |s.fibers|
    ensures OneEach(Follow(w, s, u).state)
  {
    var s1 := SetEpoch(s, u, ComputeEpoch(s, u), Bindings(s, u));
    UnloadThins(s1, u);
    hide Load, Unload, ComputeEpoch;
    LoadOneEach(w, s1, u);
    LoadOneEach(w, Unload(s1, u), u);
  }

  lemma {:induction false} RefreshOneEach(w: Behaviour, s: State, u: Uid)
    requires OneEach(s) && u < |s.fibers|
    ensures OneEach(Refresh(w, s, u).state)
  {
    hide Follow, Unload;
    UnloadThins(Put(s, u, s.fibers[u].(restart := false)), u);
    if s.fibers[u].phase != Disposed {
      FollowOneEach(w, if s.fibers[u].restart then TakeRestart(s, u) else s, u);
    }
  }

  lemma {:induction false} BatchOneEach(w: Behaviour, s: State, batch: seq<Uid>)
    requires OneEach(s) && Uids(s, batch)
    ensures OneEach(RunBatch(w, s, batch).state)
    decreases |batch|
  {
    if batch != [] {
      hide Refresh;
      assert batch[0] in batch && forall v :: v in batch[1..] ==> v in batch;
      RefreshOneEach(w, s, batch[0]);
      var t := Refresh(w, s, batch[0]);
      if t.Done? { BatchOneEach(w, t.state, batch[1..]); }
    }
  }

  lemma {:induction false} SettleOneEach(w: Behaviour, s: State, rounds: nat)
    requires OneEach(s)
    ensures OneEach(Settle(w, s, rounds).state)
    decreases rounds
  {
    if s.pending != [] && rounds != 0 && Uids(s, s.pending) {
      hide RunBatch;
      var s0 := s.(pending := []);
      BatchOneEach(w, s0, Dedup(s.pending));
      var t := RunBatch(w, s0, Dedup(s.pending));
      if t.Done? { SettleOneEach(w, t.state, rounds - 1); }
    }
  }

  lemma {:induction false} HostOneEach(w: Behaviour, rounds: nat, s: State, h: HostStep)
    requires OneEach(s)
    ensures OneEach(Host(w, rounds, s, h).state)
  {
    hide Settle, MountStep, Woken;
    match h {
      case HostMount(entry, d, isolated) => MountOneEach(s, None, 0, entry, d, isolated);
      case HostSettle => SettleOneEach(w, s, rounds);
      case HostRestart(u) => SettleOneEach(w, RestartStep(s, u), rounds);
      case HostEnqueue(_) =>
      case HostProvide(u, r, name) =>
        var slot := Slot(OwnerOf(s.store.realms, r, name), name);
        SettleOneEach(w, Notify(s.(store := Register(s.store, slot, u)), name), rounds);
      case HostWithdraw(u, k) =>
        if Acting(s, u) && k < |s.fibers[u].effects| { SettleOneEach(w, WithdrawStep(s, u, k), rounds); }
      case HostFile(_, _) =>
      case HostPlugin(u, r, entry, d, isolated) =>
        MountOneEach(s, Some(u), r, entry, d, isolated);
        SettleOneEach(w, MountStep(s, Some(u), r, entry, d, isolated).state, rounds);
    }
  }

  /** Main result: in every run, whatever the plugins do and however the calls end, at most one mounted fiber
      carries a row id. */
  lemma {:induction false} RunsKeepOneEach(rounds: nat, s: State, run: seq<Call>)
    requires OneEach(s)
    ensures OneEach(Exec(rounds, s, run).state)
    decreases |run|
  {
    if run != [] {
      hide Host;
      HostOneEach(run[0].plugins, rounds, s, run[0].step);
      var t := Host(run[0].plugins, rounds, s, run[0].step);
      if t.Done? { RunsKeepOneEach(rounds, t.state, run[1..]); }
    }
  }
}
