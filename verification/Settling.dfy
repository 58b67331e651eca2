/** Refreshing, batches and the settle loop keep the currency invariant; aborts and divergence leave
    it resumable. */
module Settling {
  import opened Lists
  import opened Registry
  import opened Runtime
  import opened Teardown
  import opened Currency

  /** Outside `busy`, no fiber is in the middle of a transition. */
  ghost predicate Rest(s: State, busy: set<Uid>) {
    forall v: Uid :: v < |s.fibers| && v !in busy ==> s.fibers[v].phase in {Pending, Active, Failed, Disposed}
  }

  /** What a settle may rely on between two refreshes. */
  ghost predicate Steady(s: State, excused: set<Uid>, batch: seq<Uid>) {
    Core(s, {}, excused, batch) && Rest(s, {})
  }

  lemma {:induction false} RestWanes(s: State, s': State, busy: set<Uid>, low: nat, mine: set<Uid>)
    requires Rest(s, busy) && Wane(s, s', low, mine)
    ensures Rest(s', busy)
  {
    forall v: Uid | v < |s.fibers| && v !in busy ensures s'.fibers[v].phase in {Pending, Active, Failed, Disposed} {
      assert Fades(s.fibers[v], s'.fibers[v], v in mine);
    }
  }

  lemma {:induction false} RevertRest(s: State, u: Uid, e: Effect, busy: set<Uid>)
    requires Rest(s, busy) && u < |s.fibers|
    ensures Rest(Revert(s, u, e), busy)
  {
    RevertWanes(s, u, e);
    RestWanes(s, Revert(s, u, e), busy, |s.fibers|, {u});
  }

  lemma {:induction false} ActRest(s: State, u: Uid, a: Action, busy: set<Uid>)
    requires Rest(s, busy) && u < |s.fibers|
    ensures Rest(Act(s, u, a).state, busy)
  {
    hide Dispose, Woken, OwnerOf, EntryTaken, Revert;
    match a {
      case Withdraw(who, k) =>
        if Acting(s, who) && k < |s.fibers[who].effects| {
          var es := s.fibers[who].effects;
          RevertRest(Put(s, who, s.fibers[who].(effects := Cut(es, k))), who, es[k], busy);
        }
      case Drop(k) =>
        if k < |s.fibers[u].children| && u < s.fibers[u].children[k] < |s.fibers| {
          var c := s.fibers[u].children[k];
          DisposeWanes(s, c);
          RestWanes(s, Dispose(s, c), busy, c, {});
        }
      case _ =>
    }
  }

  lemma {:induction false} RunRest(s: State, u: Uid, actions: seq<Action>, busy: set<Uid>)
    requires Rest(s, busy) && u < |s.fibers|
    ensures Rest(RunActions(s, u, actions).state, busy)
    decreases |actions|
  {
    if actions != [] {
      ActRest(s, u, actions[0], busy);
      ActGrows(s, u, actions[0]);
      var t := Act(s, u, actions[0]);
      if t.Ok? { RunRest(t.state, u, actions[1..], busy); }
    }
  }

  // ---- one load --------------------------------------------------------------------------------

  lemma {:induction false} ResolvedKnown(g: Store, r: RealmId, names: seq<Name>)
    requires Serialized(g)
    ensures AllKnown(g, Resolved(g, r, names))
  {
  }

  lemma {:induction false} CoreExcuse(s: State, open: set<Uid>, x: set<Uid>, u: Uid, q: seq<Uid>)
    requires Core(s, open, x + {u}, q)
    requires Due(s, u, x - {u}, q) ==> s.fibers[u].epoch == ComputeEpoch(s, u)
    ensures Core(s, open, x - {u}, q)
  {
    forall v: Uid | Due(s, v, x - {u}, q) ensures s.fibers[v].epoch == ComputeEpoch(s, v) {
      if v != u { assert Due(s, v, x + {u}, q); }
    }
  }

  /** `seen` differs from what resolves now only by registrations that are gone. */
  ghost predicate Lapsed(s: State, u: Uid)
    requires u < |s.fibers|
  {
    var f := s.fibers[u];
    && |f.seen| == |f.decl.Names()|
    && f.epoch == EpochOf(f.decl, f.seen)
    && forall i :: 0 <= i < |f.seen| ==>
         f.seen[i] == Bindings(s, u)[i] || (f.seen[i].Some? && !IsLive(s.store, f.seen[i].value))
  }

  lemma {:induction false} BeginTracks(s: State, u: Uid)
    requires u < |s.fibers| && Lapsed(s, u)
    ensures Tracked(s.store, BeginApply(s, u).fibers[u])
  {
    var f := s.fibers[u];
    if f.seen != Bindings(s, u) {
      var i :| 0 <= i < |f.seen| && f.seen[i] != Bindings(s, u)[i];
    }
  }

  lemma {:induction false} FailSteady(s: State, u: Uid, x: set<Uid>, q: seq<Uid>)
    requires Core(s, {u}, x, q) && Rest(s, {u}) && u < |s.fibers| && s.fibers[u].phase != Disposed
    ensures Steady(Fail(s, u), x, q)
  {
    var f := s.fibers[u].(epoch := Inactive, phase := Failed);
    var r := Fail(s, u);
    assert r.fibers == Put(s, u, f).fibers;
    PutCore(s, r, u, f, {u}, x, q);
    CoreClose(r, {}, u, x, q);
    assert {} - {u} == {};
  }

  lemma {:induction false} DiscardSteady(s: State, u: Uid, x: set<Uid>, q: seq<Uid>)
    requires Core(s, {u}, x, q) && Rest(s, {u}) && u < |s.fibers| && s.fibers[u].phase != Disposed
    ensures Core(Discard(s, u), {u}, x, q) && Rest(Discard(s, u), {u})
    ensures Discard(s, u).fibers[u].phase == s.fibers[u].phase
  {
    DiscardCore(s, u, {u}, x, q);
    DiscardWanes(s, u);
    RestWanes(s, Discard(s, u), {u}, u + 1, {u});
  }

  lemma {:induction false} ResetSteady(s: State, u: Uid, x: set<Uid>, q: seq<Uid>)
    requires Core(s, {u}, x, q) && Rest(s, {u}) && u < |s.fibers| && s.fibers[u].phase != Disposed
    ensures Steady(Reset(s, u), x + {u}, q)
    ensures Reset(s, u).fibers[u].phase == Pending && Reset(s, u).fibers[u].epoch == Inactive
    ensures Reset(s, u).fibers[u].effects == []
  {
    DiscardSteady(s, u, x, q);
    DiscardWanes(s, u);
    var d := Discard(s, u);
    var f := d.fibers[u].(epoch := Inactive, phase := Pending);
    var r := Reset(s, u);
    assert r.fibers == Put(d, u, f).fibers;
    CoreOpen(d, {u}, {u}, x, x + {u}, q);
    PutCore(d, r, u, f, {u}, x + {u}, q);
    CoreClose(r, {}, u, x + {u}, q);
    assert {} - {u} == {};
  }

  lemma {:induction false} BeginSteady(s: State, u: Uid, x: set<Uid>, q: seq<Uid>)
    requires Core(s, {u}, x, q) && u < |s.fibers| && s.fibers[u].phase == Loading && s.fibers[u].epoch.Live?
    requires Lapsed(s, u)
    ensures Core(BeginApply(s, u), {}, x, q)
  {
    var b := BeginApply(s, u);
    ResolvedKnown(s.store, s.fibers[u].realm, s.fibers[u].decl.Names());
    if u !in x && u !in q && u !in s.pending { assert Due(s, u, x, q); }
    PutCore(s, b, u, s.fibers[u].(bound := Bindings(s, u)), {u}, x, q);
    BeginTracks(s, u);
    CoreClose(b, {}, u, x, q);
    assert {} - {u} == {};
  }

  /** The result of refreshing u: on success nothing is owed; after an abort u itself is inert,
      PENDING and excused. */
  ghost predicate Refreshed(r: Result, u: Uid, x: set<Uid>, q: seq<Uid>) {
    match r
    case Done(s) => Steady(s, x, q)
    case Aborted(s) =>
      && Steady(s, x + {u}, q) && u < |s.fibers|
      && s.fibers[u].phase == Pending && s.fibers[u].epoch == Inactive && s.fibers[u].effects == []
    case Diverged(_) => false
  }

  lemma {:induction false} EndLoadSteady(s: State, u: Uid, ending: Ending, x: set<Uid>, q: seq<Uid>)
    requires Core(s, {}, x, q) && Rest(s, {u}) && u < |s.fibers| && s.fibers[u].phase == Loading
    ensures Refreshed(EndLoad(s, u, ending), u, x, q)
  {
    CoreOpen(s, {}, {u}, x, x, q);
    if ending == Aborts {
      ResetSteady(s, u, x, q);
    } else if ending == Raises || !(s.fibers[u].decl.provide <= s.fibers[u].provided) {
      DiscardSteady(s, u, x, q);
      FailSteady(Discard(s, u), u, x, q);
    } else {
      var r := SetPhase(s, u, Active);
      PhaseCore(s, u, Active, {u}, x, q);
      assert Sound(s.store, s.fibers[u], false);
      assert Sound(r.store, r.fibers[u], false);
      CoreClose(r, {}, u, x, q);
      assert {} - {u} == {};
    }
  }

  lemma {:induction false} LoadSteady(w: Behaviour, s: State, u: Uid, x: set<Uid>, q: seq<Uid>)
    requires Core(s, {u}, x, q) && Rest(s, {u}) && u < |s.fibers|
    requires s.fibers[u].phase == Pending && s.fibers[u].epoch.Live? && Lapsed(s, u)
    ensures Refreshed(Load(w, s, u), u, x, q)
  {
    var s1 := SetPhase(s, u, Loading);
    PhaseCore(s, u, Loading, {u}, x, q);
    var script := w(u, s1);
    match script.config {
      case Raises => FailSteady(s1, u, x, q);
      case Aborts => ResetSteady(s1, u, x, q);
      case Returns =>
        assert Bindings(s1, u) == Bindings(s, u);
        BeginSteady(s1, u, x, q);
        var b := BeginApply(s1, u);
        RunCore(b, u, script.actions, {}, x, q);
        RunRest(b, u, script.actions, {u});
        var t := RunActions(b, u, script.actions);
        if t.Err? {
          CoreOpen(t.state, {}, {u}, x, x, q);
          DiscardSteady(t.state, u, x, q);
          FailSteady(Discard(t.state, u), u, x, q);
        } else {
          EndLoadSteady(t.state, u, script.ending, x, q);
        }
    }
  }

  // ---- refresh -----------------------------------------------------------------------------

  lemma {:induction false} FewerLapsed(s: State, t: State, u: Uid)
    requires u < |s.fibers| && u < |t.fibers|
    requires Stable(s.fibers[u], t.fibers[u]) && Fewer(s.store, t.store) && Serialized(s.store)
    requires s.fibers[u].seen == Bindings(s, u) && s.fibers[u].epoch == EpochOf(s.fibers[u].decl, Bindings(s, u))
    ensures Lapsed(t, u)
  {
    var f := s.fibers[u];
    forall i | 0 <= i < |f.seen|
      ensures f.seen[i] == Bindings(t, u)[i] || (f.seen[i].Some? && !IsLive(t.store, f.seen[i].value))
    {
      var slot := Slot(OwnerOf(s.store.realms, f.realm, f.decl.Names()[i]), f.decl.Names()[i]);
      assert f.seen[i] == Lookup(s.store.impls, slot) && Bindings(t, u)[i] == Lookup(t.store.impls, slot);
    }
  }

  lemma {:induction false} UnloadSteady(s: State, u: Uid, x: set<Uid>, q: seq<Uid>)
    requires Core(s, {u}, x, q) && Rest(s, {u}) && u < |s.fibers| && s.fibers[u].phase in {Pending, Active}
    ensures Core(Unload(s, u), {u}, x, q) && Rest(Unload(s, u), {})
    ensures Unload(s, u).fibers[u].phase == Pending && Stable(s.fibers[u], Unload(s, u).fibers[u])
    ensures Fewer(s.store, Unload(s, u).store)
  {
    UnloadCore(s, u, {u}, x, q);
    UnloadWanes(s, u);
    var b := SetPhase(s, u, Pending);
    assert Rest(b, {u});
    RestWanes(b, Unload(s, u), {u}, u + 1, {u});
    assert Fades(b.fibers[u], Unload(s, u).fibers[u], true);
  }

  lemma {:induction false} CloseInactive(s: State, u: Uid, x: set<Uid>, q: seq<Uid>)
    requires Core(s, {u}, x, q) && u < |s.fibers| && s.fibers[u].phase in {Pending, Failed}
    requires s.fibers[u].epoch == Inactive
    ensures Core(s, {}, x, q)
  {
    CoreClose(s, {}, u, x, q);
    assert {} - {u} == {};
  }

  lemma {:induction false} RestartSteady(s: State, u: Uid, x: set<Uid>, q: seq<Uid>)
    requires Steady(s, x + {u}, q) && u < |s.fibers| && s.fibers[u].phase != Disposed
    ensures Steady(TakeRestart(s, u), x + {u}, q)
    ensures TakeRestart(s, u).fibers[u].phase == Pending
  {
    hide Unload, Serialized, Forest, Sound;
    var y := x + {u};
    var s1 := Put(s, u, s.fibers[u].(restart := false));
    CoreIgnores(s, s1, {}, y, q);
    CoreOpen(s1, {}, {u}, y, y, q);
    var f := s1.fibers[u];
    var s2 := if f.phase == Failed then SetPhase(s1, u, Pending)
              else if f.effects != [] || f.children != [] || f.phase == Active then Unload(s1, u)
              else s1;
    if f.phase == Failed {
      PhaseCore(s1, u, Pending, {u}, y, q);
    } else if f.effects != [] || f.children != [] || f.phase == Active {
      UnloadSteady(s1, u, y, q);
    }
    EpochCleared(s2, u, x, q);
  }

  lemma {:induction false} EpochCleared(s: State, u: Uid, x: set<Uid>, q: seq<Uid>)
    requires Core(s, {u}, x + {u}, q) && Rest(s, {}) && u < |s.fibers| && s.fibers[u].phase == Pending
    ensures Steady(SetEpoch(s, u, Inactive, s.fibers[u].seen), x + {u}, q)
  {
    var r := SetEpoch(s, u, Inactive, s.fibers[u].seen);
    PutCore(s, r, u, s.fibers[u].(epoch := Inactive), {u}, x + {u}, q);
    CloseInactive(r, u, x + {u}, q);
  }

  /** Storing the computed epoch: u opens with `seen` equal to what resolves now. */
  lemma {:induction false} EpochSet(s: State, u: Uid, x: set<Uid>, q: seq<Uid>)
    requires Steady(s, x + {u}, q) && u < |s.fibers| && s.fibers[u].phase != Disposed
    ensures var s1 := SetEpoch(s, u, ComputeEpoch(s, u), Bindings(s, u));
      && Core(s1, {u}, x + {u}, q) && Rest(s1, {}) && Core(s1, {u}, x - {u}, q)
      && s1.fibers[u].seen == Bindings(s1, u) && s1.fibers[u].epoch == EpochOf(s1.fibers[u].decl, Bindings(s1, u))
      && Lapsed(s1, u)
  {
    var s1 := SetEpoch(s, u, ComputeEpoch(s, u), Bindings(s, u));
    ResolvedKnown(s.store, s.fibers[u].realm, s.fibers[u].decl.Names());
    CoreOpen(s, {}, {u}, x + {u}, x + {u}, q);
    PutCore(s, s1, u, s.fibers[u].(epoch := ComputeEpoch(s, u), seen := Bindings(s, u)), {u}, x + {u}, q);
    EpochAgree(s, s1, u);
    CoreExcuse(s1, {u}, x, u, q);
    FewerLapsed(s1, s1, u);
  }

  lemma {:induction false} FollowSteady(w: Behaviour, s: State, u: Uid, x: set<Uid>, q: seq<Uid>)
    requires Steady(s, x + {u}, q) && u < |s.fibers| && s.fibers[u].phase != Disposed
    ensures Refreshed(Follow(w, s, u), u, x - {u}, q)
  {
    var epoch := ComputeEpoch(s, u);
    if s.fibers[u].phase == Failed || epoch == s.fibers[u].epoch {
      CoreExcuse(s, {}, x, u, q);
    } else {
      var y := x - {u};
      var s1 := SetEpoch(s, u, epoch, Bindings(s, u));
      EpochSet(s, u, x, q);
      if epoch.Inactive? {
        if s.fibers[u].phase == Active {
          UnloadSteady(s1, u, y, q);
          CloseInactive(Unload(s1, u), u, y, q);
        } else {
          CloseInactive(s1, u, y, q);
        }
      } else if s.fibers[u].epoch.Inactive? {
        LoadSteady(w, s1, u, y, q);
      } else {
        UnloadSteady(s1, u, y, q);
        FewerLapsed(s1, Unload(s1, u), u);
        LoadSteady(w, Unload(s1, u), u, y, q);
      }
    }
  }

  lemma {:induction false} RefreshSteady(w: Behaviour, s: State, u: Uid, x: set<Uid>, q: seq<Uid>)
    requires Steady(s, x + {u}, q) && u < |s.fibers|
    ensures Refreshed(Refresh(w, s, u), u, x - {u}, q)
  {
    if s.fibers[u].phase == Disposed {
      CoreExcuse(s, {}, x, u, q);
    } else if s.fibers[u].restart {
      RestartSteady(s, u, x, q);
      FollowSteady(w, TakeRestart(s, u), u, x, q);
    } else {
      FollowSteady(w, s, u, x, q);
    }
  }

  // ---- batches and the loop ----------------------------------------------------------------

  /** Taking the head off the batch: it is excused until its refresh ends. */
  lemma {:induction false} TakeHead(s: State, x: set<Uid>, batch: seq<Uid>)
    requires Steady(s, x, batch) && batch != []
    ensures Steady(s, x + {batch[0]}, batch[1..])
  {
    forall v: Uid | Due(s, v, x + {batch[0]}, batch[1..]) ensures s.fibers[v].epoch == ComputeEpoch(s, v) {
      assert Due(s, v, x, batch);
    }
  }

  lemma {:induction false} SteadyExcuse(s: State, x: set<Uid>, x': set<Uid>, q: seq<Uid>)
    requires Steady(s, x, q) && x <= x'
    ensures Steady(s, x', q)
  {
    CoreOpen(s, {}, {}, x, x', q);
  }

  /** Moving fibers between the batch and the queue. */
  lemma {:induction false} Requeue(s: State, x: set<Uid>, batch: seq<Uid>, pending: seq<Uid>, batch': seq<Uid>)
    requires Steady(s, x, batch) && Uids(s, pending)
    requires forall v :: v in s.pending || v in batch ==> v in pending || v in batch'
    ensures Steady(s.(pending := pending), x, batch')
  {
    var r := s.(pending := pending);
    forall v: Uid | Due(r, v, x, batch') ensures r.fibers[v].epoch == ComputeEpoch(r, v) {
      assert Due(s, v, x, batch);
      EpochAgree(s, r, v);
    }
  }

  /** After a batch: Steady, and after an abort exactly one more fiber is excused, and it is inert. */
  ghost predicate Resumable(r: Result, x: set<Uid>, q: seq<Uid>) {
    match r
    case Done(s) => Steady(s, x, q)
    case Aborted(s) =>
      exists u: Uid :: u < |s.fibers| && Steady(s, x + {u}, q)
        && s.fibers[u].phase == Pending && s.fibers[u].epoch == Inactive && s.fibers[u].effects == []
    case Diverged(s) => Steady(s, x, q)
  }

  lemma {:induction false} RunBatchSteady(w: Behaviour, s: State, batch: seq<Uid>, x: set<Uid>)
    requires Steady(s, x, batch) && Uids(s, batch)
    ensures Resumable(RunBatch(w, s, batch), x, [])
    decreases |batch|
  {
    if batch != [] {
      var u, rest := batch[0], batch[1..];
      assert u in batch && forall v :: v in rest ==> v in batch;
      TakeHead(s, x, batch);
      RefreshSteady(w, s, u, x, rest);
      var t := Refresh(w, s, u);
      if t.Done? {
        SteadyExcuse(t.state, x - {u}, x, rest);
        RunBatchSteady(w, t.state, rest, x);
      } else {
        SteadyExcuse(t.state, x - {u} + {u}, x + {u}, rest);
        Requeue(t.state, x + {u}, rest, rest + t.state.pending, []);
        assert Resumable(Aborted(t.state.(pending := rest + t.state.pending)), x, []);
      }
    }
  }

  lemma {:induction false} SettleSteady(w: Behaviour, s: State, rounds: nat, x: set<Uid>)
    requires Steady(s, x, [])
    ensures Resumable(Settle(w, s, rounds), x, [])
    ensures Settle(w, s, rounds).Done? ==> Settle(w, s, rounds).state.pending == []
    decreases rounds
  {
    if s.pending != [] && rounds != 0 && Uids(s, s.pending) {
      var batch := Dedup(s.pending);
      var s0 := s.(pending := []);
      Requeue(s, x, [], [], batch);
      RunBatchSteady(w, s0, batch, x);
      var t := RunBatch(w, s0, batch);
      if t.Done? { SettleSteady(w, t.state, rounds - 1, x); }
    }
  }

  // ---- nothing to do ------------------------------------------------------------------------

  /** A refresh of v would change nothing. */
  predicate Calm(s: State, v: Uid) {
    && v < |s.fibers| && !s.fibers[v].restart
    && (s.fibers[v].phase in {Failed, Disposed} || ComputeEpoch(s, v) == s.fibers[v].epoch)
  }

  lemma {:induction false} CalmBatch(w: Behaviour, s: State, batch: seq<Uid>)
    requires forall v :: v in batch ==> Calm(s, v)
    ensures Uids(s, batch) && RunBatch(w, s, batch) == Done(s)
    decreases |batch|
  {
    if batch != [] {
      assert batch[0] in batch && forall v :: v in batch[1..] ==> v in batch;
      CalmBatch(w, s, batch[1..]);
    }
  }

  lemma {:induction false} CalmQueue(s: State, pending: seq<Uid>, v: Uid)
    ensures Calm(s.(pending := pending), v) <==> Calm(s, v)
  {
    if v < |s.fibers| { EpochAgree(s, s.(pending := pending), v); }
  }

  lemma {:induction false} CalmSettle(w: Behaviour, s: State, rounds: nat)
    requires rounds > 0 && forall v :: v in s.pending ==> Calm(s, v)
    ensures Settle(w, s, rounds) == Done(s.(pending := []))
  {
    var s0 := s.(pending := []);
    forall v | v in Dedup(s.pending) ensures Calm(s0, v) { CalmQueue(s, [], v); }
    if s.pending != [] {
      CalmBatch(w, s0, Dedup(s.pending));
    }
  }

  // ---- one turn of the loop ------------------------------------------------------------------

  lemma {:induction false} SettleRound(w: Behaviour, s: State, rounds: nat, t: State)
    requires s.pending != [] && rounds != 0 && Uids(s, s.pending) && Uids(s.(pending := []), Dedup(s.pending))
    requires RunBatch(w, s.(pending := []), Dedup(s.pending)) == Done(t)
    ensures Settle(w, s, rounds) == Settle(w, t, rounds - 1)
  {
  }

  lemma {:induction false} SettleIdle(w: Behaviour, s: State, rounds: nat)
    requires s.pending == [] || rounds == 0
    ensures Settle(w, s, rounds).state == s && !Settle(w, s, rounds).Aborted?
    ensures Settle(w, s, rounds).Done? <==> s.pending == []
  {
  }
}
