/** Ownership through loads, refreshes and settles. */
module OwnedRuns {
  import opened Lists
  import opened Registry
  import opened Runtime
  import opened Teardown
  import opened Currency
  import opened Settling
  import opened Ownership
  import opened OwnedActions

  /** The spare registrations, whose undo is still to be filed, belong to ACTIVE fibers. */
  ghost predicate Held(s: State, spare: set<Impl>) {
    forall i :: i in spare ==> i.owner < |s.fibers| && s.fibers[i.owner].phase == Active
  }

  // ---- an apply starts ----------------------------------------------------------------------------

  /** A service's owner holds its undo, or is known to be ACTIVE, so between transitions it is. */
  lemma {:induction false} OwnerActive(s: State, u: Uid, slot: Slot, spare: set<Impl>)
    requires Filed(s, spare) && Held(s, spare) && Idle(s) && Rest(s, {u}) && slot in s.store.impls
    requires u < |s.fibers| && s.fibers[u].effects == [] && s.fibers[u].phase != Active
    ensures s.store.impls[slot].owner < |s.fibers| && s.store.impls[slot].owner != u
    ensures s.fibers[s.store.impls[slot].owner].phase == Active
  {
    assert s.store.impls[slot] in spare || Files(s.fibers[s.store.impls[slot].owner], s.store.impls[slot]);
  }

  /** u is LOADING with nothing to its name, everybody else at rest. */
  ghost predicate Readied(s: State, u: Uid) {
    Rest(s, {u}) && u < |s.fibers| && s.fibers[u].phase == Loading && s.fibers[u].effects == []
  }

  lemma {:induction false} BeginCalm(s: State, u: Uid, spare: set<Impl>)
    requires Own(s, {u}, spare) && Held(s, spare) && Readied(s, u)
    ensures LogCalm(BeginApply(s, u))
  {
    hide Tree, Ordered, Filed;
    var m := Start(u, Phases(s), s.store.impls);
    forall slot | slot in s.store.impls
      ensures m.services[slot].owner < |m.phases| && m.phases[m.services[slot].owner] == Active
    {
      OwnerActive(s, u, slot, spare);
    }
    assert Undisturbed(m);
  }

  lemma {:induction false} BeginPlaced(s: State, u: Uid, spare: set<Impl>)
    requires Own(s, {u}, spare) && Held(s, spare) && Readied(s, u)
    ensures Placed(BeginApply(s, u), u, {})
  {
    hide Tree, Filed;
    var r := BeginApply(s, u);
    forall i | 0 <= i < |r.fibers[u].bound| && r.fibers[u].bound[i].Some?
      ensures Upstream(r, r.fibers[u].bound[i].value.owner, u)
    {
      var f := s.fibers[u];
      var slot := Slot(OwnerOf(s.store.realms, f.realm, f.decl.Names()[i]), f.decl.Names()[i]);
      OwnerActive(s, u, slot, spare);
      assert Placed(s, s.store.impls[slot].owner, {u});
    }
  }

  lemma {:induction false} BeginKeepsPlaced(s: State, u: Uid, v: Uid)
    requires Ordered(s, {u}) && u < |s.fibers| && v < |s.fibers| && v != u
    ensures Placed(BeginApply(s, u), v, {})
  {
    assert Placed(s, v, {u});
  }

  lemma {:induction false} BeginInStep(s: State, u: Uid, spare: set<Impl>)
    requires Own(s, {u}, spare) && Held(s, spare) && Readied(s, u)
    ensures InStep(BeginApply(s, u), {})
  {
    hide LogCalm, Placed, Kept;
    var r := BeginApply(s, u);
    BeginCalm(s, u, spare);
    BeginPlaced(s, u, spare);
    forall v: Uid | v < |r.fibers| ensures Placed(r, v, {}) {
      if v != u { BeginKeepsPlaced(s, u, v); }
    }
  }

  lemma {:induction false} BeginKept(s: State, u: Uid, spare: set<Impl>)
    requires Kept(s, spare) && u < |s.fibers|
    ensures Kept(BeginApply(s, u), spare)
  {
    TreeSame(s, BeginApply(s, u));
    FiledSame(s, BeginApply(s, u), spare);
  }

  lemma {:induction false} BeginOwn(s: State, u: Uid)
    requires Own(s, {u}) && Readied(s, u)
    ensures Own(BeginApply(s, u), {})
  {
    BeginKept(s, u, {});
    BeginInStep(s, u, {});
  }

  // ---- a fiber becomes active ------------------------------------------------------------------------

  lemma {:induction false} PosMoved(act: seq<Uid>, u: Uid, p: Uid, v: Uid)
    requires NoDup(act) && p in act && v in act && p != u && v != u && Pos(act, p) < Pos(act, v)
    ensures Pos(Without(act, u) + [u], p) < Pos(Without(act, u) + [u], v)
  {
    WithoutKeepsOrder(act, u, p, v);
    PosAppend(Without(act, u), u, p);
    PosAppend(Without(act, u), u, v);
  }

  lemma {:induction false} PosNewest(act: seq<Uid>, u: Uid, p: Uid)
    requires p in act && p != u
    ensures Pos(Without(act, u) + [u], p) < Pos(Without(act, u) + [u], u)
  {
    PosAppend(Without(act, u), u, p);
    PosLast(Without(act, u), u);
  }

  /** Becoming active moves u last, after its parent and after every provider its apply started
      from; no active fiber is left behind it that should precede it. */
  lemma {:induction false} ActivateInStep(s: State, u: Uid, spare: set<Impl> := {})
    requires Own(s, {}, spare) && Rest(s, {u}) && u < |s.fibers| && s.fibers[u].phase == Loading
    ensures InStep(SetPhase(s, u, Active), {})
  {
    hide Kept;
    var r := SetPhase(s, u, Active);
    NoDupWithout(s.activation, u);
    NoDupSnoc(Without(s.activation, u), u);
    forall v: Uid | v < |r.fibers| ensures Placed(r, v, {}) {
      assert Placed(s, v, {});
      if v == u {
        ActivatePlaced(s, u, spare);
      } else if s.fibers[v].phase == Active {
        KeepPlaced(s, u, v, spare);
      }
    }
  }

  lemma {:induction false} ActivatePlaced(s: State, u: Uid, spare: set<Impl>)
    requires Own(s, {}, spare) && Rest(s, {u}) && u < |s.fibers| && s.fibers[u].phase == Loading
    ensures Placed(SetPhase(s, u, Active), u, {})
  {
    var r := SetPhase(s, u, Active);
    var f := s.fibers[u];
    assert Placed(s, u, {});
    if f.parent.Some? {
      var p := f.parent.value;
      assert p < u && u in s.fibers[p].children;
      assert s.fibers[p].phase == Active;
      assert Placed(s, p, {});
      PosNewest(s.activation, u, p);
    }
    forall i | 0 <= i < |f.bound| && f.bound[i].Some? && IsLive(s.store, f.bound[i].value)
      ensures Precedes(r, f.bound[i].value.owner, u)
    {
      PosNewest(s.activation, u, f.bound[i].value.owner);
    }
  }

  lemma {:induction false} KeepPlaced(s: State, u: Uid, v: Uid, spare: set<Impl>)
    requires Own(s, {}, spare) && u < |s.fibers| && s.fibers[u].phase == Loading
    requires v < |s.fibers| && v != u && s.fibers[v].phase == Active
    ensures Placed(SetPhase(s, u, Active), v, {})
  {
    var r := SetPhase(s, u, Active);
    var f := s.fibers[v];
    assert Placed(s, v, {});
    if f.parent.Some? {
      assert Precedes(s, f.parent.value, v);
      PosMoved(s.activation, u, f.parent.value, v);
    }
    forall i | 0 <= i < |f.bound| && f.bound[i].Some? && IsLive(s.store, f.bound[i].value)
      ensures Precedes(r, f.bound[i].value.owner, v)
    {
      assert Precedes(s, f.bound[i].value.owner, v);
      PosMoved(s.activation, u, f.bound[i].value.owner, v);
    }
  }

  // ---- a load starts and ends --------------------------------------------------------------------------

  lemma {:induction false} InStepOpen(s: State, u: Uid)
    requires InStep(s, {})
    ensures InStep(s, {u})
  {
    forall v: Uid | v < |s.fibers| ensures Placed(s, v, {u}) {
      assert Placed(s, v, {});
    }
  }

  lemma {:induction false} InStepClose(s: State, u: Uid)
    requires InStep(s, {u}) && u < |s.fibers| && s.fibers[u].phase != Loading
    ensures InStep(s, {})
  {
    forall v: Uid | v < |s.fibers| ensures Placed(s, v, {}) {
      assert Placed(s, v, {u});
    }
  }

  /** A bare fiber is nobody's provider and nobody's parent, so it may start loading. */
  lemma {:induction false} StartInStep(s: State, u: Uid, spare: set<Impl>)
    requires Own(s, {}, spare) && Held(s, spare) && u < |s.fibers| && s.fibers[u].phase == Pending
    ensures InStep(SetPhase(s, u, Loading), {u})
  {
    var r := SetPhase(s, u, Loading);
    assert Bare(s.fibers[u]);
    forall v: Uid | v < |r.fibers| ensures Placed(r, v, {u}) {
      assert Placed(s, v, {});
      var f := s.fibers[v];
      if v != u && f.phase == Active && f.parent.Some? {
        assert v in s.fibers[f.parent.value].children;
      }
      forall i | 0 <= i < |f.bound| && f.bound[i].Some? && IsLive(s.store, f.bound[i].value)
        ensures f.bound[i].value.owner != u
      {
        assert f.bound[i].value in spare || Files(s.fibers[f.bound[i].value.owner], f.bound[i].value);
      }
    }
  }

  lemma {:induction false} StartLoading(s: State, u: Uid, spare: set<Impl> := {})
    requires Own(s, {}, spare) && Held(s, spare) && u < |s.fibers| && s.fibers[u].phase == Pending
    ensures Own(SetPhase(s, u, Loading), {u}, spare)
  {
    hide Filed, InStep;
    assert Bare(s.fibers[u]);
    PutKept(s, u, s.fibers[u].(phase := Loading), spare);
    assert SetPhase(s, u, Loading) == Put(s, u, s.fibers[u].(phase := Loading));
    StartInStep(s, u, spare);
  }

  lemma {:induction false} FailKept(s: State, u: Uid, spare: set<Impl>)
    requires Kept(s, spare) && u < |s.fibers| && Bare(s.fibers[u]) && s.fibers[u].phase != Disposed
    ensures Kept(Fail(s, u), spare)
  {
    PutKept(s, u, s.fibers[u].(epoch := Inactive, phase := Failed), spare);
    assert Fail(s, u) == Put(s, u, s.fibers[u].(epoch := Inactive, phase := Failed));
  }

  lemma {:induction false} FailInStep(s: State, u: Uid)
    requires InStep(s, {u}) && u < |s.fibers|
    ensures InStep(Fail(s, u), {})
  {
    PutInStep(s, u, s.fibers[u].(epoch := Inactive, phase := Failed), {u});
    assert Fail(s, u) == Put(s, u, s.fibers[u].(epoch := Inactive, phase := Failed));
    InStepClose(Fail(s, u), u);
  }

  lemma {:induction false} DiscardInStep(s: State, u: Uid, open: set<Uid>)
    requires InStep(s, open) && u < |s.fibers|
    ensures InStep(Discard(s, u), open)
  {
    hide InStep;
    DiscardWanes(s, u);
    DiscardLogs(s, u);
    WaneInStep(s, Discard(s, u), open, u + 1, {u});
  }

  lemma {:induction false} ResetKept(s: State, u: Uid, spare: set<Impl>)
    requires Kept(s, spare) && u < |s.fibers| && s.fibers[u].phase != Disposed
    ensures Kept(Reset(s, u), spare) && Bare(Reset(s, u).fibers[u])
  {
    hide Kept;
    var d := Discard(s, u);
    DiscardKept(s, u, spare);
    DiscardWanes(s, u);
    PutKept(d, u, d.fibers[u].(epoch := Inactive, phase := Pending), spare);
    assert Reset(s, u) == Put(d, u, d.fibers[u].(epoch := Inactive, phase := Pending));
  }

  lemma {:induction false} ResetInStep(s: State, u: Uid)
    requires InStep(s, {u}) && u < |s.fibers|
    ensures InStep(Reset(s, u), {})
  {
    var d := Discard(s, u);
    DiscardInStep(s, u, {u});
    PutInStep(d, u, d.fibers[u].(epoch := Inactive, phase := Pending), {u});
    assert Reset(s, u) == Put(d, u, d.fibers[u].(epoch := Inactive, phase := Pending));
    InStepClose(Reset(s, u), u);
  }

  lemma {:induction false} DiscardFailKept(s: State, u: Uid, spare: set<Impl>)
    requires Kept(s, spare) && u < |s.fibers| && s.fibers[u].phase != Disposed
    ensures Kept(Fail(Discard(s, u), u), spare)
  {
    DiscardKept(s, u, spare);
    DiscardWanes(s, u);
    FailKept(Discard(s, u), u, spare);
  }

  lemma {:induction false} DiscardFailInStep(s: State, u: Uid)
    requires InStep(s, {}) && u < |s.fibers|
    ensures InStep(Fail(Discard(s, u), u), {})
  {
    InStepOpen(s, u);
    DiscardInStep(s, u, {u});
    FailInStep(Discard(s, u), u);
  }

  // ---- one load ------------------------------------------------------------------------------------------

  /** What a result leaves: every holding accounted for, and nothing with a fiber that aborted. */
  ghost predicate KeptResult(r: Result, u: Uid, spare: set<Impl>) {
    Kept(r.state, spare) && (r.Aborted? ==> u < |r.state.fibers| && Bare(r.state.fibers[u]))
  }

  lemma {:induction false} EndLoadKept(s: State, u: Uid, ending: Ending, spare: set<Impl>)
    requires Kept(s, spare) && u < |s.fibers| && s.fibers[u].phase == Loading
    ensures KeptResult(EndLoad(s, u, ending), u, spare)
  {
    hide Kept;
    if ending == Aborts {
      ResetKept(s, u, spare);
    } else if ending == Raises || !(s.fibers[u].decl.provide <= s.fibers[u].provided) {
      DiscardFailKept(s, u, spare);
    } else {
      PutKept(s, u, s.fibers[u].(phase := Active), spare);
      ActivatedKept(s, u, spare);
    }
  }

  lemma {:induction false} ActivatedKept(s: State, u: Uid, spare: set<Impl>)
    requires u < |s.fibers| && Kept(Put(s, u, s.fibers[u].(phase := Active)), spare)
    ensures Kept(SetPhase(s, u, Active), spare)
  {
    var p := Put(s, u, s.fibers[u].(phase := Active));
    TreeSame(p, SetPhase(s, u, Active));
    FiledSame(p, SetPhase(s, u, Active), spare);
  }

  lemma {:induction false} EndLoadInStep(s: State, u: Uid, ending: Ending, spare: set<Impl>)
    requires Own(s, {}, spare) && Rest(s, {u}) && u < |s.fibers| && s.fibers[u].phase == Loading
    ensures InStep(EndLoad(s, u, ending).state, {})
  {
    hide Kept, InStep;
    if ending == Aborts {
      InStepOpen(s, u);
      ResetInStep(s, u);
    } else if ending == Raises || !(s.fibers[u].decl.provide <= s.fibers[u].provided) {
      DiscardFailInStep(s, u);
    } else {
      ActivateInStep(s, u, spare);
    }
  }

  lemma {:induction false} LoadKept(w: Behaviour, s: State, u: Uid, spare: set<Impl>)
    requires Kept(s, spare) && u < |s.fibers| && s.fibers[u].phase == Pending
    ensures KeptResult(Load(w, s, u), u, spare)
  {
    assert Bare(s.fibers[u]);
    hide Kept;
    var s1 := SetPhase(s, u, Loading);
    PutKept(s, u, s.fibers[u].(phase := Loading), spare);
    assert s1 == Put(s, u, s.fibers[u].(phase := Loading));
    var script := w(u, s1);
    match script.config {
      case Raises => FailKept(s1, u, spare);
      case Aborts => ResetKept(s1, u, spare);
      case Returns =>
        var b := BeginApply(s1, u);
        BeginKept(s1, u, spare);
        RunKept(b, u, script.actions, spare);
        RunKeepsLoad(b, u, script.actions);
        var t := RunActions(b, u, script.actions);
        if t.Err? {
          DiscardFailKept(t.state, u, spare);
        } else {
          EndLoadKept(t.state, u, script.ending, spare);
        }
    }
  }

  lemma {:induction false} LoadInStep(w: Behaviour, s: State, u: Uid, x: set<Uid>, q: seq<Uid>, spare: set<Impl>)
    requires Own(s, {}, spare) && Held(s, spare) && Core(s, {u}, x, q) && Rest(s, {u}) && u < |s.fibers|
    requires s.fibers[u].phase == Pending && s.fibers[u].epoch.Live? && Lapsed(s, u)
    ensures InStep(Load(w, s, u).state, {})
  {
    assert Bare(s.fibers[u]);
    hide Kept, InStep, Core, Lapsed, Bindings;
    var s1 := SetPhase(s, u, Loading);
    PhaseCore(s, u, Loading, {u}, x, q);
    StartLoading(s, u, spare);
    var script := w(u, s1);
    match script.config {
      case Raises => FailInStep(s1, u);
      case Aborts => ResetInStep(s1, u);
      case Returns => ApplyInStep(s1, u, script, x, q, spare);
    }
  }

  /** From the start of apply to the end of the load. */
  lemma {:induction false} ApplyInStep(s: State, u: Uid, script: Script, x: set<Uid>, q: seq<Uid>, spare: set<Impl>)
    requires Own(s, {u}, spare) && Held(s, spare) && Core(s, {u}, x, q) && Readied(s, u)
    requires s.fibers[u].epoch.Live? && Lapsed(s, u)
    ensures var t := RunActions(BeginApply(s, u), u, script.actions);
      InStep((if t.Err? then Done(Fail(Discard(t.state, u), u)) else EndLoad(t.state, u, script.ending)).state, {})
  {
    hide Kept, InStep, Core, Lapsed;
    var b := BeginApply(s, u);
    BeginSteady(s, u, x, q);
    BeginInStep(s, u, spare);
    BeginKept(s, u, spare);
    RunInStep(b, u, script.actions, x, q);
    RunKept(b, u, script.actions, spare);
    RunKeepsLoad(b, u, script.actions);
    RunRest(b, u, script.actions, {u});
    var t := RunActions(b, u, script.actions);
    if t.Err? {
      DiscardFailInStep(t.state, u);
    } else {
      EndLoadInStep(t.state, u, script.ending, spare);
    }
  }

  // ---- who became active ---------------------------------------------------------------------------------

  /** The apply of u started at or after position `since`. */
  ghost predicate StartedSince(since: nat, log: seq<Mark>, u: Uid) {
    exists k :: since <= k < |log| && log[k].Start? && log[k].who == u
  }

  /** From s to t only a fiber whose apply started became ACTIVE. */
  ghost predicate Rise(s: State, t: State) {
    && |s.fibers| <= |t.fibers| && s.log <= t.log
    && forall v: Uid :: v < |s.fibers| && t.fibers[v].phase == Active ==>
         s.fibers[v].phase == Active || StartedSince(|s.log|, t.log, v)
  }

  lemma {:induction false} RiseTrans(s: State, t: State, r: State)
    requires Rise(s, t) && Rise(t, r)
    ensures Rise(s, r)
  {
    forall v: Uid | v < |s.fibers| && r.fibers[v].phase == Active
      ensures s.fibers[v].phase == Active || StartedSince(|s.log|, r.log, v)
    {
      if StartedSince(|t.log|, r.log, v) {
        var k :| |t.log| <= k < |r.log| && r.log[k].Start? && r.log[k].who == v;
        assert |s.log| <= k;
      } else if StartedSince(|s.log|, t.log, v) {
        var k :| |s.log| <= k < |t.log| && t.log[k].Start? && t.log[k].who == v;
        assert r.log[k] == t.log[k];
      }
    }
  }

  lemma {:induction false} WaneRises(s: State, t: State, low: nat, mine: set<Uid>)
    requires Wane(s, t, low, mine) && s.log <= t.log
    ensures Rise(s, t)
  {
    forall v: Uid | v < |s.fibers| ensures t.fibers[v].phase == s.fibers[v].phase || t.fibers[v].phase == Disposed {
      assert Fades(s.fibers[v], t.fibers[v], v in mine);
    }
  }

  lemma {:induction false} UnloadRises(s: State, u: Uid)
    requires u < |s.fibers|
    ensures Rise(s, Unload(s, u))
  {
    UnloadWanes(s, u);
    UnloadLogs(s, u);
    WaneRises(SetPhase(s, u, Pending), Unload(s, u), u + 1, {u});
  }

  lemma {:induction false} DiscardRises(s: State, u: Uid)
    requires u < |s.fibers|
    ensures Rise(s, Discard(s, u))
  {
    DiscardWanes(s, u);
    DiscardLogs(s, u);
    WaneRises(s, Discard(s, u), u + 1, {u});
  }

  lemma {:induction false} ActRises(s: State, u: Uid, a: Action)
    requires u < |s.fibers|
    ensures Rise(s, Act(s, u, a).state)
  {
    hide Dispose, Woken, OwnerOf, EntryTaken;
    match a {
      case Drop(k) =>
        if k < |s.fibers[u].children| && u < s.fibers[u].children[k] < |s.fibers| {
          var c := s.fibers[u].children[k];
          DisposeWanes(s, c);
          DisposeLogs(s, c);
          WaneRises(s, Dispose(s, c), c, {});
        }
      case _ =>
    }
  }

  lemma {:induction false} RunRises(s: State, u: Uid, actions: seq<Action>)
    requires u < |s.fibers|
    ensures Rise(s, RunActions(s, u, actions).state)
    decreases |actions|
  {
    hide Rise;
    if actions != [] {
      ActRises(s, u, actions[0]);
      ActGrows(s, u, actions[0]);
      var t := Act(s, u, actions[0]);
      if t.Ok? {
        RunRises(t.state, u, actions[1..]);
        RiseTrans(s, t.state, RunActions(s, u, actions).state);
      }
    } else {
      RiseSelf(s);
    }
  }

  lemma {:induction false} RiseSelf(s: State)
    ensures Rise(s, s)
  {
  }

  /** An apply that started at the end of s's log may make u ACTIVE. */
  lemma {:induction false} EndLoadRises(s: State, t: State, u: Uid, ending: Ending)
    requires Rise(s, t) && u < |s.fibers| && StartedSince(|s.log|, t.log, u)
    ensures Rise(s, EndLoad(t, u, ending).state)
  {
    DiscardRises(t, u);
    RiseTrans(s, t, Discard(t, u));
  }

  lemma {:induction false} LoadRises(w: Behaviour, s: State, u: Uid)
    requires u < |s.fibers|
    ensures Rise(s, Load(w, s, u).state)
  {
    var s1 := SetPhase(s, u, Loading);
    var script := w(u, s1);
    if script.config != Returns {
      DiscardRises(s1, u);
    } else {
      var b := BeginApply(s1, u);
      RunRises(b, u, script.actions);
      var t := RunActions(b, u, script.actions).state;
      assert b.log[|s.log|] == Start(u, Phases(s1), s1.store.impls) && t.log[|s.log|] == b.log[|s.log|];
      assert StartedSince(|s.log|, t.log, u);
      RiseTrans(s, b, t);
      DiscardRises(t, u);
      RiseTrans(s, t, Discard(t, u));
      EndLoadRises(s, t, u, script.ending);
    }
  }

  lemma {:induction false} FollowRises(w: Behaviour, s: State, u: Uid)
    requires u < |s.fibers|
    ensures Rise(s, Follow(w, s, u).state)
  {
    hide Load, Unload, ComputeEpoch;
    var s1 := SetEpoch(s, u, ComputeEpoch(s, u), Bindings(s, u));
    UnloadRises(s1, u);
    LoadRises(w, s1, u);
    LoadRises(w, Unload(s1, u), u);
    RiseTrans(s1, Unload(s1, u), Load(w, Unload(s1, u), u).state);
  }

  // ---- a spare registration through a refresh ------------------------------------------------------------

  /** The owner of a spare registration left its load: it is not ACTIVE, or loaded again since. */
  ghost predicate Lost(since: nat, s: State, spare: set<Impl>) {
    exists i :: i in spare
      && (i.owner >= |s.fibers| || s.fibers[i.owner].phase != Active || StartedSince(since, s.log, i.owner))
  }

  lemma {:induction false} LostStays(since: nat, s: State, t: State, spare: set<Impl>)
    requires Lost(since, s, spare) && since <= |s.log| && Rise(s, t) && Filed(s, spare)
    ensures Lost(since, t, spare)
  {
    var i :| i in spare
      && (i.owner >= |s.fibers| || s.fibers[i.owner].phase != Active || StartedSince(since, s.log, i.owner));
    assert IsLive(s.store, i);
    if StartedSince(since, s.log, i.owner) {
      var k :| since <= k < |s.log| && s.log[k].Start? && s.log[k].who == i.owner;
      assert t.log[k] == s.log[k];
    } else if StartedSince(|s.log|, t.log, i.owner) {
      var k :| |s.log| <= k < |t.log| && t.log[k].Start? && t.log[k].who == i.owner;
      assert since <= k;
    }
  }

  lemma {:induction false} RestartTakenKept(s: State, u: Uid, spare: set<Impl>)
    requires Kept(s, spare) && Rest(s, {}) && u < |s.fibers| && s.fibers[u].phase != Disposed
    ensures Kept(TakeRestart(s, u), spare)
  {
    hide Filed;
    var s1 := Put(s, u, s.fibers[u].(restart := false));
    PutKept(s, u, s.fibers[u].(restart := false), spare);
    var f := s1.fibers[u];
    var s2 := if f.phase == Failed then SetPhase(s1, u, Pending)
              else if f.effects != [] || f.children != [] || f.phase == Active then Unload(s1, u)
              else s1;
    if f.phase == Failed {
      PutKept(s1, u, f.(phase := Pending), spare);
      assert s2 == Put(s1, u, f.(phase := Pending));
    } else if f.effects != [] || f.children != [] || f.phase == Active {
      UnloadKept(s1, u, spare);
    }
    PutKept(s2, u, s2.fibers[u].(epoch := Inactive), spare);
    assert TakeRestart(s, u) == Put(s2, u, s2.fibers[u].(epoch := Inactive));
  }

  lemma {:induction false} RestartTakenInStep(s: State, u: Uid)
    requires InStep(s, {}) && u < |s.fibers|
    ensures InStep(TakeRestart(s, u), {}) && Rise(s, TakeRestart(s, u))
  {
    hide InStep;
    var s1 := Put(s, u, s.fibers[u].(restart := false));
    PutInStep(s, u, s.fibers[u].(restart := false), {});
    var f := s1.fibers[u];
    var s2 := if f.phase == Failed then SetPhase(s1, u, Pending)
              else if f.effects != [] || f.children != [] || f.phase == Active then Unload(s1, u)
              else s1;
    if f.phase == Failed {
      PutInStep(s1, u, f.(phase := Pending), {});
      assert s2 == Put(s1, u, f.(phase := Pending));
    } else if f.effects != [] || f.children != [] || f.phase == Active {
      UnloadInStep(s1, u, {});
      UnloadRises(s1, u);
    }
    PutInStep(s2, u, s2.fibers[u].(epoch := Inactive), {});
    assert TakeRestart(s, u) == Put(s2, u, s2.fibers[u].(epoch := Inactive));
  }

  lemma {:induction false} FollowKept(w: Behaviour, s: State, u: Uid, x: set<Uid>, q: seq<Uid>, spare: set<Impl>)
    requires Kept(s, spare) && Steady(s, x + {u}, q) && u < |s.fibers| && s.fibers[u].phase != Disposed
    ensures KeptResult(Follow(w, s, u), u, spare)
  {
    var epoch := ComputeEpoch(s, u);
    assert Sound(s.store, s.fibers[u], false);
    if s.fibers[u].phase != Failed && epoch != s.fibers[u].epoch {
      var s1 := SetEpoch(s, u, epoch, Bindings(s, u));
      PutKept(s, u, s.fibers[u].(epoch := epoch, seen := Bindings(s, u)), spare);
      hide Kept;
      if epoch.Inactive? {
        if s.fibers[u].phase == Active { UnloadKept(s1, u, spare); }
      } else if s.fibers[u].epoch.Inactive? {
        LoadKept(w, s1, u, spare);
      } else {
        UnloadKept(s1, u, spare);
        UnloadWanes(s1, u);
        LoadKept(w, Unload(s1, u), u, spare);
      }
    }
  }

  lemma {:induction false} FollowInStep(w: Behaviour, s: State, u: Uid, x: set<Uid>, q: seq<Uid>, spare: set<Impl>)
    requires Own(s, {}, spare) && Held(s, spare) && Steady(s, x + {u}, q) && u < |s.fibers|
    requires s.fibers[u].phase != Disposed
    ensures InStep(Follow(w, s, u).state, {}) || Lost(|s.log|, Follow(w, s, u).state, spare)
  {
    var epoch := ComputeEpoch(s, u);
    assert Sound(s.store, s.fibers[u], false);
    hide Kept, InStep, Core, Sound, Lapsed, Lost;
    if s.fibers[u].phase != Failed && epoch != s.fibers[u].epoch {
      var s1 := SetEpoch(s, u, epoch, Bindings(s, u));
      PutOwned(s, u, epoch, spare);
      EpochSet(s, u, x, q);
      if epoch.Inactive? {
        if s.fibers[u].phase == Active { UnloadInStep(s1, u, {}); }
      } else if s.fibers[u].epoch.Inactive? {
        LoadInStep(w, s1, u, x + {u}, q, spare);
      } else {
        ReloadInStep(w, s1, u, x + {u}, q, spare);
      }
    }
  }

  lemma {:induction false} PutOwned(s: State, u: Uid, epoch: Epoch, spare: set<Impl>)
    requires Own(s, {}, spare) && Held(s, spare) && u < |s.fibers|
    ensures var s1 := SetEpoch(s, u, epoch, Bindings(s, u));
      Own(s1, {}, spare) && Held(s1, spare) && s1.log == s.log
  {
    PutOwn(s, u, s.fibers[u].(epoch := epoch, seen := Bindings(s, u)), {}, spare);
  }

  /** Unload, then load: the unload may cost a spare registration its owner. */
  lemma {:induction false} ReloadInStep(w: Behaviour, s: State, u: Uid, x: set<Uid>, q: seq<Uid>, spare: set<Impl>)
    requires Own(s, {}, spare) && Core(s, {u}, x, q) && Rest(s, {}) && u < |s.fibers|
    requires s.fibers[u].phase in {Pending, Active}
    requires s.fibers[u].epoch.Live?
    requires s.fibers[u].seen == Bindings(s, u) && s.fibers[u].epoch == EpochOf(s.fibers[u].decl, Bindings(s, u))
    ensures var t := Load(w, Unload(s, u), u).state;
      InStep(t, {}) || Lost(|s.log|, t, spare)
  {
    var m := Unload(s, u);
    UnloadOwn(s, u, {}, spare);
    UnloadSteady(s, u, x, q);
    UnloadRises(s, u);
    FewerLapsed(s, m, u);
    if Held(m, spare) {
      hide Kept, InStep, Core, Lapsed;
      LoadInStep(w, m, u, x, q, spare);
    } else {
      assert Lost(|s.log|, m, spare);
      LoadRises(w, m, u);
      LostStays(|s.log|, m, Load(w, m, u).state, spare);
    }
  }

  lemma {:induction false} RefreshKept(w: Behaviour, s: State, u: Uid, x: set<Uid>, q: seq<Uid>, spare: set<Impl>)
    requires Kept(s, spare) && Steady(s, x + {u}, q) && u < |s.fibers|
    ensures KeptResult(Refresh(w, s, u), u, spare)
  {
    hide Kept, Core;
    if s.fibers[u].phase != Disposed {
      if s.fibers[u].restart {
        RestartTakenKept(s, u, spare);
        RestartSteady(s, u, x, q);
        FollowKept(w, TakeRestart(s, u), u, x, q, spare);
      } else {
        FollowKept(w, s, u, x, q, spare);
      }
    }
  }

  /** One refresh keeps everything in step, or costs a spare registration its owner. */
  lemma {:induction false} RefreshInStep(w: Behaviour, s: State, u: Uid, x: set<Uid>, q: seq<Uid>, spare: set<Impl>)
    requires Own(s, {}, spare) && Held(s, spare) && Steady(s, x + {u}, q) && u < |s.fibers|
    ensures InStep(Refresh(w, s, u).state, {}) || Lost(|s.log|, Refresh(w, s, u).state, spare)
  {
    if s.fibers[u].phase != Disposed {
      if s.fibers[u].restart {
        var m := TakeRestart(s, u);
        RestartTakenKept(s, u, spare);
        RestartTakenInStep(s, u);
        RestartSteady(s, u, x, q);
        if Held(m, spare) {
          FollowInStep(w, m, u, x, q, spare);
          LostEarlier(|s.log|, |m.log|, Follow(w, m, u).state, spare);
        } else {
          assert Lost(|s.log|, m, spare);
          FollowRises(w, m, u);
          LostStays(|s.log|, m, Follow(w, m, u).state, spare);
        }
      } else {
        FollowInStep(w, s, u, x, q, spare);
      }
    }
  }

  lemma {:induction false} LostEarlier(since: nat, later: nat, s: State, spare: set<Impl>)
    requires since <= later
    ensures Lost(later, s, spare) ==> Lost(since, s, spare)
  {
    if Lost(later, s, spare) {
      var i :| i in spare
        && (i.owner >= |s.fibers| || s.fibers[i.owner].phase != Active || StartedSince(later, s.log, i.owner));
      if StartedSince(later, s.log, i.owner) {
        var k :| later <= k < |s.log| && s.log[k].Start? && s.log[k].who == i.owner;
        assert since <= k;
      }
    }
  }

  lemma {:induction false} RefreshRises(w: Behaviour, s: State, u: Uid)
    requires u < |s.fibers|
    ensures Rise(s, Refresh(w, s, u).state)
  {
    hide Rise;
    if s.fibers[u].phase == Disposed {
      RiseSelf(s);
    } else if s.fibers[u].restart {
      RestartRises(s, u);
      FollowRises(w, TakeRestart(s, u), u);
      RiseTrans(s, TakeRestart(s, u), Refresh(w, s, u).state);
    } else {
      FollowRises(w, s, u);
    }
  }

  lemma {:induction false} RestartRises(s: State, u: Uid)
    requires u < |s.fibers|
    ensures Rise(s, TakeRestart(s, u))
  {
    UnloadRises(Put(s, u, s.fibers[u].(restart := false)), u);
  }

  // ---- settles -------------------------------------------------------------------------------------------

  /** Ownership with spare registrations: as long as none of them lost its owner, everything is in step. */
  ghost predicate Owned(since: nat, s: State, spare: set<Impl>) {
    Kept(s, spare) && since <= |s.log| && (Lost(since, s, spare) || InStep(s, {}))
  }

  ghost predicate OwnedResult(since: nat, r: Result, u: Uid, spare: set<Impl>) {
    Owned(since, r.state, spare) && (r.Aborted? ==> u < |r.state.fibers| && Bare(r.state.fibers[u]))
  }

  lemma {:induction false} HeldUnlessLost(since: nat, s: State, spare: set<Impl>)
    ensures Lost(since, s, spare) || Held(s, spare)
  {
  }

  lemma {:induction false} RefreshOwned(
    since: nat, w: Behaviour, s: State, u: Uid, x: set<Uid>, q: seq<Uid>, spare: set<Impl>)
    requires Owned(since, s, spare) && Steady(s, x + {u}, q) && u < |s.fibers|
    ensures OwnedResult(since, Refresh(w, s, u), u, spare)
  {
    hide InStep, Lost, Core;
    var t := Refresh(w, s, u).state;
    RefreshKept(w, s, u, x, q, spare);
    RefreshRises(w, s, u);
    if Lost(since, s, spare) {
      LostStays(since, s, t, spare);
    } else {
      HeldUnlessLost(since, s, spare);
      RefreshInStep(w, s, u, x, q, spare);
      LostEarlier(since, |s.log|, t, spare);
    }
  }

  lemma {:induction false} OwnedIsOwn(since: nat, s: State)
    ensures Owned(since, s, {}) <==> Own(s, {}) && since <= |s.log|
  {
  }

  lemma {:induction false} RefreshOwn(w: Behaviour, s: State, u: Uid, x: set<Uid>, q: seq<Uid>)
    requires Own(s, {}) && Steady(s, x + {u}, q) && u < |s.fibers|
    ensures Own(Refresh(w, s, u).state, {})
  {
    hide Kept, InStep, Core;
    RefreshOwned(0, w, s, u, x, q, {});
  }

  lemma {:induction false} OwnedIgnoresQueue(since: nat, s: State, pending: seq<Uid>, spare: set<Impl>)
    requires Owned(since, s, spare)
    ensures Owned(since, s.(pending := pending), spare)
  {
    var r := s.(pending := pending);
    TreeSame(s, r);
    FiledSame(s, r, spare);
    if InStep(s, {}) {
      forall v: Uid | v < |s.fibers| ensures Placed(r, v, {}) { assert Placed(s, v, {}); }
    }
  }

  lemma {:induction false} OwnIgnoresQueue(s: State, pending: seq<Uid>)
    requires Own(s, {})
    ensures Own(s.(pending := pending), {})
  {
    OwnedIsOwn(0, s);
    OwnedIgnoresQueue(0, s, pending, {});
    OwnedIsOwn(0, s.(pending := pending));
  }

  /** What a batch or a settle leaves: an aborted fiber, if any, owns nothing and waits for its turn. */
  ghost predicate LeftOver(since: nat, r: Result, x: set<Uid>, spare: set<Impl>) {
    && Owned(since, r.state, spare)
    && (r.Aborted? ==> exists u: Uid :: u < |r.state.fibers| && Dormant(r.state, u) && Steady(r.state, x + {u}, []))
  }

  ghost predicate Dormant(s: State, u: Uid)
    requires u < |s.fibers|
  {
    s.fibers[u].phase == Pending && s.fibers[u].epoch == Inactive && Bare(s.fibers[u])
  }

  lemma {:induction false} RunBatchOwned(
    since: nat, w: Behaviour, s: State, batch: seq<Uid>, x: set<Uid>, spare: set<Impl>)
    requires Owned(since, s, spare) && Steady(s, x, batch) && Uids(s, batch)
    ensures LeftOver(since, RunBatch(w, s, batch), x, spare)
    decreases |batch|
  {
    hide Owned, Sound, Due, Bare;
    if batch != [] {
      var u, rest := batch[0], batch[1..];
      assert u in batch && forall v :: v in rest ==> v in batch;
      TakeHead(s, x, batch);
      RefreshSteady(w, s, u, x, rest);
      RefreshOwned(since, w, s, u, x, rest, spare);
      var t := Refresh(w, s, u);
      if t.Done? {
        SteadyExcuse(t.state, x - {u}, x, rest);
        RunBatchOwned(since, w, t.state, rest, x, spare);
      } else {
        OwnedIgnoresQueue(since, t.state, rest + t.state.pending, spare);
        SteadyExcuse(t.state, x - {u} + {u}, x + {u}, rest);
        Requeue(t.state, x + {u}, rest, rest + t.state.pending, []);
        assert Dormant(t.state.(pending := rest + t.state.pending), u);
      }
    }
  }

  lemma {:induction false} SettleOwned(since: nat, w: Behaviour, s: State, rounds: nat, x: set<Uid>, spare: set<Impl>)
    requires Owned(since, s, spare) && Steady(s, x, [])
    ensures LeftOver(since, Settle(w, s, rounds), x, spare)
    decreases rounds
  {
    hide Owned, Core, Dormant;
    if s.pending != [] && rounds != 0 && Uids(s, s.pending) {
      var batch := Dedup(s.pending);
      var s0 := s.(pending := []);
      Requeue(s, x, [], [], batch);
      OwnedIgnoresQueue(since, s, [], spare);
      RunBatchSteady(w, s0, batch, x);
      RunBatchOwned(since, w, s0, batch, x, spare);
      var t := RunBatch(w, s0, batch);
      if t.Done? { SettleOwned(since, w, t.state, rounds - 1, x, spare); }
    }
  }

  lemma {:induction false} SettleOwn(w: Behaviour, s: State, rounds: nat, x: set<Uid>)
    requires Own(s, {}) && Steady(s, x, [])
    ensures Own(Settle(w, s, rounds).state, {})
  {
    OwnedIsOwn(0, s);
    SettleOwned(0, w, s, rounds, x, {});
    OwnedIsOwn(0, Settle(w, s, rounds).state);
  }
}
