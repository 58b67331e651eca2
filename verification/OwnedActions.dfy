/** Ownership through the actions of an apply. */
module OwnedActions {
  import opened Lists
  import opened Registry
  import opened Runtime
  import opened Currency
  import opened Ownership

  ghost predicate BoundKnown(s: State) {
    forall v: Uid :: v < |s.fibers| ==> AllKnown(s.store, s.fibers[v].bound)
  }

  lemma {:induction false} CoreBoundKnown(s: State, open: set<Uid>, x: set<Uid>, q: seq<Uid>)
    requires Core(s, open, x, q)
    ensures BoundKnown(s)
  {
    forall v: Uid | v < |s.fibers| ensures AllKnown(s.store, s.fibers[v].bound) {
      assert Sound(s.store, s.fibers[v], v in open);
    }
  }

  // ---- the order ------------------------------------------------------------------------------

  /** From s to r loads go on as they were, new fibers are PENDING, and among what bounds mention nothing
      new is live. */
  ghost predicate Carries(s: State, r: State) {
    && |s.fibers| <= |r.fibers| && r.activation == s.activation && r.log == s.log
    && (forall u: Uid :: u < |s.fibers| ==> SameLoad(s.fibers[u], r.fibers[u]))
    && (forall u: Uid :: |s.fibers| <= u < |r.fibers| ==> r.fibers[u].phase == Pending)
    && (forall u: Uid :: u < |s.fibers| ==> forall i :: 0 <= i < |s.fibers[u].bound| && s.fibers[u].bound[i].Some? ==>
         (IsLive(r.store, s.fibers[u].bound[i].value) ==> IsLive(s.store, s.fibers[u].bound[i].value)))
  }

  lemma {:induction false} CarriesInStep(s: State, r: State, open: set<Uid>)
    requires InStep(s, open) && Carries(s, r)
    ensures InStep(r, open)
  {
    forall u: Uid | u < |r.fibers| ensures Placed(r, u, open) {
      if u < |s.fibers| {
        assert Placed(s, u, open) && SameLoad(s.fibers[u], r.fibers[u]);
        BoundCarried(s, r, u, open);
      }
    }
  }

  lemma {:induction false} BoundCarried(s: State, r: State, u: Uid, open: set<Uid>)
    requires Carries(s, r) && u < |s.fibers| && Placed(s, u, open)
    ensures var b := s.fibers[u].bound;
      forall i :: 0 <= i < |b| && b[i].Some? && IsLive(r.store, b[i].value) ==>
        && (r.fibers[u].phase == Active ==> Precedes(r, b[i].value.owner, u))
        && (r.fibers[u].phase == Loading && u !in open ==> Upstream(r, b[i].value.owner, u))
  {
    assert SameLoad(s.fibers[u], r.fibers[u]);
    var b := s.fibers[u].bound;
    forall i | 0 <= i < |b| && b[i].Some? && IsLive(r.store, b[i].value)
      ensures r.fibers[u].phase == Active ==> Precedes(r, b[i].value.owner, u)
      ensures r.fibers[u].phase == Loading && u !in open ==> Upstream(r, b[i].value.owner, u)
    {
      assert IsLive(s.store, b[i].value);
    }
  }

  /** Every action but an early withdrawal and a drop carries all loads on. */
  lemma {:induction false} ActCarries(s: State, u: Uid, a: Action)
    requires BoundKnown(s) && u < |s.fibers| && !a.Withdraw? && !a.Drop?
    ensures Carries(s, Act(s, u, a).state)
  {
    match a {
      case Provide(who, r, name, _) => if who < |s.fibers| { ProvideCarries(s, who, r, name); }
      case Mount(who, r, entry, d, isolated, _) => MountCarries(s, Some(who), r, entry, d, isolated);
      case _ =>
    }
  }

  lemma {:induction false} ProvideCarries(s: State, u: Uid, r: RealmId, name: Name)
    requires BoundKnown(s) && u < |s.fibers|
    ensures Carries(s, ProvideStep(s, u, r, name).state)
  {
  }

  lemma {:induction false} MountCarries(
    s: State, parent: Option<Uid>, r: RealmId, entry: string, d: Decl, isolated: set<Name>)
    ensures Carries(s, MountStep(s, parent, r, entry, d, isolated).state)
  {
  }

  // ---- the holdings -----------------------------------------------------------------------------

  lemma {:induction false} RegisterEffects(g: Store, slot: Slot, u: Uid, v: Uid, es: seq<Effect>)
    requires EffectsOk(g, v, es) && slot !in g.impls
    ensures EffectsOk(Register(g, slot, u), v, es)
    ensures v == u ==> EffectsOk(Register(g, slot, u), u, es + [Undo(Impl(slot, u, g.serial + 1))])
  {
  }

  lemma {:induction false} ProvideKept(s: State, u: Uid, r: RealmId, name: Name, spare: set<Impl> := {})
    requires Kept(s, spare) && u < |s.fibers|
    ensures Kept(ProvideStep(s, u, r, name).state, spare)
  {
    var t := ProvideStep(s, u, r, name);
    if t.Ok? {
      TreeSame(s, t.state);
      ProvideFiled(s, u, r, name, spare);
    }
  }

  lemma {:induction false} ProvideFiled(s: State, u: Uid, r: RealmId, name: Name, spare: set<Impl>)
    requires Filed(s, spare) && u < |s.fibers| && ProvideStep(s, u, r, name).Ok?
    ensures Filed(ProvideStep(s, u, r, name).state, spare)
  {
    var s' := ProvideStep(s, u, r, name).state;
    var slot := Slot(OwnerOf(s.store.realms, r, name), name);
    var i := Impl(slot, u, s.store.serial + 1);
    assert s'.fibers[u].effects == s.fibers[u].effects + [Undo(i)];
    forall v: Uid | v < |s.fibers| ensures EffectsOk(s'.store, v, s'.fibers[v].effects) {
      RegisterEffects(s.store, slot, u, v, s.fibers[v].effects);
    }
    forall x | x in s'.store.impls
      ensures s'.store.impls[x].slot == x && s'.store.impls[x].owner < |s'.fibers|
      ensures s'.store.impls[x] in spare || Files(s'.fibers[s'.store.impls[x].owner], s'.store.impls[x])
    {
      if x == slot {
        assert s'.fibers[u].effects[|s.fibers[u].effects|] == Undo(i);
      } else {
        assert s.store.impls[x] in spare || Files(s.fibers[s.store.impls[x].owner], s.store.impls[x]);
      }
    }
    forall j | j in spare ensures IsLive(s'.store, j) && Unfiled(s', j) {
      assert IsLive(s.store, j) && Unfiled(s, j);
    }
  }

  lemma {:induction false} FileKept(s: State, u: Uid, tag: nat, spare: set<Impl> := {})
    requires Kept(s, spare) && Acting(s, u)
    ensures Kept(FileStep(s, u, tag), spare)
  {
    var r := FileStep(s, u, tag);
    TreeSame(s, r);
    forall v: Uid | v < |s.fibers| ensures EffectsOk(r.store, v, r.fibers[v].effects) {
      assert EffectsOk(s.store, v, s.fibers[v].effects);
    }
    forall slot | slot in r.store.impls
      ensures r.store.impls[slot] in spare || Files(r.fibers[r.store.impls[slot].owner], r.store.impls[slot])
    {
      assert s.store.impls[slot] in spare || Files(s.fibers[s.store.impls[slot].owner], s.store.impls[slot]);
    }
    forall i | i in spare ensures IsLive(r.store, i) && Unfiled(r, i) {
      assert IsLive(s.store, i) && Unfiled(s, i);
    }
  }

  lemma {:induction false} AddRealmKept(s: State, base: RealmId, names: set<Name>, spare: set<Impl> := {})
    requires Kept(s, spare)
    ensures Kept(s.(store := AddRealm(s.store, base, names)), spare)
  {
    TreeSame(s, s.(store := AddRealm(s.store, base, names)));
    FiledSame(s, s.(store := AddRealm(s.store, base, names)), spare);
  }

  /** r is s with the fiber f appended, listed under its parent. */
  ghost predicate Grown(s: State, r: State, f: Fiber) {
    && |r.fibers| == |s.fibers| + 1 && r.fibers[|s.fibers|] == f
    && r.activation == s.activation && r.store == s.store
    && (forall v: Uid :: v < |s.fibers| ==>
         && SameLoad(s.fibers[v], r.fibers[v]) && r.fibers[v].effects == s.fibers[v].effects
         && r.fibers[v].provided == s.fibers[v].provided
         && r.fibers[v].children == if f.parent == Some(v) then s.fibers[v].children + [|s.fibers|]
           else s.fibers[v].children)
  }

  lemma {:induction false} AddFiberGrows(s: State, f: Fiber)
    ensures Grown(s, AddFiber(s, f), f)
  {
  }

  lemma {:induction false} GrownDown(s: State, r: State, f: Fiber)
    requires Tree(s) && Grown(s, r, f) && f.phase == Pending && f.children == []
    ensures forall v: Uid :: v < |r.fibers| ==> forall c: Uid :: c in r.fibers[v].children ==>
      v < c < |r.fibers| && r.fibers[c].parent == Some(v) && r.fibers[c].phase != Disposed
  {
    var n := |s.fibers|;
    forall v: Uid, c: Uid | v < |r.fibers| && c in r.fibers[v].children
      ensures v < c < |r.fibers| && r.fibers[c].parent == Some(v) && r.fibers[c].phase != Disposed
    {
      if c != n { assert c in s.fibers[v].children; }
    }
  }

  lemma {:induction false} GrownUp(s: State, r: State, f: Fiber)
    requires Tree(s) && Grown(s, r, f) && (f.parent.Some? ==> f.parent.value < |s.fibers|)
    ensures forall c: Uid :: c < |r.fibers| && r.fibers[c].phase != Disposed && r.fibers[c].parent.Some? ==>
      r.fibers[c].parent.value < c && c in r.fibers[r.fibers[c].parent.value].children
  {
    var n := |s.fibers|;
    forall c: Uid | c < |r.fibers| && r.fibers[c].phase != Disposed && r.fibers[c].parent.Some?
      ensures r.fibers[c].parent.value < c && c in r.fibers[r.fibers[c].parent.value].children
    {
      var p := r.fibers[c].parent.value;
      if c == n {
        assert r.fibers[p].children[|s.fibers[p].children|] == n;
      } else {
        assert SameLoad(s.fibers[c], r.fibers[c]);
        assert c in s.fibers[p].children;
      }
    }
  }

  lemma {:induction false} GrownTree(s: State, r: State, f: Fiber)
    requires Tree(s) && Idle(s) && Grown(s, r, f) && f.phase == Pending && Bare(f)
    requires f.parent.Some? ==> Acting(s, f.parent.value)
    ensures Tree(r) && Idle(r)
  {
    GrownDown(s, r, f);
    GrownUp(s, r, f);
    forall v: Uid | v < |r.fibers| && r.fibers[v].phase in {Pending, Failed, Disposed} ensures Bare(r.fibers[v]) {
      if v < |s.fibers| { assert SameLoad(s.fibers[v], r.fibers[v]) && Bare(s.fibers[v]); }
    }
  }

  lemma {:induction false} GrownFiled(s: State, r: State, f: Fiber, spare: set<Impl>)
    requires Filed(s, spare) && Grown(s, r, f) && Bare(f)
    ensures Filed(r, spare)
  {
    forall v: Uid | v < |r.fibers| ensures EffectsOk(r.store, v, r.fibers[v].effects) {
      if v < |s.fibers| { assert EffectsOk(s.store, v, s.fibers[v].effects); }
    }
    forall slot | slot in r.store.impls
      ensures r.store.impls[slot] in spare || Files(r.fibers[r.store.impls[slot].owner], r.store.impls[slot])
    {
      assert s.store.impls[slot] in spare || Files(s.fibers[s.store.impls[slot].owner], s.store.impls[slot]);
    }
    forall i | i in spare ensures IsLive(r.store, i) && Unfiled(r, i) {
      assert IsLive(s.store, i) && Unfiled(s, i);
    }
  }

  /** A child hangs under a parent that is loading or active. */
  lemma {:induction false} AddFiberKept(s: State, f: Fiber, spare: set<Impl>)
    requires Kept(s, spare) && f.phase == Pending && Bare(f)
    requires f.parent.Some? ==> Acting(s, f.parent.value)
    ensures Kept(AddFiber(s, f), spare)
  {
    AddFiberGrows(s, f);
    GrownTree(s, AddFiber(s, f), f);
    GrownFiled(s, AddFiber(s, f), f, spare);
  }

  lemma {:induction false} MountKept(
    s: State, parent: Option<Uid>, r: RealmId, entry: string, d: Decl, isolated: set<Name>, spare: set<Impl> := {})
    requires Kept(s, spare) && (parent.Some? ==> Acting(s, parent.value))
    ensures Kept(MountStep(s, parent, r, entry, d, isolated).state, spare)
  {
    hide Kept;
    if !EntryTaken(s, entry) {
      if isolated == {} {
        AddFiberKept(s, NewFiber(entry, d, r, parent), spare);
      } else {
        AddRealmKept(s, r, isolated, spare);
        AddFiberKept(s.(store := AddRealm(s.store, r, isolated)), NewFiber(entry, d, |s.store.realms|, parent), spare);
      }
    }
  }

  lemma {:induction false} MountOwn(
    s: State, parent: Option<Uid>, r: RealmId, entry: string, d: Decl, isolated: set<Name>, open: set<Uid>)
    requires Own(s, open) && (parent.Some? ==> Acting(s, parent.value))
    ensures Own(MountStep(s, parent, r, entry, d, isolated).state, open)
  {
    hide Kept, InStep;
    MountKept(s, parent, r, entry, d, isolated);
    MountCarries(s, parent, r, entry, d, isolated);
    CarriesInStep(s, MountStep(s, parent, r, entry, d, isolated).state, open);
  }

  lemma {:induction false} RestartKept(s: State, u: Uid, spare: set<Impl> := {})
    requires Kept(s, spare)
    ensures Kept(RestartStep(s, u), spare)
  {
    TreeSame(s, RestartStep(s, u));
    FiledSame(s, RestartStep(s, u), spare);
  }

  lemma {:induction false} RestartOwn(s: State, u: Uid, open: set<Uid>)
    requires Own(s, open)
    ensures Own(RestartStep(s, u), open)
  {
    RestartKept(s, u);
    CarriesInStep(s, RestartStep(s, u), open);
  }

  lemma {:induction false} FileOwn(s: State, u: Uid, tag: nat, open: set<Uid>)
    requires Own(s, open) && Acting(s, u)
    ensures Own(FileStep(s, u, tag), open)
  {
    FileKept(s, u, tag);
    CarriesInStep(s, FileStep(s, u, tag), open);
  }

  // ---- all of them --------------------------------------------------------------------------------

  lemma {:induction false} ActKept(s: State, u: Uid, a: Action, spare: set<Impl> := {})
    requires Kept(s, spare) && u < |s.fibers|
    ensures Kept(Act(s, u, a).state, spare)
  {
    hide Kept;
    match a {
      case Isolate(base, names) => AddRealmKept(s, base, names, spare);
      case Provide(who, r, name, _) => if who < |s.fibers| { ProvideKept(s, who, r, name, spare); }
      case Withdraw(who, k) => if Acting(s, who) && k < |s.fibers[who].effects| { WithdrawKept(s, who, k, spare); }
      case File(who, tag) => if Acting(s, who) { FileKept(s, who, tag, spare); }
      case Mount(who, r, entry, d, isolated, _) =>
        if Acting(s, who) { MountKept(s, Some(who), r, entry, d, isolated, spare); }
      case Drop(k) =>
        if k < |s.fibers[u].children| && u < s.fibers[u].children[k] < |s.fibers| {
          DisposeKept(s, s.fibers[u].children[k], spare);
        }
      case Restart(target) => RestartKept(s, target, spare);
    }
  }

  lemma {:induction false} ActInStep(s: State, u: Uid, a: Action, open: set<Uid>)
    requires InStep(s, open) && BoundKnown(s) && u < |s.fibers|
    ensures InStep(Act(s, u, a).state, open)
  {
    hide InStep, Carries, BoundKnown;
    match a {
      case Withdraw(who, k) => if Acting(s, who) && k < |s.fibers[who].effects| { WithdrawInStep(s, who, k, open); }
      case Drop(k) =>
        if k < |s.fibers[u].children| && u < s.fibers[u].children[k] < |s.fibers| {
          DisposeInStep(s, s.fibers[u].children[k], open);
        }
      case _ =>
        ActCarries(s, u, a);
        CarriesInStep(s, Act(s, u, a).state, open);
    }
  }

  lemma {:induction false} ActOwn(s: State, u: Uid, a: Action, open: set<Uid>, spare: set<Impl> := {})
    requires Own(s, open, spare) && BoundKnown(s) && u < |s.fibers|
    ensures Own(Act(s, u, a).state, open, spare)
  {
    ActKept(s, u, a, spare);
    ActInStep(s, u, a, open);
  }

  lemma {:induction false} RunKept(s: State, u: Uid, actions: seq<Action>, spare: set<Impl> := {})
    requires Kept(s, spare) && u < |s.fibers|
    ensures Kept(RunActions(s, u, actions).state, spare)
    decreases |actions|
  {
    hide Kept;
    if actions != [] {
      ActKept(s, u, actions[0], spare);
      ActGrows(s, u, actions[0]);
      var t := Act(s, u, actions[0]);
      if t.Ok? { RunKept(t.state, u, actions[1..], spare); }
    }
  }

  lemma {:induction false} RunInStep(s: State, u: Uid, actions: seq<Action>, x: set<Uid>, q: seq<Uid>)
    requires InStep(s, {}) && Core(s, {}, x, q) && u < |s.fibers|
    ensures InStep(RunActions(s, u, actions).state, {})
    decreases |actions|
  {
    hide InStep, Core;
    if actions != [] {
      CoreBoundKnown(s, {}, x, q);
      ActInStep(s, u, actions[0], {});
      ActCore(s, u, actions[0], {}, x, q);
      ActGrows(s, u, actions[0]);
      var t := Act(s, u, actions[0]);
      if t.Ok? { RunInStep(t.state, u, actions[1..], x, q); }
    }
  }

  lemma {:induction false} RunOwn(s: State, u: Uid, actions: seq<Action>, x: set<Uid>, q: seq<Uid>)
    requires Own(s, {}) && Core(s, {}, x, q) && u < |s.fibers|
    ensures Own(RunActions(s, u, actions).state, {})
  {
    RunKept(s, u, actions);
    RunInStep(s, u, actions, x, q);
  }
}
