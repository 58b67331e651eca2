/** The currency invariant: every mounted fiber that is not queued carries the epoch its injections
    compute to now. */
module Currency {
  import opened Lists
  import opened Registry
  import opened Runtime
  import opened Teardown

  ghost predicate Shape(s: State) {
    && Forest(s.store.realms)
    && Serialized(s.store)
    && NoDup(s.mounted) && Uids(s, s.mounted) && Uids(s, s.pending)
    && (forall u: Uid :: u < |s.fibers| ==> s.fibers[u].realm < |s.store.realms|)
    && (forall u: Uid :: u < |s.fibers| ==> (u in s.mounted <==> s.fibers[u].phase != Disposed))
  }

  ghost predicate AllKnown(g: Store, b: seq<Option<Impl>>) {
    forall i :: 0 <= i < |b| && b[i].Some? ==> Known(g, b[i].value)
  }

  ghost predicate SomeDead(g: Store, b: seq<Option<Impl>>) {
    exists i :: 0 <= i < |b| && b[i].Some? && !IsLive(g, b[i].value)
  }

  /** The stored epoch is that of `seen`, and apply started from `seen` unless one of those
      registrations is gone for good. */
  ghost predicate Tracked(g: Store, f: Fiber) {
    && |f.seen| == |f.bound| == |f.decl.Names()|
    && f.epoch == EpochOf(f.decl, f.seen)
    && (f.seen == f.bound || SomeDead(g, f.seen))
  }

  /** Per fiber: known history; unless it is open (mid-transition), it is LOADING or ACTIVE exactly
      when it holds a live epoch, and that epoch is tracked. */
  ghost predicate Sound(g: Store, f: Fiber, open: bool) {
    && AllKnown(g, f.seen) && AllKnown(g, f.bound)
    && (f.phase != Disposed && !open ==>
      (f.phase in {Loading, Active} <==> f.epoch.Live?) && (f.epoch.Live? ==> Tracked(g, f)))
  }

  /** u must be current: mounted, not failed, not queued, not excused. */
  ghost predicate Due(s: State, u: Uid, excused: set<Uid>, batch: seq<Uid>) {
    && u < |s.fibers| && s.fibers[u].phase !in {Disposed, Failed}
    && u !in excused && u !in batch && u !in s.pending
  }

  ghost predicate Core(s: State, open: set<Uid>, excused: set<Uid>, batch: seq<Uid>) {
    && Shape(s)
    && (forall u: Uid :: u < |s.fibers| ==> Sound(s.store, s.fibers[u], u in open))
    && (forall u: Uid :: Due(s, u, excused, batch) ==> s.fibers[u].epoch == ComputeEpoch(s, u))
  }

  // ---- what an epoch depends on -----------------------------------------------------------

  lemma {:induction false} ResolvedAgree(g: Store, g': Store, r: RealmId, names: seq<Name>)
    requires forall n :: n in names ==> Resolve(g', r, n) == Resolve(g, r, n)
    ensures Resolved(g', r, names) == Resolved(g, r, names)
  {
  }

  lemma {:induction false} EpochAgree(s: State, s': State, u: Uid)
    requires u < |s.fibers| && u < |s'.fibers|
    requires s'.fibers[u].realm == s.fibers[u].realm && s'.fibers[u].decl == s.fibers[u].decl
    requires forall n :: n in s.fibers[u].decl.Names() ==>
      Resolve(s'.store, s.fibers[u].realm, n) == Resolve(s.store, s.fibers[u].realm, n)
    ensures Bindings(s', u) == Bindings(s, u) && ComputeEpoch(s', u) == ComputeEpoch(s, u)
  {
    ResolvedAgree(s.store, s'.store, s.fibers[u].realm, s.fibers[u].decl.Names());
  }

  // ---- steps that leave the invariant alone --------------------------------------------------

  /** The fields currency does not read. */
  function Essence(f: Fiber): Fiber {
    f.(children := [], effects := [], provided := {}, restart := false)
  }

  ghost predicate SameEssence(s: State, s': State) {
    && |s'.fibers| == |s.fibers| && s'.store == s.store && s'.mounted == s.mounted
    && (forall u: Uid :: u < |s.fibers| ==> Essence(s'.fibers[u]) == Essence(s.fibers[u]))
    && (forall v :: v in s.pending ==> v in s'.pending) && Uids(s, s'.pending)
  }

  lemma {:induction false} EssenceFields(f: Fiber, f': Fiber)
    requires Essence(f') == Essence(f)
    ensures f'.phase == f.phase && f'.epoch == f.epoch && f'.seen == f.seen && f'.bound == f.bound
    ensures f'.decl == f.decl && f'.realm == f.realm && f'.entry == f.entry && f'.parent == f.parent
  {
    assert f'.phase == Essence(f').phase && f.phase == Essence(f).phase;
    assert f'.epoch == Essence(f').epoch && f.epoch == Essence(f).epoch;
    assert f'.seen == Essence(f').seen && f.seen == Essence(f).seen;
  }

  lemma {:induction false} CoreIgnores(s: State, s': State, open: set<Uid>, x: set<Uid>, q: seq<Uid>)
    requires Core(s, open, x, q) && SameEssence(s, s')
    ensures Core(s', open, x, q)
  {
    forall u: Uid | u < |s.fibers|
      ensures Sound(s'.store, s'.fibers[u], u in open) && s'.fibers[u].realm < |s'.store.realms|
      ensures u in s'.mounted <==> s'.fibers[u].phase != Disposed
    {
      EssenceFields(s.fibers[u], s'.fibers[u]);
    }
    forall u: Uid | Due(s', u, x, q) ensures s'.fibers[u].epoch == ComputeEpoch(s', u) {
      EssenceFields(s.fibers[u], s'.fibers[u]);
      assert Due(s, u, x, q);
      EpochAgree(s, s', u);
    }
  }

  /** Rewriting an open fiber: it must stay known, and current if it is due. */
  lemma {:induction false} PutCore(s: State, s': State, u: Uid, f: Fiber, open: set<Uid>, x: set<Uid>, q: seq<Uid>)
    requires Core(s, open, x, q) && u < |s.fibers| && u in open
    requires s' == Put(s, u, f).(activation := s'.activation, log := s'.log)
    requires f.decl == s.fibers[u].decl && f.realm == s.fibers[u].realm
    requires f.phase == Disposed <==> s.fibers[u].phase == Disposed
    requires AllKnown(s.store, f.seen) && AllKnown(s.store, f.bound)
    requires f.phase !in {Disposed, Failed} && u !in x && u !in q && u !in s.pending ==> f.epoch == ComputeEpoch(s, u)
    ensures Core(s', open, x, q)
  {
    forall v: Uid | Due(s', v, x, q) ensures s'.fibers[v].epoch == ComputeEpoch(s', v) {
      EpochAgree(s, s', v);
      if v != u { assert Due(s, v, x, q); }
    }
  }

  lemma {:induction false} PhaseCore(s: State, u: Uid, p: Phase, open: set<Uid>, x: set<Uid>, q: seq<Uid>)
    requires Core(s, open, x, q) && u < |s.fibers| && u in open
    requires p != Disposed && s.fibers[u].phase != Disposed
    requires p == Failed || u in x || s.fibers[u].phase != Failed
    ensures Core(SetPhase(s, u, p), open, x, q)
  {
    if p != Failed && u !in x && u !in q && u !in s.pending { assert Due(s, u, x, q); }
    PutCore(s, SetPhase(s, u, p), u, s.fibers[u].(phase := p), open, x, q);
  }

  lemma {:induction false} CoreOpen(s: State, open: set<Uid>, open': set<Uid>, x: set<Uid>, x': set<Uid>, q: seq<Uid>)
    requires Core(s, open, x, q) && open <= open' && x <= x'
    ensures Core(s, open', x', q)
  {
  }

  lemma {:induction false} CoreClose(s: State, open: set<Uid>, u: Uid, x: set<Uid>, q: seq<Uid>)
    requires Core(s, open + {u}, x, q) && u < |s.fibers|
    requires Sound(s.store, s.fibers[u], false)
    ensures Core(s, open - {u}, x, q)
  {
  }

  lemma {:induction false} SoundShrinks(g: Store, g': Store, f: Fiber, open: bool)
    requires Sound(g, f, open) && Fewer(g, g')
    ensures Sound(g', f, open)
  {
    if f.phase != Disposed && !open && f.epoch.Live? && f.seen != f.bound {
      var i :| 0 <= i < |f.seen| && f.seen[i].Some? && !IsLive(g, f.seen[i].value);
      assert !IsLive(g', f.seen[i].value);
    }
  }

  lemma {:induction false} RetractCore(s: State, i: Impl, open: set<Uid>, x: set<Uid>, q: seq<Uid>)
    requires Core(s, open, x, q)
    ensures Core(Retract(s, i), open, x, q)
  {
    if IsLive(s.store, i) {
      var s' := Retract(s, i);
      assert forall v :: v in s.pending ==> v in s'.pending;
      forall u: Uid | u < |s.fibers| ensures Sound(s'.store, s'.fibers[u], u in open) {
        SoundShrinks(s.store, s'.store, s.fibers[u], u in open);
      }
      forall u: Uid | Due(s', u, x, q) ensures s'.fibers[u].epoch == ComputeEpoch(s', u) {
        assert Due(s, u, x, q);
        assert u in s.mounted && !Declares(s, u, i.slot.name);
        EpochAgree(s, s', u);
      }
    }
  }

  lemma {:induction false} RevertCore(s: State, u: Uid, e: Effect, open: set<Uid>, x: set<Uid>, q: seq<Uid>)
    requires Core(s, open, x, q) && u < |s.fibers|
    ensures Core(Revert(s, u, e), open, x, q)
  {
    var s1 := s.(log := s.log + [Ran(u, e, s.store.impls)]);
    match e {
      case Undo(i) =>
        var s2 := Put(s1, u, s1.fibers[u].(provided := s1.fibers[u].provided - {i.slot.name}));
        CoreIgnores(s, s2, open, x, q);
        RetractCore(s2, i, open, x, q);
      case Cleanup(_) =>
        CoreIgnores(s, s1, open, x, q);
    }
  }

  lemma {:induction false} UnwindCore(s: State, u: Uid, open: set<Uid>, x: set<Uid>, q: seq<Uid>)
    requires Core(s, open, x, q) && u < |s.fibers|
    ensures Core(Unwind(s, u), open, x, q)
    decreases |s.fibers[u].effects|
  {
    var n := |s.fibers[u].effects|;
    if n != 0 {
      var t := Put(s, u, s.fibers[u].(effects := s.fibers[u].effects[..n - 1]));
      CoreIgnores(s, t, open, x, q);
      RevertCore(t, u, s.fibers[u].effects[n - 1], open, x, q);
      UnwindCore(Revert(t, u, s.fibers[u].effects[n - 1]), u, open, x, q);
    }
  }

  lemma {:induction false} DiscardCore(s: State, u: Uid, open: set<Uid>, x: set<Uid>, q: seq<Uid>)
    requires Core(s, open, x, q) && u < |s.fibers|
    ensures Core(Discard(s, u), open, x, q)
    decreases |s.fibers| - u, 1, 0
  {
    var s1 := DisposeAll(s, u, s.fibers[u].children);
    DisposeAllCore(s, u, s.fibers[u].children, open, x, q);
    var s2 := Put(s1, u, s1.fibers[u].(provided := {}));
    CoreIgnores(s1, s2, open, x, q);
    UnwindCore(s2, u, open, x, q);
  }

  lemma {:induction false} DisposeAllCore(s: State, u: Uid, cs: seq<Uid>, open: set<Uid>, x: set<Uid>, q: seq<Uid>)
    requires Core(s, open, x, q) && u < |s.fibers|
    ensures Core(DisposeAll(s, u, cs), open, x, q)
    decreases |s.fibers| - u, 0, |cs|
  {
    if cs != [] {
      if u < cs[0] < |s.fibers| {
        DisposeCore(s, cs[0], open, x, q);
        DisposeAllCore(Dispose(s, cs[0]), u, cs[1..], open, x, q);
      } else {
        DisposeAllCore(s, u, cs[1..], open, x, q);
      }
    }
  }

  lemma {:induction false} UnloadCore(s: State, u: Uid, open: set<Uid>, x: set<Uid>, q: seq<Uid>)
    requires Core(s, open, x, q) && u < |s.fibers| && u in open
    requires s.fibers[u].phase !in {Disposed, Failed}
    ensures Core(Unload(s, u), open, x, q)
    decreases |s.fibers| - u, 2
  {
    var t := SetPhase(s, u, Unloading);
    PhaseCore(s, u, Unloading, open, x, q);
    DiscardCore(t, u, open, x, q);
    DiscardWanes(t, u);
    PhaseCore(Discard(t, u), u, Pending, open, x, q);
  }

  lemma {:induction false} ForgetCore(s: State, u: Uid, open: set<Uid>, x: set<Uid>, q: seq<Uid>)
    requires Core(s, open, x, q) && u < |s.fibers| && u in open
    ensures Core(Forget(s, u), open, x, q)
  {
    var p := s.fibers[u].parent;
    var s1 := if p.Some? && p.value < |s.fibers|
              then Put(s, p.value, s.fibers[p.value].(children := Without(s.fibers[p.value].children, u)))
              else s;
    CoreIgnores(s, s1, open, x, q);
    StrikeCore(s1, u, open, x, q);
  }

  /** An open fiber leaves the mounted ones. */
  lemma {:induction false} StrikeCore(s: State, u: Uid, open: set<Uid>, x: set<Uid>, q: seq<Uid>)
    requires Core(s, open, x, q) && u < |s.fibers| && u in open
    ensures Core(SetPhase(s, u, Disposed).(mounted := Without(s.mounted, u)), open, x, q)
  {
    hide Serialized, Forest, SomeDead, Known, IsLive;
    var r := SetPhase(s, u, Disposed).(mounted := Without(s.mounted, u));
    NoDupWithout(s.mounted, u);
    forall v: Uid | Due(r, v, x, q) ensures r.fibers[v].epoch == ComputeEpoch(r, v) {
      assert v != u && Due(s, v, x, q);
      EpochAgree(s, r, v);
    }
  }

  lemma {:induction false} DisposeCore(s: State, u: Uid, open: set<Uid>, x: set<Uid>, q: seq<Uid>)
    requires Core(s, open, x, q) && u < |s.fibers|
    ensures Core(Dispose(s, u), open, x, q)
    decreases |s.fibers| - u, 3
  {
    if s.fibers[u].phase != Disposed {
      CoreOpen(s, open, open + {u}, x, x, q);
      hide Core, Discard, Unload;
      var d := if s.fibers[u].phase == Failed then Discard(s, u) else Unload(s, u);
      if s.fibers[u].phase == Failed {
        DiscardCore(s, u, open + {u}, x, q);
      } else {
        UnloadCore(s, u, open + {u}, x, q);
      }
      ForgetCore(d, u, open + {u}, x, q);
      ShutDisposed(Forget(d, u), u, open, x, q);
    }
  }

  /** A disposed fiber need not stay open. */
  lemma {:induction false} ShutDisposed(s: State, u: Uid, open: set<Uid>, x: set<Uid>, q: seq<Uid>)
    requires Core(s, open + {u}, x, q) && u < |s.fibers| && s.fibers[u].phase == Disposed
    ensures Core(s, open, x, q)
  {
    if u !in open {
      CoreClose(s, open, u, x, q);
      assert open - {u} == open;
    } else {
      assert open + {u} == open;
    }
  }

  // ---- plugin actions ----------------------------------------------------------------------

  /** Every way the store can change: what was known stays known, what was gone stays gone. */
  ghost predicate Evolves(g: Store, g': Store) {
    forall i :: Known(g, i) ==> Known(g', i) && (!IsLive(g, i) ==> !IsLive(g', i))
  }

  lemma {:induction false} SoundEvolves(g: Store, g': Store, f: Fiber, open: bool)
    requires Sound(g, f, open) && Evolves(g, g')
    ensures Sound(g', f, open)
  {
    if f.phase != Disposed && !open && f.epoch.Live? && f.seen != f.bound {
      var i :| 0 <= i < |f.seen| && f.seen[i].Some? && !IsLive(g, f.seen[i].value);
      assert !IsLive(g', f.seen[i].value);
    }
  }

  lemma {:induction false} RegisterCore(s: State, slot: Slot, u: Uid, open: set<Uid>, x: set<Uid>, q: seq<Uid>)
    requires Core(s, open, x, q) && slot !in s.store.impls
    ensures Core(Notify(s.(store := Register(s.store, slot, u)), slot.name), open, x, q)
  {
    var g := Register(s.store, slot, u);
    var s' := Notify(s.(store := g), slot.name);
    assert forall v :: v in s.pending ==> v in s'.pending;
    forall v: Uid | v < |s.fibers| ensures Sound(g, s.fibers[v], v in open) {
      SoundEvolves(s.store, g, s.fibers[v], v in open);
    }
    forall v: Uid | Due(s', v, x, q) ensures s'.fibers[v].epoch == ComputeEpoch(s', v) {
      assert Due(s, v, x, q);
      assert v in s.mounted && !Declares(s, v, slot.name);
      EpochAgree(s, s', v);
    }
  }

  lemma {:induction false} AddRealmCore(
    s: State, base: RealmId, names: set<Name>, open: set<Uid>, x: set<Uid>, q: seq<Uid>)
    requires Core(s, open, x, q) && base < |s.store.realms|
    ensures Core(s.(store := AddRealm(s.store, base, names)), open, x, q)
  {
    var g := AddRealm(s.store, base, names);
    var s' := s.(store := g);
    forall v: Uid | v < |s.fibers| ensures Sound(g, s.fibers[v], v in open) {
      SoundEvolves(s.store, g, s.fibers[v], v in open);
    }
    forall v: Uid | Due(s', v, x, q) ensures s'.fibers[v].epoch == ComputeEpoch(s', v) {
      assert Due(s, v, x, q);
      forall n | n in s.fibers[v].decl.Names()
        ensures Resolve(g, s.fibers[v].realm, n) == Resolve(s.store, s.fibers[v].realm, n)
      {
        OwnerOfStable(s.store.realms, Realm(Some(base), names), s.fibers[v].realm, n);
      }
      EpochAgree(s, s', v);
    }
  }

  lemma {:induction false} ProvideCore(
    s: State, u: Uid, r: RealmId, name: Name, open: set<Uid>, x: set<Uid>, q: seq<Uid>)
    requires Core(s, open, x, q) && u < |s.fibers|
    ensures Core(ProvideStep(s, u, r, name).state, open, x, q)
  {
    var t := ProvideStep(s, u, r, name);
    if t.Ok? {
      var slot := Slot(OwnerOf(s.store.realms, r, name), name);
      RegisterCore(s, slot, u, open, x, q);
      CoreIgnores(Notify(s.(store := Register(s.store, slot, u)), name), t.state, open, x, q);
    }
  }

  lemma {:induction false} WithdrawCore(s: State, u: Uid, k: nat, open: set<Uid>, x: set<Uid>, q: seq<Uid>)
    requires Core(s, open, x, q) && u < |s.fibers| && k < |s.fibers[u].effects|
    ensures Core(WithdrawStep(s, u, k), open, x, q)
  {
    var es := s.fibers[u].effects;
    var t := Put(s, u, s.fibers[u].(effects := Cut(es, k)));
    CoreIgnores(s, t, open, x, q);
    RevertCore(t, u, es[k], open, x, q);
  }

  lemma {:induction false} RestartCore(s: State, u: Uid, open: set<Uid>, x: set<Uid>, q: seq<Uid>)
    requires Core(s, open, x, q)
    ensures Core(RestartStep(s, u), open, x, q)
  {
    CoreIgnores(s, RestartStep(s, u), open, x, q);
  }

  /** A freshly mounted fiber enters queued, so it owes nothing yet. */
  lemma {:induction false} AddFiberCore(s: State, f: Fiber, open: set<Uid>, x: set<Uid>, q: seq<Uid>)
    requires Core(s, open, x, q) && f.realm < |s.store.realms|
    requires f.phase == Pending && f.epoch == Inactive && f.seen == [] && f.bound == []
    ensures Core(AddFiber(s, f), open, x, q)
  {
    var u := |s.fibers|;
    var r := AddFiber(s, f);
    AddFiberShape(s, f);
    hide ComputeEpoch, Shape, Essence, AddFiber, Tracked;
    forall v: Uid | v < |r.fibers| ensures Sound(r.store, r.fibers[v], v in open) {
      if v < u { assert Sound(s.store, s.fibers[v], v in open); }
    }
    forall v: Uid | Due(r, v, x, q) ensures r.fibers[v].epoch == ComputeEpoch(r, v) {
      AddFiberDue(s, f, x, q, v);
    }
  }

  lemma {:induction false} AddFiberShape(s: State, f: Fiber)
    requires Shape(s) && f.realm < |s.store.realms| && f.phase == Pending
    ensures Shape(AddFiber(s, f)) && AddFiber(s, f).store == s.store
    ensures |AddFiber(s, f).fibers| == |s.fibers| + 1 && AddFiber(s, f).fibers[|s.fibers|] == f
    ensures forall v: Uid :: v < |s.fibers| ==>
      var g, g' := s.fibers[v], AddFiber(s, f).fibers[v];
      && g'.phase == g.phase && g'.epoch == g.epoch && g'.seen == g.seen && g'.bound == g.bound && g'.decl == g.decl
  {
    NoDupSnoc(s.mounted, |s.fibers|);
  }

  /** Whoever is due beside a new fiber was due before. */
  lemma {:induction false} AddFiberDue(s: State, f: Fiber, x: set<Uid>, q: seq<Uid>, v: Uid)
    requires Due(AddFiber(s, f), v, x, q) && (Due(s, v, x, q) ==> s.fibers[v].epoch == ComputeEpoch(s, v))
    ensures AddFiber(s, f).fibers[v].epoch == ComputeEpoch(AddFiber(s, f), v)
  {
    var r := AddFiber(s, f);
    assert |s.fibers| in r.pending;
    assert v < |s.fibers|;
    EssenceFields(s.fibers[v], r.fibers[v]);
    assert Due(s, v, x, q);
    EpochAgree(s, r, v);
  }

  lemma {:induction false} MountCore(
    s: State, parent: Option<Uid>, r: RealmId, entry: string, d: Decl, isolated: set<Name>, open: set<Uid>, x: set<Uid>,
    q: seq<Uid>)
    requires Core(s, open, x, q) && r < |s.store.realms|
    ensures Core(MountStep(s, parent, r, entry, d, isolated).state, open, x, q)
  {
    if !EntryTaken(s, entry) {
      if isolated == {} {
        AddFiberCore(s, NewFiber(entry, d, r, parent), open, x, q);
      } else {
        AddRealmCore(s, r, isolated, open, x, q);
        var f := NewFiber(entry, d, |s.store.realms|, parent);
        AddFiberCore(s.(store := AddRealm(s.store, r, isolated)), f, open, x, q);
      }
    }
  }

  lemma {:induction false} ActCore(s: State, u: Uid, a: Action, open: set<Uid>, x: set<Uid>, q: seq<Uid>)
    requires Core(s, open, x, q) && u < |s.fibers|
    ensures Core(Act(s, u, a).state, open, x, q)
  {
    match a {
      case Isolate(base, names) => if base < |s.store.realms| { AddRealmCore(s, base, names, open, x, q); }
      case Provide(who, r, name, _) => if who < |s.fibers| { ProvideCore(s, who, r, name, open, x, q); }
      case Withdraw(who, k) => if Acting(s, who) && k < |s.fibers[who].effects| { WithdrawCore(s, who, k, open, x, q); }
      case File(who, tag) => if Acting(s, who) { CoreIgnores(s, FileStep(s, who, tag), open, x, q); }
      case Mount(who, r, entry, d, isolated, _) =>
        if r < |s.store.realms| { MountCore(s, Some(who), r, entry, d, isolated, open, x, q); }
      case Drop(k) =>
        if k < |s.fibers[u].children| && u < s.fibers[u].children[k] < |s.fibers| {
          DisposeCore(s, s.fibers[u].children[k], open, x, q);
        }
      case Restart(target) => RestartCore(s, target, open, x, q);
    }
  }

  /** What no action of u's own load changes on u. */
  ghost predicate SameLoad(f: Fiber, f': Fiber) {
    && f'.phase == f.phase && f'.epoch == f.epoch && f'.seen == f.seen && f'.bound == f.bound
    && f'.decl == f.decl && f'.realm == f.realm && f'.entry == f.entry && f'.parent == f.parent
  }

  lemma {:induction false} ProvideKeepsLoad(s: State, who: Uid, r: RealmId, name: Name, u: Uid)
    requires who < |s.fibers| && u < |s.fibers|
    ensures var t := ProvideStep(s, who, r, name).state;
      |t.fibers| == |s.fibers| && SameLoad(s.fibers[u], t.fibers[u])
  {
  }

  lemma {:induction false} WithdrawKeepsLoad(s: State, who: Uid, k: nat, u: Uid)
    requires who < |s.fibers| && k < |s.fibers[who].effects| && u < |s.fibers|
    ensures var t := WithdrawStep(s, who, k);
      |t.fibers| == |s.fibers| && SameLoad(s.fibers[u], t.fibers[u])
  {
  }

  lemma {:induction false} MountKeepsLoad(
    s: State, parent: Option<Uid>, r: RealmId, entry: string, d: Decl, isolated: set<Name>, u: Uid)
    requires u < |s.fibers|
    ensures var t := MountStep(s, parent, r, entry, d, isolated).state;
      |s.fibers| <= |t.fibers| && SameLoad(s.fibers[u], t.fibers[u])
  {
  }

  lemma {:induction false} ActKeepsLoad(s: State, u: Uid, a: Action)
    requires u < |s.fibers|
    ensures |s.fibers| <= |Act(s, u, a).state.fibers| && SameLoad(s.fibers[u], Act(s, u, a).state.fibers[u])
  {
    hide Dispose, Woken, OwnerOf, MountStep, ProvideStep, WithdrawStep;
    match a {
      case Provide(who, r, name, _) =>
        if who < |s.fibers| && r < |s.store.realms| { ProvideKeepsLoad(s, who, r, name, u); }
      case Withdraw(who, k) =>
        if Acting(s, who) && k < |s.fibers[who].effects| { WithdrawKeepsLoad(s, who, k, u); }
      case Mount(who, r, entry, d, isolated, _) => MountKeepsLoad(s, Some(who), r, entry, d, isolated, u);
      case Drop(k) =>
        if k < |s.fibers[u].children| && u < s.fibers[u].children[k] < |s.fibers| {
          DisposeWanes(s, s.fibers[u].children[k]);
        }
      case _ =>
    }
  }

  lemma {:induction false} RunKeepsLoad(s: State, u: Uid, actions: seq<Action>)
    requires u < |s.fibers|
    ensures |s.fibers| <= |RunActions(s, u, actions).state.fibers|
    ensures SameLoad(s.fibers[u], RunActions(s, u, actions).state.fibers[u])
    decreases |actions|
  {
    if actions != [] {
      ActKeepsLoad(s, u, actions[0]);
      var t := Act(s, u, actions[0]);
      if t.Ok? { RunKeepsLoad(t.state, u, actions[1..]); }
    }
  }

  lemma {:induction false} RunCore(s: State, u: Uid, actions: seq<Action>, open: set<Uid>, x: set<Uid>, q: seq<Uid>)
    requires Core(s, open, x, q) && u < |s.fibers|
    ensures Core(RunActions(s, u, actions).state, open, x, q)
    ensures |s.fibers| <= |RunActions(s, u, actions).state.fibers|
    ensures SameLoad(s.fibers[u], RunActions(s, u, actions).state.fibers[u])
    decreases |actions|
  {
    if actions != [] {
      var t := Act(s, u, actions[0]);
      ActCore(s, u, actions[0], open, x, q);
      ActKeepsLoad(s, u, actions[0]);
      if t.Ok? {
        RunCore(t.state, u, actions[1..], open, x, q);
      }
    }
  }
}
