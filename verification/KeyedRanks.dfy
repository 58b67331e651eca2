/** The same with isolation considered: only the row that may supply the very service an injection resolves
    to counts as a dependency, however many others provide the same name elsewhere. */
module KeyedRanks {
  import opened Lists
  import opened Registry
  import opened Runtime
  import opened Teardown
  import opened Currency
  import opened Settling
  import opened Ownership
  import opened OwnedRuns
  import opened Ranks

  /** Every declarer ranks above whoever may supply the name in the same home. */
  ghost predicate AboveSuppliers(c: Cast) {
    forall g, d, n | g in c && d in c && n in c[g].may && n in c[d].decl.Names() ::
      HomeOf(c, g, n) == HomeOf(c, d, n) ==> RankOf(c, g) < RankOf(c, d)
  }

  // ---- what one refresh disturbs --------------------------------------------------------------------

  /** A fiber that holds the undo of what v resolves n to ranks below v. */
  lemma {:induction false} HolderRanksBelow(c: Cast, s: State, o: Uid, v: Uid, n: Name, i: Impl)
    requires Staged(c, false, s) && AboveSuppliers(c) && o < |s.fibers| && v < |s.fibers|
    requires Undo(i) in s.fibers[o].effects && i.slot == SlotOf(s, v, n) && n in s.fibers[v].decl.Names()
    ensures RankOf(c, s.fibers[o].entry) < RankOf(c, s.fibers[v].entry)
  {
    assert Plays(c, false, s, o) && Plays(c, false, s, v);
    assert SlotOf(s, o, n) == SlotOf(s, v, n);
  }

  /** Whoever holds it untouched holds it alive. */
  lemma {:induction false} HeldIsLive(s: State, o: Uid, i: Impl)
    requires Filed(s) && o < |s.fibers| && Undo(i) in s.fibers[o].effects
    ensures IsLive(s.store, i)
  {
    assert EffectsOk(s.store, o, s.fibers[o].effects);
    var k :| 0 <= k < |s.fibers[o].effects| && s.fibers[o].effects[k] == Undo(i);
  }

  /** If a step of u changes what v resolves n to, v ranks above u. */
  lemma {:induction false} TouchedAbove(c: Cast, s: State, t: State, u: Uid, v: Uid, n: Name)
    requires AboveSuppliers(c) && Staged(c, false, s) && Filed(s) && Filed(t) && u < |s.fibers|
    requires Confined(c, false, u, s, t) && v < |s.fibers| && n in s.fibers[v].decl.Names()
    requires Lookup(t.store.impls, SlotOf(s, v, n)) != Lookup(s.store.impls, SlotOf(s, v, n))
    ensures RankOf(c, s.fibers[u].entry) < RankOf(c, s.fibers[v].entry)
  {
    var slot := SlotOf(s, v, n);
    assert Plays(c, false, s, v) && Identical(s.fibers[v], t.fibers[v]);
    SlotsStand(s, t, v, n);
    hide Plays, Sited, SlotOf;
    if slot in s.store.impls {
      var i := s.store.impls[slot];
      assert Files(s.fibers[i.owner], i);
      HolderRanksBelow(c, s, i.owner, v, n, i);
      if t.fibers[i.owner] == s.fibers[i.owner] { HeldIsLive(t, i.owner, i); }
    } else {
      var i := t.store.impls[slot];
      assert Files(t.fibers[i.owner], i);
      HolderRanksBelow(c, t, i.owner, v, n, i);
      if i.owner < |s.fibers| {
        assert Identical(s.fibers[i.owner], t.fibers[i.owner]);
        if t.fibers[i.owner] == s.fibers[i.owner] { HeldIsLive(s, i.owner, i); }
      }
    }
  }

  /** So the epoch of whoever does not rank above u stands. */
  lemma {:induction false} EpochStands(c: Cast, s: State, t: State, u: Uid, v: Uid)
    requires AboveSuppliers(c) && Staged(c, false, s) && Filed(s) && Filed(t) && u < |s.fibers|
    requires Confined(c, false, u, s, t) && v < |s.fibers|
    requires RankOf(c, s.fibers[v].entry) <= RankOf(c, s.fibers[u].entry)
    ensures v < |t.fibers| && ComputeEpoch(t, v) == ComputeEpoch(s, v)
  {
    assert Plays(c, false, s, v) && Identical(s.fibers[v], t.fibers[v]);
    forall n | n in s.fibers[v].decl.Names()
      ensures Resolve(t.store, s.fibers[v].realm, n) == Resolve(s.store, s.fibers[v].realm, n)
    {
      SlotsStand(s, t, v, n);
      if Lookup(t.store.impls, SlotOf(s, v, n)) != Lookup(s.store.impls, SlotOf(s, v, n)) {
        TouchedAbove(c, s, t, u, v, n);
      }
    }
    EpochAgree(s, t, v);
  }

  /** The load or unload of u leaves the epoch it was given, unless it fails. */
  lemma {:induction false} LoadSettles(w: Behaviour, s: State, u: Uid)
    requires u < |s.fibers| && Load(w, s, u).Done?
    ensures var f := Load(w, s, u).state.fibers[u];
      f.phase == Failed || f.epoch == s.fibers[u].epoch
  {
    var s1 := SetPhase(s, u, Loading);
    if w(u, s1).config.Returns? { RunKeepsLoad(BeginApply(s1, u), u, w(u, s1).actions); }
  }

  lemma {:induction false} FollowSettles(w: Behaviour, s: State, u: Uid)
    requires u < |s.fibers| && Follow(w, s, u).Done?
    ensures var f := Follow(w, s, u).state.fibers[u];
      f.phase == Failed || f.epoch == ComputeEpoch(s, u)
  {
    hide Load, Unload;
    var s1 := SetEpoch(s, u, ComputeEpoch(s, u), Bindings(s, u));
    UnloadKeepsEpoch(s1, u);
    if Load(w, s1, u).Done? { LoadSettles(w, s1, u); }
    if Load(w, Unload(s1, u), u).Done? { LoadSettles(w, Unload(s1, u), u); }
  }

  lemma {:induction false} UnloadKeepsEpoch(s: State, u: Uid)
    requires u < |s.fibers|
    ensures Unload(s, u).fibers[u].epoch == s.fibers[u].epoch
  {
    UnloadWanes(s, u);
    assert Fades(SetPhase(s, u, Pending).fibers[u], Unload(s, u).fibers[u], u in {u});
  }

  // ---- rounds ------------------------------------------------------------------------------------------

  /** Between two refreshes. */
  ghost predicate Going(c: Cast, s: State, batch: seq<Uid>) {
    Staged(c, false, s) && Own(s, {}) && Steady(s, {}, batch)
  }

  /** Everyone listed is calm, or ranks at least `low`, or is listed in `rest`. */
  ghost predicate Bound(c: Cast, s: State, us: seq<Uid>, low: nat, rest: seq<Uid>) {
    forall u :: u in us ==> u < |s.fibers| && (Calm(s, u) || RankOf(c, s.fibers[u].entry) >= low || u in rest)
  }

  ghost predicate Calmed(c: Cast, s: State, t: State, u: Uid, q: seq<Uid>) {
    && u < |s.fibers| && Going(c, t, q) && Confined(c, false, u, s, t) && Calm(t, u)
    && forall v: Uid :: v < |s.fibers| && Calm(s, v) && !Calm(t, v) ==>
      RankOf(c, s.fibers[v].entry) > RankOf(c, s.fibers[u].entry)
  }

  /** One refresh: u is calm now, and whoever was and is not any more ranks above it. */
  lemma {:induction false} RefreshCalms(c: Cast, w: Behaviour, s: State, u: Uid, q: seq<Uid>)
    requires Nested(c) && AboveSuppliers(c) && Obeys(c, false, w)
    requires Staged(c, false, s) && Own(s, {}) && Steady(s, {u}, q) && u < |s.fibers|
    ensures Refresh(w, s, u).Done? && Calmed(c, s, Refresh(w, s, u).state, u, q)
  {
    hide Obeys, Own, Refresh, Core, Rest;
    var t := Refresh(w, s, u).state;
    assert {} + {u} == {u} && {u} - {u} == {};
    RefreshReaches(c, false, w, s, u);
    RefreshOwn(w, s, u, {}, q);
    RefreshSteady(w, s, u, {u}, q);
    OwnFiled(s);
    OwnFiled(t);
    hide Staged, Confined;
    UnflaggedCalm(c, w, s, u);
    forall v: Uid | v < |s.fibers| && Calm(s, v) && !Calm(t, v)
      ensures RankOf(c, s.fibers[v].entry) > RankOf(c, s.fibers[u].entry) {
      if RankOf(c, s.fibers[v].entry) <= RankOf(c, s.fibers[u].entry) { CalmStays(c, s, t, u, v); }
    }
  }

  lemma {:induction false} OwnFiled(s: State)
    requires Own(s, {})
    ensures Filed(s)
  {
  }

  lemma {:induction false} CalmStays(c: Cast, s: State, t: State, u: Uid, v: Uid)
    requires AboveSuppliers(c) && Staged(c, false, s) && Filed(s) && Filed(t) && u < |s.fibers|
    requires Confined(c, false, u, s, t) && Calm(s, v) && v != u
    requires RankOf(c, s.fibers[v].entry) <= RankOf(c, s.fibers[u].entry)
    ensures Calm(t, v)
  {
    EpochStands(c, s, t, u, v);
    assert t.fibers[v] == s.fibers[v];
  }

  lemma {:induction false} UnflaggedCalm(c: Cast, w: Behaviour, s: State, u: Uid)
    requires AboveSuppliers(c) && Staged(c, false, s) && Filed(s) && u < |s.fibers| && Refresh(w, s, u).Done?
    requires Confined(c, false, u, s, Refresh(w, s, u).state) && Filed(Refresh(w, s, u).state)
    ensures Calm(Refresh(w, s, u).state, u)
  {
    var t := Refresh(w, s, u).state;
    assert Plays(c, false, s, u) && Plays(c, false, t, u);
    if s.fibers[u].phase != Disposed {
      FollowSettles(w, s, u);
      EpochStands(c, s, t, u, u);
    }
  }

  /** Whoever is woken anew had nothing to do. */
  lemma {:induction false} WokenWasCalm(c: Cast, s: State, v: Uid, u: Uid, rest: seq<Uid>)
    requires Staged(c, false, s) && Steady(s, {u}, rest) && v < |s.fibers| && v !in s.pending
    ensures v == u || v in rest || Calm(s, v)
  {
    assert Plays(c, false, s, v);
    if v != u && v !in rest && s.fibers[v].phase !in {Disposed, Failed} { assert Due(s, v, {u}, rest); }
  }

  /** Whoever was calm is calm, or ranks above `low`; and so does every new fiber. */
  ghost predicate Unsettles(c: Cast, s: State, t: State, low: nat) {
    && |s.fibers| <= |t.fibers|
    && (forall v: Uid :: v < |s.fibers| ==> t.fibers[v].entry == s.fibers[v].entry)
    && (forall v: Uid :: v < |s.fibers| && Calm(s, v) ==> Calm(t, v) || RankOf(c, s.fibers[v].entry) > low)
    && (forall v: Uid :: |s.fibers| <= v < |t.fibers| ==> RankOf(c, t.fibers[v].entry) > low)
  }

  lemma {:induction false} RefreshUnsettles(c: Cast, w: Behaviour, s: State, u: Uid, rest: seq<Uid>, low: nat)
    requires Nested(c) && AboveSuppliers(c) && Obeys(c, false, w)
    requires Staged(c, false, s) && Own(s, {}) && Steady(s, {u}, rest) && u < |s.fibers|
    requires Calm(s, u) || RankOf(c, s.fibers[u].entry) >= low
    ensures var t := Refresh(w, s, u);
      t.Done? && Going(c, t.state, rest) && Calm(t.state, u) && Unsettles(c, s, t.state, low)
  {
    RefreshCalms(c, w, s, u, rest);
    var t := Refresh(w, s, u).state;
    if Calm(s, u) {
      assert t == s;
    } else {
      hide Obeys, Own, Steady, Refresh, Staged, Nested, AboveSuppliers, Calm;
      forall v: Uid | v < |s.fibers| ensures t.fibers[v].entry == s.fibers[v].entry {
        assert Identical(s.fibers[v], t.fibers[v]);
      }
    }
  }

  lemma {:induction false} BoundStep(c: Cast, w: Behaviour, s: State, u: Uid, rest: seq<Uid>, low: nat)
    requires Nested(c) && AboveSuppliers(c) && Obeys(c, false, w)
    requires Staged(c, false, s) && Own(s, {}) && Steady(s, {u}, rest) && u < |s.fibers|
    requires Bound(c, s, [u] + rest, low, []) && Bound(c, s, s.pending, low + 1, [u] + rest)
    ensures var t := Refresh(w, s, u);
      && t.Done? && Going(c, t.state, rest) && Bound(c, t.state, rest, low, [])
      && Bound(c, t.state, t.state.pending, low + 1, rest)
  {
    assert u in [u] + rest;
    var t := Refresh(w, s, u).state;
    RefreshUnsettles(c, w, s, u, rest, low);
    GoingIds(c, t, rest);
    forall v: Uid | v < |s.fibers| && v !in s.pending ensures v == u || v in rest || Calm(s, v) {
      WokenWasCalm(c, s, v, u, rest);
    }
    hide *;
    BoundKept(c, s, t, u, rest, low);
  }

  lemma {:induction false} GoingIds(c: Cast, s: State, batch: seq<Uid>)
    requires Going(c, s, batch)
    ensures Uids(s, s.pending)
  {
  }

  lemma {:induction false} BoundKept(c: Cast, s: State, t: State, u: Uid, rest: seq<Uid>, low: nat)
    requires Bound(c, s, [u] + rest, low, []) && Bound(c, s, s.pending, low + 1, [u] + rest)
    requires Calm(t, u) && Unsettles(c, s, t, low) && Uids(t, t.pending)
    requires forall v: Uid :: v < |s.fibers| && v !in s.pending ==> v == u || v in rest || Calm(s, v)
    ensures Bound(c, t, rest, low, []) && Bound(c, t, t.pending, low + 1, rest)
  {
    hide Calm;
    forall v | v in rest ensures v < |t.fibers| && (Calm(t, v) || RankOf(c, t.fibers[v].entry) >= low) {
      assert v in [u] + rest;
    }
    forall v | v in t.pending
      ensures v < |t.fibers| && (Calm(t, v) || RankOf(c, t.fibers[v].entry) >= low + 1 || v in rest)
    {
      if v in s.pending { assert v in [u] + rest ==> v == u || v in rest; }
    }
  }

  lemma {:induction false} BatchBound(c: Cast, w: Behaviour, s: State, batch: seq<Uid>, low: nat)
    requires Nested(c) && AboveSuppliers(c) && Obeys(c, false, w) && Going(c, s, batch)
    requires Bound(c, s, batch, low, []) && Bound(c, s, s.pending, low + 1, batch)
    ensures Uids(s, batch)
    ensures var t := RunBatch(w, s, batch);
      t.Done? && Going(c, t.state, []) && Bound(c, t.state, t.state.pending, low + 1, [])
    decreases |batch|
  {
    hide Obeys, Own, Staged, Nested, AboveSuppliers, Calm, Refresh, Core, Rest;
    if batch != [] {
      var u, rest := batch[0], batch[1..];
      assert u in batch && batch == [u] + rest && forall v :: v in rest ==> v in batch;
      TakeHead(s, {}, batch);
      assert {} + {u} == {u};
      BoundStep(c, w, s, u, rest, low);
      BatchBound(c, w, Refresh(w, s, u).state, rest, low);
    }
  }

  lemma {:induction false} RoundBound(c: Cast, w: Behaviour, s: State, low: nat)
    requires Nested(c) && AboveSuppliers(c) && Obeys(c, false, w) && Going(c, s, [])
    requires Bound(c, s, s.pending, low, [])
    ensures Uids(s, s.pending) && Uids(s.(pending := []), Dedup(s.pending))
    ensures RunBatch(w, s.(pending := []), Dedup(s.pending)).Done?
    ensures var t := RunBatch(w, s.(pending := []), Dedup(s.pending)).state;
      Going(c, t, []) && Bound(c, t, t.pending, low + 1, [])
  {
    hide Obeys, Own, Nested, AboveSuppliers, Calm, Sound, Due, Rest, RunBatch, Staged;
    var s0 := s.(pending := []);
    var batch: seq<Uid> := Dedup(s.pending);
    StagedIgnoresQueue(c, false, s, []);
    OwnIgnoresQueue(s, []);
    Requeue(s, {}, [], [], batch);
    forall v | v in batch ensures v < |s0.fibers| && (Calm(s0, v) || RankOf(c, s0.fibers[v].entry) >= low) {
      CalmQueue(s, [], v);
    }
    BatchBound(c, w, s0, batch, low);
  }

  /** Main result: from any staged and owned state between two host calls, whatever is queued, settling under
      any obedient behaviour ends within depth + 2 rounds, where no row ranks above `depth`; the extra round
      is for fibers woken by a name that resolves elsewhere for them. */
  lemma {:induction false} NestedKeyedConvergence(
    c: Cast, depth: nat, w: Behaviour, s: State, rounds: nat, low: nat := 0)
    requires Nested(c) && AboveSuppliers(c) && Obeys(c, false, w)
    requires forall e :: e in c ==> RankOf(c, e) <= depth
    requires Staged(c, false, s) && Own(s, {}) && Steady(s, {}, [])
    requires Bound(c, s, s.pending, low, []) && low <= depth + 1 && rounds + low >= depth + 2
    ensures Settle(w, s, rounds).Done?
    decreases rounds
  {
    hide *;
    if low == depth + 1 {
      AllCalm(c, depth, s);
      CalmSettle(w, s, rounds);
    } else if s.pending == [] {
      SettleIdle(w, s, rounds);
    } else {
      Assemble(c, s);
      RoundBound(c, w, s, low);
      var t := RunBatch(w, s.(pending := []), Dedup(s.pending)).state;
      Disassemble(c, t);
      SettleRound(w, s, rounds, t);
      NestedKeyedConvergence(c, depth, w, t, rounds - 1, low + 1);
    }
  }

  lemma {:induction false} Assemble(c: Cast, s: State)
    requires Staged(c, false, s) && Own(s, {}) && Steady(s, {}, [])
    ensures Going(c, s, [])
  {
  }

  lemma {:induction false} Disassemble(c: Cast, s: State)
    requires Going(c, s, [])
    ensures Staged(c, false, s) && Own(s, {}) && Steady(s, {}, [])
  {
  }

  lemma {:induction false} AllCalm(c: Cast, depth: nat, s: State)
    requires Bound(c, s, s.pending, depth + 1, []) && Staged(c, false, s)
    requires forall e :: e in c ==> RankOf(c, e) <= depth
    ensures forall v :: v in s.pending ==> Calm(s, v)
  {
    forall v | v in s.pending ensures Calm(s, v) { assert Plays(c, false, s, v); }
  }
}
