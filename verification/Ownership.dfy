/** Ownership: live registrations, children and filed effects belong to fibers that are loading,
    active or being unloaded, and activation order puts providers and parents first. */
module Ownership {
  import opened Lists
  import opened Registry
  import opened Runtime
  import opened Teardown

  ghost predicate Tree(s: State) {
    && (forall u: Uid :: u < |s.fibers| ==> forall c: Uid :: c in s.fibers[u].children ==>
         u < c < |s.fibers| && s.fibers[c].parent == Some(u) && s.fibers[c].phase != Disposed)
    && (forall c: Uid :: c < |s.fibers| && s.fibers[c].phase != Disposed && s.fibers[c].parent.Some? ==>
         s.fibers[c].parent.value < c && c in s.fibers[s.fibers[c].parent.value].children)
  }

  ghost predicate Bare(f: Fiber) {
    f.effects == [] && f.children == [] && f.provided == {}
  }

  /** PENDING, FAILED and DISPOSED fibers own nothing. */
  ghost predicate Idle(s: State) {
    forall u: Uid :: u < |s.fibers| && s.fibers[u].phase in {Pending, Failed, Disposed} ==> Bare(s.fibers[u])
  }

  /** The undo of i is filed with u. */
  predicate Files(f: Fiber, i: Impl) {
    Undo(i) in f.effects
  }

  ghost predicate EffectsOk(g: Store, u: Uid, es: seq<Effect>) {
    && (forall k :: 0 <= k < |es| && es[k].Undo? ==> es[k].impl.owner == u && IsLive(g, es[k].impl))
    && (forall j, k :: 0 <= j < k < |es| && es[j].Undo? ==> es[j] != es[k])
  }

  /** No fiber holds the undo of i. */
  ghost predicate Unfiled(s: State, i: Impl) {
    forall v: Uid :: v < |s.fibers| ==> Undo(i) !in s.fibers[v].effects
  }

  /** Live registrations and filed undos match one to one, but for the registrations in `spare`, which
      are live and whose undo nobody holds yet. */
  ghost predicate Filed(s: State, spare: set<Impl> := {}) {
    && (forall slot :: slot in s.store.impls ==>
         s.store.impls[slot].slot == slot && s.store.impls[slot].owner < |s.fibers|
         && (s.store.impls[slot] in spare || Files(s.fibers[s.store.impls[slot].owner], s.store.impls[slot])))
    && (forall u: Uid :: u < |s.fibers| ==> EffectsOk(s.store, u, s.fibers[u].effects))
    && (forall i :: i in spare ==> IsLive(s.store, i) && Unfiled(s, i))
  }

  /** p became active before u, and is not loading again. */
  ghost predicate Precedes(s: State, p: Uid, u: Uid) {
    p < |s.fibers| && p in s.activation && Pos(s.activation, p) < Pos(s.activation, u) && s.fibers[p].phase != Loading
  }

  /** A live registration u's apply started from, while u loads: its owner is active already. */
  ghost predicate Upstream(s: State, p: Uid, u: Uid) {
    p < |s.fibers| && p in s.activation && p != u && s.fibers[p].phase != Loading
  }

  ghost predicate Placed(s: State, u: Uid, open: set<Uid>)
    requires u < |s.fibers|
  {
    var f := s.fibers[u];
    && (f.phase == Active ==> u in s.activation && (f.parent.Some? ==> Precedes(s, f.parent.value, u)))
    && (f.phase == Active ==>
         forall i :: 0 <= i < |f.bound| && f.bound[i].Some? && IsLive(s.store, f.bound[i].value) ==>
           Precedes(s, f.bound[i].value.owner, u))
    && (f.phase == Loading && u !in open ==>
         forall i :: 0 <= i < |f.bound| && f.bound[i].Some? && IsLive(s.store, f.bound[i].value) ==>
           Upstream(s, f.bound[i].value.owner, u))
  }

  ghost predicate Ordered(s: State, open: set<Uid>) {
    && NoDup(s.activation)
    && forall u: Uid :: u < |s.fibers| ==> Placed(s, u, open)
  }

  /** When an apply started, no other fiber was mid-transition and every service in the store was
      owned by an ACTIVE fiber. */
  ghost predicate Undisturbed(m: Mark) {
    m.Start? ==>
      && m.who < |m.phases| && m.phases[m.who] == Loading
      && (forall v: Uid :: v < |m.phases| && v != m.who ==> m.phases[v] !in {Loading, Unloading})
      && (forall slot :: slot in m.services ==>
        m.services[slot].owner < |m.phases| && m.phases[m.services[slot].owner] == Active)
  }

  ghost predicate LogCalm(s: State) {
    forall k :: 0 <= k < |s.log| ==> Undisturbed(s.log[k])
  }

  /** Who owns what. */
  ghost predicate Kept(s: State, spare: set<Impl> := {}) {
    Tree(s) && Idle(s) && Filed(s, spare)
  }

  /** Who came first, and how calmly applies started. */
  ghost predicate InStep(s: State, open: set<Uid>) {
    Ordered(s, open) && LogCalm(s)
  }

  ghost predicate Own(s: State, open: set<Uid>, spare: set<Impl> := {}) {
    Kept(s, spare) && InStep(s, open)
  }

  // ---- teardown keeps the order -------------------------------------------------------------

  lemma {:induction false} OrderedFades(s: State, s': State, open: set<Uid>)
    requires Ordered(s, open) && |s'.fibers| == |s.fibers| && s'.activation == s.activation
    requires forall i :: IsLive(s'.store, i) ==> IsLive(s.store, i)
    requires forall u: Uid :: u < |s.fibers| ==>
      && s'.fibers[u].parent == s.fibers[u].parent && s'.fibers[u].bound == s.fibers[u].bound
      && (s'.fibers[u].phase == s.fibers[u].phase || s'.fibers[u].phase in {Unloading, Pending, Failed, Disposed})
    ensures Ordered(s', open)
  {
    forall u: Uid | u < |s.fibers| ensures Placed(s', u, open) {
      assert Placed(s, u, open);
    }
  }

  /** Whatever only fades, and logs only disposers, stays in step. */
  lemma {:induction false} WaneInStep(s: State, s': State, open: set<Uid>, low: nat, mine: set<Uid>)
    requires InStep(s, open) && Wane(s, s', low, mine) && OnlyRan(s.log, s'.log)
    ensures InStep(s', open)
  {
    forall u: Uid | u < |s.fibers|
      ensures s'.fibers[u].parent == s.fibers[u].parent && s'.fibers[u].bound == s.fibers[u].bound
      ensures s'.fibers[u].phase == s.fibers[u].phase || s'.fibers[u].phase == Disposed
    {
      assert Fades(s.fibers[u], s'.fibers[u], u in mine);
    }
    OrderedFades(s, s', open);
  }

  lemma {:induction false} PutInStep(s: State, u: Uid, f: Fiber, open: set<Uid>)
    requires InStep(s, open) && u < |s.fibers|
    requires f.parent == s.fibers[u].parent && f.bound == s.fibers[u].bound
    requires f.phase == s.fibers[u].phase || f.phase in {Unloading, Pending, Failed}
    ensures InStep(Put(s, u, f), open)
  {
    OrderedFades(s, Put(s, u, f), open);
  }

  // ---- teardown keeps ownership -------------------------------------------------------------

  lemma {:induction false} CutKeeps(es: seq<Effect>, k: nat)
    requires k < |es|
    ensures forall j :: 0 <= j < |es| - 1 ==> Cut(es, k)[j] == es[if j < k then j else j + 1]
    ensures forall x :: x in es && x != es[k] ==> x in Cut(es, k)
    ensures forall x :: x in Cut(es, k) ==> x in es
  {
    var cut := Cut(es, k);
    forall x | x in es && x != es[k] ensures x in cut {
      var j :| 0 <= j < |es| && es[j] == x;
      assert cut[if j < k then j else j - 1] == x;
    }
  }

  /** The store after the disposer of e, when e's registration is live. */
  function StoreAfter(g: Store, e: Effect): Store {
    if e.Undo? then Remove(g, e.impl) else g
  }

  lemma {:induction false} CutEffects(g: Store, u: Uid, es: seq<Effect>, k: nat)
    requires EffectsOk(g, u, es) && k < |es|
    ensures EffectsOk(StoreAfter(g, es[k]), u, Cut(es, k))
    ensures es[k].Undo? ==> es[k] !in Cut(es, k) && IsLive(g, es[k].impl) && es[k].impl.owner == u
  {
    CutKeeps(es, k);
    var cut := Cut(es, k);
    forall j | 0 <= j < |cut| && cut[j].Undo?
      ensures cut[j] != es[k] && cut[j].impl.owner == u && IsLive(StoreAfter(g, es[k]), cut[j].impl)
    {
    }
  }

  lemma {:induction false} OtherEffects(g: Store, v: Uid, es: seq<Effect>, i: Impl)
    requires EffectsOk(g, v, es) && IsLive(g, i) && i.owner != v
    ensures EffectsOk(Remove(g, i), v, es)
  {
  }

  /** Running the disposer of one effect, wherever it sits in its stack. */
  lemma {:induction false} RevertFiled(s: State, u: Uid, k: nat, spare: set<Impl> := {})
    requires Filed(s, spare) && u < |s.fibers| && k < |s.fibers[u].effects|
    ensures Filed(WithdrawStep(s, u, k), spare)
    ensures WithdrawStep(s, u, k).store == StoreAfter(s.store, s.fibers[u].effects[k])
  {
    var es := s.fibers[u].effects;
    var r := WithdrawStep(s, u, k);
    assert EffectsOk(s.store, u, es);
    CutKeeps(es, k);
    CutEffects(s.store, u, es, k);
    assert r.fibers[u].effects == Cut(es, k);
    forall v: Uid | v < |s.fibers| ensures EffectsOk(r.store, v, r.fibers[v].effects) {
      assert EffectsOk(s.store, v, s.fibers[v].effects);
      if v != u && es[k].Undo? { OtherEffects(s.store, v, s.fibers[v].effects, es[k].impl); }
    }
    forall slot | slot in r.store.impls
      ensures r.store.impls[slot].slot == slot && r.store.impls[slot].owner < |r.fibers|
      ensures r.store.impls[slot] in spare || Files(r.fibers[r.store.impls[slot].owner], r.store.impls[slot])
    {
      var i := s.store.impls[slot];
      assert i in spare || Files(s.fibers[i.owner], i);
      if i.owner == u && i !in spare { assert Undo(i) in es && Undo(i) != es[k]; }
    }
    SpareKept(s, u, k, r, spare);
  }

  /** A disposer withdraws no registration whose undo is not filed. */
  lemma {:induction false} SpareKept(s: State, u: Uid, k: nat, r: State, spare: set<Impl>)
    requires Filed(s, spare) && u < |s.fibers| && k < |s.fibers[u].effects| && |r.fibers| == |s.fibers|
    requires r.store == StoreAfter(s.store, s.fibers[u].effects[k])
    requires r.fibers[u].effects == Cut(s.fibers[u].effects, k)
    requires forall v: Uid :: v < |s.fibers| && v != u ==> r.fibers[v] == s.fibers[v]
    ensures forall i :: i in spare ==> IsLive(r.store, i) && Unfiled(r, i)
  {
    var es := s.fibers[u].effects;
    assert EffectsOk(s.store, u, es);
    CutKeeps(es, k);
    forall i | i in spare ensures IsLive(r.store, i) && Unfiled(r, i) {
      assert IsLive(s.store, i) && Unfiled(s, i);
      assert es[k] in es;
    }
  }

  lemma {:induction false} TreeSame(s: State, s': State)
    requires Tree(s) && |s'.fibers| == |s.fibers|
    requires forall u: Uid :: u < |s.fibers| ==>
      s'.fibers[u].children == s.fibers[u].children && s'.fibers[u].parent == s.fibers[u].parent
      && (s'.fibers[u].phase == Disposed <==> s.fibers[u].phase == Disposed)
    ensures Tree(s')
  {
  }

  /** Same registrations, same effects. */
  lemma {:induction false} FiledSame(s: State, s': State, spare: set<Impl>)
    requires Filed(s, spare) && |s'.fibers| == |s.fibers| && s'.store.impls == s.store.impls
    requires forall u: Uid :: u < |s.fibers| ==> s'.fibers[u].effects == s.fibers[u].effects
    ensures Filed(s', spare)
  {
    forall v: Uid | v < |s.fibers| ensures EffectsOk(s'.store, v, s'.fibers[v].effects) {
      assert EffectsOk(s.store, v, s.fibers[v].effects);
    }
    forall slot | slot in s'.store.impls
      ensures s'.store.impls[slot] in spare || Files(s'.fibers[s'.store.impls[slot].owner], s'.store.impls[slot])
    {
      assert s.store.impls[slot] in spare || Files(s.fibers[s.store.impls[slot].owner], s.store.impls[slot]);
    }
    forall i | i in spare ensures IsLive(s'.store, i) && Unfiled(s', i) {
      assert IsLive(s.store, i) && Unfiled(s, i);
    }
  }

  lemma {:induction false} WithdrawKept(s: State, u: Uid, k: nat, spare: set<Impl> := {})
    requires Kept(s, spare) && u < |s.fibers| && k < |s.fibers[u].effects|
    ensures Kept(WithdrawStep(s, u, k), spare)
  {
    hide Filed;
    RevertFiled(s, u, k, spare);
    TreeSame(s, WithdrawStep(s, u, k));
  }

  lemma {:induction false} WithdrawInStep(s: State, u: Uid, k: nat, open: set<Uid>)
    requires InStep(s, open) && u < |s.fibers| && k < |s.fibers[u].effects|
    ensures InStep(WithdrawStep(s, u, k), open)
  {
    var r := WithdrawStep(s, u, k);
    assert r.log == s.log + [Ran(u, s.fibers[u].effects[k], s.store.impls)];
    OrderedFades(s, r, open);
  }

  lemma {:induction false} WithdrawOwn(s: State, u: Uid, k: nat, open: set<Uid>, spare: set<Impl> := {})
    requires Own(s, open, spare) && u < |s.fibers| && k < |s.fibers[u].effects|
    ensures Own(WithdrawStep(s, u, k), open, spare)
  {
    WithdrawKept(s, u, k, spare);
    WithdrawInStep(s, u, k, open);
  }

  lemma {:induction false} UnwindKept(s: State, u: Uid, spare: set<Impl>)
    requires Kept(s, spare) && u < |s.fibers|
    ensures Kept(Unwind(s, u), spare)
    decreases |s.fibers[u].effects|
  {
    var es := s.fibers[u].effects;
    if es != [] {
      WithdrawKept(s, u, |es| - 1, spare);
      assert Cut(es, |es| - 1) == es[..|es| - 1];
      UnwindKept(WithdrawStep(s, u, |es| - 1), u, spare);
    }
  }

  lemma {:induction false} PutKept(s: State, u: Uid, f: Fiber, spare: set<Impl> := {})
    requires Kept(s, spare) && u < |s.fibers|
    requires f.effects == s.fibers[u].effects && f.children == s.fibers[u].children && f.parent == s.fibers[u].parent
    requires f.phase == Disposed <==> s.fibers[u].phase == Disposed
    requires f.phase in {Pending, Failed, Disposed} ==> Bare(f)
    ensures Kept(Put(s, u, f), spare)
  {
    TreeSame(s, Put(s, u, f));
    FiledSame(s, Put(s, u, f), spare);
  }

  lemma {:induction false} PutOwn(s: State, u: Uid, f: Fiber, open: set<Uid>, spare: set<Impl> := {})
    requires Own(s, open, spare) && u < |s.fibers|
    requires f.effects == s.fibers[u].effects && f.children == s.fibers[u].children && f.parent == s.fibers[u].parent
    requires f.bound == s.fibers[u].bound
    requires f.phase == s.fibers[u].phase || (f.phase in {Unloading, Pending, Failed} && s.fibers[u].phase != Disposed)
    requires f.phase in {Pending, Failed, Disposed} ==> Bare(f)
    ensures Own(Put(s, u, f), open, spare)
  {
    PutKept(s, u, f, spare);
    PutInStep(s, u, f, open);
  }

  lemma {:induction false} DiscardKept(s: State, u: Uid, spare: set<Impl> := {})
    requires Kept(s, spare) && u < |s.fibers|
    ensures Kept(Discard(s, u), spare)
    ensures Bare(Discard(s, u).fibers[u])
    decreases |s.fibers| - u, 1, 0
  {
    var cs := s.fibers[u].children;
    var s1 := DisposeAll(s, u, cs);
    DisposeAllKept(s, u, cs, spare);
    var f := s1.fibers[u].(provided := {});
    PutKept(s1, u, f, spare);
    UnwindKept(Put(s1, u, f), u, spare);
    UnwindWanes(Put(s1, u, f), u);
    DiscardWanes(s, u);
    assert Fades(Put(s1, u, f).fibers[u], Discard(s, u).fibers[u], true);
    if Discard(s, u).fibers[u].phase != Disposed {
      EmptyIfNone(Discard(s, u).fibers[u].children);
    }
  }

  /** Disposing every child listed leaves u without children. */
  lemma {:induction false} DisposeAllKept(s: State, u: Uid, cs: seq<Uid>, spare: set<Impl> := {})
    requires Kept(s, spare) && u < |s.fibers|
    requires forall c :: c in s.fibers[u].children ==> c in cs
    ensures Kept(DisposeAll(s, u, cs), spare)
    ensures DisposeAll(s, u, cs).fibers[u].children == []
    decreases |s.fibers| - u, 0, |cs|
  {
    if cs == [] {
      EmptyIfNone(s.fibers[u].children);
    } else if u < cs[0] < |s.fibers| {
      var s1 := Dispose(s, cs[0]);
      DisposeKept(s, cs[0], spare);
      DisposeWanes(s, cs[0]);
      assert Fades(s.fibers[u], s1.fibers[u], false);
      forall c | c in s1.fibers[u].children ensures c in cs[1..] {
        assert s1.fibers[u].phase == s.fibers[u].phase;
        assert c in s.fibers[u].children && c != cs[0];
      }
      DisposeAllKept(s1, u, cs[1..], spare);
    } else {
      DisposeAllKept(s, u, cs[1..], spare);
    }
  }

  lemma {:induction false} UnloadKept(s: State, u: Uid, spare: set<Impl> := {})
    requires Kept(s, spare) && u < |s.fibers| && s.fibers[u].phase != Disposed
    ensures Kept(Unload(s, u), spare) && Bare(Unload(s, u).fibers[u])
    decreases |s.fibers| - u, 2
  {
    var t := SetPhase(s, u, Unloading);
    PutKept(s, u, s.fibers[u].(phase := Unloading), spare);
    assert t == Put(s, u, s.fibers[u].(phase := Unloading));
    DiscardKept(t, u, spare);
    DiscardWanes(t, u);
    var d := Discard(t, u);
    PutKept(d, u, d.fibers[u].(phase := Pending), spare);
    assert Unload(s, u) == Put(d, u, d.fibers[u].(phase := Pending));
  }

  lemma {:induction false} ForgetKept(s: State, u: Uid, spare: set<Impl>)
    requires Kept(s, spare) && u < |s.fibers| && Bare(s.fibers[u])
    ensures Kept(Forget(s, u), spare)
  {
    FiledSame(s, Forget(s, u), spare);
    ForgetStrikes(s, u);
    StruckTree(s, Forget(s, u), u);
  }

  /** r is s with u disposed and struck from its parent's children. */
  ghost predicate Struck(s: State, r: State, u: Uid) {
    && |r.fibers| == |s.fibers| && u < |s.fibers|
    && (forall v: Uid :: v < |s.fibers| ==>
         && r.fibers[v].parent == s.fibers[v].parent
         && r.fibers[v].phase == (if v == u then Disposed else s.fibers[v].phase)
         && r.fibers[v].effects == s.fibers[v].effects && r.fibers[v].provided == s.fibers[v].provided
         && (forall c :: c in r.fibers[v].children ==>
           c in s.fibers[v].children && (c == u ==> s.fibers[u].parent != Some(v)))
         && (forall c :: c in s.fibers[v].children && c != u ==> c in r.fibers[v].children))
  }

  lemma {:induction false} ForgetStrikes(s: State, u: Uid)
    requires u < |s.fibers|
    ensures Struck(s, Forget(s, u), u)
  {
  }

  lemma {:induction false} StruckTree(s: State, r: State, u: Uid)
    requires Tree(s) && Idle(s) && Struck(s, r, u) && Bare(s.fibers[u])
    ensures Tree(r) && Idle(r)
  {
    forall v: Uid, c: Uid | v < |r.fibers| && c in r.fibers[v].children
      ensures v < c < |r.fibers| && r.fibers[c].parent == Some(v) && r.fibers[c].phase != Disposed
    {
      assert c in s.fibers[v].children;
      assert v < c < |s.fibers| && s.fibers[c].parent == Some(v) && s.fibers[c].phase != Disposed;
      assert c != u;
    }
    forall v: Uid | v < |r.fibers| && r.fibers[v].phase in {Pending, Failed, Disposed} ensures Bare(r.fibers[v]) {
      assert Bare(s.fibers[v]);
      EmptyIfNone(r.fibers[v].children);
    }
  }

  lemma {:induction false} DisposeKept(s: State, u: Uid, spare: set<Impl> := {})
    requires Kept(s, spare) && u < |s.fibers|
    ensures Kept(Dispose(s, u), spare)
    decreases |s.fibers| - u, 3
  {
    hide Kept, Bare;
    if s.fibers[u].phase == Failed {
      DiscardKept(s, u, spare);
      ForgetKept(Discard(s, u), u, spare);
    } else if s.fibers[u].phase != Disposed {
      UnloadKept(s, u, spare);
      ForgetKept(Unload(s, u), u, spare);
    }
  }

  // ---- both together ------------------------------------------------------------------------

  lemma {:induction false} DiscardOwn(s: State, u: Uid, open: set<Uid>, spare: set<Impl> := {})
    requires Own(s, open, spare) && u < |s.fibers|
    ensures Own(Discard(s, u), open, spare)
    ensures Bare(Discard(s, u).fibers[u])
  {
    hide Kept, InStep;
    DiscardKept(s, u, spare);
    DiscardWanes(s, u);
    DiscardLogs(s, u);
    WaneInStep(s, Discard(s, u), open, u + 1, {u});
  }

  lemma {:induction false} DisposeAllOwn(s: State, u: Uid, cs: seq<Uid>, open: set<Uid>, spare: set<Impl> := {})
    requires Own(s, open, spare) && u < |s.fibers|
    requires forall c :: c in s.fibers[u].children ==> c in cs
    ensures Own(DisposeAll(s, u, cs), open, spare)
    ensures DisposeAll(s, u, cs).fibers[u].children == []
  {
    hide Kept, InStep;
    DisposeAllKept(s, u, cs, spare);
    DisposeAllWanes(s, u, cs);
    DisposeAllLogs(s, u, cs);
    WaneInStep(s, DisposeAll(s, u, cs), open, u + 1, {});
  }

  lemma {:induction false} UnloadInStep(s: State, u: Uid, open: set<Uid>)
    requires InStep(s, open) && u < |s.fibers|
    ensures InStep(Unload(s, u), open)
  {
    hide InStep;
    PutInStep(s, u, s.fibers[u].(phase := Pending), open);
    assert SetPhase(s, u, Pending) == Put(s, u, s.fibers[u].(phase := Pending));
    UnloadWanes(s, u);
    UnloadLogs(s, u);
    WaneInStep(SetPhase(s, u, Pending), Unload(s, u), open, u + 1, {u});
  }

  lemma {:induction false} UnloadOwn(s: State, u: Uid, open: set<Uid>, spare: set<Impl> := {})
    requires Own(s, open, spare) && u < |s.fibers| && s.fibers[u].phase != Disposed
    ensures Own(Unload(s, u), open, spare) && Bare(Unload(s, u).fibers[u])
  {
    hide Kept, InStep;
    UnloadKept(s, u, spare);
    UnloadInStep(s, u, open);
  }

  lemma {:induction false} DisposeInStep(s: State, u: Uid, open: set<Uid>)
    requires InStep(s, open) && u < |s.fibers|
    ensures InStep(Dispose(s, u), open)
  {
    hide InStep;
    DisposeWanes(s, u);
    DisposeLogs(s, u);
    WaneInStep(s, Dispose(s, u), open, u, {});
  }

  lemma {:induction false} DisposeOwn(s: State, u: Uid, open: set<Uid>, spare: set<Impl> := {})
    requires Own(s, open, spare) && u < |s.fibers|
    ensures Own(Dispose(s, u), open, spare)
  {
    hide Kept, InStep;
    DisposeKept(s, u, spare);
    DisposeInStep(s, u, open);
  }
}
