/** What teardown may change: the frame of unwinding, discarding, unloading and disposing. */
module Teardown {
  import opened Registry
  import opened Runtime

  /** The fields no teardown step writes. */
  ghost predicate Stable(f: Fiber, f': Fiber) {
    && f'.entry == f.entry && f'.decl == f.decl && f'.realm == f.realm && f'.parent == f.parent
    && f'.epoch == f.epoch && f'.restart == f.restart && f'.seen == f.seen && f'.bound == f.bound
  }

  /** A fiber is disposed, or keeps its phase, its effects (unless they are `mine` to undo) and at
      most its children. */
  ghost predicate Fades(f: Fiber, f': Fiber, mine: bool) {
    && Stable(f, f')
    && (f'.phase == Disposed
        || (&& f'.phase == f.phase
            && (forall c :: c in f'.children ==> c in f.children)
            && (mine || (f'.effects == f.effects && f'.provided == f.provided))))
  }

  ghost predicate Fewer(g: Store, g': Store) {
    && g'.realms == g.realms && g'.serial == g.serial
    && (forall slot :: slot in g'.impls ==> slot in g.impls && g'.impls[slot] == g.impls[slot])
  }

  /** From s to s': services only disappear, the queue only grows, fibers only fade, and those
      below `low` keep their phase. */
  ghost predicate Wane(s: State, s': State, low: nat, mine: set<Uid>) {
    && |s'.fibers| == |s.fibers|
    && Fewer(s.store, s'.store)
    && s'.activation == s.activation
    && s.pending <= s'.pending
    && (forall u: Uid :: u < |s.fibers| ==> Fades(s.fibers[u], s'.fibers[u], u in mine))
    && (forall u: Uid :: u < low && u < |s.fibers| ==> s'.fibers[u].phase == s.fibers[u].phase)
  }

  lemma {:induction false} WaneTrans(s: State, t: State, r: State, low: nat, mine: set<Uid>)
    requires Wane(s, t, low, mine) && Wane(t, r, low, mine)
    ensures Wane(s, r, low, mine)
  {
    forall u: Uid | u < |s.fibers| ensures Fades(s.fibers[u], r.fibers[u], u in mine) {
      assert Fades(s.fibers[u], t.fibers[u], u in mine) && Fades(t.fibers[u], r.fibers[u], u in mine);
    }
  }

  lemma {:induction false} WaneWeaken(s: State, t: State, low: nat, low': nat, mine: set<Uid>, mine': set<Uid>)
    requires Wane(s, t, low, mine) && low' <= low && mine <= mine'
    ensures Wane(s, t, low', mine')
  {
    forall u: Uid | u < |s.fibers| ensures Fades(s.fibers[u], t.fibers[u], u in mine') {
      assert Fades(s.fibers[u], t.fibers[u], u in mine);
    }
  }

  lemma {:induction false} RevertWanes(s: State, u: Uid, e: Effect)
    requires u < |s.fibers|
    ensures Wane(s, Revert(s, u, e), |s.fibers|, {u})
  {
  }

  lemma {:induction false} UnwindWanes(s: State, u: Uid)
    requires u < |s.fibers|
    ensures Wane(s, Unwind(s, u), |s.fibers|, {u})
    ensures Unwind(s, u).fibers[u].effects == []
    ensures Unwind(s, u).mounted == s.mounted
    decreases |s.fibers[u].effects|
  {
    var n := |s.fibers[u].effects|;
    if n != 0 {
      var t := Put(s, u, s.fibers[u].(effects := s.fibers[u].effects[..n - 1]));
      var e := s.fibers[u].effects[n - 1];
      var r := Revert(t, u, e);
      assert Wane(s, t, |s.fibers|, {u});
      RevertWanes(t, u, e);
      WaneTrans(s, t, r, |s.fibers|, {u});
      UnwindWanes(r, u);
      WaneTrans(s, r, Unwind(s, u), |s.fibers|, {u});
    }
  }

  lemma {:induction false} DiscardWanes(s: State, u: Uid)
    requires u < |s.fibers|
    ensures Wane(s, Discard(s, u), u + 1, {u})
    ensures Discard(s, u).fibers[u].effects == [] && Discard(s, u).fibers[u].provided == {}
    decreases |s.fibers| - u, 1, 0
  {
    var cs := s.fibers[u].children;
    var s1 := DisposeAll(s, u, cs);
    DisposeAllWanes(s, u, cs);
    WaneWeaken(s, s1, u + 1, u + 1, {}, {u});
    var s2 := Put(s1, u, s1.fibers[u].(provided := {}));
    assert Wane(s1, s2, u + 1, {u});
    WaneTrans(s, s1, s2, u + 1, {u});
    UnwindWanes(s2, u);
    UnwindClears(s2, u);
    WaneWeaken(s2, Unwind(s2, u), |s.fibers|, u + 1, {u}, {u});
    WaneTrans(s, s2, Unwind(s2, u), u + 1, {u});
  }

  lemma {:induction false} UnwindClears(s: State, u: Uid)
    requires u < |s.fibers| && s.fibers[u].provided == {}
    ensures Unwind(s, u).fibers[u].provided == {}
    decreases |s.fibers[u].effects|
  {
    var n := |s.fibers[u].effects|;
    if n != 0 {
      var t := Put(s, u, s.fibers[u].(effects := s.fibers[u].effects[..n - 1]));
      UnwindClears(Revert(t, u, s.fibers[u].effects[n - 1]), u);
    }
  }

  lemma {:induction false} DisposeAllWanes(s: State, u: Uid, cs: seq<Uid>)
    requires u < |s.fibers|
    ensures Wane(s, DisposeAll(s, u, cs), u + 1, {})
    decreases |s.fibers| - u, 0, |cs|
  {
    if cs != [] {
      if u < cs[0] < |s.fibers| {
        var s1 := Dispose(s, cs[0]);
        DisposeWanes(s, cs[0]);
        WaneWeaken(s, s1, cs[0], u + 1, {}, {});
        DisposeAllWanes(s1, u, cs[1..]);
        WaneTrans(s, s1, DisposeAll(s1, u, cs[1..]), u + 1, {});
      } else {
        DisposeAllWanes(s, u, cs[1..]);
      }
    }
  }

  /** Relative to the same state with u already PENDING. */
  lemma {:induction false} UnloadWanes(s: State, u: Uid)
    requires u < |s.fibers|
    ensures Wane(SetPhase(s, u, Pending), Unload(s, u), u + 1, {u})
    ensures Unload(s, u).fibers[u].phase == Pending
    ensures Unload(s, u).fibers[u].effects == [] && Unload(s, u).fibers[u].provided == {}
    decreases |s.fibers| - u, 2
  {
    var t := SetPhase(s, u, Unloading);
    DiscardWanes(t, u);
    var d := Discard(t, u);
    var b := SetPhase(s, u, Pending);
    var r := Unload(s, u);
    assert r == SetPhase(d, u, Pending);
    forall v: Uid | v < |s.fibers| ensures Fades(b.fibers[v], r.fibers[v], v in {u}) {
      assert Fades(t.fibers[v], d.fibers[v], v in {u});
    }
  }

  lemma {:induction false} ForgetFades(s: State, b: State, u: Uid)
    requires u < |s.fibers| && |b.fibers| == |s.fibers|
    requires Wane(b, s, u, {u})
    ensures Wane(b, Forget(s, u), u, {})
  {
    var r := Forget(s, u);
    forall v: Uid | v < |s.fibers| ensures Fades(b.fibers[v], r.fibers[v], v in {}) {
      assert Fades(b.fibers[v], s.fibers[v], v in {u});
    }
    forall v: Uid | v < u && v < |s.fibers| ensures r.fibers[v].phase == b.fibers[v].phase {
    }
  }

  lemma {:induction false} WaneFromPending(s: State, u: Uid, r: State)
    requires u < |s.fibers| && Wane(SetPhase(s, u, Pending), r, u, {})
    requires |r.fibers| == |s.fibers| && r.fibers[u].phase == Disposed
    ensures Wane(s, r, u, {})
  {
    var b := SetPhase(s, u, Pending);
    forall v: Uid | v < |s.fibers| ensures Fades(s.fibers[v], r.fibers[v], v in {}) {
      assert Fades(b.fibers[v], r.fibers[v], v in {});
    }
  }

  lemma {:induction false} WaneSelf(s: State, low: nat, mine: set<Uid>)
    ensures Wane(s, s, low, mine)
  {
  }

  lemma {:induction false} DisposeWanes(s: State, u: Uid)
    requires u < |s.fibers|
    ensures Wane(s, Dispose(s, u), u, {})
    ensures Dispose(s, u).fibers[u].phase == Disposed
    decreases |s.fibers| - u, 3
  {
    if s.fibers[u].phase == Disposed {
      WaneSelf(s, u, {});
    } else if s.fibers[u].phase == Failed {
      var d := Discard(s, u);
      DiscardWanes(s, u);
      WaneWeaken(s, d, u + 1, u, {u}, {u});
      ForgetFades(d, s, u);
    } else {
      var d := Unload(s, u);
      UnloadWanes(s, u);
      var b := SetPhase(s, u, Pending);
      WaneWeaken(b, d, u + 1, u, {u}, {u});
      ForgetFades(d, b, u);
      WaneFromPending(s, u, Forget(d, u));
    }
  }

  // ---- what teardown logs ---------------------------------------------------------------------

  /** From log to log' only disposers ran. */
  ghost predicate OnlyRan(log: seq<Mark>, log': seq<Mark>) {
    log <= log' && forall k :: |log| <= k < |log'| ==> log'[k].Ran?
  }

  lemma {:induction false} UnwindLogs(s: State, u: Uid)
    requires u < |s.fibers|
    ensures OnlyRan(s.log, Unwind(s, u).log)
    decreases |s.fibers[u].effects|
  {
    var n := |s.fibers[u].effects|;
    if n != 0 {
      var e := s.fibers[u].effects[n - 1];
      var t := Put(s, u, s.fibers[u].(effects := s.fibers[u].effects[..n - 1]));
      assert Revert(t, u, e).log == s.log + [Ran(u, e, s.store.impls)];
      UnwindLogs(Revert(t, u, e), u);
    }
  }

  lemma {:induction false} DiscardLogs(s: State, u: Uid)
    requires u < |s.fibers|
    ensures OnlyRan(s.log, Discard(s, u).log)
    decreases |s.fibers| - u, 1, 0
  {
    var s1 := DisposeAll(s, u, s.fibers[u].children);
    DisposeAllLogs(s, u, s.fibers[u].children);
    UnwindLogs(Put(s1, u, s1.fibers[u].(provided := {})), u);
  }

  lemma {:induction false} DisposeAllLogs(s: State, u: Uid, cs: seq<Uid>)
    requires u < |s.fibers|
    ensures OnlyRan(s.log, DisposeAll(s, u, cs).log)
    decreases |s.fibers| - u, 0, |cs|
  {
    if cs != [] {
      if u < cs[0] < |s.fibers| {
        DisposeLogs(s, cs[0]);
        DisposeAllLogs(Dispose(s, cs[0]), u, cs[1..]);
      } else {
        DisposeAllLogs(s, u, cs[1..]);
      }
    }
  }

  lemma {:induction false} UnloadLogs(s: State, u: Uid)
    requires u < |s.fibers|
    ensures OnlyRan(s.log, Unload(s, u).log)
    decreases |s.fibers| - u, 2
  {
    DiscardLogs(SetPhase(s, u, Unloading), u);
  }

  lemma {:induction false} DisposeLogs(s: State, u: Uid)
    requires u < |s.fibers|
    ensures OnlyRan(s.log, Dispose(s, u).log)
    decreases |s.fibers| - u, 3
  {
    if s.fibers[u].phase == Failed {
      DiscardLogs(s, u);
    } else if s.fibers[u].phase != Disposed {
      UnloadLogs(s, u);
    }
  }

  // ---- what unwinding leaves alone --------------------------------------------------------------

  /** Unwinding u touches no other fiber. */
  lemma {:induction false} UnwindAlone(s: State, u: Uid)
    requires u < |s.fibers|
    ensures forall v: Uid :: v < |s.fibers| && v != u ==> Unwind(s, u).fibers[v] == s.fibers[v]
    ensures Unwind(s, u).mounted == s.mounted && Unwind(s, u).fibers[u].children == s.fibers[u].children
    decreases |s.fibers[u].effects|
  {
    var es := s.fibers[u].effects;
    if es != [] {
      var t := WithdrawStep(s, u, |es| - 1);
      assert Cut(es, |es| - 1) == es[..|es| - 1];
      UnwindAlone(t, u);
    }
  }
}
