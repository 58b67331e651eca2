/** Root.dispose: the whole tree in reverse activation order, consumers first. */
module Shutdown {
  import opened Lists
  import opened Registry
  import opened Runtime
  import opened Teardown
  import opened Currency
  import opened Settling
  import opened Runs
  import opened Ownership

  /** order.get(uid, -1) over the enumerated activation order. */
  function Rank(s: State, u: Uid): int {
    if u in s.activation then Pos(s.activation, u) else -1
  }

  /** The sort key (-order, -uid), ascending. */
  predicate Sooner(s: State, a: Uid, b: Uid) {
    Rank(s, a) > Rank(s, b) || (Rank(s, a) == Rank(s, b) && a >= b)
  }

  function Insert(s: State, u: Uid, us: seq<Uid>): (r: seq<Uid>)
    ensures forall v :: v in r <==> v == u || v in us
  {
    if us == [] || Sooner(s, u, us[0]) then [u] + us else [us[0]] + Insert(s, u, us[1..])
  }

  function Sorted(s: State, us: seq<Uid>): (r: seq<Uid>)
    ensures forall v :: v in r <==> v in us
  {
    if us == [] then [] else Insert(s, us[0], Sorted(s, us[1..]))
  }

  function DisposeEach(s: State, us: seq<Uid>): (r: State)
    ensures |r.fibers| == |s.fibers|
    decreases |us|
  {
    if us == [] then s
    else DisposeEach(if us[0] < |s.fibers| then Dispose(s, us[0]) else s, us[1..])
  }

  function RootDispose(s: State): State {
    DisposeEach(s, Sorted(s, s.mounted)).(pending := [])
  }

  // ---- the order ---------------------------------------------------------------------------

  /** Whoever comes later in the list is never sooner. */
  ghost predicate InOrder(s: State, us: seq<Uid>) {
    us != [] ==> (forall v :: v in us[1..] ==> Sooner(s, us[0], v)) && InOrder(s, us[1..])
  }

  lemma {:induction false} InsertInOrder(s: State, u: Uid, us: seq<Uid>)
    requires InOrder(s, us)
    ensures InOrder(s, Insert(s, u, us))
  {
    if us != [] {
      if Sooner(s, u, us[0]) {
        var r := [u] + us;
        assert r[1..] == us;
        forall v | v in us ensures Sooner(s, u, v) {
          if v != us[0] { assert v in us[1..]; }
        }
      } else {
        InsertInOrder(s, u, us[1..]);
        var r := [us[0]] + Insert(s, u, us[1..]);
        assert r[1..] == Insert(s, u, us[1..]);
      }
    }
  }

  lemma {:induction false} SortedInOrder(s: State, us: seq<Uid>)
    ensures InOrder(s, Sorted(s, us))
  {
    if us != [] {
      SortedInOrder(s, us[1..]);
      InsertInOrder(s, us[0], Sorted(s, us[1..]));
    }
  }

  // ---- one disposal whose children are bare ---------------------------------------------------

  ghost predicate Inert(s: State, c: Uid) {
    c < |s.fibers| && s.fibers[c].phase in {Pending, Failed, Disposed} && Bare(s.fibers[c])
  }

  lemma {:induction false} DiscardBare(s: State, u: Uid)
    requires u < |s.fibers| && Bare(s.fibers[u])
    ensures Discard(s, u) == Put(s, u, s.fibers[u].(provided := {}))
  {
    assert DisposeAll(s, u, []) == s;
  }

  /** Disposing an inert fiber runs no plugin code and withdraws nothing. */
  lemma {:induction false} DisposeInert(s: State, c: Uid)
    requires Inert(s, c)
    ensures Dispose(s, c).log == s.log && Dispose(s, c).store == s.store
    ensures forall v: Uid :: v < |s.fibers| && v != c ==> Dispose(s, c).fibers[v].phase == s.fibers[v].phase
  {
    if s.fibers[c].phase == Failed {
      DiscardBare(s, c);
      hide Discard;
    } else if s.fibers[c].phase == Pending {
      DiscardBare(SetPhase(s, c, Unloading), c);
      hide Discard;
    }
  }

  lemma {:induction false} DisposeAllInert(s: State, u: Uid, cs: seq<Uid>)
    requires Own(s, {}) && u < |s.fibers|
    requires forall c :: c in cs ==> Inert(s, c)
    ensures DisposeAll(s, u, cs).log == s.log && DisposeAll(s, u, cs).store == s.store
    ensures forall v: Uid :: v < |s.fibers| && v !in cs ==> DisposeAll(s, u, cs).fibers[v].phase == s.fibers[v].phase
    decreases |cs|
  {
    if cs != [] {
      assert cs[0] in cs && forall c :: c in cs[1..] ==> c in cs;
      if u < cs[0] {
        var s1 := Dispose(s, cs[0]);
        DisposeInert(s, cs[0]);
        DisposeOwn(s, cs[0], {});
        DisposeWanes(s, cs[0]);
        forall c | c in cs[1..] ensures Inert(s1, c) {
          assert Inert(s, c) && Fades(s.fibers[c], s1.fibers[c], false);
        }
        DisposeAllInert(s1, u, cs[1..]);
      } else {
        DisposeAllInert(s, u, cs[1..]);
      }
    }
  }

  /** While u's disposers run, a live registration of another fiber stays live. */
  ghost predicate Served(m: Mark, u: Uid, b: Impl) {
    m.Ran? && m.who == u && b.slot in m.services && m.services[b.slot] == b
  }

  /** One disposer of u leaves a live registration of another fiber alone. */
  lemma {:induction false} WithdrawServes(s: State, u: Uid, k: nat, b: Impl)
    requires Own(s, {}) && u < |s.fibers| && k < |s.fibers[u].effects| && IsLive(s.store, b) && b.owner != u
    ensures IsLive(WithdrawStep(s, u, k).store, b)
  {
    RevertFiled(s, u, k);
    assert EffectsOk(s.store, u, s.fibers[u].effects);
  }

  /** Unwinding runs the disposer of the newest effect, then unwinds the rest. */
  lemma {:induction false} UnwindStep(s: State, u: Uid)
    requires u < |s.fibers| && s.fibers[u].effects != []
    ensures var n := |s.fibers[u].effects| - 1;
      var t := WithdrawStep(s, u, n);
      && Unwind(s, u) == Unwind(t, u) && |t.fibers| == |s.fibers| && |t.fibers[u].effects| == n
      && t.log == s.log + [Ran(u, s.fibers[u].effects[n], s.store.impls)]
  {
    var n := |s.fibers[u].effects| - 1;
    assert Cut(s.fibers[u].effects, n) == s.fibers[u].effects[..n];
  }

  lemma {:induction false} UnwindServes(s: State, u: Uid, b: Impl)
    requires Own(s, {}) && u < |s.fibers| && IsLive(s.store, b) && b.owner != u
    ensures s.log <= Unwind(s, u).log
    ensures forall k :: |s.log| <= k < |Unwind(s, u).log| ==> Served(Unwind(s, u).log[k], u, b)
    ensures IsLive(Unwind(s, u).store, b)
    decreases |s.fibers[u].effects|
  {
    hide Own, WithdrawStep;
    if s.fibers[u].effects != [] {
      var n := |s.fibers[u].effects| - 1;
      var t := WithdrawStep(s, u, n);
      UnwindStep(s, u);
      WithdrawServes(s, u, n, b);
      WithdrawOwn(s, u, n, {});
      UnwindServes(t, u, b);
      assert Served(t.log[|s.log|], u, b);
    }
  }

  /** From position `from` on, the log shows u's disposers of es, the newest first. */
  ghost predicate RanBackwards(log: seq<Mark>, from: nat, u: Uid, es: seq<Effect>) {
    && |log| == from + |es|
    && forall k :: from <= k < |log| ==> log[k].Ran? && log[k].who == u && log[k].effect == es[from + |es| - 1 - k]
  }

  /** The disposers of u run once each, in reverse filing order. */
  lemma {:induction false} UnwindRunsBackwards(s: State, u: Uid)
    requires u < |s.fibers|
    ensures RanBackwards(Unwind(s, u).log, |s.log|, u, s.fibers[u].effects)
    decreases |s.fibers[u].effects|
  {
    hide Unwind;
    var es := s.fibers[u].effects;
    if es == [] {
      UnwindNothing(s, u);
    } else {
      var t := WithdrawStep(s, u, |es| - 1);
      UnwindStep(s, u);
      UnwindRunsBackwards(t, u);
      assert t.fibers[u].effects == es[..|es| - 1] by { assert Cut(es, |es| - 1) == es[..|es| - 1]; }
      UnwindMarks(t, u);
      var log := Unwind(s, u).log;
      assert log[|s.log|] == t.log[|s.log|];
    }
  }

  lemma {:induction false} UnwindNothing(s: State, u: Uid)
    requires u < |s.fibers| && s.fibers[u].effects == []
    ensures Unwind(s, u) == s
  {
  }

  ghost predicate RanBy(m: Mark, u: Uid) {
    m.Ran? && m.who == u
  }

  lemma {:induction false} UnwindMarks(s: State, u: Uid)
    requires u < |s.fibers|
    ensures s.log <= Unwind(s, u).log
    ensures forall k :: |s.log| <= k < |Unwind(s, u).log| ==> RanBy(Unwind(s, u).log[k], u)
    decreases |s.fibers[u].effects|
  {
    if s.fibers[u].effects != [] {
      UnwindStep(s, u);
      UnwindMarks(WithdrawStep(s, u, |s.fibers[u].effects| - 1), u);
    }
  }

  /** An active fiber's tree just before its own effects unwind. */
  function Cleared(s: State, u: Uid): State
    requires u < |s.fibers|
  {
    var s1 := DisposeAll(SetPhase(s, u, Unloading), u, s.fibers[u].children);
    Put(s1, u, s1.fibers[u].(provided := {}))
  }

  lemma {:induction false} ClearedOwn(s: State, u: Uid)
    requires Own(s, {}) && u < |s.fibers| && s.fibers[u].phase == Active
    requires forall c :: c in s.fibers[u].children ==> Inert(s, c)
    ensures var s2 := Cleared(s, u);
      && Own(s2, {}) && |s2.fibers| == |s.fibers| && s2.log == s.log && s2.store == s.store
      && (forall v: Uid :: v < |s.fibers| && v != u && v !in s.fibers[u].children ==>
        s2.fibers[v].phase == s.fibers[v].phase)
  {
    var t := SetPhase(s, u, Unloading);
    var cs := s.fibers[u].children;
    PutOwn(s, u, s.fibers[u].(phase := Unloading), {});
    assert t == Put(s, u, s.fibers[u].(phase := Unloading));
    forall c | c in cs ensures Inert(t, c) {
      assert Inert(s, c) && u < c;
    }
    hide Own;
    var s1 := DisposeAll(t, u, cs);
    DisposeAllOwn(t, u, cs, {});
    DisposeAllInert(t, u, cs);
    DisposeAllWanes(t, u, cs);
    PutOwn(s1, u, s1.fibers[u].(provided := {}), {});
  }

  lemma {:induction false} DisposeIsUnwind(s: State, u: Uid)
    requires u < |s.fibers| && s.fibers[u].phase == Active && |Cleared(s, u).fibers| == |s.fibers|
    ensures Dispose(s, u).log == Unwind(Cleared(s, u), u).log
    ensures forall v: Uid :: v < |s.fibers| && v != u ==>
      Dispose(s, u).fibers[v].phase == Unwind(Cleared(s, u), u).fibers[v].phase
  {
    assert Discard(SetPhase(s, u, Unloading), u) == Unwind(Cleared(s, u), u);
  }

  /** Disposing an active fiber whose children are inert: only its own disposers run, each of them
      sees every live registration of the others, and no other fiber but its children changes phase. */
  lemma {:induction false} DisposeActive(s: State, u: Uid)
    requires Own(s, {}) && u < |s.fibers| && s.fibers[u].phase == Active
    requires forall c :: c in s.fibers[u].children ==> Inert(s, c)
    ensures var r := Dispose(s, u);
      && s.log <= r.log
      && (forall k :: |s.log| <= k < |r.log| ==> RanBy(r.log[k], u))
      && (forall b, k :: IsLive(s.store, b) && b.owner != u && |s.log| <= k < |r.log| ==> Served(r.log[k], u, b))
      && (forall v: Uid :: v < |s.fibers| && v != u && v !in s.fibers[u].children ==>
        r.fibers[v].phase == s.fibers[v].phase)
  {
    hide Own, Inert, Served, RanBy, Cleared, Dispose, Unwind;
    var s2 := Cleared(s, u);
    ClearedOwn(s, u);
    DisposeIsUnwind(s, u);
    UnwindMarks(s2, u);
    UnwindWanes(s2, u);
    var d := Unwind(s2, u);
    forall b, k | IsLive(s.store, b) && b.owner != u && |s.log| <= k < |d.log| ensures Served(d.log[k], u, b) {
      UnwindServes(s2, u, b);
    }
    forall v: Uid | v < |s.fibers| ensures d.fibers[v].phase == s2.fibers[v].phase {
      assert v < |s2.fibers|;
    }
  }

  // ---- the whole tree --------------------------------------------------------------------------

  /** A disposer of u ran while every registration that u's apply started from, and that was live
      in s0, was still live. */
  ghost predicate ProvidersLive(s0: State, m: Mark) {
    m.Ran? && m.who < |s0.fibers| && s0.fibers[m.who].phase == Active ==>
      var bound := s0.fibers[m.who].bound;
      forall i :: 0 <= i < |bound| && bound[i].Some? && IsLive(s0.store, bound[i].value) ==>
        bound[i].value.slot in m.services && m.services[bound[i].value.slot] == bound[i].value
  }

  /** Midway through the list: what was active and is still listed stands untouched, what is not
      listed is gone, and everything gone was due before everything listed. */
  ghost predicate Underway(s0: State, s: State, us: seq<Uid>) {
    && Wane(s0, s, 0, {}) && NoDup(us) && InOrder(s0, us) && Uids(s0, us)
    && (forall v: Uid :: v < |s.fibers| && s.fibers[v].phase != Disposed ==> v in us)
    && (forall v: Uid :: v < |s.fibers| && s0.fibers[v].phase == Active && v in us ==> s.fibers[v].phase == Active)
    && (forall v: Uid, w :: v < |s.fibers| && s0.fibers[v].phase == Active && v !in us && w in us ==> Sooner(s0, v, w))
  }

  /** The children of the next active fiber to go never became active after it. */
  lemma {:induction false} NextChildrenInert(s0: State, s: State, us: seq<Uid>)
    requires Own(s0, {}) && Own(s, {}) && Rest(s, {}) && Underway(s0, s, us) && us != []
    requires us[0] < |s.fibers| && s.fibers[us[0]].phase == Active
    ensures forall c :: c in s.fibers[us[0]].children ==> Inert(s, c)
  {
    var u := us[0];
    forall c | c in s.fibers[u].children ensures Inert(s, c) {
      assert u < c < |s.fibers| && s.fibers[c].phase != Disposed && s.fibers[c].parent == Some(u);
      assert Fades(s0.fibers[c], s.fibers[c], false);
      assert c in us && c in us[1..];
      assert Sooner(s0, u, c);
      assert Placed(s0, c, {});
      assert s.fibers[c].phase != Active;
    }
  }

  lemma {:induction false} LiveFiled(s: State, b: Impl)
    requires Own(s, {}) && Rest(s, {}) && IsLive(s.store, b) && b.owner in s.activation
    ensures b.owner < |s.fibers| && Files(s.fibers[b.owner], b) && s.fibers[b.owner].phase == Active
  {
    assert Files(s.fibers[b.owner], b);
  }

  lemma {:induction false} FiledLive(s: State, p: Uid, b: Impl)
    requires Own(s, {}) && p < |s.fibers| && Files(s.fibers[p], b)
    ensures IsLive(s.store, b) && b.owner == p
  {
    assert EffectsOk(s.store, p, s.fibers[p].effects);
    var k :| 0 <= k < |s.fibers[p].effects| && s.fibers[p].effects[k] == Undo(b);
  }

  /** A provider of the next fiber to go is still listed, hence untouched. */
  lemma {:induction false} ProviderStands(s0: State, s: State, us: seq<Uid>, b: Impl)
    requires Own(s0, {}) && Rest(s0, {}) && Own(s, {}) && Underway(s0, s, us) && us != []
    requires us[0] < |s0.fibers| && IsLive(s0.store, b) && Precedes(s0, b.owner, us[0]) && us[0] in s0.activation
    ensures IsLive(s.store, b) && b.owner != us[0]
  {
    var u, p := us[0], b.owner;
    LiveFiled(s0, b);
    assert u in us && !Sooner(s0, p, u);
    assert p in us;
    assert Fades(s0.fibers[p], s.fibers[p], false);
    FiledLive(s, p, b);
  }

  /** The providers the next fiber's apply started from all stand. */
  lemma {:induction false} NextProviders(s0: State, s: State, us: seq<Uid>)
    requires Own(s0, {}) && Rest(s0, {}) && Own(s, {}) && Underway(s0, s, us) && us != []
    requires us[0] < |s.fibers| && s.fibers[us[0]].phase == Active
    ensures |s0.fibers| == |s.fibers| && s0.fibers[us[0]].phase == Active
    ensures var bound := s0.fibers[us[0]].bound;
      forall i :: 0 <= i < |bound| && bound[i].Some? && IsLive(s0.store, bound[i].value) ==>
        IsLive(s.store, bound[i].value) && bound[i].value.owner != us[0]
  {
    var u := us[0];
    assert |s0.fibers| == |s.fibers|;
    assert Fades(s0.fibers[u], s.fibers[u], false);
    assert Placed(s0, u, {});
    hide Own, Rest, Underway, Fades;
    var bound := s0.fibers[u].bound;
    forall i | 0 <= i < |bound| && bound[i].Some? && IsLive(s0.store, bound[i].value)
      ensures IsLive(s.store, bound[i].value) && bound[i].value.owner != u
    {
      ProviderStands(s0, s, us, bound[i].value);
    }
  }

  /** Disposing the next fiber while it is active: its disposers still see their providers. */
  lemma {:induction false} NextActiveServes(s0: State, s: State, us: seq<Uid>)
    requires Own(s0, {}) && Rest(s0, {}) && Own(s, {}) && Rest(s, {}) && Underway(s0, s, us) && us != []
    requires us[0] < |s.fibers| && s.fibers[us[0]].phase == Active
    ensures var r := Dispose(s, us[0]);
      s.log <= r.log && forall k :: |s.log| <= k < |r.log| ==> ProvidersLive(s0, r.log[k])
  {
    hide Own, Rest, Underway, Inert, Dispose;
    var u := us[0];
    NextProviders(s0, s, us);
    NextChildrenInert(s0, s, us);
    DisposeActive(s, u);
    forall k | |s.log| <= k < |Dispose(s, u).log| ensures ProvidersLive(s0, Dispose(s, u).log[k]) {
      var m := Dispose(s, u).log[k];
      assert RanBy(m, u);
      assert forall b :: IsLive(s.store, b) && b.owner != u ==> Served(m, u, b);
    }
  }

  /** Nobody active is felled but the fiber itself. */
  lemma {:induction false} NextSpares(s0: State, s: State, us: seq<Uid>)
    requires Own(s0, {}) && Own(s, {}) && Rest(s, {}) && Underway(s0, s, us) && us != [] && us[0] < |s.fibers|
    ensures forall v: Uid :: v < |s.fibers| && v != us[0] && s.fibers[v].phase == Active ==>
      Dispose(s, us[0]).fibers[v].phase == Active
    ensures s.fibers[us[0]].phase != Active ==> Dispose(s, us[0]).log == s.log
  {
    var u := us[0];
    if s.fibers[u].phase == Active {
      NextChildrenInert(s0, s, us);
      DisposeActive(s, u);
    } else if s.fibers[u].phase != Disposed {
      assert Inert(s, u);
      DisposeInert(s, u);
    }
  }

  /** One step runs only disposers that still see their providers, and fells no other active fiber. */
  lemma {:induction false} NextServes(s0: State, s: State, us: seq<Uid>)
    requires Own(s0, {}) && Rest(s0, {}) && Own(s, {}) && Rest(s, {}) && Underway(s0, s, us) && us != []
    requires us[0] < |s.fibers|
    ensures var r := Dispose(s, us[0]);
      && s.log <= r.log
      && (forall k :: |s.log| <= k < |r.log| ==> ProvidersLive(s0, r.log[k]))
      && (forall v: Uid :: v < |s.fibers| && v != us[0] && s.fibers[v].phase == Active ==> r.fibers[v].phase == Active)
  {
    hide Own, Rest, Underway, ProvidersLive;
    NextSpares(s0, s, us);
    if s.fibers[us[0]].phase == Active { NextActiveServes(s0, s, us); }
  }

  lemma {:induction false} NextUnderway(s0: State, s: State, r: State, us: seq<Uid>)
    requires Underway(s0, s, us) && us != [] && Wane(s, r, 0, {})
    requires us[0] < |s.fibers| && r.fibers[us[0]].phase == Disposed
    requires forall v: Uid :: v < |s.fibers| && v != us[0] && s.fibers[v].phase == Active ==>
      r.fibers[v].phase == Active
    ensures Underway(s0, r, us[1..])
  {
    var u := us[0];
    WaneTrans(s0, s, r, 0, {});
    NoDupTail(us);
    forall v | v in us[1..] ensures v in us { }
    forall v: Uid | v < |r.fibers| && r.fibers[v].phase != Disposed ensures v in us[1..] {
      assert Fades(s.fibers[v], r.fibers[v], false);
    }
    forall v: Uid, x | v < |r.fibers| && s0.fibers[v].phase == Active && v !in us[1..] && x in us[1..]
      ensures Sooner(s0, v, x)
    {
      if v != u { assert v !in us && x in us; }
    }
  }

  lemma {:induction false} DisposeNext(s0: State, s: State, us: seq<Uid>)
    requires Own(s0, {}) && Rest(s0, {}) && Own(s, {}) && Rest(s, {}) && Underway(s0, s, us) && us != []
    requires us[0] < |s.fibers|
    ensures var r := Dispose(s, us[0]);
      && Own(r, {}) && Rest(r, {}) && Underway(s0, r, us[1..]) && s.log <= r.log
      && forall k :: |s.log| <= k < |r.log| ==> ProvidersLive(s0, r.log[k])
  {
    var u := us[0];
    var r := Dispose(s, u);
    DisposeOwn(s, u, {});
    DisposeWanes(s, u);
    RestWanes(s, r, {}, u, {});
    WaneWeaken(s, r, u, 0, {}, {});
    NextServes(s0, s, us);
    NextUnderway(s0, s, r, us);
  }

  lemma {:induction false} DisposeEachServes(s0: State, s: State, us: seq<Uid>)
    requires Own(s0, {}) && Rest(s0, {}) && Own(s, {}) && Rest(s, {}) && Underway(s0, s, us)
    ensures var r := DisposeEach(s, us);
      && Own(r, {}) && Underway(s0, r, []) && s.log <= r.log
      && forall k :: |s.log| <= k < |r.log| ==> ProvidersLive(s0, r.log[k])
    decreases |us|
  {
    if us != [] {
      assert us[0] in us;
      assert us[0] < |s.fibers|;
      hide Own, Rest, Underway, ProvidersLive, Dispose;
      DisposeNext(s0, s, us);
      DisposeEachServes(s0, Dispose(s, us[0]), us[1..]);
    }
  }

  lemma {:induction false} InsertNoDup(s: State, u: Uid, us: seq<Uid>)
    requires NoDup(us) && u !in us
    ensures NoDup(Insert(s, u, us))
  {
    if us == [] || Sooner(s, u, us[0]) {
      NoDupCons(u, us);
    } else {
      NoDupTail(us);
      InsertNoDup(s, u, us[1..]);
      NoDupCons(us[0], Insert(s, u, us[1..]));
    }
  }

  lemma {:induction false} SortedNoDup(s: State, us: seq<Uid>)
    requires NoDup(us)
    ensures NoDup(Sorted(s, us))
  {
    if us != [] {
      NoDupTail(us);
      SortedNoDup(s, us[1..]);
      InsertNoDup(s, us[0], Sorted(s, us[1..]));
    }
  }

  lemma {:induction false} DisposeEachCore(s: State, us: seq<Uid>, x: set<Uid>)
    requires Core(s, {}, x, [])
    ensures Core(DisposeEach(s, us), {}, x, [])
    decreases |us|
  {
    if us != [] {
      if us[0] < |s.fibers| {
        DisposeCore(s, us[0], {}, x, []);
        DisposeEachCore(Dispose(s, us[0]), us[1..], x);
      } else {
        DisposeEachCore(s, us[1..], x);
      }
    }
  }

  lemma {:induction false} TeardownServes(s: State, x: set<Uid>)
    requires Steady(s, x, []) && Own(s, {})
    ensures var r := DisposeEach(s, Sorted(s, s.mounted));
      && Own(r, {}) && s.log <= r.log
      && (forall v: Uid :: v < |r.fibers| ==> r.fibers[v].phase == Disposed)
      && forall k :: |s.log| <= k < |r.log| ==> ProvidersLive(s, r.log[k])
  {
    var us := Sorted(s, s.mounted);
    SortedInOrder(s, s.mounted);
    SortedNoDup(s, s.mounted);
    WaneSelf(s, 0, {});
    assert forall v: Uid :: v < |s.fibers| && s.fibers[v].phase != Disposed ==> v in s.mounted && v in us;
    DisposeEachServes(s, s, us);
  }

  /** If m is a disposer of a fiber ACTIVE in s, every service its injections resolve to in s is still
      live. */
  ghost predicate StillServed(s: State, m: Mark) {
    m.Ran? && m.who < |s.fibers| && s.fibers[m.who].phase == Active ==>
      var bound := Bindings(s, m.who);
      forall i :: 0 <= i < |bound| && bound[i].Some? ==>
        bound[i].value.slot in m.services && m.services[bound[i].value.slot] == bound[i].value
  }

  /** Main result: tearing down a quiescent tree, every disposer of an active fiber runs while all
      the services its injections resolve to are still live. */
  lemma {:induction false} ConsumersFirst(s: State)
    requires Steady(s, {}, []) && Own(s, {}) && s.pending == []
    ensures s.log <= RootDispose(s).log
    ensures forall k :: |s.log| <= k < |RootDispose(s).log| ==> StillServed(s, RootDispose(s).log[k])
  {
    TeardownServes(s, {});
    QuietNoStale(s);
    assert Serialized(s.store);
    hide Steady, Own, NoStale, ProvidersLive, StillServed, DisposeEach, Sorted, Serialized;
    forall k | |s.log| <= k < |RootDispose(s).log| ensures StillServed(s, RootDispose(s).log[k]) {
      assert ProvidersLive(s, RootDispose(s).log[k]);
      ProvidersServe(s, RootDispose(s).log[k]);
    }
  }

  /** In a quiescent tree, the registrations an apply started from are the ones that resolve. */
  lemma {:induction false} ProvidersServe(s: State, m: Mark)
    requires NoStale(s) && Serialized(s.store) && ProvidersLive(s, m)
    ensures StillServed(s, m)
  {
    if m.Ran? && m.who < |s.fibers| && s.fibers[m.who].phase == Active { BindingsLive(s, m.who); }
  }

  lemma {:induction false} BindingsLive(s: State, u: Uid)
    requires u < |s.fibers| && Serialized(s.store)
    ensures var b := Bindings(s, u);
      forall i :: 0 <= i < |b| && b[i].Some? ==> IsLive(s.store, b[i].value)
  {
  }

  lemma {:induction false} OwnersHoldEffects(s: State)
    requires Filed(s)
    ensures forall slot :: slot in s.store.impls ==>
      s.store.impls[slot].owner < |s.fibers| && s.fibers[s.store.impls[slot].owner].effects != []
  {
    forall slot | slot in s.store.impls
      ensures s.store.impls[slot].owner < |s.fibers| && s.fibers[s.store.impls[slot].owner].effects != []
    {
      assert Files(s.fibers[s.store.impls[slot].owner], s.store.impls[slot]);
    }
  }

  /** Main result: after Root.dispose, from any owned state, nothing is left. */
  lemma {:induction false} DisposeLeavesNothing(s: State, x: set<Uid>)
    requires Steady(s, x, []) && Own(s, {})
    ensures var r := RootDispose(s);
      && r.mounted == [] && r.store.impls == map[] && r.pending == []
      && |r.fibers| == |s.fibers|
      && forall v: Uid :: v < |r.fibers| ==> r.fibers[v].phase == Disposed && Bare(r.fibers[v])
  {
    TeardownServes(s, x);
    DisposeEachCore(s, Sorted(s, s.mounted), x);
    var r := DisposeEach(s, Sorted(s, s.mounted));
    EmptyIfNone(r.mounted);
    OwnersHoldEffects(r);
  }
}
