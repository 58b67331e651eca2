/** Two short runs in which the host provides a service somebody waits for: one settles smoothly, and
    one leaks the registration for good. */
module ProvideRuns {
  import opened Lists
  import opened Registry
  import opened Runtime
  import opened Settling
  import opened Runs
  import opened Ownership
  import opened OwnedRuns
  import opened Shutdown
  import opened Guarantees
  import opened HostProvides

  const DONOR := Decl([], [], {}, false)
  const TAKER := Decl(["db"], [], {}, false)

  /** Loads succeed and do nothing, but those of fiber 1 end as told. */
  function TakerEnds(ending: Ending): Behaviour {
    (u: Uid, s: State) => Script(if u == 1 then ending else Returns, [], Returns)
  }

  function PoisingRun(w: Behaviour): seq<Call> {
    [Call(w, HostMount("donor", DONOR, {})), Call(w, HostMount("taker", TAKER, {})), Call(w, HostSettle)]
  }

  const DONOR_WAITING := NewFiber("donor", DONOR, 0, None)
  const DONOR_ACTIVE := DONOR_WAITING.(phase := Active, epoch := Live([]))
  const TAKER_WAITING := NewFiber("taker", TAKER, 0, None)

  /** What the run leaves: an ACTIVE donor and a taker waiting for "db". */
  function Poised(log: seq<Mark>): State {
    EMPTY.(fibers := [DONOR_ACTIVE, TAKER_WAITING], mounted := [0, 1], activation := [0], log := log)
  }

  lemma {:induction false} TwoMounted(w: Behaviour)
    ensures After(1, EMPTY, PoisingRun(w)[..2]) ==
      EMPTY.(fibers := [DONOR_WAITING, TAKER_WAITING], mounted := [0, 1], pending := [0, 1])
  {
    var s1 := Host(w, 1, EMPTY, PoisingRun(w)[0].step).state;
    assert PoisingRun(w)[..2][1..] == [PoisingRun(w)[1]];
    assert s1.mounted == [0] && s1.fibers == [DONOR_WAITING];
    assert "donor" != "taker" by { assert "donor"[0] != "taker"[0]; }
    assert !EntryTaken(s1, "taker");
    assert After(1, s1, [PoisingRun(w)[1]]) == Host(w, 1, s1, PoisingRun(w)[1].step).state;
  }

  lemma {:induction false} DonorLoads(w: Behaviour, s: State)
    requires s == EMPTY.(fibers := [DONOR_WAITING, TAKER_WAITING], mounted := [0, 1])
    requires forall t :: w(0, t) == Script(Returns, [], Returns)
    ensures Refresh(w, s, 0).Done? && Refresh(w, s, 0).state == Poised(Refresh(w, s, 0).state.log)
  {
    assert ComputeEpoch(s, 0) == Live([]);
    var s1 := SetEpoch(s, 0, Live([]), Bindings(s, 0));
    var b := BeginApply(SetPhase(s1, 0, Loading), 0);
    assert RunActions(b, 0, []) == Ok(b);
    assert Bindings(s, 0) == [] && b.fibers[0].bound == [];
    assert Load(w, s1, 0) == Done(SetPhase(b, 0, Active));
  }

  lemma {:induction false} TakerWaits(w: Behaviour, log: seq<Mark>)
    ensures Refresh(w, Poised(log), 1) == Done(Poised(log))
  {
    var s := Poised(log);
    assert Bindings(s, 1)[0] == None;
    assert ComputeEpoch(s, 1) == Inactive;
  }

  lemma {:induction false} TwoSettle(w: Behaviour, s: State)
    requires s == EMPTY.(fibers := [DONOR_WAITING, TAKER_WAITING], mounted := [0, 1], pending := [0, 1])
    requires forall t :: w(0, t) == Script(Returns, [], Returns)
    ensures var r := Settle(w, s, 1);
      r.Done? && r.state == Poised(r.state.log)
  {
    hide Refresh, Dedup, Poised;
    var s0 := s.(pending := []);
    var q: seq<Uid> := [0, 1];
    assert s.pending == q && NoDup(q);
    DedupIsIdentity(q);
    DonorLoads(w, s0);
    var t := Refresh(w, s0, 0).state;
    PoisedSize(t.log);
    TakerWaits(w, t.log);
    assert q[1..] == [1] && [1][1..] == [];
    assert RunBatch(w, t, [1]) == RunBatch(w, t, []);
    assert RunBatch(w, s0, q) == Done(t);
    assert Settle(w, s, 1) == Settle(w, t, 0);
  }

  lemma {:induction false} PoisedSize(log: seq<Mark>)
    ensures |Poised(log).fibers| == 2 && Poised(log).pending == []
  {
  }

  /** A run of three calls, none of them a provide, of which the first two return. */
  lemma {:induction false} ThreeCalls(w: Behaviour, run: seq<Call>, a: HostStep, b: HostStep, c: HostStep)
    requires run == [Call(w, a), Call(w, b), Call(w, c)] && !a.HostProvide? && !b.HostProvide? && !c.HostProvide?
    requires Host(w, 1, EMPTY, a).Done? && Host(w, 1, Host(w, 1, EMPTY, a).state, b).Done?
    ensures var s2 := Host(w, 1, Host(w, 1, EMPTY, a).state, b).state;
      && After(1, EMPTY, run[..2]) == s2
      && (Host(w, 1, s2, c).Done? ==> Exec(1, EMPTY, run) == Host(w, 1, s2, c))
    ensures Orderly(1, EMPTY, run)
  {
    hide Host;
    var s1 := Host(w, 1, EMPTY, a).state;
    var s2 := Host(w, 1, s1, b).state;
    var s3 := Host(w, 1, s2, c).state;
    assert run[..2][1..] == [Call(w, b)] && [Call(w, b)][1..] == [];
    assert After(1, s1, [Call(w, b)]) == After(1, s2, []);
    assert run[1..] == [Call(w, b), Call(w, c)] && run[1..][1..] == [Call(w, c)] && [Call(w, c)][1..] == [];
    if Host(w, 1, s2, c).Done? {
      assert Exec(1, s2, [Call(w, c)]) == Exec(1, s3, []);
      assert Exec(1, s1, run[1..]) == Exec(1, s2, [Call(w, c)]);
      assert Exec(1, EMPTY, run) == Exec(1, s1, run[1..]);
    }
    assert Orderly(1, s3, []) && Orderly(1, s2, [Call(w, c)]) && Orderly(1, s1, run[1..]);
  }

  /** Whatever becomes of the taker, the run ends poised, and it is orderly. */
  lemma {:induction false} RunPoises(ending: Ending)
    ensures var r := Exec(1, EMPTY, PoisingRun(TakerEnds(ending)));
      r.Done? && r.state == Poised(r.state.log) && Orderly(1, EMPTY, PoisingRun(TakerEnds(ending)))
  {
    var w := TakerEnds(ending);
    assert forall t :: w(0, t) == Script(Returns, [], Returns);
    hide Settle, Poised, TakerEnds, MountStep, Smooth, Exec, After, Orderly;
    ThreeCalls(
      w, PoisingRun(w), HostMount("donor", DONOR, {}), HostMount("taker", TAKER, {}), HostSettle);
    TwoMounted(w);
    TwoSettle(w, After(1, EMPTY, PoisingRun(w)[..2]));
  }

  lemma {:induction false} PoisedHealthy(ending: Ending)
    ensures var s := Exec(1, EMPTY, PoisingRun(TakerEnds(ending))).state;
      Steady(s, {}, []) && Own(s, {}) && s == After(1, EMPTY, PoisingRun(TakerEnds(ending)))
  {
    hide Exec, Orderly, Steady, Own, After, PoisingRun, TakerEnds;
    var w := TakerEnds(ending);
    RunPoises(ending);
    EmptyHealthy();
    EmptySteady();
    AfterHealthy(1, EMPTY, PoisingRun(w));
    ExecIsAfter(1, EMPTY, PoisingRun(w));
    ExecSteady(1, EMPTY, PoisingRun(w));
  }

  lemma {:induction false} TakerStirs(s: State)
    requires s == Poised(s.log)
    ensures Accepted(s, 0, 0, "db") && !Unstirred(s, 0, 0, "db")
    ensures forall v :: v in Woken(s, s.mounted, "db") ==> v == 1
    ensures forall v :: v in s.mounted ==> !s.fibers[v].restart
    ensures s.pending == []
  {
    var t := Published(s, 0, 0, "db");
    assert Declares(s, 1, "db") && !Declares(s, 0, "db");
    assert 1 in Woken(s, s.mounted, "db");
    assert Bindings(t, 1)[0].Some?;
    assert ComputeEpoch(t, 1).Live?;
    assert !Calm(t, 1);
  }

  // ---- the run that leaks ------------------------------------------------------------------------------

  /** The host provides "db" for the donor, the waiting taker aborts, and the registration outlives even
      Root.dispose. */
  lemma {:induction false} LeakingRunLeaks()
    ensures var s := Exec(1, EMPTY, PoisingRun(TakerEnds(Aborts))).state;
      var t := Host(TakerEnds(Aborts), 1, s, HostProvide(0, 0, "db"));
      t.Aborted? && !WellOwned(t.state) && RootDispose(t.state).store.impls != map[]
  {
    hide Exec, Orderly, Steady, Own, Settle, WellOwned, After, Unstirred, Woken, RootDispose, PoisingRun;
    var w := TakerEnds(Aborts);
    var s := Exec(1, EMPTY, PoisingRun(w)).state;
    RunPoises(Aborts);
    PoisedHealthy(Aborts);
    TakerStirs(s);
    StirredProvideAborts(w, s, 0, 0, "db", 1);
    AbortedProvideLeaks(w, s, 0, 0, "db", 1);
  }

  /** Whenever the settle of a host provide aborts, the registration is there to stay. */
  lemma {:induction false} AbortedProvideLeaks(w: Behaviour, s: State, u: Uid, r: RealmId, name: Name, rounds: nat)
    requires Steady(s, {}, []) && Own(s, {}) && Accepted(s, u, r, name) && Woken(s, s.mounted, name) != []
    requires Settle(w, Published(s, u, r, name), rounds).Aborted?
    ensures var t := Host(w, rounds, s, HostProvide(u, r, name));
      t.Aborted? && !WellOwned(t.state) && IsLive(RootDispose(t.state).store, NewImpl(s, u, r, name))
  {
    hide Steady, Own, Settle, WellOwned, RootDispose, Kept, Lost, InStep, Serialized;
    var p := Published(s, u, r, name);
    var i := NewImpl(s, u, r, name);
    PublishedOwned(s, u, r, name, {});
    SettleOwned(|s.log|, w, p, rounds, {}, {i});
    SettleSteady(w, p, rounds, {});
    var t := Settle(w, p, rounds).state;
    SpareIsOrphaned(t, i);
    OrphanNotOwned(t, i);
    ResumableSteady(Settle(w, p, rounds), {});
    var y :| Steady(t, y, []);
    SteadySerialized(t, y);
    OrphansOutliveRoot(t, i);
  }

  lemma {:induction false} SteadySerialized(s: State, x: set<Uid>)
    requires Steady(s, x, [])
    ensures Serialized(s.store)
  {
  }

  // ---- the run that does not ----------------------------------------------------------------------------

  lemma {:induction false} TakerLoads(s: State)
    requires s == Published(Poised(s.log), 0, 0, "db").(pending := [])
    ensures var r := Refresh(TakerEnds(Returns), s, 1);
      && r.Done? && r.state.pending == [] && |r.state.fibers| == 2 && r.state.fibers[0] == s.fibers[0]
      && |r.state.log| == |s.log| + 1 && s.log <= r.state.log && r.state.log[|s.log|].Start?
        && r.state.log[|s.log|].who == 1
  {
    var w := TakerEnds(Returns);
    assert Bindings(s, 1)[0].Some?;
    assert ComputeEpoch(s, 1).Live?;
    var s1 := SetEpoch(s, 1, ComputeEpoch(s, 1), Bindings(s, 1));
    var b := BeginApply(SetPhase(s1, 1, Loading), 1);
    assert RunActions(b, 1, []) == Ok(b);
    assert Load(w, s1, 1) == Done(SetPhase(b, 1, Active));
  }

  lemma {:induction false} TakerSettles(s: State)
    requires s == Poised(s.log)
    ensures Smooth(TakerEnds(Returns), 1, s, 0, 0, "db")
  {
    var w := TakerEnds(Returns);
    var p := Published(s, 0, 0, "db");
    var q: seq<Uid> := [1];
    var s2 := s.(store := p.store);
    assert p.pending == q by {
      var us: seq<Uid> := [0, 1];
      assert s.mounted == us && us[1..] == q && q[1..] == [];
      assert !Declares(s2, 0, "db") && Declares(s2, 1, "db");
      assert Woken(s2, q, "db") == q + Woken(s2, [], "db");
      assert Woken(s2, us, "db") == Woken(s2, q, "db");
    }
    assert NoDup(q);
    DedupIsIdentity(q);
    hide Refresh, TakerEnds, Dedup;
    TakerLoads(p.(pending := []));
    var t := Refresh(w, p.(pending := []), 1).state;
    assert q[1..] == [];
    assert RunBatch(w, p.(pending := []), q) == RunBatch(w, t, []);
    assert Settle(w, p, 1) == Settle(w, t, 0);
  }

  /** The same calls with a taker that loads: the run is orderly, so it stays owned, its loads are calm,
      and Root.dispose clears it. */
  lemma {:induction false} ServingRunIsOrderly()
    ensures Orderly(1, EMPTY, PoisingRun(TakerEnds(Returns)) + [Call(TakerEnds(Returns), HostProvide(0, 0, "db"))])
  {
    hide TakerEnds, Smooth, Host, Poised;
    var w := TakerEnds(Returns);
    RunPoises(Returns);
    PoisedHealthy(Returns);
    TakerSettles(After(1, EMPTY, PoisingRun(w)));
    OrderlySnoc(1, EMPTY, PoisingRun(w), Call(w, HostProvide(0, 0, "db")));
  }

  lemma {:induction false} OrderlySnoc(rounds: nat, s: State, run: seq<Call>, c: Call)
    requires Orderly(rounds, s, run) && SmoothCall(c.plugins, rounds, After(rounds, s, run), c.step)
    ensures Orderly(rounds, s, run + [c])
    decreases |run|
  {
    if run == [] {
      assert ([] + [c])[1..] == [];
    } else {
      assert (run + [c])[1..] == run[1..] + [c];
      OrderlySnoc(rounds, Host(run[0].plugins, rounds, s, run[0].step).state, run[1..], c);
    }
  }
}
