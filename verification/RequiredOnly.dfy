/** Compositions without optional injections: every row loads at most once, and as many rounds as
    there are rows, plus one, always suffice, cycles included. */
module RequiredOnly {
  import opened Lists
  import opened Registry
  import opened Runtime
  import opened Teardown
  import opened Currency
  import opened Settling
  import opened Ownership
  import opened Rows
  import opened FlatSteps
  import opened Convergence
  import opened FixedPoints

  ghost predicate NoOptional(rows: seq<Row>) {
    forall u: Uid :: u < |rows| ==> rows[u].decl.optional == []
  }

  /** How many rows are still PENDING. */
  function Waiting(fs: seq<Fiber>): (n: nat)
    ensures n <= |fs|
  {
    if fs == [] then 0 else (if fs[0].phase == Pending then 1 else 0) + Waiting(fs[1..])
  }

  /** How often the apply of u started. */
  function Starts(log: seq<Mark>, u: Uid): (n: nat) {
    if log == [] then 0
    else (if log[|log| - 1].Start? && log[|log| - 1].who == u then 1 else 0) + Starts(log[..|log| - 1], u)
  }

  lemma {:induction false} WaitingLess(fs: seq<Fiber>, u: nat, f: Fiber)
    requires u < |fs| && fs[u].phase == Pending && f.phase != Pending
    ensures Waiting(fs[u := f]) < Waiting(fs)
  {
    if u != 0 {
      assert fs[u := f][1..] == fs[1..][u - 1 := f];
      WaitingLess(fs[1..], u - 1, f);
    } else {
      assert fs[u := f][1..] == fs[1..];
    }
  }

  // ---- what a load logs ------------------------------------------------------------------------

  lemma {:induction false} RanStartsNothing(log: seq<Mark>, log': seq<Mark>, u: Uid)
    requires OnlyRan(log, log')
    ensures Starts(log', u) == Starts(log, u)
    decreases |log'|
  {
    if |log'| > |log| {
      assert log'[|log'| - 1].Ran?;
      RanStartsNothing(log, log'[..|log'| - 1], u);
    } else {
      assert log' == log;
    }
  }

  /** A load starts its row's apply at most once and no other. */
  ghost predicate StartsOnce(log: seq<Mark>, log': seq<Mark>, u: Uid) {
    forall v :: Starts(log', v) <= Starts(log, v) + (if v == u then 1 else 0)
  }

  lemma {:induction false} StartedLog(s: State, u: Uid, log': seq<Mark>)
    requires u < |s.fibers| && OnlyRan(Started(s, u).log, log')
    ensures StartsOnce(s.log, log', u)
  {
    var b := Started(s, u);
    assert b.log[..|s.log|] == s.log;
    forall v ensures Starts(log', v) <= Starts(s.log, v) + (if v == u then 1 else 0) {
      RanStartsNothing(b.log, log', v);
    }
  }

  lemma {:induction false} LoadLog(rows: seq<Row>, s: State, u: Uid, x: set<Uid>, q: seq<Uid>)
    requires Flat(rows, s, {u}) && u < |rows| && rows[u].Fed(Seen(s, u))
    requires Own(s, {}) && Core(s, {u}, x, q) && Rest(s, {u})
    requires s.fibers[u].phase == Pending && s.fibers[u].epoch.Live? && Lapsed(s, u)
    ensures StartsOnce(s.log, Load(RowBehaviour(rows), s, u).state.log, u)
  {
    hide Own, Core, Flat, OnlyRow, Lapsed, Starts, Applying;
    RowAt(rows, s, u);
    var seen := Seen(s, u);
    var s1 := SetPhase(s, u, Loading);
    assert Seen(s1, u) == seen;
    assert RowBehaviour(rows)(u, s1) == RowScript(rows[u], u, s.fibers[u].realm, seen);
    if rows[u].configOk {
      StartFlat(rows, s, u, x, q);
      var b := Started(s, u);
      RowAt(rows, b, u);
      ApplyFlat(rows, b, u, seen, x, q);
      var t := RunActions(b, u, GiveActions(u, b.fibers[u].realm, rows[u].gives(seen))).state;
      DiscardLogs(t, u);
      StartedLog(s, u, Load(RowBehaviour(rows), s, u).state.log);
    }
  }

  // ---- an ACTIVE row never reloads ---------------------------------------------------------------

  /** Every ACTIVE row carries the epoch it computes to, queued or not. */
  ghost predicate AlwaysCurrent(s: State) {
    forall v: Uid :: v < |s.fibers| && s.fibers[v].phase == Active ==> s.fibers[v].epoch == ComputeEpoch(s, v)
  }

  /** Either nothing changed, or the PENDING row u loaded, for the first time. */
  ghost predicate LoadedOnce(s: State, t: State, u: Uid) {
    t == s ||
    (&& u < |s.fibers| == |t.fibers| && s.fibers[u].phase == Pending && t.fibers[u].phase != Pending
     && (forall v: Uid :: v < |s.fibers| && v != u ==> t.fibers[v] == s.fibers[v])
     && StartsOnce(s.log, t.log, u))
  }

  /** Without optional injections, a fed row keeps its epoch while a row that serves nothing yet loads. */
  lemma {:induction false} EpochStays(rows: seq<Row>, s: State, t: State, u: Uid, v: Uid)
    requires NoOptional(rows) && Flat(rows, s, {}) && u < |rows| && v < |rows| && s.fibers[u].phase != Active
    requires rows[v].Fed(Seen(s, v)) && OnlyRow(s, t, u)
    ensures ComputeEpoch(t, v) == ComputeEpoch(s, v)
  {
    forall n | n in s.fibers[v].decl.Names()
      ensures Resolve(t.store, s.fibers[v].realm, n) == Resolve(s.store, s.fibers[v].realm, n)
    {
      assert RowFixed(s.fibers[v], rows[v]);
      assert Backed(rows, s, SlotOf(s, v, n), {});
    }
    EpochAgree(s, t, v);
  }

  lemma {:induction false} RefreshOnce(rows: seq<Row>, s: State, u: Uid, q: seq<Uid>)
    requires NoOptional(rows) && Flat(rows, s, {}) && u < |rows| && Own(s, {}) && Steady(s, {u}, q)
    requires AlwaysCurrent(s)
    ensures var t := Refresh(RowBehaviour(rows), s, u).state;
      LoadedOnce(s, t, u) && AlwaysCurrent(t)
  {
    hide Own, UniqueGivers, Due;
    assert RowRight(rows, s, u) && RowFixed(s.fibers[u], rows[u]) && Sound(s.store, s.fibers[u], false);
    FedIffLive(rows, s, u);
    if s.fibers[u].phase == Pending && rows[u].Fed(Seen(s, u)) {
      FirstOnce(rows, s, u, q);
    }
  }

  lemma {:induction false} FirstOnce(rows: seq<Row>, s: State, u: Uid, q: seq<Uid>)
    requires NoOptional(rows) && Flat(rows, s, {}) && u < |rows| && Own(s, {}) && Steady(s, {u}, q)
    requires AlwaysCurrent(s) && s.fibers[u].phase == Pending
    requires rows[u].Fed(Seen(s, u)) && ComputeEpoch(s, u).Live?
    ensures var t := Load(RowBehaviour(rows), SetEpoch(s, u, ComputeEpoch(s, u), Bindings(s, u)), u).state;
      LoadedOnce(s, t, u) && AlwaysCurrent(t)
  {
    assert {} + {u} == {u};
    FirstLoadFlat(rows, s, u, {}, q);
    FirstLogs(rows, s, u, q);
    hide Own, Core, Rest, Load;
    var s1 := SetEpoch(s, u, ComputeEpoch(s, u), Bindings(s, u));
    var t := Load(RowBehaviour(rows), s1, u).state;
    StillCurrent(rows, s, s1, t, u);
  }

  lemma {:induction false} FirstLogs(rows: seq<Row>, s: State, u: Uid, q: seq<Uid>)
    requires Flat(rows, s, {}) && u < |rows| && Own(s, {}) && Steady(s, {u}, q)
    requires s.fibers[u].phase == Pending && rows[u].Fed(Seen(s, u)) && ComputeEpoch(s, u).Live?
    ensures var s1 := SetEpoch(s, u, ComputeEpoch(s, u), Bindings(s, u));
      StartsOnce(s.log, Load(RowBehaviour(rows), s1, u).state.log, u)
  {
    var s1 := SetEpoch(s, u, ComputeEpoch(s, u), Bindings(s, u));
    assert {} + {u} == {u};
    EpochSet(s, u, {}, q);
    PutOwn(s, u, s1.fibers[u], {});
    SetEpochFlat(rows, s, u, ComputeEpoch(s, u), Bindings(s, u));
    FlatBusy(rows, s1, u);
    hide Own, Core, Flat, Load, Starts;
    LoadLog(rows, s1, u, {u}, q);
  }

  lemma {:induction false} StillCurrent(rows: seq<Row>, s: State, s1: State, t: State, u: Uid)
    requires NoOptional(rows) && Flat(rows, s, {}) && u < |rows| && AlwaysCurrent(s) && s.fibers[u].phase == Pending
    requires rows[u].Fed(Seen(s, u)) && ComputeEpoch(s, u).Live?
    requires s1 == SetEpoch(s, u, ComputeEpoch(s, u), Bindings(s, u)) && OnlyRow(s, t, u)
    requires t.fibers[u].phase == Active ==> t.fibers[u].epoch == s1.fibers[u].epoch
    requires forall v: Uid :: v < |rows| && s.fibers[v].phase == Active ==> s.fibers[v].epoch.Live?
    ensures AlwaysCurrent(t)
  {
    forall v: Uid | v < |rows| && t.fibers[v].phase == Active ensures t.fibers[v].epoch == ComputeEpoch(t, v) {
      assert RowFixed(s.fibers[v], rows[v]);
      FedIffLive(rows, s, v);
      EpochStays(rows, s, t, u, v);
    }
  }

  // ---- rounds ------------------------------------------------------------------------------------

  /** Running, and every row has started at most once, PENDING ones never. */
  ghost predicate Counted(rows: seq<Row>, s: State) {
    && AlwaysCurrent(s) && |s.fibers| == |rows|
    && forall u: Uid :: u < |rows| ==> Starts(s.log, u) <= if s.fibers[u].phase == Pending then 0 else 1
  }

  lemma {:induction false} CountedStep(rows: seq<Row>, s: State, t: State, u: Uid)
    requires Counted(rows, s) && LoadedOnce(s, t, u) && AlwaysCurrent(t)
    ensures Counted(rows, t) && (t == s || Waiting(t.fibers) < Waiting(s.fibers))
  {
    hide Starts, Waiting;
    if t != s {
      assert t.fibers == s.fibers[u := t.fibers[u]];
      WaitingLess(s.fibers, u, t.fibers[u]);
      forall v: Uid | v < |rows| ensures Starts(t.log, v) <= if t.fibers[v].phase == Pending then 0 else 1 {
        assert Starts(t.log, v) <= Starts(s.log, v) + (if v == u then 1 else 0);
      }
    }
  }

  /** A batch changes nothing or loads a row. */
  ghost predicate Progress(rows: seq<Row>, s: State, r: Result) {
    && r.Done? && Running(rows, r.state, (fs, g) => true) && Steady(r.state, {}, []) && Counted(rows, r.state)
    && (r.state == s || Waiting(r.state.fibers) < Waiting(s.fibers))
  }

  lemma {:induction false} BatchProgress(rows: seq<Row>, s: State, batch: seq<Uid>)
    requires NoOptional(rows) && Running(rows, s, (fs, g) => true) && Steady(s, {}, batch)
    requires Uids(s, batch) && Counted(rows, s)
    ensures Progress(rows, s, RunBatch(RowBehaviour(rows), s, batch))
    decreases |batch|
  {
    Anything(rows);
    hide Own, Core, Flat, KeysMatch, AlwaysCurrent, Waiting, Starts, Refresh, Upheld;
    if batch != [] {
      var u, rest := batch[0], batch[1..];
      assert u in batch && forall v :: v in rest ==> v in batch;
      TakeHead(s, {}, batch);
      assert {} + {u} == {u};
      RefreshRunning(rows, s, u, (fs, g) => true, rest);
      RefreshOnce(rows, s, u, rest);
      var t := Refresh(RowBehaviour(rows), s, u).state;
      CountedStep(rows, s, t, u);
      BatchProgress(rows, t, rest);
    }
  }

  lemma {:induction false} RoundProgress(rows: seq<Row>, s: State)
    requires NoOptional(rows) && Running(rows, s, (fs, g) => true) && Steady(s, {}, []) && Counted(rows, s)
    ensures Uids(s, s.pending) && Uids(s.(pending := []), Dedup(s.pending))
    ensures Progress(rows, s.(pending := []), RunBatch(RowBehaviour(rows), s.(pending := []), Dedup(s.pending)))
  {
    hide Running, Sound, Due;
    Requeue(s, {}, [], [], Dedup(s.pending));
    RunningIgnoresQueue(rows, s, [], (fs, g) => true);
    var s0 := s.(pending := []);
    forall v: Uid | v < |s0.fibers| && s0.fibers[v].phase == Active ensures s0.fibers[v].epoch == ComputeEpoch(s0, v) {
      EpochAgree(s, s0, v);
    }
    BatchProgress(rows, s0, Dedup(s.pending));
  }

  lemma {:induction false} SettleCounted(rows: seq<Row>, w: Behaviour, s: State, rounds: nat)
    requires w == RowBehaviour(rows)
    requires NoOptional(rows) && Running(rows, s, (fs, g) => true) && Steady(s, {}, []) && Counted(rows, s)
    requires rounds > Waiting(s.fibers) || s.pending == []
    ensures Settle(w, s, rounds).Done? && Counted(rows, Settle(w, s, rounds).state)
    decreases rounds
  {
    hide *;
    if s.pending == [] {
      SettleIdle(w, s, rounds);
    } else {
      RoundProgress(rows, s);
      var r := RunBatch(w, s.(pending := []), Dedup(s.pending));
      ProgressMade(rows, s.(pending := []), r);
      SettleRound(w, s, rounds, r.state);
      SettleCounted(rows, w, r.state, rounds - 1);
    }
  }

  lemma {:induction false} ProgressMade(rows: seq<Row>, s: State, r: Result)
    requires Progress(rows, s, r) && s.pending == []
    ensures r.Done? && Running(rows, r.state, (fs, g) => true) && Steady(r.state, {}, []) && Counted(rows, r.state)
    ensures r.state.pending == [] || Waiting(r.state.fibers) < Waiting(s.fibers)
  {
  }

  lemma {:induction false} FreshCounted(rows: seq<Row>)
    requires Composed(rows)
    ensures Counted(rows, MountRows(rows))
  {
    MountFresh(rows);
    var s := MountRows(rows);
    assert forall u: Uid :: u < |rows| ==> FreshFiber(s, rows[u], s.fibers[u]);
  }

  lemma {:induction false} FreshRunning(rows: seq<Row>)
    requires Composed(rows)
    ensures Running(rows, MountRows(rows), (fs, g) => true) && Steady(MountRows(rows), {}, [])
  {
    MountFresh(rows);
    FreshFlat(rows, MountRows(rows));
  }

  /** A fed row without optional injections sees all its names: it is monotone, whatever it does. */
  lemma {:induction false} RequiredMonotone(rows: seq<Row>)
    requires NoOptional(rows)
    ensures AllMonotone(rows)
  {
    forall u: Uid | u < |rows| ensures rows[u].Monotone() {
      var row := rows[u];
      assert row.decl.Names() == row.decl.inject;
      forall p, q | row.Fed(p) && p <= q <= row.NameSet() ensures p == q { }
    }
  }

  /** Main result: with required injections only, over any dependency graph, a fresh composition of n
      rows settles within n + 1 rounds at the least fixed point, and starts every row's apply at most
      once on the way. */
  lemma {:induction false} LoadsAtMostOnce(rows: seq<Row>, rounds: nat)
    requires Composed(rows) && NoOptional(rows) && rounds > |rows|
    ensures Boot(rows, rounds).Done?
    ensures forall u: Uid :: u < |rows| ==> Starts(Boot(rows, rounds).state.log, u) <= 1
    ensures var s := Boot(rows, rounds).state;
      Least(RowSet(rows), Servings(rows, s.fibers)) && Verdict(rows, s, Servings(rows, s.fibers))
  {
    hide Settle, MountRows, Running, Steady, Least, Verdict, Waiting, Starts, AlwaysCurrent, Composed, NoOptional;
    FreshRunning(rows);
    FreshCounted(rows);
    SettleCounted(rows, RowBehaviour(rows), MountRows(rows), rounds);
    RequiredMonotone(rows);
    SettlesAtLeastFixedPoint(rows, rounds);
  }

  // ---- deadlock ------------------------------------------------------------------------------------

  /** Each row of c needs some service only rows of c may give. */
  ghost predicate Deadlocked(all: set<Row>, c: set<Row>) {
    c <= all && forall row :: row in c ==> exists n :: n in row.decl.inject && OnlyWithin(all, c, row, n)
  }

  ghost predicate OnlyWithin(all: set<Row>, c: set<Row>, row: Row, n: Name) {
    forall g :: g in all && n in g.may && KeyOf(g, n) == KeyOf(row, n) ==> g in c
  }

  ghost predicate AllPending(rows: seq<Row>, c: set<Row>, fs: seq<Fiber>) {
    forall u: Uid :: u < |rows| && u < |fs| && rows[u] in c ==> fs[u].phase == Pending
  }

  lemma {:induction false} DeadlockUpheld(rows: seq<Row>, c: set<Row>)
    requires Distinct(rows) && Deadlocked(RowSet(rows), c)
    ensures Upheld(rows, (fs, g) => AllPending(rows, c, fs))
  {
    forall s: State, r: Result, u: Uid |
      Flat(rows, s, {}) && KeysMatch(rows, s) && AllPending(rows, c, s.fibers) && u < |rows|
      && RowRefreshed(rows, s, r, u)
      ensures AllPending(rows, c, r.state.fibers)
    {
      if rows[u] in c { DeadlockStep(rows, c, s, u); }
      forall v: Uid | v < |rows| && rows[v] in c ensures r.state.fibers[v].phase == Pending {
        if v != u { assert r.state.fibers[v] == s.fibers[v]; }
      }
    }
  }

  /** Nobody serves the name a deadlocked row waits for. */
  lemma {:induction false} DeadlockStep(rows: seq<Row>, c: set<Row>, s: State, u: Uid)
    requires Distinct(rows) && Deadlocked(RowSet(rows), c) && Flat(rows, s, {}) && KeysMatch(rows, s)
    requires AllPending(rows, c, s.fibers) && u < |rows| && rows[u] in c
    ensures !rows[u].Fed(Outer(s, u))
  {
    var n :| n in rows[u].decl.inject && OnlyWithin(RowSet(rows), c, rows[u], n);
    assert forall v: Uid :: v < |rows| ==> rows[v] in RowSet(rows);
    if n in Outer(s, u) {
      SlotSupplied(rows, s, u, n);
      var o := s.store.impls[SlotOf(s, u, n)].owner;
      OffersGiven(rows, s, o, n);
    }
  }

  /** Rows that wait for each other, a dependency cycle say, stay PENDING for good, whatever they and the others
      would do, and whether or not the others settle. */
  lemma {:induction false} CyclesStayPending(rows: seq<Row>, rounds: nat, c: set<Row>, u: Uid)
    requires Composed(rows) && Deadlocked(RowSet(rows), c) && u < |rows| && rows[u] in c
    ensures |Boot(rows, rounds).state.fibers| == |rows| && Boot(rows, rounds).state.fibers[u].phase == Pending
  {
    ComposedDistinct(rows);
    DeadlockUpheld(rows, c);
    FreshPending(rows);
    BootUpholds(rows, rounds, (fs, g) => AllPending(rows, c, fs));
  }
}
