/** When row order carries no load semantics, and exactly when it does. */
module MountOrder {
  import opened Lists
  import opened Registry
  import opened Runtime
  import opened Currency
  import opened Settling
  import opened Ownership
  import opened Rows
  import opened FlatSteps
  import opened Convergence
  import opened FixedPoints

  // ---- one answer per composition --------------------------------------------------------------------

  /** Along a ranking, two consistent sets of servings agree row by row. */
  lemma {:induction false} ConsistentBelow(
    rows: seq<Row>, rank: seq<nat>, depth: nat, a: set<Serving>, a': set<Serving>, l: Serving, u: Uid)
    requires RankedByKey(rows, rank, depth) && Consistent(RowSet(rows), a) && Consistent(RowSet(rows), a')
    requires Composed(rows) && u < |rows| && l in a && l.row == rows[u]
    ensures l in a'
    decreases rank[u]
  {
    hide Composed;
    forall n | n in l.row.decl.Names() ensures n in View(a, l.row) <==> n in View(a', l.row) {
      if m :| m in a && m.row != l.row && SuppliedBy(m, l.row, n) {
        var v := SupplierBelow(rows, rank, depth, a, m, u, n);
        ConsistentBelow(rows, rank, depth, a, a', m, v);
      }
      if m :| m in a' && m.row != l.row && SuppliedBy(m, l.row, n) {
        var v := SupplierBelow(rows, rank, depth, a', m, u, n);
        ConsistentBelow(rows, rank, depth, a', a, m, v);
      }
    }
    assert View(a, l.row) == View(a', l.row);
  }

  lemma {:induction false} SupplierBelow(
    rows: seq<Row>, rank: seq<nat>, depth: nat, a: set<Serving>, m: Serving, u: Uid, n: Name) returns (v: Uid)
    requires RankedByKey(rows, rank, depth) && Composed(rows) && Consistent(RowSet(rows), a) && m in a && u < |rows|
    requires n in rows[u].decl.Names() && SuppliedBy(m, rows[u], n)
    ensures v < |rows| && rows[v] == m.row && rank[v] < rank[u]
  {
    v :| 0 <= v < |rows| && rows[v] == m.row;
    assert rows[v].WellFormed();
  }

  /** Rows without a cycle have one consistent set of servings. */
  lemma {:induction false} ConsistentUnique(
    rows: seq<Row>, rank: seq<nat>, depth: nat, a: set<Serving>, a': set<Serving>)
    requires RankedByKey(rows, rank, depth) && Composed(rows)
    requires Consistent(RowSet(rows), a) && Consistent(RowSet(rows), a')
    ensures a == a'
  {
    forall l | l in a ensures l in a' {
      var u: Uid :| 0 <= u < |rows| && rows[u] == l.row;
      ConsistentBelow(rows, rank, depth, a, a', l, u);
    }
    forall l | l in a' ensures l in a {
      var u: Uid :| 0 <= u < |rows| && rows[u] == l.row;
      ConsistentBelow(rows, rank, depth, a', a, l, u);
    }
  }

  // ---- when the order is irrelevant --------------------------------------------------------------------

  /** Two settled trees tell the same story about a row: whether it is ACTIVE and on which services it runs,
      and for each name the row that provides it. */
  ghost predicate Agree(rows: seq<Row>, s: State, u: Uid, rows': seq<Row>, s': State, v: Uid)
    requires u < |rows| == |s.fibers| && v < |rows'| == |s'.fibers|
  {
    && (s.fibers[u].phase == Active <==> s'.fibers[v].phase == Active)
    && (s.fibers[u].phase == Active ==> Saw(s.fibers[u]) == Saw(s'.fibers[v]))
    && forall n ::
         var p, p' := Resolve(s.store, s.fibers[u].realm, n), Resolve(s'.store, s'.fibers[v].realm, n);
         && (p.None? <==> p'.None?)
         && (p.Some? ==>
           p.value.owner < |rows| && p'.value.owner < |rows'| && rows[p.value.owner] == rows'[p'.value.owner])
  }

  lemma {:induction false} ProviderUnique(rows: seq<Row>, l: Serving, m: Serving, row: Row, n: Name)
    requires Composed(rows) && l.row in RowSet(rows) && m.row in RowSet(rows)
    requires SuppliedBy(l, row, n) && SuppliedBy(m, row, n)
    ensures l.row == m.row
  {
    var u: Uid :| 0 <= u < |rows| && rows[u] == l.row;
    var v: Uid :| 0 <= v < |rows| && rows[v] == m.row;
    assert rows[u].WellFormed() && rows[v].WellFormed();
    assert KeyOf(rows[u], n) == KeyOf(rows[v], n);
  }

  /** Trees with the same servings agree. */
  lemma {:induction false} VerdictsAgree(
    rows: seq<Row>, s: State, u: Uid, rows': seq<Row>, s': State, v: Uid, a: set<Serving>)
    requires Composed(rows) && Composed(rows') && RowSet(rows) == RowSet(rows') && Consistent(RowSet(rows), a)
    requires Verdict(rows, s, a) && Verdict(rows', s', a)
    requires a == Servings(rows, s.fibers) && a == Servings(rows', s'.fibers)
    requires u < |rows| && v < |rows'| && rows[u] == rows'[v]
    ensures Agree(rows, s, u, rows', s', v)
  {
    assert RowVerdict(rows[u], s.fibers[u].phase, a) && RowVerdict(rows'[v], s'.fibers[v].phase, a);
    if s.fibers[u].phase == Active {
      assert Serving(rows[u], Saw(s.fibers[u])) in a && Serving(rows'[v], Saw(s'.fibers[v])) in a;
    }
    forall n
      ensures var p, p' := Resolve(s.store, s.fibers[u].realm, n), Resolve(s'.store, s'.fibers[v].realm, n);
        && (p.None? <==> p'.None?)
        && (p.Some? ==>
          p.value.owner < |rows| && p'.value.owner < |rows'| && rows[p.value.owner] == rows'[p'.value.owner])
    {
      assert NameVerdict(rows, s, u, n, a) && NameVerdict(rows', s', v, n, a);
      var p, p' := Resolve(s.store, s.fibers[u].realm, n), Resolve(s'.store, s'.fibers[v].realm, n);
      if p.Some? && p'.Some? {
        var saw :| Serving(rows[p.value.owner], saw) in a && SuppliedBy(Serving(rows[p.value.owner], saw), rows[u], n);
        var saw' :| Serving(rows'[p'.value.owner], saw') in a
          && SuppliedBy(Serving(rows'[p'.value.owner], saw'), rows'[v], n);
        ProviderUnique(
          rows, Serving(rows[p.value.owner], saw), Serving(rows'[p'.value.owner], saw'), rows[u], n);
      }
    }
  }

  /** Main result: two compositions of the same steadfast rows without a dependency cycle, mounted in any two
      orders, settle to the same ACTIVE rows, running on the same names, and the same provider for every name,
      whatever the rows give on seeing what. */
  lemma {:induction false} MountOrderIrrelevant(
    rows: seq<Row>, rounds: nat, rows': seq<Row>, rounds': nat, rank: seq<nat>, depth: nat, u: Uid, v: Uid)
    requires Composed(rows) && Composed(rows') && RowSet(rows) == RowSet(rows')
    requires AllSteadfast(rows) && RankedByKey(rows, rank, depth)
    requires Boot(rows, rounds).Done? && Boot(rows', rounds').Done?
    requires u < |rows| && v < |rows'| && rows[u] == rows'[v]
    ensures |Boot(rows, rounds).state.fibers| == |rows| && |Boot(rows', rounds').state.fibers| == |rows'|
    ensures Agree(rows, Boot(rows, rounds).state, u, rows', Boot(rows', rounds').state, v)
  {
    var s, s' := Boot(rows, rounds).state, Boot(rows', rounds').state;
    SteadfastToo(rows, rows');
    SettlesConsistently(rows, rounds);
    SettlesConsistently(rows', rounds');
    hide Composed, Boot, Consistent, AllSteadfast, Verdict, RankedByKey, Servings, Agree;
    ConsistentUnique(rows, rank, depth, Servings(rows, s.fibers), Servings(rows', s'.fibers));
    VerdictSize(rows, s, Servings(rows, s.fibers));
    VerdictSize(rows', s', Servings(rows, s.fibers));
    VerdictsAgree(rows, s, u, rows', s', v, Servings(rows, s.fibers));
  }

  lemma {:induction false} SteadfastToo(rows: seq<Row>, rows': seq<Row>)
    requires AllSteadfast(rows) && RowSet(rows) == RowSet(rows')
    ensures AllSteadfast(rows')
  {
    forall v: Uid | v < |rows'| ensures rows'[v].Steadfast() {
      assert rows'[v] in RowSet(rows');
    }
  }

  lemma {:induction false} VerdictSize(rows: seq<Row>, s: State, a: set<Serving>)
    requires Verdict(rows, s, a)
    ensures |s.fibers| == |rows|
  {
  }

  /** Main result: for rows that never give less for seeing more this holds over any graph, cycles included, and
      of every phase. */
  lemma {:induction false} MonotoneOrderIrrelevant(
    rows: seq<Row>, rounds: nat, rows': seq<Row>, rounds': nat, u: Uid, v: Uid)
    requires Composed(rows) && Composed(rows') && RowSet(rows) == RowSet(rows') && AllMonotone(rows)
    requires Boot(rows, rounds).Done? && Boot(rows', rounds').Done?
    requires u < |rows| && v < |rows'| && rows[u] == rows'[v]
    ensures var s, s' := Boot(rows, rounds).state, Boot(rows', rounds').state;
      && |s.fibers| == |rows| && |s'.fibers| == |rows'|
      && Agree(rows, s, u, rows', s', v) && s.fibers[u].phase == s'.fibers[v].phase
  {
    var s, s' := Boot(rows, rounds).state, Boot(rows', rounds').state;
    forall k: Uid | k < |rows'| ensures rows'[k].Monotone() { assert rows'[k] in RowSet(rows'); }
    SettlesAtLeastFixedPoint(rows, rounds);
    SettlesAtLeastFixedPoint(rows', rounds');
    LeastUnique(RowSet(rows), Servings(rows, s.fibers), Servings(rows', s'.fibers));
    hide Composed, Boot, AllMonotone, Servings, Agree, Consistent, Upper, Below;
    VerdictsAgree(rows, s, u, rows', s', v, Servings(rows, s.fibers));
  }

  // ---- the first round, turn by turn -----------------------------------------------------------------------

  /** The state after the first k rows had their first refresh. */
  function Turned(rows: seq<Row>, k: nat): (s: State)
    ensures |MountRows(rows).fibers| <= |s.fibers|
  {
    if k == 0 || |MountRows(rows).fibers| < k then MountRows(rows).(pending := [])
    else Refresh(RowBehaviour(rows), Turned(rows, k - 1), k - 1).state
  }

  /** Among the first k rows, nobody may supply its own or an earlier row's injections. */
  ghost predicate InOrder(rows: seq<Row>, k: nat) {
    forall u: Uid, v: Uid, n :: u <= v < k && v < |rows| && n in rows[u].decl.Names() && n in rows[v].may ==>
      KeyOf(rows[v], n) != KeyOf(rows[u], n)
  }

  /** Row u is as its view of the ACTIVE rows has it. */
  ghost predicate AsViewed(rows: seq<Row>, fs: seq<Fiber>, u: Uid)
    requires u < |rows| && u < |fs|
  {
    var view := View(Servings(rows, fs), rows[u]);
    fs[u].phase == rows[u].Outcome(view) && (fs[u].phase == Active ==> Saw(fs[u]) == view)
  }

  /** After k turns the first k rows are as viewed, and the others untouched. */
  ghost predicate TurnsTaken(rows: seq<Row>, fs: seq<Fiber>, k: nat) {
    && |fs| == |rows|
    && (forall u: Uid :: u < k && u < |rows| ==> AsViewed(rows, fs, u))
    && (forall u: Uid :: k <= u < |rows| ==> fs[u].phase == Pending)
  }

  function Upto(k: nat, n: nat): (us: seq<Uid>)
    requires k <= n
    ensures |us| == n - k && forall i :: 0 <= i < n - k ==> us[i] == k + i
  {
    seq(n - k, i => k + i)
  }

  /** Midway through the first batch. */
  ghost predicate Turning(rows: seq<Row>, s: State, k: nat) {
    && k <= |rows| && Uids(s, Upto(k, |rows|)) && Running(rows, s, (fs, g) => true) && Steady(s, {}, Upto(k, |rows|))
    && TurnsTaken(rows, s.fibers, k)
  }

  lemma {:induction false} FreshQueue(rows: seq<Row>)
    requires Composed(rows)
    ensures Dedup(MountRows(rows).pending) == Upto(0, |rows|) == MountRows(rows).pending
  {
    MountFresh(rows);
    hide MountRows;
    var us := MountRows(rows).pending;
    assert us == Upto(0, |rows|);
    assert NoDup(us);
    DedupIsIdentity(us);
  }

  lemma {:induction false} FirstTurn(rows: seq<Row>)
    requires Composed(rows)
    ensures Turning(rows, MountRows(rows).(pending := []), 0)
  {
    var s := MountRows(rows);
    MountFresh(rows);
    FreshQueue(rows);
    FreshFlat(rows, s);
    FreshPending(rows);
    hide MountRows, Flat, KeysMatch, Own, Sound, Due;
    RunningIgnoresQueue(rows, s, [], (fs, g) => true);
    Requeue(s, {}, [], [], Upto(0, |rows|));
  }

  /** Views agree when servings differ only by a row that supplies none of the names. */
  lemma {:induction false} ViewSame(a: set<Serving>, a': set<Serving>, other: Row, row: Row)
    requires forall l: Serving :: l.row != other ==> (l in a <==> l in a')
    requires row == other || forall l: Serving, n ::
      l.row == other && (l in a || l in a') && n in row.decl.Names() ==> !SuppliedBy(l, row, n)
    ensures View(a, row) == View(a', row)
  {
  }

  lemma {:induction false} ServingsElsewhere(rows: seq<Row>, fs: seq<Fiber>, fs': seq<Fiber>, u: Uid)
    requires Distinct(rows) && u < |rows| == |fs| == |fs'| && forall v: Uid :: v < |rows| && v != u ==> fs'[v] == fs[v]
    ensures forall l: Serving :: l.row != rows[u] ==> (l in Servings(rows, fs) <==> l in Servings(rows, fs'))
  {
    forall l: Serving | l.row != rows[u] ensures l in Servings(rows, fs) <==> l in Servings(rows, fs') {
      if l in Servings(rows, fs) {
        var v: Uid :| 0 <= v < |rows| && fs[v].phase == Active && l == Serving(rows[v], Saw(fs[v]));
        assert fs'[v] == fs[v];
      }
      if l in Servings(rows, fs') {
        var v: Uid :| 0 <= v < |rows| && fs'[v].phase == Active && l == Serving(rows[v], Saw(fs'[v]));
        assert fs'[v] == fs[v];
      }
    }
  }

  lemma {:induction false} TurnTaken(rows: seq<Row>, s: State, r: Result, k: nat)
    requires Composed(rows) && InOrder(rows, k + 1) && k < |rows| && Flat(rows, s, {}) && KeysMatch(rows, s)
    requires TurnsTaken(rows, s.fibers, k) && RowRefreshed(rows, s, r, k) && Flat(rows, r.state, {})
    ensures TurnsTaken(rows, r.state.fibers, k + 1)
  {
    var fs, fs' := s.fibers, r.state.fibers;
    var a, a' := Servings(rows, fs), Servings(rows, fs');
    ComposedDistinct(rows);
    OuterIsView(rows, s, k);
    ServingsElsewhere(rows, fs, fs', k);
    forall u: Uid | u <= k ensures View(a, rows[u]) == View(a', rows[u]) {
      assert rows[k].WellFormed();
      ViewSame(a, a', rows[k], rows[u]);
    }
    forall u: Uid | u < k + 1 ensures AsViewed(rows, fs', u) {
      if u < k { assert AsViewed(rows, fs, u); }
    }
  }

  lemma {:induction false} NextTurn(rows: seq<Row>, s: State, k: nat)
    requires Composed(rows) && InOrder(rows, k + 1) && k < |rows| && Turning(rows, s, k)
    ensures k < |s.fibers| && Uids(s, Upto(k, |rows|))
    ensures var t := Refresh(RowBehaviour(rows), s, k);
      && t.Done? && Turning(rows, t.state, k + 1) && Uids(t.state, Upto(k + 1, |rows|))
      && RunBatch(RowBehaviour(rows), s, Upto(k, |rows|)) == RunBatch(RowBehaviour(rows), t.state, Upto(k + 1, |rows|))
  {
    FlatSize(rows, s, {});
    assert Upto(k, |rows|)[0] == k && Upto(k, |rows|)[1..] == Upto(k + 1, |rows|);
    TakeHead(s, {}, Upto(k, |rows|));
    assert {} + {k} == {k};
    Anything(rows);
    hide Flat, KeysMatch, Own, Core, Rest, Refresh, Composed, InOrder, TurnsTaken, Upheld;
    RefreshRunning(rows, s, k, (fs, g) => true, Upto(k + 1, |rows|));
    var t := Refresh(RowBehaviour(rows), s, k).state;
    TurnTaken(rows, s, Refresh(RowBehaviour(rows), s, k), k);
    FlatSize(rows, t, {});
  }

  lemma {:induction false} Turns(rows: seq<Row>, k: nat)
    requires Composed(rows) && InOrder(rows, k) && k <= |rows|
    ensures Turning(rows, Turned(rows, k), k)
    ensures Uids(Turned(rows, 0), Upto(0, |rows|)) && Uids(Turned(rows, k), Upto(k, |rows|))
    ensures RunBatch(RowBehaviour(rows), Turned(rows, 0), Upto(0, |rows|))
      == RunBatch(RowBehaviour(rows), Turned(rows, k), Upto(k, |rows|))
  {
    hide Composed, MountRows, Refresh, RunBatch, TurnsTaken, Running, Steady, Upto;
    if k == 0 {
      FirstTurn(rows);
    } else {
      assert InOrder(rows, k - 1);
      Turns(rows, k - 1);
      FreshPending(rows);
      NextTurn(rows, Turned(rows, k - 1), k - 1);
    }
  }

  /** After k turns the boot goes on from there, and upholds what it then has. */
  lemma {:induction false} GoesOn(rows: seq<Row>, rounds: nat, k: nat, fact: (seq<Fiber>, Store) -> bool)
    requires Composed(rows) && InOrder(rows, k) && k <= |rows| && Upheld(rows, fact) && rows != []
    requires fact(Turned(rows, k).fibers, Turned(rows, k).store) && Boot(rows, rounds).Done?
    ensures CameTo(rows, Boot(rows, rounds), fact)
  {
    hide *;
    FreshQueue(rows);
    Turns(rows, k);
    BootsFrom(rows, rounds);
    Continues(rows, Turned(rows, k), k, fact);
    var t := RunBatch(RowBehaviour(rows), Turned(rows, k), Upto(k, |rows|)).state;
    SettleRunning(rows, RowBehaviour(rows), t, rounds - 1, fact, Boot(rows, rounds));
  }

  lemma {:induction false} BootsFrom(rows: seq<Row>, rounds: nat)
    requires rows != [] && Boot(rows, rounds).Done? && Uids(Turned(rows, 0), Upto(0, |rows|))
    requires Dedup(MountRows(rows).pending) == Upto(0, |rows|) == MountRows(rows).pending
    ensures rounds > 0
    ensures var t := RunBatch(RowBehaviour(rows), Turned(rows, 0), Upto(0, |rows|));
      t.Done? ==> Boot(rows, rounds) == Settle(RowBehaviour(rows), t.state, rounds - 1)
  {
    hide MountRows, RunBatch;
    assert Uids(MountRows(rows), MountRows(rows).pending);
  }

  lemma {:induction false} Continues(rows: seq<Row>, s: State, k: nat, fact: (seq<Fiber>, Store) -> bool)
    requires Turning(rows, s, k) && Upheld(rows, fact) && fact(s.fibers, s.store)
    ensures Uids(s, Upto(k, |rows|))
    ensures var t := RunBatch(RowBehaviour(rows), s, Upto(k, |rows|));
      t.Done? && Running(rows, t.state, fact) && Steady(t.state, {}, [])
  {
    hide Flat, KeysMatch, Own, Core, Rest, RunBatch, Upheld, TurnsTaken;
    BatchRunning(rows, s, Upto(k, |rows|), fact);
  }

  // ---- what the first turns decide ------------------------------------------------------------------------

  ghost predicate HasFailed(fs: seq<Fiber>, u: Uid) {
    u < |fs| && fs[u].phase == Failed
  }

  /** Who failed on its first turn has failed for good. */
  lemma {:induction false} StaysFailed(rows: seq<Row>, rounds: nat, k: nat, u: Uid)
    requires Composed(rows) && InOrder(rows, k) && u < k <= |rows| && Boot(rows, rounds).Done?
    ensures TurnsTaken(rows, Turned(rows, k).fibers, k) && |Boot(rows, rounds).state.fibers| == |rows|
    ensures Turned(rows, k).fibers[u].phase == Failed ==> Boot(rows, rounds).state.fibers[u].phase == Failed
  {
    Turns(rows, k);
    hide Composed, InOrder, Boot, Turned, Steady;
    if Turned(rows, k).fibers[u].phase == Failed {
      FailedUpheld(rows, u);
      GoesOn(rows, rounds, k, (fs, g) => HasFailed(fs, u));
    } else {
      Anything(rows);
      GoesOn(rows, rounds, k, (fs, g) => true);
    }
  }

  lemma {:induction false} FailedUpheld(rows: seq<Row>, u: Uid)
    requires u < |rows|
    ensures Upheld(rows, (fs, g) => HasFailed(fs, u))
  {
  }

  /** Rows mounted suppliers first end as the first round left them, each as viewed. */
  lemma {:induction false} OrderedBoot(rows: seq<Row>, rounds: nat)
    requires Composed(rows) && InOrder(rows, |rows|) && rows != [] && Boot(rows, rounds).Done?
    ensures TurnsTaken(rows, Boot(rows, rounds).state.fibers, |rows|)
  {
    ComposedDistinct(rows);
    ViewedUpheld(rows);
    Turns(rows, |rows|);
    hide Composed, InOrder, Boot, Turned, Steady;
    GoesOn(rows, rounds, |rows|, (fs, g) => TurnsTaken(rows, fs, |rows|));
  }

  lemma {:induction false} ViewedUpheld(rows: seq<Row>)
    requires Distinct(rows)
    ensures Upheld(rows, (fs, g) => TurnsTaken(rows, fs, |rows|))
  {
    forall s: State, r: Result, u: Uid |
      Flat(rows, s, {}) && KeysMatch(rows, s) && TurnsTaken(rows, s.fibers, |rows|) && u < |rows|
      && RowRefreshed(rows, s, r, u)
      ensures TurnsTaken(rows, r.state.fibers, |rows|)
    {
      ViewedStep(rows, s, r, u);
    }
  }

  /** Refreshing a row that is as viewed changes no phase and nothing seen. */
  lemma {:induction false} ViewedStep(rows: seq<Row>, s: State, r: Result, u: Uid)
    requires Flat(rows, s, {}) && KeysMatch(rows, s) && Distinct(rows) && TurnsTaken(rows, s.fibers, |rows|)
    requires u < |rows| && RowRefreshed(rows, s, r, u)
    ensures TurnsTaken(rows, r.state.fibers, |rows|)
  {
    var fs, fs' := s.fibers, r.state.fibers;
    OuterIsView(rows, s, u);
    assert AsViewed(rows, fs, u);
    hide Flat, KeysMatch, View;
    forall v: Uid | v < |rows|
      ensures fs'[v].phase == fs[v].phase && (fs[v].phase == Active ==> Saw(fs'[v]) == Saw(fs[v]))
    {
    }
    assert Servings(rows, fs') == Servings(rows, fs);
    forall v: Uid | v < |rows| ensures AsViewed(rows, fs', v) { assert AsViewed(rows, fs, v); }
  }

  // ---- exactly when the order matters --------------------------------------------------------------------

  /** Two mount orders of one acyclic composition in which `row` has a place, and every other row is steadfast;
      both settle. */
  ghost predicate Trial(rows: seq<Row>, rows': seq<Row>, rounds: nat, row: Row, u: Uid, v: Uid) {
    && Composed(rows) && Composed(rows') && RowSet(rows) == RowSet(rows')
    && (exists rank, depth :: RankedByKey(rows, rank, depth))
    && Boot(rows, rounds).Done? && Boot(rows', rounds).Done?
    && |Boot(rows, rounds).state.fibers| == |rows| && |Boot(rows', rounds).state.fibers| == |rows'|
    && (forall k: Uid :: k < |rows| && rows[k] != row ==> rows[k].Steadfast())
    && u < |rows| && v < |rows'| && rows[u] == row == rows'[v]
  }

  ghost predicate SameActivity(rows: seq<Row>, rows': seq<Row>, rounds: nat, u: Uid, v: Uid)
    requires u < |Boot(rows, rounds).state.fibers| && v < |Boot(rows', rounds).state.fibers|
  {
    Boot(rows, rounds).state.fibers[u].phase == Active <==> Boot(rows', rounds).state.fibers[v].phase == Active
  }

  ghost predicate SamePhase(rows: seq<Row>, rows': seq<Row>, rounds: nat, u: Uid, v: Uid)
    requires u < |Boot(rows, rounds).state.fibers| && v < |Boot(rows', rounds).state.fibers|
  {
    Boot(rows, rounds).state.fibers[u].phase == Boot(rows', rounds).state.fibers[v].phase
  }

  /** Whether the row is ACTIVE never depends on the mount order. */
  ghost predicate ActivityFree(row: Row) {
    forall rows, rows', rounds, u, v | Trial(rows, rows', rounds, row, u, v) ::
      SameActivity(rows, rows', rounds, u, v)
  }

  /** Neither does any other phase of it. */
  ghost predicate PhaseFree(row: Row) {
    forall rows, rows', rounds, u, v | Trial(rows, rows', rounds, row, u, v) ::
      SamePhase(rows, rows', rounds, u, v)
  }

  /** The row fails on every view of the others, or on none. */
  ghost predicate AllOrNone(row: Row) {
    forall p, q :: p <= row.Visible() && q <= row.Visible() ==> row.Fails(p) == row.Fails(q)
  }

  /** A row that declares nothing it may provide: no other has a place in an acyclic composition. */
  ghost predicate Proper(row: Row) {
    row.WellFormed() && forall n :: n in row.may ==> n !in row.decl.Names()
  }

  // ---- a composition that swings ---------------------------------------------------------------------------

  /** Gives n, on seeing z or else on not seeing it. */
  function Switch(entry: string, z: Name, n: Name, flag: bool): Row {
    Row(entry, Decl([], [z], {}, false), {}, {n}, true, seen => if (z in seen) == flag then [n] else [], seen => true)
  }

  const NOTHING := Decl([], [], {}, false)

  /** A row that serves ps, a switch for n that reads z, and a row that serves z. */
  datatype Rig = Rig(row: Row, ps: seq<Name>, n: Name, z: Name, flag: bool) {
    function Base(): Row { Plain(row.entry + "-base", NOTHING, {}, ps) }
    function Gate(): Row { Switch(row.entry + "-switch", z, n, flag) }
    function Lever(): Row { Plain(row.entry + "-lever", NOTHING, {}, [z]) }

    /** The switch has its first turn before the lever has served z, and the row right after it. */
    function Early(): seq<Row> { [Base(), Gate(), row, Lever()] }

    /** Everyone comes after its suppliers. */
    function Late(): seq<Row> { [Base(), Lever(), Gate(), row] }

    /** What the row sees while z is served or not. */
    function Sees(lit: bool): set<Name> {
      (set p | p in ps) + if lit == flag then {n} else {}
    }

    ghost predicate Fits() {
      && Proper(row) && NoDup(ps) && n !in ps && z !in ps && z != n
      && (forall p :: p in ps ==> p in row.Visible()) && n in row.Visible()
      && z !in row.may && z !in row.decl.Names()
    }
  }

  /** One of the four rows. */
  ghost predicate Of(g: Rig, r: Row) {
    r == g.Base() || r == g.Gate() || r == g.row || r == g.Lever()
  }

  lemma {:induction false} RigParts(g: Rig)
    requires g.Fits()
    ensures forall r, r' :: Of(g, r) && Of(g, r') && r.entry == r'.entry ==> r == r'
    ensures forall r, r', m :: Of(g, r) && Of(g, r') && m in r.may && m in r'.may ==> r == r'
    ensures forall r :: Of(g, r) ==> r.WellFormed()
    ensures g.Base() != g.Gate() && g.Base() != g.Lever() && g.Gate() != g.Lever()
    ensures g.row != g.Base() && g.row != g.Gate() && g.row != g.Lever()
  {
    assert |g.Base().entry| == |g.row.entry| + 5 && |g.Gate().entry| == |g.row.entry| + 7;
    assert |g.Lever().entry| == |g.row.entry| + 6;
    assert forall m :: m in g.row.Visible() ==> m in g.row.decl.Names();
  }

  /** Who declares what: only the row and the switch declare anything, and neither what it may give. */
  lemma {:induction false} RigNames(g: Rig, r: Row, r': Row, m: Name)
    requires g.Fits() && Of(g, r) && Of(g, r') && m in r.decl.Names() && m in r'.may
    ensures (r == g.Gate() && r' == g.Lever()) || (r == g.row && (r' == g.Base() || r' == g.Gate()))
  {
    assert g.Base().decl.Names() == [] && g.Lever().decl.Names() == [] && g.Gate().decl.Names() == [g.z];
  }

  lemma {:induction false} RigComposed(g: Rig, rows: seq<Row>)
    requires g.Fits() && |rows| == 4 && forall u: Uid :: u < 4 ==> Of(g, rows[u])
    requires rows[0] != rows[1] && rows[0] != rows[2] && rows[0] != rows[3]
    requires rows[1] != rows[2] && rows[1] != rows[3] && rows[2] != rows[3]
    ensures Composed(rows)
  {
    RigParts(g);
    hide Of;
    forall u: Uid, v: Uid | u < v < 4 ensures rows[u].entry != rows[v].entry { }
  }

  lemma {:induction false} RigRows(g: Rig)
    requires g.Fits()
    ensures Composed(g.Early()) && Composed(g.Late()) && RowSet(g.Early()) == RowSet(g.Late())
    ensures Ranked(g.Early(), [0, 1, 2, 0], 2) && Ranked(g.Late(), [0, 0, 1, 2], 2)
    ensures InOrder(g.Early(), 3) && InOrder(g.Late(), 4)
  {
    var early, late := g.Early(), g.Late();
    RigParts(g);
    RigComposed(g, early);
    RigComposed(g, late);
    RigSame(g);
    hide Composed, RowSet;
    forall u: Uid, v: Uid, m | u < 4 && v < 4 && m in early[u].decl.Names() && m in early[v].may
      ensures [0, 1, 2, 0][v] < [0, 1, 2, 0][u] && (v < 3 ==> v < u)
    {
      RigNames(g, early[u], early[v], m);
    }
    forall u: Uid, v: Uid, m | u < 4 && v < 4 && m in late[u].decl.Names() && m in late[v].may
      ensures [0, 0, 1, 2][v] < [0, 0, 1, 2][u] && v < u
    {
      RigNames(g, late[u], late[v], m);
    }
  }

  lemma {:induction false} RigSame(g: Rig)
    ensures RowSet(g.Early()) == RowSet(g.Late())
  {
    var early, late := g.Early(), g.Late();
    assert early[0] == late[0] && early[1] == late[2] && early[2] == late[3] && early[3] == late[1];
    forall r ensures r in RowSet(early) <==> r in RowSet(late) {
      if r in RowSet(early) { var u: Uid :| 0 <= u < 4 && early[u] == r; }
      if r in RowSet(late) { var u: Uid :| 0 <= u < 4 && late[u] == r; }
    }
  }

  /** The rig's servings while z is served (lit) or not, the row's own aside. */
  ghost predicate Lit(g: Rig, a: set<Serving>, lit: bool) {
    && Serving(g.Base(), {}) in a && Serving(g.Gate(), if lit then {g.z} else {}) in a
    && forall l :: l in a ==>
      || l == Serving(g.Base(), {}) || l == Serving(g.Gate(), if lit then {g.z} else {})
      || l.row == g.row || l == Serving(g.Lever(), {})
  }

  lemma {:induction false} RigView(g: Rig, a: set<Serving>, lit: bool)
    requires g.Fits() && Lit(g, a, lit)
    ensures View(a, g.row) == g.Sees(lit)
  {
    var gate := Serving(g.Gate(), if lit then {g.z} else {});
    assert |g.Base().entry| == |g.row.entry| + 5 && |g.Gate().entry| == |g.row.entry| + 7;
    forall m | m in g.Sees(lit) ensures m in View(a, g.row) {
      if m in g.ps {
        assert SuppliedBy(Serving(g.Base(), {}), g.row, m);
      } else {
        assert SuppliedBy(gate, g.row, m);
      }
    }
    forall m | m in View(a, g.row) ensures m in g.Sees(lit) {
      var l :| l in a && l.row != g.row && SuppliedBy(l, g.row, m);
    }
  }

  /** A row without injections that returns is ACTIVE and saw nothing. */
  lemma {:induction false} FreeServing(rows: seq<Row>, fs: seq<Fiber>, u: Uid)
    requires u < |rows| == |fs| && AsViewed(rows, fs, u) && rows[u].decl.inject == rows[u].decl.optional == []
    requires rows[u].Succeeds({})
    ensures fs[u].phase == Active && Saw(fs[u]) == {}
  {
    assert View(Servings(rows, fs), rows[u]) == {};
  }

  /** The switch sees z exactly when the lever serves it. */
  lemma {:induction false} GateView(g: Rig, a: set<Serving>)
    requires g.Fits() && Serving(g.Base(), {}) in a
    requires forall l :: l in a ==>
      l == Serving(g.Base(), {}) || l.row == g.Gate() || l.row == g.row || l == Serving(g.Lever(), {})
    ensures View(a, g.Gate()) == if Serving(g.Lever(), {}) in a then {g.z} else {}
  {
    RigParts(g);
    assert g.Gate().decl.Names() == [g.z];
    assert g.row.WellFormed();
    if Serving(g.Lever(), {}) in a { assert SuppliedBy(Serving(g.Lever(), {}), g.Gate(), g.z); }
    forall m | m in View(a, g.Gate()) ensures Serving(g.Lever(), {}) in a && m == g.z {
      var l :| l in a && l.row != g.Gate() && SuppliedBy(l, g.Gate(), m);
    }
  }

  lemma {:induction false} EarlyLit(g: Rig, fs: seq<Fiber>)
    requires g.Fits() && TurnsTaken(g.Early(), fs, 3)
    ensures Lit(g, Servings(g.Early(), fs), false)
  {
    var rows := g.Early();
    var a := Servings(rows, fs);
    assert AsViewed(rows, fs, 0) && AsViewed(rows, fs, 1);
    FreeServing(rows, fs, 0);
    RigParts(g);
    hide View;
    forall l | l in a ensures l == Serving(g.Base(), {}) || l == Serving(g.Gate(), Saw(fs[1])) || l.row == g.row {
      var u: Uid :| 0 <= u < 4 && fs[u].phase == Active && l == Serving(rows[u], Saw(fs[u]));
    }
    assert Serving(rows[0], Saw(fs[0])) in a;
    GateView(g, a);
    assert Serving(rows[1], Saw(fs[1])) in a;
  }

  lemma {:induction false} LateLit(g: Rig, fs: seq<Fiber>)
    requires g.Fits() && TurnsTaken(g.Late(), fs, 4)
    ensures Lit(g, Servings(g.Late(), fs), true)
  {
    var rows := g.Late();
    var a := Servings(rows, fs);
    assert AsViewed(rows, fs, 0) && AsViewed(rows, fs, 1) && AsViewed(rows, fs, 2);
    FreeServing(rows, fs, 0);
    FreeServing(rows, fs, 1);
    RigParts(g);
    hide View;
    forall l | l in a
      ensures l == Serving(g.Base(), {}) || l == Serving(g.Gate(), Saw(fs[2]))
        || l.row == g.row || l == Serving(g.Lever(), {})
    {
      var u: Uid :| 0 <= u < 4 && fs[u].phase == Active && l == Serving(rows[u], Saw(fs[u]));
    }
    assert Serving(rows[0], Saw(fs[0])) in a && Serving(rows[1], Saw(fs[1])) in a;
    GateView(g, a);
    assert Serving(rows[2], Saw(fs[2])) in a;
  }

  lemma {:induction false} EarlyFails(g: Rig)
    requires g.Fits() && g.row.Fails(g.Sees(false)) && Boot(g.Early(), 3).Done?
    ensures |Boot(g.Early(), 3).state.fibers| == 4 && Boot(g.Early(), 3).state.fibers[2].phase == Failed
  {
    var rows := g.Early();
    RigRows(g);
    hide Composed, Ranked, InOrder, Boot, Turned, View, RowSet, Lit;
    StaysFailed(rows, 3, 3, 2);
    var fs := Turned(rows, 3).fibers;
    EarlyLit(g, fs);
    RigView(g, Servings(rows, fs), false);
    assert AsViewed(rows, fs, 2);
  }

  lemma {:induction false} LateFollows(g: Rig)
    requires g.Fits() && Boot(g.Late(), 3).Done?
    ensures |Boot(g.Late(), 3).state.fibers| == 4
    ensures Boot(g.Late(), 3).state.fibers[3].phase == g.row.Outcome(g.Sees(true))
  {
    var rows := g.Late();
    RigRows(g);
    hide Composed, Ranked, InOrder, Boot, View, RowSet, Lit;
    OrderedBoot(rows, 3);
    var fs := Boot(rows, 3).state.fibers;
    LateLit(g, fs);
    RigView(g, Servings(rows, fs), true);
    assert AsViewed(rows, fs, 3);
  }

  /** The same rows in two orders: mounted early the row loads on its first view and keeps a failure; mounted
      late it ends as the last view has it. */
  lemma {:induction false} RigSwings(g: Rig)
    requires g.Fits() && g.row.Fails(g.Sees(false))
    ensures Trial(g.Early(), g.Late(), 3, g.row, 2, 3)
    ensures Boot(g.Early(), 3).state.fibers[2].phase == Failed
    ensures Boot(g.Late(), 3).state.fibers[3].phase == g.row.Outcome(g.Sees(true))
  {
    RigSettles(g);
    RigSteadfast(g);
    hide Composed, RankedByKey, Boot, RowSet, Row.Steadfast, Row.Fails, Row.Outcome, Rig.Fits, Rig.Sees;
    EarlyFails(g);
    LateFollows(g);
    assert g.Early()[2] == g.row && g.Late()[3] == g.row;
  }

  lemma {:induction false} RigSettles(g: Rig)
    requires g.Fits()
    ensures Composed(g.Early()) && Composed(g.Late()) && RowSet(g.Early()) == RowSet(g.Late())
    ensures Boot(g.Early(), 3).Done? && Boot(g.Late(), 3).Done?
    ensures exists rank, depth :: RankedByKey(g.Early(), rank, depth)
  {
    RigRows(g);
    hide *;
    BoundedConvergence(g.Early(), [0, 1, 2, 0], 2, 3);
    BoundedConvergence(g.Late(), [0, 0, 1, 2], 2, 3);
    RankedByKeyToo(g.Early(), [0, 1, 2, 0], 2);
  }

  lemma {:induction false} RigSteadfast(g: Rig)
    ensures forall k: Uid :: k < 4 && g.Early()[k] != g.row ==> g.Early()[k].Steadfast()
  {
    assert g.Base().Steadfast() && g.Gate().Steadfast() && g.Lever().Steadfast();
  }

  lemma {:induction false} RankedByKeyToo(rows: seq<Row>, rank: seq<nat>, depth: nat)
    requires Ranked(rows, rank, depth)
    ensures RankedByKey(rows, rank, depth)
  {
  }

  // ---- building the rig --------------------------------------------------------------------------------------

  lemma {:induction false} FreshName(names: set<Name>) returns (z: Name)
    ensures z !in names
  {
    z := "";
    var left := names;
    while left != {}
      invariant left <= names
      invariant forall m :: m in names - left ==> |m| < |z|
      decreases left
    {
      var m :| m in left;
      left := left - {m};
      z := z + m + "z";
    }
    assert names - left == names;
  }

  lemma {:induction false} Listed(names: set<Name>) returns (ps: seq<Name>)
    ensures NoDup(ps) && forall m :: m in ps <==> m in names
  {
    ps := [];
    var left := names;
    while left != {}
      invariant left <= names && NoDup(ps)
      invariant forall m :: m in ps <==> m in names - left
      decreases left
    {
      var m :| m in left;
      NoDupSnoc(ps, m);
      left := left - {m};
      ps := ps + [m];
    }
  }

  /** Between two nested views on which the row differs there is one name that makes the difference. */
  lemma {:induction false} Tipping(row: Row, p: set<Name>, q: set<Name>) returns (r: set<Name>, n: Name)
    requires p <= q && row.Fails(p) != row.Fails(q)
    ensures p <= r && r + {n} <= q && n !in r && row.Fails(r) != row.Fails(r + {n})
    decreases q - p
  {
    assert p != q && !(q <= p);
    var m :| m in q && m !in p;
    if row.Fails(p) != row.Fails(p + {m}) {
      r, n := p, m;
    } else {
      r, n := Tipping(row, p + {m}, q);
    }
  }

  /** A rig in which the row first sees the view it fails on and last the one it does not fail on. */
  lemma {:induction false} RigFor(row: Row, r: set<Name>, n: Name) returns (g: Rig)
    requires Proper(row) && r + {n} <= row.Visible() && n !in r && row.Fails(r) != row.Fails(r + {n})
    ensures g.Fits() && g.row == row && row.Fails(g.Sees(false)) && !row.Fails(g.Sees(true)) && r <= g.Sees(true)
  {
    var ps := Listed(r);
    var z := FreshName(row.may + row.NameSet());
    g := Rig(row, ps, n, z, row.Fails(r));
    assert (set p | p in ps) == r;
    assert r + {} == r;
    assert n in row.NameSet() && forall p :: p in ps ==> p in row.NameSet();
  }

  // ---- the two conditions ------------------------------------------------------------------------------------

  /** Main result: whether a row is ACTIVE is the same for every mount order, in every acyclic composition of
      steadfast rows around it, if and only if whether its load succeeds does not depend on its optional
      injections. */
  lemma {:induction false} ActivityFreeIff(row: Row)
    requires Proper(row)
    ensures ActivityFree(row) <==> row.Steadfast()
  {
    if row.Steadfast() {
      forall rows, rows', rounds, u, v | Trial(rows, rows', rounds, row, u, v)
        ensures SameActivity(rows, rows', rounds, u, v)
      {
        TrialAgrees(rows, rows', rounds, row, u, v);
      }
    } else {
      var p, q :| row.Fed(p) && row.Fed(q) && p <= row.Visible() && q <= row.Visible()
        && row.Succeeds(p) != row.Succeeds(q);
      var from := if row.Fails(p) != row.Fails(p + q) then p else q;
      var r, n := Tipping(row, from, p + q);
      var g := RigFor(row, r, n);
      RigSwings(g);
      assert row.Fed(g.Sees(true));
      assert !SameActivity(g.Early(), g.Late(), 3, 2, 3);
    }
  }

  /** Main result: and every phase of it is the same if and only if it fails on every view or on none. */
  lemma {:induction false} PhaseFreeIff(row: Row)
    requires Proper(row)
    ensures PhaseFree(row) <==> AllOrNone(row)
  {
    if AllOrNone(row) {
      assert row.Steadfast();
      forall rows, rows', rounds, u, v | Trial(rows, rows', rounds, row, u, v)
        ensures SamePhase(rows, rows', rounds, u, v)
      {
        TrialAgrees(rows, rows', rounds, row, u, v);
        TrialFails(rows, rounds, u);
        TrialFails(rows', rounds, v);
      }
    } else {
      var p, q :| p <= row.Visible() && q <= row.Visible() && row.Fails(p) != row.Fails(q);
      var from := if row.Fails(p) != row.Fails(p + q) then p else q;
      var r, n := Tipping(row, from, p + q);
      var g := RigFor(row, r, n);
      RigSwings(g);
      assert !SamePhase(g.Early(), g.Late(), 3, 2, 3);
    }
  }

  lemma {:induction false} TrialAgrees(
    rows: seq<Row>, rows': seq<Row>, rounds: nat, row: Row, u: Uid, v: Uid)
    requires Trial(rows, rows', rounds, row, u, v) && row.Steadfast()
    ensures AllSteadfast(rows) && AllSteadfast(rows')
    ensures SameActivity(rows, rows', rounds, u, v)
  {
    assert AllSteadfast(rows);
    SteadfastToo(rows, rows');
    var rank, depth :| RankedByKey(rows, rank, depth);
    MountOrderIrrelevant(rows, rounds, rows', rounds, rank, depth, u, v);
  }

  lemma {:induction false} ViewVisible(rows: seq<Row>, a: set<Serving>, u: Uid)
    requires Distinct(rows) && Consistent(RowSet(rows), a) && u < |rows|
    ensures View(a, rows[u]) <= rows[u].Visible()
  {
    forall n | n in View(a, rows[u]) ensures n !in rows[u].isolated {
      var l :| l in a && l.row != rows[u] && SuppliedBy(l, rows[u], n);
      var v: Uid :| 0 <= v < |rows| && rows[v] == l.row;
    }
  }

  /** A row that fails on every view or on none has FAILED exactly in the first case. */
  lemma {:induction false} TrialFails(rows: seq<Row>, rounds: nat, u: Uid)
    requires Composed(rows) && AllSteadfast(rows) && Boot(rows, rounds).Done? && u < |rows| && AllOrNone(rows[u])
    ensures |Boot(rows, rounds).state.fibers| == |rows|
    ensures var phase := Boot(rows, rounds).state.fibers[u].phase;
      phase in {Pending, Active, Failed} && (phase == Failed <==> rows[u].Fails({}))
  {
    var s := Boot(rows, rounds).state;
    var a := Servings(rows, s.fibers);
    ComposedDistinct(rows);
    SettlesConsistently(rows, rounds);
    hide Composed, AllSteadfast, Boot, View;
    ViewVisible(rows, a, u);
    assert RowVerdict(rows[u], s.fibers[u].phase, a);
    assert {} <= rows[u].Visible();
  }

  // ---- two inputs ----------------------------------------------------------------------------------------------

  /** A consumer that raises unless its optional logger is there. */
  const PICKY := Row("picky", Decl([], ["log"], {}, false), {}, {}, true, seen => [], seen => "log" in seen)

  /** Mounted before the logger it has FAILED by the time the logger is up, and a FAILED fiber is not tried
      again; mounted after it, it is ACTIVE. */
  lemma {:induction false} PickySwings()
    ensures var early, late := [PICKY, LOGGER], [LOGGER, PICKY];
      && Boot(early, 2).Done? && |Boot(early, 2).state.fibers| == 2
      && Boot(early, 2).state.fibers[0].phase == Failed
      && Boot(late, 2).Done? && |Boot(late, 2).state.fibers| == 2
      && Boot(late, 2).state.fibers[1].phase == Active
  {
    PickyEarly();
    PickyLate();
  }

  lemma {:induction false} PickyEarly()
    ensures var rows := [PICKY, LOGGER];
      && Boot(rows, 2).Done? && |Boot(rows, 2).state.fibers| == 2 && Boot(rows, 2).state.fibers[0].phase == Failed
  {
    var rows := [PICKY, LOGGER];
    PickyRows(rows, [1, 0], 1);
    BoundedConvergence(rows, [1, 0], 1, 2);
    hide Composed, Ranked, InOrder, Boot, Turned, View;
    StaysFailed(rows, 2, 1, 0);
    assert AsViewed(rows, Turned(rows, 1).fibers, 0);
    NobodyServes(rows, Turned(rows, 1).fibers);
  }

  lemma {:induction false} PickyLate()
    ensures var rows := [LOGGER, PICKY];
      && Boot(rows, 2).Done? && |Boot(rows, 2).state.fibers| == 2 && Boot(rows, 2).state.fibers[1].phase == Active
  {
    var rows := [LOGGER, PICKY];
    PickyRows(rows, [0, 1], 2);
    BoundedConvergence(rows, [0, 1], 1, 2);
    hide Composed, Ranked, InOrder, Boot, View;
    OrderedBoot(rows, 2);
    var fs := Boot(rows, 2).state.fibers;
    assert AsViewed(rows, fs, 0) && AsViewed(rows, fs, 1);
    FreeServing(rows, fs, 0);
    LoggerServes(rows, fs);
  }

  lemma {:induction false} PickyRows(rows: seq<Row>, rank: seq<nat>, k: nat)
    requires (rows == [PICKY, LOGGER] && rank == [1, 0] && k == 1)
      || (rows == [LOGGER, PICKY] && rank == [0, 1] && k == 2)
    ensures Composed(rows) && Ranked(rows, rank, 1) && InOrder(rows, k)
  {
    assert "picky"[0] != "logger"[0];
    assert PICKY.decl.Names() == ["log"] && LOGGER.decl.Names() == [];
    assert PICKY.WellFormed() && LOGGER.WellFormed();
  }

  lemma {:induction false} NobodyServes(rows: seq<Row>, fs: seq<Fiber>)
    requires rows == [PICKY, LOGGER] && TurnsTaken(rows, fs, 1)
    ensures View(Servings(rows, fs), PICKY) == {}
  {
    assert fs[1].phase == Pending;
  }

  lemma {:induction false} LoggerServes(rows: seq<Row>, fs: seq<Fiber>)
    requires rows == [LOGGER, PICKY] && |fs| == 2 && fs[0].phase == Active && Saw(fs[0]) == {}
    ensures "log" in View(Servings(rows, fs), PICKY)
  {
    var l := Serving(rows[0], Saw(fs[0]));
    assert l in Servings(rows, fs) && SuppliedBy(l, PICKY, "log");
    assert "picky"[0] != "logger"[0];
    assert PICKY.decl.Names() == ["log"];
  }

  /** A consumer that raises whenever it loads. */
  const BROKEN := Row("broken", Decl(["db"], [], {}, false), {}, {}, true, seen => [], seen => false)

  /** It never is ACTIVE, in whatever order; but it has FAILED or still waits, depending on whether its service
      was there for a while. */
  lemma {:induction false} BrokenSwings()
    ensures ActivityFree(BROKEN) && !PhaseFree(BROKEN)
  {
    assert BROKEN.decl.Names() == ["db"] && "db" in BROKEN.decl.inject;
    assert {"db"} <= BROKEN.Visible() && {} <= BROKEN.Visible();
    assert BROKEN.Fails({"db"}) && !BROKEN.Fails({});
    ActivityFreeIff(BROKEN);
    PhaseFreeIff(BROKEN);
  }
}
