/** Settling a fresh flat composition: what every refresh upholds a settle upholds, and rounds are bounded
    when the dependencies have no cycle. */
module Convergence {
  import opened Lists
  import opened Registry
  import opened Runtime
  import opened Currency
  import opened Settling
  import opened Runs
  import opened Ownership
  import opened OwnedActions
  import opened OwnedRuns
  import opened Ranks
  import opened KeyedRanks
  import opened Rows
  import opened FlatSteps

  /** Where a row's name lives, independently of uids: shared, or private to the isolating row. */
  datatype Key = Key(place: Option<string>, name: Name)

  function KeyOf(row: Row, n: Name): Key {
    Key(if n in row.isolated then Some(row.entry) else None, n)
  }

  /** Distinct row ids, and no key that two rows may provide. */
  ghost predicate Composed(rows: seq<Row>) {
    && (forall u: Uid, v: Uid :: u < v < |rows| ==> rows[u].entry != rows[v].entry)
    && (forall u: Uid :: u < |rows| ==> rows[u].WellFormed())
    && (forall u: Uid, v: Uid, n ::
         u < |rows| && v < |rows| && n in rows[u].may && n in rows[v].may && KeyOf(rows[u], n) == KeyOf(rows[v], n) ==>
           u == v)
  }

  function MountRows(rows: seq<Row>): State {
    if rows == [] then EMPTY
    else
      var row := rows[|rows| - 1];
      MountStep(MountRows(rows[..|rows| - 1]), None, 0, row.entry, row.decl, row.isolated).state
  }

  // ---- the fresh tree ----------------------------------------------------------------------

  ghost predicate FreshFiber(s: State, row: Row, f: Fiber) {
    && f == NewFiber(row.entry, row.decl, f.realm, None)
    && f.realm < |s.store.realms|
    && (if row.isolated == {} then f.realm == 0
        else f.realm > 0 && s.store.realms[f.realm] == Realm(Some(0), row.isolated))
  }

  ghost predicate FreshTree(rows: seq<Row>, s: State) {
    && |s.fibers| == |rows| && s.store.impls == map[] && s.log == []
    && |s.mounted| == |rows| && s.pending == s.mounted
    && (forall u: Uid :: u < |rows| ==> s.mounted[u] == u && FreshFiber(s, rows[u], s.fibers[u]))
    && (forall u: Uid, v: Uid :: u < v < |rows| && rows[u].isolated != {} && rows[v].isolated != {} ==>
      s.fibers[u].realm < s.fibers[v].realm)
    && |s.store.realms| > 0 && s.store.realms[0] == Realm(None, {})
  }

  lemma {:induction false} MountFresh(rows: seq<Row>)
    requires forall u: Uid, v: Uid :: u < v < |rows| ==> rows[u].entry != rows[v].entry
    ensures FreshTree(rows, MountRows(rows))
    ensures Steady(MountRows(rows), {}, []) && Own(MountRows(rows), {})
    decreases |rows|
  {
    if rows == [] {
      EmptySteady();
    } else {
      var n := |rows| - 1;
      var s := MountRows(rows[..n]);
      MountFresh(rows[..n]);
      var row := rows[n];
      assert !EntryTaken(s, row.entry) by {
        assert forall v: Uid :: v < n ==> s.fibers[v].entry == rows[v].entry;
      }
      MountSteady(s, None, 0, row.entry, row.decl, row.isolated, {});
      MountOwn(s, None, 0, row.entry, row.decl, row.isolated, {});
      FreshStep(rows, s);
    }
  }

  lemma {:induction false} FreshStep(rows: seq<Row>, s: State)
    requires rows != [] && FreshTree(rows[..|rows| - 1], s) && !EntryTaken(s, rows[|rows| - 1].entry)
    ensures FreshTree(rows,
      MountStep(s, None, 0, rows[|rows| - 1].entry, rows[|rows| - 1].decl, rows[|rows| - 1].isolated).state)
  {
    var n := |rows| - 1;
    var row := rows[n];
    var t := MountStep(s, None, 0, row.entry, row.decl, row.isolated).state;
    forall u: Uid | u < |rows| ensures t.mounted[u] == u && FreshFiber(t, rows[u], t.fibers[u]) {
      if u < n { assert FreshFiber(s, rows[..n][u], s.fibers[u]); }
    }
    forall u: Uid, v: Uid | u < v < |rows| && rows[u].isolated != {} && rows[v].isolated != {}
      ensures t.fibers[u].realm < t.fibers[v].realm
    {
      assert FreshFiber(s, rows[..n][u], s.fibers[u]);
      if v < n { assert rows[..n][v] == rows[v]; }
    }
  }

  /** Slots coincide exactly when keys do. */
  ghost predicate KeysMatch(rows: seq<Row>, s: State)
    requires |s.fibers| == |rows|
  {
    forall u: Uid, v: Uid, n, m :: u < |rows| && v < |rows| ==>
      (SlotOf(s, u, n) == SlotOf(s, v, m) <==> KeyOf(rows[u], n) == KeyOf(rows[v], m))
  }

  lemma {:induction false} FreshOwner(rows: seq<Row>, s: State, u: Uid, n: Name)
    requires FreshTree(rows, s) && u < |rows|
    ensures SlotOf(s, u, n) == Slot(if n in rows[u].isolated then s.fibers[u].realm else 0, n)
  {
    assert FreshFiber(s, rows[u], s.fibers[u]);
    assert OwnerOf(s.store.realms, 0, n) == 0;
  }

  lemma {:induction false} FreshKeys(rows: seq<Row>, s: State)
    requires Composed(rows) && FreshTree(rows, s)
    ensures KeysMatch(rows, s)
  {
    forall u: Uid, v: Uid, n, m | u < |rows| && v < |rows|
      ensures SlotOf(s, u, n) == SlotOf(s, v, m) <==> KeyOf(rows[u], n) == KeyOf(rows[v], m)
    {
      FreshOwner(rows, s, u, n);
      FreshOwner(rows, s, v, m);
      assert FreshFiber(s, rows[u], s.fibers[u]) && FreshFiber(s, rows[v], s.fibers[v]);
      if u < v {
        assert rows[u].entry != rows[v].entry;
      } else if v < u {
        assert rows[v].entry != rows[u].entry;
      }
    }
  }

  lemma {:induction false} FreshFlat(rows: seq<Row>, s: State)
    requires Composed(rows) && FreshTree(rows, s)
    ensures Flat(rows, s, {}) && KeysMatch(rows, s)
  {
    FreshKeys(rows, s);
    forall u: Uid, v: Uid, slot | Offers(rows, s, u, slot) && Offers(rows, s, v, slot) ensures u == v {
      assert KeyOf(rows[u], slot.name) == KeyOf(rows[v], slot.name);
    }
    forall u: Uid | u < |rows|
      ensures RowFixed(s.fibers[u], rows[u]) && s.fibers[u].realm < |s.store.realms| && s.fibers[u].phase == Pending
    {
      assert FreshFiber(s, rows[u], s.fibers[u]);
    }
  }

  // ---- what every refresh upholds ----------------------------------------------------------------

  /** A fact about fibers and store that no refresh of a row breaks. */
  ghost predicate Upheld(rows: seq<Row>, fact: (seq<Fiber>, Store) -> bool) {
    forall s: State, r: Result, u: Uid | Flat(rows, s, {}) && KeysMatch(rows, s) && u < |rows| ::
      fact(s.fibers, s.store) && RowRefreshed(rows, s, r, u) ==> fact(r.state.fibers, r.state.store)
  }

  lemma {:induction false} Anything(rows: seq<Row>)
    ensures Upheld(rows, (fs, g) => true)
  {
  }

  ghost predicate Running(rows: seq<Row>, s: State, fact: (seq<Fiber>, Store) -> bool) {
    Flat(rows, s, {}) && KeysMatch(rows, s) && Own(s, {}) && fact(s.fibers, s.store)
  }

  lemma {:induction false} KeysKeep(rows: seq<Row>, s: State, t: State)
    requires |s.fibers| == |rows| && KeysMatch(rows, s) && SameShape(s, t)
    ensures KeysMatch(rows, t)
  {
    assert forall u: Uid, n :: u < |rows| ==> SlotOf(t, u, n) == SlotOf(s, u, n);
  }

  lemma {:induction false} RefreshRunning(
    rows: seq<Row>, s: State, u: Uid, fact: (seq<Fiber>, Store) -> bool, q: seq<Uid>)
    requires Running(rows, s, fact) && Upheld(rows, fact) && u < |rows| && Steady(s, {u}, q)
    ensures |s.fibers| == |rows|
    ensures var r := Refresh(RowBehaviour(rows), s, u);
      RowRefreshed(rows, s, r, u) && Running(rows, r.state, fact) && Steady(r.state, {}, q)
  {
    var w := RowBehaviour(rows);
    assert {} + {u} == {u} && {} - {u} == {};
    FlatSize(rows, s, {});
    hide Own, KeysMatch, Flat, Core, Rest, Refresh;
    RefreshFlat(rows, s, u, {}, q);
    RefreshOwn(w, s, u, {}, q);
    RefreshSteady(w, s, u, {}, q);
    KeysKeep(rows, s, Refresh(w, s, u).state);
  }

  lemma {:induction false} BatchRunning(
    rows: seq<Row>, s: State, batch: seq<Uid>, fact: (seq<Fiber>, Store) -> bool)
    requires Running(rows, s, fact) && Upheld(rows, fact) && Steady(s, {}, batch) && Uids(s, batch)
    ensures var r := RunBatch(RowBehaviour(rows), s, batch);
      r.Done? && Running(rows, r.state, fact) && Steady(r.state, {}, [])
    decreases |batch|
  {
    hide Own, KeysMatch, Flat, Core, Rest, Refresh, Upheld;
    if batch != [] {
      var u, rest := batch[0], batch[1..];
      FlatSize(rows, s, {});
      assert u in batch && forall v :: v in rest ==> v in batch;
      TakeHead(s, {}, batch);
      assert {} + {u} == {u};
      RefreshRunning(rows, s, u, fact, rest);
      BatchRunning(rows, Refresh(RowBehaviour(rows), s, u).state, rest, fact);
    }
  }

  lemma {:induction false} RunningIgnoresQueue(
    rows: seq<Row>, s: State, pending: seq<Uid>, fact: (seq<Fiber>, Store) -> bool)
    requires Running(rows, s, fact)
    ensures Running(rows, s.(pending := pending), fact)
  {
    var t := s.(pending := pending);
    OwnIgnoresQueue(s, pending);
    KeysKeep(rows, s, t);
    OffersSame(rows, s, t);
    assert forall u: Uid, n :: u < |rows| ==> SlotOf(t, u, n) == SlotOf(s, u, n);
    forall u: Uid | u < |rows| ensures RowRight(rows, t, u) { assert RowRight(rows, s, u); }
    forall slot | slot in t.store.impls ensures Backed(rows, t, slot, {}) { assert Backed(rows, s, slot, {}); }
  }

  lemma {:induction false} RoundRunning(rows: seq<Row>, s: State, fact: (seq<Fiber>, Store) -> bool)
    requires Running(rows, s, fact) && Upheld(rows, fact) && Steady(s, {}, [])
    ensures Uids(s, s.pending) && Uids(s.(pending := []), Dedup(s.pending))
    ensures var r := RunBatch(RowBehaviour(rows), s.(pending := []), Dedup(s.pending));
      r.Done? && Running(rows, r.state, fact) && Steady(r.state, {}, [])
  {
    hide Flat, KeysMatch, Own, Upheld, Sound, Due;
    Requeue(s, {}, [], [], Dedup(s.pending));
    RunningIgnoresQueue(rows, s, [], fact);
    BatchRunning(rows, s.(pending := []), Dedup(s.pending), fact);
  }

  /** What a settle of a flat composition comes to, whatever its budget. */
  ghost predicate CameTo(rows: seq<Row>, r: Result, fact: (seq<Fiber>, Store) -> bool) {
    !r.Aborted? && Running(rows, r.state, fact) && Steady(r.state, {}, []) && (r.Done? ==> r.state.pending == [])
  }

  lemma {:induction false} CameIdle(rows: seq<Row>, r: Result, fact: (seq<Fiber>, Store) -> bool)
    requires Running(rows, r.state, fact) && Steady(r.state, {}, []) && !r.Aborted?
    requires r.Done? ==> r.state.pending == []
    ensures CameTo(rows, r, fact)
  {
  }

  lemma {:induction false} SettleRunning(
    rows: seq<Row>, w: Behaviour, s: State, rounds: nat, fact: (seq<Fiber>, Store) -> bool, r: Result)
    requires w == RowBehaviour(rows)
    requires Running(rows, s, fact) && Upheld(rows, fact) && Steady(s, {}, []) && r == Settle(w, s, rounds)
    ensures CameTo(rows, r, fact)
    decreases rounds
  {
    hide *;
    if s.pending == [] || rounds == 0 {
      SettleIdle(w, s, rounds);
      CameIdle(rows, r, fact);
    } else {
      RoundRunning(rows, s, fact);
      var t := RunBatch(w, s.(pending := []), Dedup(s.pending)).state;
      SettleRound(w, s, rounds, t);
      SettleRunning(rows, w, t, rounds - 1, fact, r);
    }
  }

  /** Root.load's mounts followed by the settle. */
  function Boot(rows: seq<Row>, rounds: nat): Result {
    Settle(RowBehaviour(rows), MountRows(rows), rounds)
  }

  /** Whatever holds of freshly mounted rows and is upheld holds when the settle ends. */
  lemma {:induction false} BootUpholds(rows: seq<Row>, rounds: nat, fact: (seq<Fiber>, Store) -> bool)
    requires Composed(rows) && Upheld(rows, fact) && fact(MountRows(rows).fibers, MountRows(rows).store)
    ensures CameTo(rows, Boot(rows, rounds), fact)
  {
    hide Settle, MountRows, Upheld, Steady, Own;
    MountFresh(rows);
    FreshFlat(rows, MountRows(rows));
    SettleRunning(rows, RowBehaviour(rows), MountRows(rows), rounds, fact, Boot(rows, rounds));
  }

  // ---- rounds ------------------------------------------------------------------------------------

  /** Every declarer of a name ranks above everyone who may provide it: the required and optional
      dependency graph, read by bare name, is acyclic, and `depth` bounds its longest path. */
  ghost predicate Ranked(rows: seq<Row>, rank: seq<nat>, depth: nat) {
    && |rank| == |rows|
    && (forall u: Uid :: u < |rows| ==> rank[u] <= depth)
    && (forall u: Uid, v: Uid, n :: u < |rows| && v < |rows| && n in rows[v].may && n in rows[u].decl.Names() ==>
         rank[v] < rank[u])
  }

  /** Every declarer ranks above the row that may supply the service it resolves to. */
  ghost predicate RankedByKey(rows: seq<Row>, rank: seq<nat>, depth: nat) {
    && |rank| == |rows|
    && (forall u: Uid :: u < |rows| ==> rank[u] <= depth)
    && (forall u: Uid, v: Uid :: u < |rows| && v < |rows| ==>
         forall n :: n in rows[v].may && n in rows[u].decl.Names() && KeyOf(rows[v], n) == KeyOf(rows[u], n) ==>
           rank[v] < rank[u])
  }

  /** The rows as parts of a cast. */
  ghost function CastOf(rows: seq<Row>, rank: seq<nat>): Cast
    requires |rank| == |rows|
    requires forall u: Uid, v: Uid :: u < v < |rows| ==> rows[u].entry != rows[v].entry
    ensures forall u: Uid :: u < |rows| ==>
      && rows[u].entry in CastOf(rows, rank)
      && CastOf(rows, rank)[rows[u].entry] == Part(rows[u].decl, rows[u].may, rows[u].isolated, None, rank[u])
    ensures forall e :: e in CastOf(rows, rank) ==> exists u: Uid :: u < |rows| && rows[u].entry == e
  {
    assert forall u: Uid, v: Uid :: u < |rows| && v < |rows| && rows[u].entry == rows[v].entry ==> u == v by {
      forall u: Uid, v: Uid | u < |rows| && v < |rows| && rows[u].entry == rows[v].entry ensures u == v {
        if u < v { } else if v < u { }
      }
    }
    map u: Uid | 0 <= u < |rows| ::
      rows[u].entry := Part(rows[u].decl, rows[u].may, rows[u].isolated, None, rank[u])
  }

  lemma {:induction false} RowsObey(rows: seq<Row>, rank: seq<nat>, named: bool)
    requires Composed(rows) && |rank| == |rows|
    ensures Nested(CastOf(rows, rank)) && Obeys(CastOf(rows, rank), named, RowBehaviour(rows))
  {
    var c := CastOf(rows, rank);
    var w := RowBehaviour(rows);
    forall u: Uid, s: State | u < |s.fibers| && s.fibers[u].entry in c
      ensures !w(u, s).config.Aborts? && !w(u, s).ending.Aborts?
      ensures forall a :: a in w(u, s).actions ==> Allowed(c, named, s, u, a)
    {
      if u < |rows| && s.fibers[u].entry == rows[u].entry {
        assert rows[u].WellFormed();
      }
    }
  }

  lemma {:induction false} KeyIsHome(rows: seq<Row>, rank: seq<nat>, u: Uid, n: Name)
    requires Composed(rows) && |rank| == |rows| && u < |rows|
    ensures HomeOf(CastOf(rows, rank), rows[u].entry, n) == KeyOf(rows[u], n).place
  {
    hide CastOf, Composed;
  }

  lemma {:induction false} RowsStaged(rows: seq<Row>, rank: seq<nat>, named: bool)
    requires Composed(rows) && |rank| == |rows|
    ensures Staged(CastOf(rows, rank), named, MountRows(rows))
  {
    var c := CastOf(rows, rank);
    var s := MountRows(rows);
    MountFresh(rows);
    FreshKeys(rows, s);
    hide *;
    FreshPlays(rows, rank, named, s);
  }

  lemma {:induction false} FreshPlays(rows: seq<Row>, rank: seq<nat>, named: bool, s: State)
    requires Composed(rows) && |rank| == |rows| && FreshTree(rows, s) && KeysMatch(rows, s) && Steady(s, {}, [])
    ensures Staged(CastOf(rows, rank), named, s)
  {
    var c := CastOf(rows, rank);
    FreshSited(rows, rank, s);
    hide CastOf, Composed, Sound, Due, KeysMatch, Sited, Serialized;
    forall u: Uid | u < |rows| ensures Plays(c, named, s, u) { assert FreshFiber(s, rows[u], s.fibers[u]); }
  }

  lemma {:induction false} FreshSited(rows: seq<Row>, rank: seq<nat>, s: State)
    requires Composed(rows) && |rank| == |rows| && FreshTree(rows, s) && KeysMatch(rows, s)
    ensures Sited(CastOf(rows, rank), s)
  {
    var c := CastOf(rows, rank);
    hide CastOf, Composed, KeysMatch;
    forall u: Uid, v: Uid, n | u < |rows| && v < |rows| && SlotOf(s, u, n) == SlotOf(s, v, n)
      ensures HomeOf(c, s.fibers[u].entry, n) == HomeOf(c, s.fibers[v].entry, n)
    {
      SameKey(rows, s, u, v, n);
      KeyIsHome(rows, rank, u, n);
      KeyIsHome(rows, rank, v, n);
    }
    forall u: Uid, n | u < |rows| && SlotOf(s, u, n).realm == 0 ensures HomeOf(c, s.fibers[u].entry, n) == None {
      FreshOwner(rows, s, u, n);
      KeyIsHome(rows, rank, u, n);
      assert FreshFiber(s, rows[u], s.fibers[u]);
    }
  }

  lemma {:induction false} SameKey(rows: seq<Row>, s: State, u: Uid, v: Uid, n: Name)
    requires FreshTree(rows, s) && KeysMatch(rows, s) && u < |rows| && v < |rows| && SlotOf(s, u, n) == SlotOf(s, v, n)
    ensures KeyOf(rows[u], n) == KeyOf(rows[v], n)
    ensures s.fibers[u].entry == rows[u].entry && s.fibers[v].entry == rows[v].entry
  {
    assert FreshFiber(s, rows[u], s.fibers[u]) && FreshFiber(s, rows[v], s.fibers[v]);
  }

  /** Main result: with an acyclic dependency graph of depth at most `depth`, settling a fresh composition
      ends within depth + 1 rounds, whatever its rows provide on seeing what. */
  lemma {:induction false} BoundedConvergence(rows: seq<Row>, rank: seq<nat>, depth: nat, rounds: nat)
    requires Composed(rows) && Ranked(rows, rank, depth) && rounds >= depth + 1
    ensures Boot(rows, rounds).Done?
  {
    RanksMatch(rows, rank, depth);
    var c := CastOf(rows, rank);
    RowsObey(rows, rank, true);
    RowsStaged(rows, rank, true);
    MountFresh(rows);
    GiversRank(rows, rank, depth);
    FreshBound(rows, c);
    hide *;
    NestedConvergence(c, depth, RowBehaviour(rows), MountRows(rows), rounds);
  }

  /** Main result: when the graph of possible suppliers has no cycle and depth at most `depth`, settling a
      fresh composition ends within depth + 2 rounds. */
  lemma {:induction false} KeyedBoundedConvergence(rows: seq<Row>, rank: seq<nat>, depth: nat, rounds: nat)
    requires Composed(rows) && RankedByKey(rows, rank, depth) && rounds >= depth + 2
    ensures Boot(rows, rounds).Done?
  {
    var c := CastOf(rows, rank);
    RowsObey(rows, rank, false);
    RowsStaged(rows, rank, false);
    MountFresh(rows);
    SuppliersRank(rows, rank, depth);
    hide Settle, MountRows, Staged, Obeys, Composed, Steady, Own, Calm, AboveSuppliers, RankedByKey, Nested;
    FreshBound(rows, c);
    NestedKeyedConvergence(c, depth, RowBehaviour(rows), MountRows(rows), rounds);
  }

  lemma {:induction false} SuppliersRank(rows: seq<Row>, rank: seq<nat>, depth: nat)
    requires Composed(rows) && RankedByKey(rows, rank, depth)
    ensures AboveSuppliers(CastOf(rows, rank))
    ensures forall e :: e in CastOf(rows, rank) ==> RankOf(CastOf(rows, rank), e) <= depth
  {
    var c := CastOf(rows, rank);
    hide CastOf, Composed, HomeOf;
    forall g, d, n
      | g in c && d in c && n in c[g].may && n in c[d].decl.Names() && HomeOf(c, g, n) == HomeOf(c, d, n)
      ensures RankOf(c, g) < RankOf(c, d)
    {
      var u: Uid :| u < |rows| && rows[u].entry == d;
      var v: Uid :| v < |rows| && rows[v].entry == g;
      KeyIsHome(rows, rank, u, n);
      KeyIsHome(rows, rank, v, n);
      assert KeyOf(rows[v], n) == KeyOf(rows[u], n);
    }
  }

  lemma {:induction false} GiversRank(rows: seq<Row>, rank: seq<nat>, depth: nat)
    requires Composed(rows) && Ranked(rows, rank, depth)
    ensures AboveGivers(CastOf(rows, rank))
    ensures forall e :: e in CastOf(rows, rank) ==> RankOf(CastOf(rows, rank), e) <= depth
  {
    var c := CastOf(rows, rank);
    hide CastOf, Composed;
    forall g, d, n | g in c && d in c && n in c[g].may && n in c[d].decl.Names() ensures RankOf(c, g) < RankOf(c, d) {
      var u: Uid :| u < |rows| && rows[u].entry == d;
      var v: Uid :| v < |rows| && rows[v].entry == g;
    }
  }

  lemma {:induction false} FreshBound(rows: seq<Row>, c: Cast)
    requires FreshTree(rows, MountRows(rows))
    ensures Bound(c, MountRows(rows), MountRows(rows).pending, 0, [])
    ensures AtLeast(c, MountRows(rows), MountRows(rows).pending, 0)
  {
  }

  lemma {:induction false} RanksMatch(rows: seq<Row>, rank: seq<nat>, depth: nat)
    requires Ranked(rows, rank, depth)
    ensures |rank| == |rows|
  {
  }

  // ---- compositions only the keyed graph admits ----------------------------------------------------------

  /** A row that always gives the same and always returns. */
  function Plain(entry: string, decl: Decl, isolated: set<Name>, names: seq<Name>): Row {
    Row(entry, decl, isolated, set n | n in names, true, seen => names, seen => true)
  }

  const LOGGER := Plain("logger", Decl([], [], {"log"}, false), {}, ["log"])
  const AUDIT := Plain("audit", Decl(["db"], [], {"log"}, false), {"log"}, ["log"])
  const STORE := Plain("store", Decl(["log"], [], {"db"}, false), {}, ["db"])

  /** A private logger that needs the store, and a store that needs the shared logger: cyclic by name,
      acyclic by key. */
  lemma {:induction false} KeyedIsWider()
    ensures var rows := [LOGGER, AUDIT, STORE];
      && Composed(rows) && RankedByKey(rows, [0, 2, 1], 2)
      && forall rank, depth :: !Ranked(rows, rank, depth)
  {
    var rows := [LOGGER, AUDIT, STORE];
    assert "logger"[0] != "audit"[0] && "logger"[0] != "store"[0] && "audit"[0] != "store"[0] && "log"[0] != "db"[0];
    assert LOGGER.decl.Names() == [] && AUDIT.decl.Names() == ["db"] && STORE.decl.Names() == ["log"];
    assert "db" in rows[2].may && "db" in rows[1].decl.Names();
    assert "log" in rows[1].may && "log" in rows[2].decl.Names();
    forall rank: seq<nat>, depth ensures !Ranked(rows, rank, depth) { }
  }
}
