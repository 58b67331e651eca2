/** src/aka/core/loader.py: mount the rows, settle, and keep the tree only if every required row is
    ACTIVE. */
module Loader {
  import opened Lists
  import opened Registry
  import opened Runtime
  import opened Settling
  import opened Runs
  import opened Rosters
  import opened Ownership
  import opened OwnedActions
  import opened OwnedRuns
  import opened Shutdown
  import opened Rows
  import opened FlatSteps
  import opened Convergence
  import opened FixedPoints
  import opened MountOrder
  import opened Objects

  /** An enabled row; `resolves` says whether its module imports and its declaration checks out. */
  datatype Entry = Entry(id: string, decl: Decl, isolated: set<Name>, resolves: bool)

  /** Why a required id is not ACTIVE: its row failed, or could not be mounted; it waits for services; or
      no enabled row has the id. */
  datatype Reason = Failure | Waiting(missing: seq<Name>) | Unlisted

  datatype LoadOutcome = Booted | Blocked(reasons: map<string, Reason>) | Raised

  function MountEntry(s: State, e: Entry): State {
    if e.resolves then MountStep(s, None, 0, e.id, e.decl, e.isolated).state else s
  }

  /** The mounts of load, in row order; a row that cannot be mounted is skipped. */
  function MountEntries(rows: seq<Entry>): State {
    if rows == [] then EMPTY else MountEntry(MountEntries(rows[..|rows| - 1]), rows[|rows| - 1])
  }

  /** The ids of the rows that were skipped. */
  function Unresolved(rows: seq<Entry>): set<string> {
    if rows == [] then {}
    else
      var before, e := rows[..|rows| - 1], rows[|rows| - 1];
      Unresolved(before)
      + if e.resolves && MountStep(MountEntries(before), None, 0, e.id, e.decl, e.isolated).Ok? then {} else {e.id}
  }

  /** Root.active. */
  function ActiveIds(s: State): set<string> {
    set u | u in s.mounted && u < |s.fibers| && s.fibers[u].phase == Active :: s.fibers[u].entry
  }

  /** The ids asked for, and those of mounted fibers that are required, children mounted by plugins
      included. */
  function RequiredIds(s: State, required: set<string>): set<string> {
    required + set u | u in s.mounted && u < |s.fibers| && s.fibers[u].decl.required :: s.fibers[u].entry
  }

  /** The mounted fiber with an id. */
  function WithId(s: State, us: seq<Uid>, id: string): (u: Option<Uid>)
    ensures u.Some? ==> u.value in us && u.value < |s.fibers| && s.fibers[u.value].entry == id
    ensures u.None? ==> forall v :: v in us && v < |s.fibers| ==> s.fibers[v].entry != id
  {
    if us == [] then None
    else if us[0] < |s.fibers| && s.fibers[us[0]].entry == id then Some(us[0])
    else WithId(s, us[1..], id)
  }

  /** Fiber.unsatisfied. */
  function Unsatisfied(s: State, r: RealmId, names: seq<Name>): seq<Name> {
    if names == [] then []
    else (if Resolve(s.store, r, names[0]).None? then [names[0]] else []) + Unsatisfied(s, r, names[1..])
  }

  function ReasonFor(s: State, unresolved: set<string>, id: string): Reason {
    var u := WithId(s, s.mounted, id);
    if u.Some? && s.fibers[u.value].phase == Pending then
      Waiting(Unsatisfied(s, s.fibers[u.value].realm, s.fibers[u.value].decl.inject))
    else if (u.Some? && s.fibers[u.value].phase == Failed) || id in unresolved then Failure
    else Unlisted
  }

  /** A required id must be ACTIVE; anything else is not good enough. */
  function Decide(rows: seq<Entry>, r: Result, required: set<string>): LoadOutcome {
    if !r.Done? then Raised
    else
      var missing := RequiredIds(r.state, required) - ActiveIds(r.state);
      if missing == {} then Booted
      else Blocked(map id | id in missing :: ReasonFor(r.state, Unresolved(rows), id))
  }

  lemma {:induction false} EntriesHealthy(rows: seq<Entry>)
    ensures Steady(MountEntries(rows), {}, []) && Own(MountEntries(rows), {})
    decreases |rows|
  {
    if rows == [] {
      EmptySteady();
    } else {
      var e := rows[|rows| - 1];
      var s := MountEntries(rows[..|rows| - 1]);
      EntriesHealthy(rows[..|rows| - 1]);
      MountSteady(s, None, 0, e.id, e.decl, e.isolated, {});
      MountOwn(s, None, 0, e.id, e.decl, e.isolated, {});
    }
  }

  // ---- what the decision means -------------------------------------------------------------------------

  ghost predicate ActiveAs(s: State, id: string) {
    exists u: Uid :: u in s.mounted && u < |s.fibers| && s.fibers[u].phase == Active && s.fibers[u].entry == id
  }

  ghost predicate FailedAs(s: State, id: string) {
    exists u: Uid :: u in s.mounted && u < |s.fibers| && s.fibers[u].phase == Failed && s.fibers[u].entry == id
  }

  /** u is the mounted PENDING fiber of the row. */
  ghost predicate PendingAs(s: State, id: string, u: Uid) {
    u in s.mounted && u < |s.fibers| && s.fibers[u].phase == Pending && s.fibers[u].entry == id
  }

  /** The caller asks for the row, or a mounted fiber that the tree requires carries its id. */
  ghost predicate Needed(s: State, required: set<string>, id: string) {
    id in required
    || exists u: Uid :: u in s.mounted && u < |s.fibers| && s.fibers[u].decl.required && s.fibers[u].entry == id
  }

  /** Some row with this id did not resolve, or came after one that was mounted under it. */
  ghost predicate Refused(rows: seq<Entry>, id: string) {
    exists k: nat :: RefusedAt(rows, k, id)
  }

  ghost predicate RefusedAt(rows: seq<Entry>, k: nat, id: string) {
    && k < |rows| && rows[k].id == id
    && (!rows[k].resolves || exists j :: 0 <= j < k && rows[j].resolves && rows[j].id == id)
  }

  /** The injections of u that resolve to nothing, each as often as it is listed. */
  ghost predicate ExactlyUnresolved(s: State, u: Uid, missing: seq<Name>)
    requires u < |s.fibers|
  {
    forall n :: multiset(missing)[n] ==
      if Resolve(s.store, s.fibers[u].realm, n).None? then multiset(s.fibers[u].decl.inject)[n] else 0
  }

  /** The reason is that the row's fiber waits, for exactly these services; or else that it failed or was
      refused; or else that there is no such row. */
  ghost predicate ReasonIs(s: State, rows: seq<Entry>, id: string, reason: Reason) {
    if exists u :: PendingAs(s, id, u) then
      reason.Waiting? && exists u :: PendingAs(s, id, u) && ExactlyUnresolved(s, u, reason.missing)
    else reason == if FailedAs(s, id) || Refused(rows, id) then Failure else Unlisted
  }

  /** What load decides on the tree as the settle left it. */
  ghost predicate DecisionIs(rows: seq<Entry>, r: Result, required: set<string>, boot: LoadOutcome) {
    && (boot.Raised? <==> !r.Done?)
    && (boot.Booted? <==> r.Done? && forall id :: Needed(r.state, required, id) ==> ActiveAs(r.state, id))
    && (boot.Blocked? ==> forall id ::
         && (id in boot.reasons <==> Needed(r.state, required, id) && !ActiveAs(r.state, id))
         && (id in boot.reasons ==> ReasonIs(r.state, rows, id, boot.reasons[id])))
  }

  /** An id is taken once a row that resolves has it. */
  lemma {:induction false} TakenIds(rows: seq<Entry>, id: string)
    ensures EntryTaken(MountEntries(rows), id) <==> exists j :: 0 <= j < |rows| && rows[j].resolves && rows[j].id == id
    ensures OneEach(MountEntries(rows))
  {
    if rows != [] {
      var n := |rows| - 1;
      var e, s := rows[n], MountEntries(rows[..n]);
      assert forall j :: 0 <= j < n ==> rows[..n][j] == rows[j];
      TakenIds(rows[..n], id);
      TakenIds(rows[..n], e.id);
      MountOneEach(s, None, 0, e.id, e.decl, e.isolated);
      if e.resolves { MountTakes(s, e, id); }
      if EntryTaken(s, id) { var j :| 0 <= j < n && rows[..n][j].resolves && rows[..n][j].id == id; }
    }
  }

  lemma {:induction false} MountTakes(s: State, e: Entry, id: string)
    requires OneEach(s)
    ensures EntryTaken(MountStep(s, None, 0, e.id, e.decl, e.isolated).state, id) <==> EntryTaken(s, id) || id == e.id
  {
    var t := MountStep(s, None, 0, e.id, e.decl, e.isolated).state;
    if t != s {
      assert t.mounted[|s.mounted|] == |s.fibers| && t.fibers[|s.fibers|].entry == e.id;
      forall v | v in s.mounted ensures v in t.mounted && t.fibers[v].entry == s.fibers[v].entry { }
    }
  }

  lemma {:induction false} RefusedIds(rows: seq<Entry>, id: string)
    ensures id in Unresolved(rows) <==> Refused(rows, id)
  {
    if rows != [] {
      var n := |rows| - 1;
      var before, e := rows[..n], rows[n];
      RefusedIds(before, id);
      TakenIds(before, id);
      assert forall k: nat :: k < n ==> before[k] == rows[k];
      assert e.id == id ==> (e.resolves && MountStep(MountEntries(before), None, 0, e.id, e.decl, e.isolated).Ok? <==>
        e.resolves && !EntryTaken(MountEntries(before), id));
      hide MountStep, MountEntries;
      forall k: nat | k < n ensures RefusedAt(before, k, id) == RefusedAt(rows, k, id) { }
      if Refused(before, id) {
        var k: nat :| RefusedAt(before, k, id);
        assert RefusedAt(rows, k, id);
      }
      assert RefusedAt(rows, n, id) <==> e.id == id && (!e.resolves || EntryTaken(MountEntries(before), id));
    }
  }

  lemma {:induction false} UnsatisfiedIs(s: State, r: RealmId, names: seq<Name>, n: Name)
    ensures multiset(Unsatisfied(s, r, names))[n] == if Resolve(s.store, r, n).None? then multiset(names)[n] else 0
  {
    if names != [] {
      UnsatisfiedIs(s, r, names[1..], n);
      assert names == [names[0]] + names[1..];
    }
  }

  lemma {:induction false} ReasonMeans(s: State, rows: seq<Entry>, id: string)
    requires OneEach(s) && !ActiveAs(s, id)
    ensures ReasonIs(s, rows, id, ReasonFor(s, Unresolved(rows), id))
  {
    RefusedIds(rows, id);
    hide Unresolved, Refused, Unsatisfied;
    var w := WithId(s, s.mounted, id);
    if w.Some? && s.fibers[w.value].phase == Pending {
      var u := w.value;
      assert PendingAs(s, id, u);
      forall n
        ensures multiset(Unsatisfied(s, s.fibers[u].realm, s.fibers[u].decl.inject))[n] ==
          if Resolve(s.store, s.fibers[u].realm, n).None? then multiset(s.fibers[u].decl.inject)[n] else 0
      {
        UnsatisfiedIs(s, s.fibers[u].realm, s.fibers[u].decl.inject, n);
      }
      assert ExactlyUnresolved(s, u, Unsatisfied(s, s.fibers[u].realm, s.fibers[u].decl.inject));
    }
  }

  /** Main result: the decision, read off the settled tree and the row list. */
  lemma {:induction false} DecideMeans(rows: seq<Entry>, r: Result, required: set<string>)
    requires OneEach(r.state)
    ensures DecisionIs(rows, r, required, Decide(rows, r, required))
  {
    if r.Done? {
      var s := r.state;
      forall id ensures id in RequiredIds(s, required) <==> Needed(s, required, id) { }
      forall id ensures id in ActiveIds(s) <==> ActiveAs(s, id) { }
      var missing := RequiredIds(s, required) - ActiveIds(s);
      hide ReasonFor, ReasonIs, Needed, ActiveAs, Unresolved, RequiredIds, ActiveIds;
      if missing == {} {
        forall id | Needed(s, required, id) ensures ActiveAs(s, id) { assert id !in missing; }
      } else {
        var id :| id in missing;
        assert Needed(s, required, id) && !ActiveAs(s, id);
      }
      forall id | id in missing ensures ReasonIs(s, rows, id, ReasonFor(s, Unresolved(rows), id)) {
        ReasonMeans(s, rows, id);
      }
    }
  }

  /** No fiber, registration or effect is left. */
  ghost predicate Bygone(s: State) {
    && s.mounted == [] && s.pending == [] && s.store.impls == map[]
    && forall v: Uid :: v < |s.fibers| ==> s.fibers[v].phase == Disposed && Bare(s.fibers[v])
  }

  lemma {:induction false} LoadedTree(w: Behaviour, rounds: nat, rows: seq<Entry>)
    ensures var r := Settle(w, MountEntries(rows), rounds);
      && Bygone(RootDispose(r.state))
      && (r.Done? ==> NoStale(r.state))
  {
    EntriesHealthy(rows);
    var s := MountEntries(rows);
    SettleSteady(w, s, rounds, {});
    SettleOwn(w, s, rounds, {});
    var r := Settle(w, s, rounds);
    if r.Aborted? {
      var u: Uid :| u < |r.state.fibers| && Steady(r.state, {} + {u}, []);
      DisposeLeavesNothing(r.state, {} + {u});
    } else {
      DisposeLeavesNothing(r.state, {});
      if r.Done? { QuietNoStale(r.state); }
    }
  }

  lemma {:induction false} LoadMeans(w: Behaviour, rounds: nat, rows: seq<Entry>, required: set<string>)
    ensures var r := Settle(w, MountEntries(rows), rounds);
      DecisionIs(rows, r, required, Decide(rows, r, required))
  {
    hide Settle, DecisionIs, OneEach, Decide;
    TakenIds(rows, "");
    SettleOneEach(w, MountEntries(rows), rounds);
    DecideMeans(rows, Settle(w, MountEntries(rows), rounds), required);
  }

  /** load: the tree stands exactly when the settle ends and every required id, those required by setup
      included, is ACTIVE; otherwise every missing id has its reason, and nothing of the tree is left. */
  method Load(
    w: Behaviour, rounds: nat, rows: seq<Entry>, required: set<string>) returns (root: RootObject, boot: LoadOutcome)
    ensures fresh(root) && root.Valid()
    ensures var r := Settle(w, MountEntries(rows), rounds);
      && boot == Decide(rows, r, required) && DecisionIs(rows, r, required, boot)
      && (boot.Booted? ==> root.St() == r.state && NoStale(root.St()) && root.pending == [])
      && (!boot.Booted? ==> root.St() == RootDispose(r.state) && Bygone(root.St()))
  {
    hide Settle, NoStale, Bygone, Steady, RootDispose, MountStep, ReasonFor, DecisionIs, OneEach;
    LoadMeans(w, rounds, rows, required);
    root := new RootObject(rounds);
    var unresolved: set<string> := {};
    var i := 0;
    assert rows[..0] == [];
    while i < |rows|
      invariant i <= |rows|
      invariant root.Valid() && fresh(root) && fresh(root.repr) && root.settleRounds == rounds
      invariant root.St() == MountEntries(rows[..i]) && unresolved == Unresolved(rows[..i])
    {
      var e := rows[i];
      assert rows[..i + 1][..i] == rows[..i] && rows[..i + 1][i] == e;
      var mounted := false;
      if e.resolves {
        ghost var s := root.St();
        mounted := root.Mount(None, 0, e.id, e.decl, e.isolated);
        assert root.St() == MountStep(s, None, 0, e.id, e.decl, e.isolated).state;
      }
      if !mounted { unresolved := unresolved + {e.id}; }
      i := i + 1;
    }
    assert rows[..i] == rows;
    EntriesHealthy(rows);
    LoadedTree(w, rounds, rows);
    var o := root.SettleAll(w, {});
    SettledQueue(w, MountEntries(rows), rounds);
    if o != Finished {
      root.DisposeRoot();
      return root, Raised;
    }
    var s := root.St();
    var missing := RequiredIds(s, required) - ActiveIds(s);
    if missing == {} { return root, Booted; }
    boot := Blocked(map id | id in missing :: ReasonFor(s, unresolved, id));
    root.DisposeRoot();
  }

  lemma {:induction false} SettledQueue(w: Behaviour, s: State, rounds: nat)
    requires Steady(s, {}, [])
    ensures Settle(w, s, rounds).Done? ==> Settle(w, s, rounds).state.pending == []
  {
    SettleSteady(w, s, rounds, {});
  }

  // ---- flat compositions -------------------------------------------------------------------------

  function EntryOf(row: Row): Entry {
    Entry(row.entry, row.decl, row.isolated, true)
  }

  function Entries(rows: seq<Row>): seq<Entry> {
    seq(|rows|, i requires 0 <= i < |rows| => EntryOf(rows[i]))
  }

  lemma {:induction false} EntriesMount(rows: seq<Row>)
    ensures MountEntries(Entries(rows)) == MountRows(rows)
    decreases |rows|
  {
    if rows != [] {
      var n := |rows| - 1;
      EntriesMount(rows[..n]);
      assert Entries(rows)[..n] == Entries(rows[..n]);
    }
  }

  /** The ids of the rows that serve. */
  ghost function Ids(a: set<Serving>): set<string> {
    set l | l in a :: l.row.entry
  }

  /** The injections of a row that no row of a supplies. */
  ghost function Unsupplied(a: set<Serving>, row: Row, names: seq<Name>): seq<Name> {
    if names == [] then []
    else (if Supplied(a, row, names[0]) then [] else [names[0]]) + Unsupplied(a, row, names[1..])
  }

  /** Why a row that does not serve in a is not ACTIVE. */
  ghost function RowReason(a: set<Serving>, row: Row): Reason {
    if row.Fails(View(a, row)) then Failure else Waiting(Unsupplied(a, row, row.decl.inject))
  }

  /** The ids a flat composition requires. */
  function Demanded(rows: seq<Row>, required: set<string>): set<string> {
    required + set u: Uid | 0 <= u < |rows| && rows[u].decl.required :: rows[u].entry
  }

  /** What load should decide, given the rows that serve. Unless the reasons are exact, a row that can never
      succeed may be reported as failed though it is not fed any more. */
  ghost predicate Decided(
    rows: seq<Row>, required: set<string>, a: set<Serving>, boot: LoadOutcome, exact: bool)
  {
    var missing := Demanded(rows, required) - Ids(a);
    if missing == {} then boot == Booted
    else
      && boot.Blocked? && boot.reasons.Keys == missing
      && (forall u: Uid :: u < |rows| && rows[u].entry in missing ==>
        boot.reasons[rows[u].entry] == RowReason(a, rows[u])
        || (!exact && boot.reasons[rows[u].entry] == Failure && Hopeless(rows[u])))
      && (forall id :: id in missing && (forall u: Uid :: u < |rows| ==> rows[u].entry != id) ==>
        boot.reasons[id] == Unlisted)
  }

  /** Main result: loading a composition of steadfast rows whose possible suppliers form an acyclic graph of
      depth at most `depth` never raises, succeeds exactly when each required id names a row of the one
      consistent set of servings, and otherwise gives each missing id its reason: the exact one, when no row
      gives less for seeing more. */
  lemma {:induction false} LoadDecided(
    rows: seq<Row>, rank: seq<nat>, depth: nat, rounds: nat, required: set<string>, a: set<Serving>)
    requires Composed(rows) && AllSteadfast(rows) && Consistent(RowSet(rows), a)
    requires RankedByKey(rows, rank, depth) && rounds >= depth + (if Ranked(rows, rank, depth) then 1 else 2)
    ensures var boot :=
        Decide(Entries(rows), Settle(RowBehaviour(rows), MountEntries(Entries(rows)), rounds), required);
      Decided(rows, required, a, boot, false) && (AllMonotone(rows) ==> Decided(rows, required, a, boot, true))
  {
    hide Composed, AllSteadfast, Consistent, Ranked, RankedByKey, Settle, Decided, Decide, Verdict, Servings;
    EntriesMount(rows);
    if Ranked(rows, rank, depth) {
      BoundedConvergence(rows, rank, depth, rounds);
    } else {
      KeyedBoundedConvergence(rows, rank, depth, rounds);
    }
    SettlesConsistently(rows, rounds);
    var s := Boot(rows, rounds).state;
    ConsistentUnique(rows, rank, depth, a, Servings(rows, s.fibers));
    BootEntries(rows, rounds);
    AllMounted(rows);
    DecidedFor(rows, s, required, a, false);
    if AllMonotone(rows) {
      SettlesAtLeastFixedPoint(rows, rounds);
      DecidedFor(rows, s, required, a, true);
    }
  }

  /** From the verdict on the settled tree to the decision. */
  lemma {:induction false} DecidedFor(
    rows: seq<Row>, s: State, required: set<string>, a: set<Serving>, exact: bool)
    requires Composed(rows) && Verdict(rows, s, a) && Consistent(RowSet(rows), a) && Unresolved(Entries(rows)) == {}
    requires Listed(rows, s)
    requires exact ==> forall u: Uid :: u < |rows| ==> s.fibers[u].phase == rows[u].Outcome(View(a, rows[u]))
    ensures Decided(rows, required, a, Decide(Entries(rows), Done(s), required), exact)
  {
    hide Composed, Verdict, Consistent;
    IdsAgree(rows, s, required, a);
    var missing := Demanded(rows, required) - Ids(a);
    forall u: Uid | u < |rows| && rows[u].entry in missing
      ensures ReasonFor(s, {}, rows[u].entry) == RowReason(a, rows[u])
        || (!exact && ReasonFor(s, {}, rows[u].entry) == Failure && Hopeless(rows[u]))
    {
      ReasonAgrees(rows, s, a, u);
    }
    forall id | forall u: Uid :: u < |rows| ==> rows[u].entry != id ensures ReasonFor(s, {}, id) == Unlisted { }
  }

  /** Every row is mounted, under its own id and declaration, and nothing else is. */
  ghost predicate Listed(rows: seq<Row>, s: State) {
    && |s.fibers| == |rows| && Uids(s, s.mounted)
    && forall u: Uid :: u < |rows| ==>
      u in s.mounted && s.fibers[u].entry == rows[u].entry && s.fibers[u].decl == rows[u].decl
  }

  lemma {:induction false} IdsAgree(rows: seq<Row>, s: State, required: set<string>, a: set<Serving>)
    requires Listed(rows, s) && Verdict(rows, s, a) && Consistent(RowSet(rows), a)
    ensures ActiveIds(s) == Ids(a) && RequiredIds(s, required) == Demanded(rows, required)
  {
    forall id | id in Ids(a) ensures id in ActiveIds(s) {
      var l :| l in a && l.row.entry == id;
      var u: Uid :| 0 <= u < |rows| && rows[u] == l.row;
      assert RowVerdict(rows[u], s.fibers[u].phase, a);
    }
    forall id | id in ActiveIds(s) ensures id in Ids(a) {
      var u :| u in s.mounted && u < |s.fibers| && s.fibers[u].phase == Active && s.fibers[u].entry == id;
      assert RowVerdict(rows[u], s.fibers[u].phase, a);
      assert Serving(rows[u], View(a, rows[u])) in a;
    }
    forall id | id in Demanded(rows, required) && id !in required ensures id in RequiredIds(s, required) {
      var u: Uid :| 0 <= u < |rows| && rows[u].decl.required && rows[u].entry == id;
      assert u in s.mounted;
    }
  }

  lemma {:induction false} ReasonAgrees(rows: seq<Row>, s: State, a: set<Serving>, u: Uid)
    requires Composed(rows) && Listed(rows, s) && Verdict(rows, s, a) && Consistent(RowSet(rows), a)
    requires u < |rows| && rows[u].entry !in Ids(a)
    ensures var reason := ReasonFor(s, {}, rows[u].entry);
      && (s.fibers[u].phase == Pending ==> reason == RowReason(a, rows[u]))
      && (s.fibers[u].phase != Pending ==> s.fibers[u].phase == Failed && reason == Failure && Hopeless(rows[u]))
  {
    var v := WithId(s, s.mounted, rows[u].entry);
    assert v.Some?;
    assert v.value == u by { ComposedDistinct(rows); }
    assert RowVerdict(rows[u], s.fibers[u].phase, a);
    RunningServes(rows, a, u);
    UnsatisfiedAgree(rows, s, a, u, rows[u].decl.inject);
  }

  lemma {:induction false} RunningServes(rows: seq<Row>, a: set<Serving>, u: Uid)
    requires Consistent(RowSet(rows), a) && u < |rows|
    ensures rows[u].Runs(View(a, rows[u])) ==> rows[u].entry in Ids(a)
  {
    if rows[u].Runs(View(a, rows[u])) { assert Serving(rows[u], View(a, rows[u])) in a; }
  }

  lemma {:induction false} UnsatisfiedAgree(rows: seq<Row>, s: State, a: set<Serving>, u: Uid, names: seq<Name>)
    requires Verdict(rows, s, a) && u < |rows|
    ensures Unsatisfied(s, s.fibers[u].realm, names) == Unsupplied(a, rows[u], names)
  {
    if names != [] {
      UnsatisfiedAgree(rows, s, a, u, names[1..]);
      assert NameVerdict(rows, s, u, names[0], a);
    }
  }

  /** Distinct rows that resolve are all mounted. */
  lemma {:induction false} AllMounted(rows: seq<Row>)
    requires Composed(rows)
    ensures Unresolved(Entries(rows)) == {}
    decreases |rows|
  {
    hide Composed, MountStep, MountRows;
    if rows != [] {
      var n := |rows| - 1;
      assert Entries(rows)[..n] == Entries(rows[..n]);
      ComposedPrefix(rows);
      AllMounted(rows[..n]);
      EntriesMount(rows[..n]);
      LastMounts(rows);
    }
  }

  lemma {:induction false} LastMounts(rows: seq<Row>)
    requires Composed(rows) && rows != []
    ensures var row := rows[|rows| - 1];
      MountStep(MountRows(rows[..|rows| - 1]), None, 0, row.entry, row.decl, row.isolated).Ok?
  {
    var n := |rows| - 1;
    ComposedPrefix(rows);
    MountFresh(rows[..n]);
    var s := MountRows(rows[..n]);
    forall v: Uid | v < n ensures s.fibers[v].entry != rows[n].entry {
      assert FreshFiber(s, rows[..n][v], s.fibers[v]);
    }
    hide MountRows;
    assert !EntryTaken(s, rows[n].entry);
  }

  lemma {:induction false} ComposedPrefix(rows: seq<Row>)
    requires Composed(rows) && rows != []
    ensures Composed(rows[..|rows| - 1])
  {
  }

  /** Row ids, declarations and the mounted set survive a settle of a flat composition. */
  lemma {:induction false} BootEntries(rows: seq<Row>, rounds: nat)
    requires Composed(rows)
    ensures Listed(rows, Boot(rows, rounds).state)
  {
    var r := Boot(rows, rounds);
    Anything(rows);
    hide Settle, MountRows, Own, KeysMatch, UniqueGivers, Boot, Upheld, Composed;
    BootUpholds(rows, rounds, (fs, g) => true);
    forall u: Uid | u < |rows|
      ensures u in r.state.mounted && r.state.fibers[u].entry == rows[u].entry && r.state.fibers[u].decl == rows[u].decl
    {
      assert RowRight(rows, r.state, u) && RowFixed(r.state.fibers[u], rows[u]);
    }
  }
}
