/** What a settled flat composition looks like, read off its rows alone. */
module FixedPoints {
  import opened Registry
  import opened Runtime
  import opened Settling
  import opened Runs
  import opened Rows
  import opened FlatSteps
  import opened Convergence

  /** A row that is ACTIVE, and the names its apply saw. */
  datatype Serving = Serving(row: Row, saw: set<Name>)

  ghost predicate SuppliedBy(l: Serving, row: Row, n: Name) {
    n in l.row.gives(l.saw) && KeyOf(l.row, n) == KeyOf(row, n)
  }

  /** Some row of a gives the service that `row` sees under the name n. */
  ghost predicate Supplied(a: set<Serving>, row: Row, n: Name) {
    exists l :: l in a && SuppliedBy(l, row, n)
  }

  /** The declared names that other rows of a supply. */
  ghost function View(a: set<Serving>, row: Row): set<Name> {
    set n | n in row.decl.Names() && exists l :: l in a && l.row != row && SuppliedBy(l, row, n)
  }

  /** The rows of a are exactly those that run on what the others supply, and that is what they saw. */
  ghost predicate Consistent(all: set<Row>, a: set<Serving>) {
    forall l: Serving :: l in a <==> l.row in all && l.saw == View(a, l.row) && l.row.Runs(l.saw)
  }

  ghost function RowSet(rows: seq<Row>): set<Row> {
    set u: Uid | 0 <= u < |rows| :: rows[u]
  }

  ghost function Servings(rows: seq<Row>, fs: seq<Fiber>): set<Serving> {
    set u: Uid | 0 <= u < |rows| && u < |fs| && fs[u].phase == Active :: Serving(rows[u], Saw(fs[u]))
  }

  lemma {:induction false} ServingAt(rows: seq<Row>, s: State, l: Serving) returns (u: Uid)
    requires l in Servings(rows, s.fibers)
    ensures u < |rows| && u < |s.fibers| && s.fibers[u].phase == Active && l == Serving(rows[u], Saw(s.fibers[u]))
  {
    u :| 0 <= u < |rows| && u < |s.fibers| && s.fibers[u].phase == Active && l == Serving(rows[u], Saw(s.fibers[u]));
  }

  // ---- from slots to rows --------------------------------------------------------------------------

  /** A slot is live exactly when an ACTIVE row supplies it, and that row owns it. */
  lemma {:induction false} SlotSupplied(rows: seq<Row>, s: State, u: Uid, n: Name)
    requires Flat(rows, s, {}) && KeysMatch(rows, s) && u < |rows|
    ensures SlotOf(s, u, n) in s.store.impls ==>
      var o := s.store.impls[SlotOf(s, u, n)].owner;
      && o < |rows| && s.fibers[o].phase == Active && SuppliedBy(Serving(rows[o], Saw(s.fibers[o])), rows[u], n)
    ensures forall o: Uid :: o < |rows| && s.fibers[o].phase == Active ==>
      SuppliedBy(Serving(rows[o], Saw(s.fibers[o])), rows[u], n) ==>
        SlotOf(s, u, n) in s.store.impls && s.store.impls[SlotOf(s, u, n)].owner == o
  {
    var slot := SlotOf(s, u, n);
    if slot in s.store.impls { assert Backed(rows, s, slot, {}); }
    forall o: Uid |
      o < |rows| && s.fibers[o].phase == Active && SuppliedBy(Serving(rows[o], Saw(s.fibers[o])), rows[u], n)
      ensures slot in s.store.impls && s.store.impls[slot].owner == o
    {
      assert SlotOf(s, o, n) == slot && RowRight(rows, s, o);
      assert Backed(rows, s, slot, {});
      OffersGiven(rows, s, o, n);
      OffersGiven(rows, s, s.store.impls[slot].owner, n);
    }
  }

  lemma {:induction false} OffersGiven(rows: seq<Row>, s: State, o: Uid, n: Name)
    requires Flat(rows, s, {}) && o < |rows| && n in rows[o].gives(Saw(s.fibers[o]))
    ensures Offers(rows, s, o, SlotOf(s, o, n))
  {
    assert rows[o].WellFormed();
  }

  lemma {:induction false} SlotsSupplied(rows: seq<Row>, s: State, u: Uid, n: Name)
    requires Flat(rows, s, {}) && KeysMatch(rows, s) && u < |rows|
    ensures SlotOf(s, u, n) in s.store.impls <==> Supplied(Servings(rows, s.fibers), rows[u], n)
  {
    SlotSupplied(rows, s, u, n);
    if SlotOf(s, u, n) in s.store.impls {
      var o := s.store.impls[SlotOf(s, u, n)].owner;
      assert Serving(rows[o], Saw(s.fibers[o])) in Servings(rows, s.fibers);
    }
    if Supplied(Servings(rows, s.fibers), rows[u], n) {
      var l :| l in Servings(rows, s.fibers) && SuppliedBy(l, rows[u], n);
      var o := ServingAt(rows, s, l);
    }
  }

  /** What u would see if it loaded now is its view of the ACTIVE rows. */
  lemma {:induction false} OuterIsView(rows: seq<Row>, s: State, u: Uid)
    requires Flat(rows, s, {}) && KeysMatch(rows, s) && Distinct(rows) && u < |rows|
    ensures Outer(s, u) == View(Servings(rows, s.fibers), rows[u])
  {
    var a := Servings(rows, s.fibers);
    assert s.fibers[u].decl == rows[u].decl by { assert RowFixed(s.fibers[u], rows[u]); }
    forall n | n in rows[u].decl.Names() ensures n in Outer(s, u) <==> n in View(a, rows[u]) {
      SlotSupplied(rows, s, u, n);
      if n in Outer(s, u) {
        var o := s.store.impls[SlotOf(s, u, n)].owner;
        assert Serving(rows[o], Saw(s.fibers[o])) in a && rows[o] != rows[u];
      }
      if n in View(a, rows[u]) {
        var l :| l in a && l.row != rows[u] && SuppliedBy(l, rows[u], n);
        var o := ServingAt(rows, s, l);
      }
    }
  }

  ghost predicate Distinct(rows: seq<Row>) {
    forall u: Uid, v: Uid :: u < |rows| && v < |rows| && rows[u].entry == rows[v].entry ==> u == v
  }

  lemma {:induction false} ComposedDistinct(rows: seq<Row>)
    requires Composed(rows)
    ensures Distinct(rows)
  {
    forall u: Uid, v: Uid | u < |rows| && v < |rows| && rows[u].entry == rows[v].entry ensures u == v {
      if u < v { } else if v < u { }
    }
  }

  // ---- facts every refresh upholds ---------------------------------------------------------------------

  /** Fibers and store as a state, for what reads no more than them. */
  function Stood(fs: seq<Fiber>, g: Store): State {
    EMPTY.(fibers := fs, store := g)
  }

  lemma {:induction false} OuterStood(s: State, u: Uid)
    requires u < |s.fibers|
    ensures Outer(Stood(s.fibers, s.store), u) == Outer(s, u)
  {
    assert forall n :: SlotOf(Stood(s.fibers, s.store), u, n) == SlotOf(s, u, n);
  }

  /** Whoever failed did so on names that others served. */
  ghost predicate FailedOnce(rows: seq<Row>, fs: seq<Fiber>) {
    forall u: Uid :: u < |rows| && u < |fs| && fs[u].phase == Failed ==> MayFail(rows[u])
  }

  ghost predicate MayFail(row: Row) {
    exists seen :: seen <= row.Visible() && row.Fails(seen)
  }

  lemma {:induction false} OuterVisible(rows: seq<Row>, s: State, u: Uid)
    requires Flat(rows, s, {}) && KeysMatch(rows, s) && Distinct(rows) && u < |rows|
    ensures Outer(s, u) <= rows[u].Visible()
  {
    OuterIsView(rows, s, u);
    forall n | n in Outer(s, u) ensures n !in rows[u].isolated {
      var l :| l in Servings(rows, s.fibers) && l.row != rows[u] && SuppliedBy(l, rows[u], n);
      var o := ServingAt(rows, s, l);
    }
  }

  lemma {:induction false} FailuresUpheld(rows: seq<Row>)
    requires Distinct(rows)
    ensures Upheld(rows, (fs, g) => FailedOnce(rows, fs))
  {
    forall s: State, r: Result, u: Uid |
      Flat(rows, s, {}) && KeysMatch(rows, s) && FailedOnce(rows, s.fibers) && u < |rows| && RowRefreshed(rows, s, r, u)
      ensures FailedOnce(rows, r.state.fibers)
    {
      OuterVisible(rows, s, u);
      forall v: Uid | v < |rows| && r.state.fibers[v].phase == Failed ensures MayFail(rows[v]) {
        if v != u { assert r.state.fibers[v] == s.fibers[v]; }
      }
    }
  }

  // ---- the verdict ---------------------------------------------------------------------------------------

  ghost predicate AllSteadfast(rows: seq<Row>) {
    forall u: Uid :: u < |rows| ==> rows[u].Steadfast()
  }

  ghost predicate AllMonotone(rows: seq<Row>) {
    forall u: Uid :: u < |rows| ==> rows[u].Monotone()
  }

  /** No load of the row that sees what it requires succeeds. */
  ghost predicate Hopeless(row: Row) {
    forall seen :: row.Fed(seen) && seen <= row.Visible() ==> !row.Succeeds(seen)
  }

  /** The settled tree says of each row what the servings a say, and of each name who provides it. */
  ghost predicate Verdict(rows: seq<Row>, s: State, a: set<Serving>) {
    && |s.fibers| == |rows|
    && (forall u: Uid :: u < |rows| ==> RowVerdict(rows[u], s.fibers[u].phase, a))
    && (forall u: Uid, n :: u < |rows| ==> NameVerdict(rows, s, u, n, a))
  }

  ghost predicate NameVerdict(rows: seq<Row>, s: State, u: Uid, n: Name, a: set<Serving>)
    requires u < |rows| == |s.fibers|
  {
    match Resolve(s.store, s.fibers[u].realm, n)
    case None => !Supplied(a, rows[u], n)
    case Some(i) =>
      i.owner < |rows| &&
      exists saw :: Serving(rows[i.owner], saw) in a && SuppliedBy(Serving(rows[i.owner], saw), rows[u], n)
  }

  ghost predicate RowVerdict(row: Row, phase: Phase, a: set<Serving>) {
    && phase in {Pending, Active, Failed}
    && (phase == Active <==> row.Runs(View(a, row)))
    && (phase == Pending ==> !row.Fed(View(a, row)))
    && (phase == Failed ==> MayFail(row) && Hopeless(row))
  }

  lemma {:induction false} SteadilyHopeless(row: Row)
    requires row.Steadfast() && MayFail(row)
    ensures Hopeless(row)
  {
  }

  /** One row of a quiescent tree. */
  lemma {:induction false} QuietRow(rows: seq<Row>, s: State, u: Uid)
    requires Flat(rows, s, {}) && KeysMatch(rows, s) && Distinct(rows) && NoStale(s) && u < |rows|
    ensures var view := View(Servings(rows, s.fibers), rows[u]);
      && s.fibers[u].phase in {Pending, Active, Failed} && view <= rows[u].Visible()
      && (s.fibers[u].phase == Active ==> rows[u].Runs(view) && Saw(s.fibers[u]) == view)
      && (s.fibers[u].phase == Pending ==> !rows[u].Fed(view))
  {
    OuterIsView(rows, s, u);
    OuterVisible(rows, s, u);
    assert RowRight(rows, s, u) && RowFixed(s.fibers[u], rows[u]);
    FedIffLive(rows, s, u);
    LiveIffResolved(s, u);
    FedByOthers(rows, s, u);
    if s.fibers[u].phase == Active { CurrentSaw(rows, s, u); }
  }

  lemma {:induction false} QuietConsistent(rows: seq<Row>, s: State)
    requires Flat(rows, s, {}) && KeysMatch(rows, s) && Distinct(rows) && NoStale(s) && AllSteadfast(rows)
    requires FailedOnce(rows, s.fibers)
    ensures Consistent(RowSet(rows), Servings(rows, s.fibers))
    ensures forall u: Uid :: u < |rows| ==> RowVerdict(rows[u], s.fibers[u].phase, Servings(rows, s.fibers))
  {
    var a := Servings(rows, s.fibers);
    hide KeysMatch, NoStale;
    forall u: Uid | u < |rows|
      ensures RowVerdict(rows[u], s.fibers[u].phase, a)
      ensures s.fibers[u].phase == Active ==> Saw(s.fibers[u]) == View(a, rows[u])
    {
      QuietRow(rows, s, u);
      if s.fibers[u].phase == Failed { SteadilyHopeless(rows[u]); }
    }
    hide Flat, RowVerdict;
    forall l: Serving ensures l in a <==> l.row in RowSet(rows) && l.saw == View(a, l.row) && l.row.Runs(l.saw) {
      ServingIff(rows, s, l);
    }
  }

  lemma {:induction false} ServingIff(rows: seq<Row>, s: State, l: Serving)
    requires |s.fibers| == |rows|
    requires forall u: Uid :: u < |rows| ==> RowVerdict(rows[u], s.fibers[u].phase, Servings(rows, s.fibers))
    requires forall u: Uid :: u < |rows| && s.fibers[u].phase == Active ==>
      Saw(s.fibers[u]) == View(Servings(rows, s.fibers), rows[u])
    ensures var a := Servings(rows, s.fibers);
      l in a <==> l.row in RowSet(rows) && l.saw == View(a, l.row) && l.row.Runs(l.saw)
  {
    var a := Servings(rows, s.fibers);
    if l in a {
      var u := ServingAt(rows, s, l);
      assert RowVerdict(rows[u], s.fibers[u].phase, a);
    }
    if l.row in RowSet(rows) && l.saw == View(a, l.row) && l.row.Runs(l.saw) {
      var u: Uid :| 0 <= u < |rows| && rows[u] == l.row;
      assert RowVerdict(rows[u], s.fibers[u].phase, a);
    }
  }

  lemma {:induction false} QuietProviders(rows: seq<Row>, s: State, u: Uid, n: Name)
    requires Flat(rows, s, {}) && KeysMatch(rows, s) && u < |rows|
    ensures |s.fibers| == |rows| && NameVerdict(rows, s, u, n, Servings(rows, s.fibers))
  {
    var a := Servings(rows, s.fibers);
    SlotSupplied(rows, s, u, n);
    SlotsSupplied(rows, s, u, n);
    assert Resolve(s.store, s.fibers[u].realm, n) == Lookup(s.store.impls, SlotOf(s, u, n));
    var p := Resolve(s.store, s.fibers[u].realm, n);
    if p.Some? {
      var o := p.value.owner;
      assert Serving(rows[o], Saw(s.fibers[o])) in a;
    }
  }

  lemma {:induction false} FreshPending(rows: seq<Row>)
    requires Composed(rows)
    ensures |MountRows(rows).fibers| == |rows|
    ensures forall u: Uid :: u < |rows| ==> MountRows(rows).fibers[u].phase == Pending
  {
    MountFresh(rows);
    hide MountRows;
    forall u: Uid | u < |rows| ensures MountRows(rows).fibers[u].phase == Pending {
      assert FreshFiber(MountRows(rows), rows[u], MountRows(rows).fibers[u]);
    }
  }

  /** Main result: whenever a fresh composition of steadfast rows settles, cycles and optional injections
      included, the ACTIVE rows are exactly those that run on what the others supply, and saw exactly that. */
  lemma {:induction false} SettlesConsistently(rows: seq<Row>, rounds: nat)
    requires Composed(rows) && AllSteadfast(rows) && Boot(rows, rounds).Done?
    ensures var s := Boot(rows, rounds).state;
      Consistent(RowSet(rows), Servings(rows, s.fibers)) && Verdict(rows, s, Servings(rows, s.fibers))
  {
    var s := Boot(rows, rounds).state;
    ComposedDistinct(rows);
    FailuresUpheld(rows);
    FreshPending(rows);
    BootUpholds(rows, rounds, (fs, g) => FailedOnce(rows, fs));
    QuietNoStale(s);
    FlatSize(rows, s, {});
    QuietConsistent(rows, s);
    hide Flat, KeysMatch, Composed, Boot, Steady, NoStale, Consistent, AllSteadfast;
    forall u: Uid, n | u < |rows| ensures NameVerdict(rows, s, u, n, Servings(rows, s.fibers)) {
      QuietProviders(rows, s, u, n);
    }
  }

  // ---- monotone rows: the least fixed point -------------------------------------------------------------

  /** Servings that may be: each row of the composition, run on something. */
  ghost predicate Sane(all: set<Row>, a: set<Serving>) {
    forall l :: l in a ==> l.row in all && l.row.Runs(l.saw) && l.saw <= l.row.NameSet()
  }

  /** c has a serving, on no less than what c supplies, for every row that runs on what c supplies. */
  ghost predicate Upper(all: set<Row>, c: set<Serving>) {
    && Sane(all, c)
    && forall row :: row in all && row.Runs(View(c, row)) ==> Covered(c, Serving(row, View(c, row)))
  }

  ghost predicate Covered(c: set<Serving>, l: Serving) {
    exists m :: m in c && m.row == l.row && l.saw <= m.saw
  }

  ghost predicate Below(a: set<Serving>, c: set<Serving>) {
    forall l :: l in a ==> Covered(c, l)
  }

  /** The least fixed point of activation. */
  ghost predicate Least(all: set<Row>, a: set<Serving>) {
    Consistent(all, a) && forall c :: Upper(all, c) ==> Below(a, c)
  }

  lemma {:induction false} ConsistentUpper(all: set<Row>, a: set<Serving>)
    requires Consistent(all, a)
    ensures Upper(all, a)
  {
    forall l | l in a ensures l.saw <= l.row.NameSet() { }
    forall row | row in all && row.Runs(View(a, row)) ensures Covered(a, Serving(row, View(a, row))) {
      assert Serving(row, View(a, row)) in a;
    }
  }

  lemma {:induction false} LeastUnique(all: set<Row>, a: set<Serving>, a': set<Serving>)
    requires Least(all, a) && Least(all, a')
    ensures a == a'
  {
    ConsistentUpper(all, a);
    ConsistentUpper(all, a');
    BelowBoth(all, a, a');
    BelowBoth(all, a', a);
  }

  lemma {:induction false} BelowBoth(all: set<Row>, a: set<Serving>, a': set<Serving>)
    requires Consistent(all, a) && Consistent(all, a') && Below(a, a') && Below(a', a)
    ensures a <= a'
  {
    forall l | l in a ensures l in a' {
      var m :| m in a' && m.row == l.row && l.saw <= m.saw;
      var k :| k in a && k.row == m.row && m.saw <= k.saw;
      assert k == l && m == l;
    }
  }

  lemma {:induction false} ViewGrows(all: set<Row>, a: set<Serving>, c: set<Serving>, row: Row)
    requires Sane(all, a) && Sane(all, c) && Below(a, c) && forall g :: g in all ==> g.Monotone()
    ensures View(a, row) <= View(c, row) <= row.NameSet()
  {
    forall n | n in View(a, row) ensures n in View(c, row) {
      var l :| l in a && l.row != row && SuppliedBy(l, row, n);
      assert Covered(c, l);
      var m :| m in c && m.row == l.row && l.saw <= m.saw;
      assert SuppliedBy(m, row, n);
    }
  }

  lemma {:induction false} ServingsSane(rows: seq<Row>, s: State)
    requires Flat(rows, s, {})
    ensures Sane(RowSet(rows), Servings(rows, s.fibers))
  {
    forall l | l in Servings(rows, s.fibers)
      ensures l.row in RowSet(rows) && l.row.Runs(l.saw) && l.saw <= l.row.NameSet()
    {
      var u := ServingAt(rows, s, l);
      assert RowRight(rows, s, u) && RowFixed(s.fibers[u], rows[u]);
    }
  }

  lemma {:induction false} BelowUpheld(rows: seq<Row>, c: set<Serving>)
    requires Distinct(rows) && AllMonotone(rows) && Upper(RowSet(rows), c)
    ensures Upheld(rows, (fs, g) => Below(Servings(rows, fs), c))
  {
    forall s: State, r: Result, u: Uid |
      Flat(rows, s, {}) && KeysMatch(rows, s) && Below(Servings(rows, s.fibers), c) && u < |rows|
      && RowRefreshed(rows, s, r, u)
      ensures Below(Servings(rows, r.state.fibers), c)
    {
      BelowStep(rows, c, s, r, u);
    }
  }

  lemma {:induction false} BelowStep(rows: seq<Row>, c: set<Serving>, s: State, r: Result, u: Uid)
    requires Distinct(rows) && AllMonotone(rows) && Upper(RowSet(rows), c) && Flat(rows, s, {}) && KeysMatch(rows, s)
    requires Below(Servings(rows, s.fibers), c) && u < |rows| && RowRefreshed(rows, s, r, u)
    ensures Below(Servings(rows, r.state.fibers), c)
  {
    var a := Servings(rows, s.fibers);
    OuterIsView(rows, s, u);
    ServingsSane(rows, s);
    ViewGrows(RowSet(rows), a, c, rows[u]);
    hide Flat, KeysMatch, View, Outer;
    forall l | l in Servings(rows, r.state.fibers) ensures Covered(c, l) {
      var v := ServingAt(rows, r.state, l);
      if v == u {
        assert rows[u].Monotone() && rows[u] in RowSet(rows);
        assert Covered(c, Serving(rows[u], View(c, rows[u])));
      } else {
        assert l in a;
      }
    }
  }

  /** Services only grow: whoever loaded sees what it saw, and whoever failed is fed still. */
  ghost predicate Growing(rows: seq<Row>, fs: seq<Fiber>, g: Store) {
    forall u: Uid :: u < |rows| && u < |fs| ==>
      && (fs[u].phase == Active ==> Saw(fs[u]) <= Outer(Stood(fs, g), u))
      && (fs[u].phase == Failed ==> rows[u].Fed(Outer(Stood(fs, g), u)))
  }

  lemma {:induction false} GrowingUpheld(rows: seq<Row>)
    requires AllMonotone(rows)
    ensures Upheld(rows, (fs, g) => Growing(rows, fs, g))
  {
    forall s: State, r: Result, u: Uid |
      Flat(rows, s, {}) && KeysMatch(rows, s) && Growing(rows, s.fibers, s.store) && u < |rows|
      && RowRefreshed(rows, s, r, u)
      ensures Growing(rows, r.state.fibers, r.state.store)
    {
      GrowingStep(rows, s, r, u);
    }
  }

  /** A row that loads again gives what it gave. */
  lemma {:induction false} GivesAgain(rows: seq<Row>, s: State, r: Result, u: Uid, slot: Slot)
    requires AllMonotone(rows) && Flat(rows, s, {}) && Growing(rows, s.fibers, s.store) && u < |rows|
    requires RowRefreshed(rows, s, r, u) && slot in s.store.impls
    ensures slot in r.state.store.impls && r.state.store.impls[slot].owner == s.store.impls[slot].owner
  {
    var t := r.state;
    var o := s.store.impls[slot].owner;
    assert Backed(rows, s, slot, {});
    if o == u {
      OuterStood(s, u);
      assert RowRight(rows, s, u) && rows[u].Monotone() && RowFixed(s.fibers[u], rows[u]);
      assert Saw(s.fibers[u]) <= Outer(s, u) <= rows[u].NameSet();
      assert t.fibers[u].phase == Active && slot.name in rows[u].gives(Saw(t.fibers[u]));
      assert RowRight(rows, t, u);
      assert SlotOf(t, u, slot.name) == slot;
      assert Backed(rows, t, slot, {});
      OffersSame(rows, s, t);
      OffersGiven(rows, t, t.store.impls[slot].owner, slot.name);
      OffersGiven(rows, t, u, slot.name);
    }
  }

  lemma {:induction false} GrowingStep(rows: seq<Row>, s: State, r: Result, u: Uid)
    requires AllMonotone(rows) && Flat(rows, s, {}) && Growing(rows, s.fibers, s.store) && u < |rows|
    requires RowRefreshed(rows, s, r, u)
    ensures Growing(rows, r.state.fibers, r.state.store)
  {
    var t := r.state;
    forall v: Uid | v < |rows| ensures Outer(s, v) <= Outer(t, v) {
      assert forall n :: SlotOf(t, v, n) == SlotOf(s, v, n);
      forall n | n in Outer(s, v) ensures n in Outer(t, v) { GivesAgain(rows, s, r, u, SlotOf(s, v, n)); }
    }
    forall v: Uid | v < |rows|
      ensures t.fibers[v].phase == Active ==> Saw(t.fibers[v]) <= Outer(t, v)
      ensures t.fibers[v].phase == Failed ==> rows[v].Fed(Outer(t, v))
    {
      OuterStood(s, v);
    }
    forall v: Uid | v < |rows| ensures Outer(Stood(t.fibers, t.store), v) == Outer(t, v) { OuterStood(t, v); }
  }

  lemma {:induction false} MonotoneSteadfast(row: Row)
    requires row.Monotone()
    ensures row.Steadfast()
  {
    var p0 := set n | n in row.decl.inject;
    forall p | row.Fed(p) && p <= row.Visible() ensures row.Succeeds(p) == row.Succeeds(p0) {
      assert row.Fed(p0) && p0 <= p <= row.NameSet();
    }
  }

  /** Main result: rows that never give less for seeing more settle, over any graph, at the least fixed point
      of activation, and fail exactly when they are fed there and do not succeed. */
  lemma {:induction false} SettlesAtLeastFixedPoint(rows: seq<Row>, rounds: nat)
    requires Composed(rows) && AllMonotone(rows) && Boot(rows, rounds).Done?
    ensures var s := Boot(rows, rounds).state;
      var a := Servings(rows, s.fibers);
      && Least(RowSet(rows), a) && Verdict(rows, s, a)
      && forall u: Uid :: u < |rows| ==> s.fibers[u].phase == rows[u].Outcome(View(a, rows[u]))
  {
    var s := Boot(rows, rounds).state;
    var a := Servings(rows, s.fibers);
    ComposedDistinct(rows);
    forall u: Uid | u < |rows| ensures rows[u].Steadfast() { MonotoneSteadfast(rows[u]); }
    SettlesConsistently(rows, rounds);
    forall c | Upper(RowSet(rows), c) ensures Below(a, c) { StaysBelow(rows, rounds, c); }
    forall u: Uid | u < |rows| ensures s.fibers[u].phase == rows[u].Outcome(View(a, rows[u])) {
      FailedFed(rows, rounds, u);
      assert RowVerdict(rows[u], s.fibers[u].phase, a);
    }
  }

  lemma {:induction false} StaysBelow(rows: seq<Row>, rounds: nat, c: set<Serving>)
    requires Composed(rows) && AllMonotone(rows) && Upper(RowSet(rows), c)
    ensures Below(Servings(rows, Boot(rows, rounds).state.fibers), c)
  {
    ComposedDistinct(rows);
    FreshPending(rows);
    BelowUpheld(rows, c);
    hide Composed, AllMonotone, Upper, Boot, MountRows, Upheld;
    BootUpholds(rows, rounds, (fs, g) => Below(Servings(rows, fs), c));
  }

  lemma {:induction false} FailedFed(rows: seq<Row>, rounds: nat, u: Uid)
    requires Composed(rows) && AllMonotone(rows) && u < |rows|
    ensures var s := Boot(rows, rounds).state;
      |s.fibers| == |rows| &&
      (s.fibers[u].phase == Failed ==> rows[u].Fed(View(Servings(rows, s.fibers), rows[u])))
  {
    var s := Boot(rows, rounds).state;
    ComposedDistinct(rows);
    FreshPending(rows);
    GrowingUpheld(rows);
    BootUpholds(rows, rounds, (fs, g) => Growing(rows, fs, g));
    OuterStood(s, u);
    OuterIsView(rows, s, u);
  }
}
