/** The invariant of flat compositions and one refresh under it. */
module FlatSteps {
  import opened Lists
  import opened Registry
  import opened Runtime
  import opened Currency
  import opened Settling
  import opened Runs
  import opened Ownership
  import opened OwnedActions
  import opened OwnedRuns
  import opened Rows

  /** Row u may provide what the slot holds. */
  ghost predicate Offers(rows: seq<Row>, s: State, u: Uid, slot: Slot)
    requires |s.fibers| == |rows|
  {
    u < |rows| && slot.name in rows[u].may && slot == SlotOf(s, u, slot.name)
  }

  /** No two rows may provide the same slot. */
  ghost predicate UniqueGivers(rows: seq<Row>, s: State)
    requires |s.fibers| == |rows|
  {
    forall u: Uid, v: Uid, slot :: Offers(rows, s, u, slot) && Offers(rows, s, v, slot) ==> u == v
  }

  /** The names the last apply of a fiber found resolved. */
  function Saw(f: Fiber): set<Name> {
    set i | 0 <= i < |f.bound| && i < |f.decl.Names()| && f.bound[i].Some? :: f.decl.Names()[i]
  }

  /** What u would see if it loaded now: the names that others serve. */
  ghost function Outer(s: State, u: Uid): set<Name>
    requires u < |s.fibers|
  {
    set n | n in s.fibers[u].decl.Names() && SlotOf(s, u, n) in s.store.impls
      && s.store.impls[SlotOf(s, u, n)].owner != u
  }

  /** u gives none of the services it requires. */
  ghost predicate NotSelf(rows: seq<Row>, s: State, u: Uid)
    requires |s.fibers| == |rows| && u < |rows|
  {
    forall n :: n in s.fibers[u].decl.inject ==> !Offers(rows, s, u, SlotOf(s, u, n))
  }

  ghost predicate RowFixed(f: Fiber, row: Row) {
    f.entry == row.entry && f.decl == row.decl && f.parent == None && f.children == [] && !f.restart
  }

  /** An ACTIVE row: its apply started from what others served, and gave what it gives then. */
  ghost predicate Serves(rows: seq<Row>, s: State, u: Uid)
    requires |s.fibers| == |rows| && u < |rows|
  {
    var f := s.fibers[u];
    && rows[u].Runs(Saw(f)) && NotSelf(rows, s, u)
    && (forall n :: n in rows[u].gives(Saw(f)) ==> SlotOf(s, u, n) in s.store.impls)
    && (forall i :: 0 <= i < |f.bound| && f.bound[i].Some? ==> f.bound[i].value.owner != u)
  }

  /** What a row's phase says about it, outside its own load. */
  ghost predicate RowRight(rows: seq<Row>, s: State, u: Uid)
    requires |s.fibers| == |rows| && u < |rows|
  {
    var f := s.fibers[u];
    && f.phase in {Pending, Active, Failed}
    && (f.phase == Active ==> Serves(rows, s, u))
  }

  /** The services are exactly those the ACTIVE rows give; `busy` is the row being loaded, if any. */
  ghost predicate Flat(rows: seq<Row>, s: State, busy: set<Uid>) {
    && |s.fibers| == |rows|
    && UniqueGivers(rows, s)
    && (forall u: Uid :: u < |rows| ==> rows[u].WellFormed())
    && (forall u: Uid :: u < |rows| ==> RowFixed(s.fibers[u], rows[u]) && s.fibers[u].realm < |s.store.realms|)
    && (forall u: Uid :: u < |rows| && u !in busy ==> RowRight(rows, s, u))
    && (forall slot :: slot in s.store.impls ==> Backed(rows, s, slot, busy))
  }

  /** A live slot: its owner is ACTIVE and gives it. */
  ghost predicate Backed(rows: seq<Row>, s: State, slot: Slot, busy: set<Uid>)
    requires |s.fibers| == |rows| && slot in s.store.impls
  {
    var o := s.store.impls[slot].owner;
    && o < |rows| && o !in busy && s.fibers[o].phase == Active
    && slot == SlotOf(s, o, slot.name) && slot.name in rows[o].gives(Saw(s.fibers[o]))
  }

  /** The parts a row step never changes. */
  ghost predicate SameShape(s: State, t: State) {
    && |t.fibers| == |s.fibers| && t.store.realms == s.store.realms && t.mounted == s.mounted
    && forall v: Uid :: v < |s.fibers| ==>
      t.fibers[v].realm == s.fibers[v].realm && t.fibers[v].decl == s.fibers[v].decl
  }

  lemma {:induction false} OffersSame(rows: seq<Row>, s: State, t: State)
    requires |s.fibers| == |rows| && SameShape(s, t)
    ensures forall v: Uid, slot :: Offers(rows, t, v, slot) == Offers(rows, s, v, slot)
    ensures UniqueGivers(rows, s) ==> UniqueGivers(rows, t)
  {
    assert forall v: Uid, n :: v < |rows| ==> SlotOf(t, v, n) == SlotOf(s, v, n);
  }

  /** Only u's fiber changed, and the services of the others stand. */
  ghost predicate OnlyRow(s: State, t: State, u: Uid) {
    && SameShape(s, t)
    && (forall v: Uid :: v < |s.fibers| && v != u ==> t.fibers[v] == s.fibers[v])
    && (forall slot :: slot in s.store.impls && s.store.impls[slot].owner != u ==>
      slot in t.store.impls && t.store.impls[slot] == s.store.impls[slot])
  }

  /** The registrations of a row other than u survive a step of u. */
  lemma {:induction false} RightSame(rows: seq<Row>, s: State, t: State, u: Uid, v: Uid, busy: set<Uid>)
    requires Flat(rows, s, busy) && OnlyRow(s, t, u) && v < |rows| && v != u && v !in busy
    ensures RowRight(rows, t, v)
  {
    assert RowRight(rows, s, v);
    assert forall n :: SlotOf(t, v, n) == SlotOf(s, v, n);
    if s.fibers[v].phase == Active {
      OffersSame(rows, s, t);
      forall n | n in rows[v].gives(Saw(s.fibers[v])) ensures SlotOf(t, v, n) in t.store.impls {
        assert Offers(rows, s, v, SlotOf(s, v, n));
        assert Backed(rows, s, SlotOf(s, v, n), busy);
        var o := s.store.impls[SlotOf(s, v, n)].owner;
        assert Offers(rows, s, o, SlotOf(s, v, n));
      }
    }
  }

  /** Services that stood before and are not u's are held as they were. */
  lemma {:induction false} HeldSame(rows: seq<Row>, s: State, t: State, u: Uid, slot: Slot, busy: set<Uid>)
    requires Flat(rows, s, busy) && OnlyRow(s, t, u) && slot in s.store.impls && s.store.impls[slot].owner != u
    ensures Backed(rows, t, slot, {})
  {
    assert Backed(rows, s, slot, busy);
  }

  /** A load of u ended: u's registrations are its full list if it is ACTIVE now, and none if it
      failed. */
  lemma {:induction false} FlatAfter(rows: seq<Row>, s: State, t: State, u: Uid)
    requires Flat(rows, s, {u}) && u < |rows| && OnlyRow(s, t, u) && RowFixed(t.fibers[u], rows[u])
    requires RowRight(rows, t, u)
    requires forall slot :: slot in t.store.impls && slot !in s.store.impls ==> Backed(rows, t, slot, {})
    ensures Flat(rows, t, {})
  {
    OffersSame(rows, s, t);
    forall v: Uid | v < |rows| ensures RowRight(rows, t, v) && RowFixed(t.fibers[v], rows[v]) {
      if v != u { RightSame(rows, s, t, u, v, {u}); }
    }
    forall slot | slot in t.store.impls ensures Backed(rows, t, slot, {}) {
      if slot in s.store.impls {
        assert Backed(rows, s, slot, {u});
        HeldSame(rows, s, t, u, slot, {u});
      }
    }
  }

  /** While u loads, the slots it may give are free. */
  lemma {:induction false} SlotsFree(rows: seq<Row>, s: State, u: Uid)
    requires Flat(rows, s, {u}) && u < |rows|
    ensures forall n :: n in rows[u].may ==> SlotOf(s, u, n) !in s.store.impls
  {
    forall n | n in rows[u].may ensures SlotOf(s, u, n) !in s.store.impls {
      if SlotOf(s, u, n) in s.store.impls {
        assert Backed(rows, s, SlotOf(s, u, n), {u});
        var o := s.store.impls[SlotOf(s, u, n)].owner;
        assert Offers(rows, s, u, SlotOf(s, u, n)) && Offers(rows, s, o, SlotOf(s, u, n));
      }
    }
  }

  /** What u requires, others serve. */
  lemma {:induction false} FedNotSelf(rows: seq<Row>, s: State, u: Uid)
    requires Flat(rows, s, {u}) && u < |rows| && rows[u].Fed(Seen(s, u))
    ensures NotSelf(rows, s, u)
  {
    SlotsFree(rows, s, u);
  }

  // ---- the end of a load -------------------------------------------------------------------------

  /** The outcome of loading row u when it sees these names. */
  ghost predicate Loaded(rows: seq<Row>, s: State, r: Result, u: Uid, seen: set<Name>)
    requires |s.fibers| == |rows| && u < |rows|
  {
    && r.Done? && Flat(rows, r.state, {}) && OnlyRow(s, r.state, u)
    && r.state.fibers[u].phase == (if rows[u].Succeeds(seen) then Active else Failed)
    && (rows[u].Succeeds(seen) ==> r.state.fibers[u].epoch == s.fibers[u].epoch && Saw(r.state.fibers[u]) == seen)
    && (forall slot :: slot in r.state.store.impls && slot !in s.store.impls ==>
      r.state.store.impls[slot].owner == u)
  }

  lemma {:induction false} FailedLoad(rows: seq<Row>, s: State, t: State, u: Uid, seen: set<Name>)
    requires Flat(rows, s, {u}) && u < |rows| && OnlyRow(s, t, u) && RowFixed(t.fibers[u], rows[u])
    requires !rows[u].Succeeds(seen) && t.fibers[u].phase == Failed
    requires forall slot :: slot in t.store.impls ==> slot in s.store.impls
    ensures Loaded(rows, s, Done(t), u, seen)
  {
    FlatAfter(rows, s, t, u);
  }

  lemma {:induction false} GivenOnly(rows: seq<Row>, s: State, t: State, u: Uid, seen: set<Name>)
    requires Flat(rows, s, {u}) && u < |rows| && Given(s, t, u, s.fibers[u].realm, rows[u].gives(seen))
    ensures OnlyRow(s, t, u) && RowFixed(t.fibers[u], rows[u])
    ensures forall slot :: slot in t.store.impls && slot !in s.store.impls ==>
      t.store.impls[slot].owner == u && slot.name in rows[u].gives(seen) && slot == SlotOf(t, u, slot.name)
  {
  }

  /** An apply of u in progress: what others served when it started. */
  ghost predicate Applying(rows: seq<Row>, s: State, u: Uid, seen: set<Name>)
    requires |s.fibers| == |rows| && u < |rows|
  {
    && rows[u].Fed(seen) && Saw(s.fibers[u]) == seen && NotSelf(rows, s, u)
    && forall i :: 0 <= i < |s.fibers[u].bound| && s.fibers[u].bound[i].Some? ==>
      s.fibers[u].bound[i].value.owner != u
  }

  lemma {:induction false} ActiveLoad(rows: seq<Row>, s: State, t: State, u: Uid, seen: set<Name>)
    requires Flat(rows, s, {u}) && u < |rows| && rows[u].Succeeds(seen) && Applying(rows, s, u, seen)
    requires Given(s, t, u, s.fibers[u].realm, rows[u].gives(seen))
    ensures Loaded(rows, s, Done(SetPhase(t, u, Active)), u, seen)
  {
    var r := SetPhase(t, u, Active);
    GivenOnly(rows, s, t, u, seen);
    OffersSame(rows, s, r);
    assert Saw(r.fibers[u]) == seen;
    forall n | n in rows[u].gives(seen) ensures SlotOf(r, u, n) in r.store.impls {
      assert Slot(OwnerOf(s.store.realms, s.fibers[u].realm, n), n) in t.store.impls;
    }
    assert forall n :: SlotOf(r, u, n) == SlotOf(s, u, n);
    FlatAfter(rows, s, r, u);
  }

  /** Giving everything and discarding it again leaves nothing. */
  lemma {:induction false} GivenEmptied(rows: seq<Row>, s: State, t: State, d: State, u: Uid, seen: set<Name>)
    requires Flat(rows, s, {u}) && u < |rows|
    requires Given(s, t, u, s.fibers[u].realm, rows[u].gives(seen)) && Emptied(t, d, u)
    ensures OnlyRow(s, d, u) && RowFixed(d.fibers[u], rows[u])
    ensures forall slot :: slot in d.store.impls ==> slot in s.store.impls
  {
    hide UniqueGivers, RowRight;
    forall slot | slot in d.store.impls ensures slot in s.store.impls {
      assert t.store.impls[slot].owner != u;
    }
    forall slot | slot in s.store.impls ensures slot in d.store.impls && d.store.impls[slot] == s.store.impls[slot] {
      assert Backed(rows, s, slot, {u});
      assert t.store.impls[slot] == s.store.impls[slot];
    }
  }

  lemma {:induction false} RaisedLoad(rows: seq<Row>, s: State, t: State, u: Uid, seen: set<Name>)
    requires Flat(rows, s, {u}) && u < |rows| && !rows[u].Succeeds(seen)
    requires Given(s, t, u, s.fibers[u].realm, rows[u].gives(seen)) && Own(t, {}) && t.fibers[u].phase != Disposed
    ensures Loaded(rows, s, Done(Fail(Discard(t, u), u)), u, seen)
  {
    hide Flat, Own, Emptied, Loaded, Given;
    GivenShape(rows, s, t, u, seen);
    DiscardEmpties(t, u);
    GivenEmptied(rows, s, t, Discard(t, u), u, seen);
    FailedLoad(rows, s, Fail(Discard(t, u), u), u, seen);
  }

  lemma {:induction false} GivenShape(rows: seq<Row>, s: State, t: State, u: Uid, seen: set<Name>)
    requires Flat(rows, s, {u}) && u < |rows| && Given(s, t, u, s.fibers[u].realm, rows[u].gives(seen))
    ensures |s.fibers| == |rows| && |t.fibers| == |rows| && t.fibers[u].children == []
  {
  }

  // ---- a load from start to end --------------------------------------------------------------------

  /** The state in which apply starts. */
  function Started(s: State, u: Uid): State
    requires u < |s.fibers|
  {
    BeginApply(SetPhase(s, u, Loading), u)
  }

  lemma {:induction false} FlatTransfer(rows: seq<Row>, s: State, b: State, u: Uid)
    requires Flat(rows, s, {u}) && u < |rows| && SameShape(s, b) && b.store.impls == s.store.impls
    requires forall v: Uid :: v < |rows| && v != u ==> b.fibers[v] == s.fibers[v]
    requires RowFixed(b.fibers[u], rows[u])
    ensures Flat(rows, b, {u}) && OnlyRow(s, b, u)
  {
    OffersSame(rows, s, b);
    forall v: Uid | v < |rows| && v != u ensures RowRight(rows, b, v) { RightSame(rows, s, b, u, v, {u}); }
    forall slot | slot in b.store.impls ensures Backed(rows, b, slot, {u}) {
      assert Backed(rows, s, slot, {u});
    }
  }

  /** What apply records as it starts is what resolves. */
  lemma {:induction false} SawSeen(s: State, u: Uid)
    requires u < |s.fibers| && s.fibers[u].bound == Bindings(s, u)
    ensures Saw(s.fibers[u]) == Seen(s, u)
  {
    var names := s.fibers[u].decl.Names();
    forall n | n in names ensures n in Saw(s.fibers[u]) <==> n in Seen(s, u) {
      var i :| 0 <= i < |names| && names[i] == n;
      assert Bindings(s, u)[i] == Lookup(s.store.impls, SlotOf(s, u, n));
      if n in Saw(s.fibers[u]) {
        var j :| 0 <= j < |names| && s.fibers[u].bound[j].Some? && names[j] == n;
        assert Bindings(s, u)[j] == Lookup(s.store.impls, SlotOf(s, u, n));
      }
    }
  }

  lemma {:induction false} StartFlat(rows: seq<Row>, s: State, u: Uid, x: set<Uid>, q: seq<Uid>)
    requires Flat(rows, s, {u}) && u < |rows| && rows[u].Fed(Seen(s, u))
    requires Own(s, {}) && Core(s, {u}, x, q) && Rest(s, {u})
    requires s.fibers[u].phase == Pending && s.fibers[u].epoch.Live? && Lapsed(s, u)
    ensures var b := Started(s, u);
      && Flat(rows, b, {u}) && Own(b, {}) && Core(b, {}, x, q) && OnlyRow(s, b, u)
      && b.fibers[u].phase == Loading && b.fibers[u].provided == {} && b.fibers[u].epoch == s.fibers[u].epoch
      && b.fibers[u].realm == s.fibers[u].realm && b.store.impls == s.store.impls
      && Applying(rows, b, u, Seen(s, u))
  {
    hide Sound, Due, Filed, Tree, Ordered;
    var s1 := SetPhase(s, u, Loading);
    var b := Started(s, u);
    assert Bare(s.fibers[u]);
    PhaseCore(s, u, Loading, {u}, x, q);
    StartLoading(s, u);
    assert Bindings(s1, u) == Bindings(s, u) && Bindings(b, u) == Bindings(s, u);
    BeginSteady(s1, u, x, q);
    BeginOwn(s1, u);
    FlatTransfer(rows, s, b, u);
    SawSeen(b, u);
    FedNotSelf(rows, b, u);
    BoundByOthers(rows, b, u);
  }

  lemma {:induction false} BoundByOthers(rows: seq<Row>, s: State, u: Uid)
    requires Flat(rows, s, {u}) && u < |rows| && s.fibers[u].bound == Bindings(s, u)
    ensures forall i :: 0 <= i < |s.fibers[u].bound| && s.fibers[u].bound[i].Some? ==>
      s.fibers[u].bound[i].value.owner != u
  {
    forall i | 0 <= i < |s.fibers[u].bound| && s.fibers[u].bound[i].Some?
      ensures s.fibers[u].bound[i].value.owner != u
    {
      assert Backed(rows, s, SlotOf(s, u, s.fibers[u].decl.Names()[i]), {u});
    }
  }

  /** From the start of apply: give everything. */
  lemma {:induction false} ApplyFlat(rows: seq<Row>, b: State, u: Uid, seen: set<Name>, x: set<Uid>, q: seq<Uid>)
    requires Flat(rows, b, {u}) && u < |rows| && Own(b, {}) && Core(b, {}, x, q)
    requires b.fibers[u].phase == Loading && b.fibers[u].provided == {}
    ensures var t := RunActions(b, u, GiveActions(u, b.fibers[u].realm, rows[u].gives(seen)));
      && t.Ok? && Given(b, t.state, u, b.fibers[u].realm, rows[u].gives(seen)) && Own(t.state, {})
      && t.state.fibers[u].phase == Loading
      && (rows[u].Succeeds(seen) <==>
        rows[u].configOk && rows[u].applyOk(seen) && t.state.fibers[u].decl.provide <= t.state.fibers[u].provided)
  {
    hide Own, Core;
    var r := b.fibers[u].realm;
    SlotsFree(rows, b, u);
    assert NoDup(rows[u].gives(seen)) && forall n :: n in rows[u].gives(seen) ==> n in rows[u].may;
    GiveAll(b, u, r, rows[u].gives(seen));
    RunOwn(b, u, GiveActions(u, r, rows[u].gives(seen)), x, q);
  }

  /** Then end as the row's script does. */
  lemma {:induction false} EndFlat(rows: seq<Row>, b: State, t: State, u: Uid, seen: set<Name>)
    requires Flat(rows, b, {u}) && u < |rows| && Applying(rows, b, u, seen)
    requires Own(t, {}) && Given(b, t, u, b.fibers[u].realm, rows[u].gives(seen))
    requires t.fibers[u].phase == Loading && rows[u].configOk
    requires rows[u].Succeeds(seen) <==>
      rows[u].configOk && rows[u].applyOk(seen) && t.fibers[u].decl.provide <= t.fibers[u].provided
    ensures Loaded(rows, b, EndLoad(t, u, EndingOf(rows[u].applyOk(seen))), u, seen)
  {
    hide Flat, Own, Given, Loaded, Applying;
    if rows[u].Succeeds(seen) {
      ActiveLoad(rows, b, t, u, seen);
    } else {
      RaisedLoad(rows, b, t, u, seen);
    }
  }

  lemma {:induction false} LoadedFrom(rows: seq<Row>, s: State, b: State, r: Result, u: Uid, seen: set<Name>)
    requires |s.fibers| == |rows| && |b.fibers| == |rows| && u < |rows| && Loaded(rows, b, r, u, seen)
    requires OnlyRow(s, b, u) && b.store.impls == s.store.impls && b.fibers[u].epoch == s.fibers[u].epoch
    ensures Loaded(rows, s, r, u, seen)
  {
  }

  lemma {:induction false} RejectedFlat(rows: seq<Row>, s: State, u: Uid, seen: set<Name>)
    requires Flat(rows, s, {u}) && u < |rows| && !rows[u].configOk
    ensures Loaded(rows, s, Done(Fail(SetPhase(s, u, Loading), u)), u, seen)
  {
    FailedLoad(rows, s, Fail(SetPhase(s, u, Loading), u), u, seen);
  }

  lemma {:induction false} LoadFlat(rows: seq<Row>, s: State, u: Uid, x: set<Uid>, q: seq<Uid>)
    requires Flat(rows, s, {u}) && u < |rows| && rows[u].Fed(Seen(s, u))
    requires Own(s, {}) && Core(s, {u}, x, q) && Rest(s, {u})
    requires s.fibers[u].phase == Pending && s.fibers[u].epoch.Live? && Lapsed(s, u)
    ensures Loaded(rows, s, Load(RowBehaviour(rows), s, u), u, Seen(s, u))
  {
    hide Own, Core, Flat, Loaded, OnlyRow, Given, Lapsed, BeginApply, EndLoad, Applying;
    RowAt(rows, s, u);
    var seen := Seen(s, u);
    var s1 := SetPhase(s, u, Loading);
    assert Seen(s1, u) == seen;
    assert RowBehaviour(rows)(u, s1) == RowScript(rows[u], u, s.fibers[u].realm, seen);
    if !rows[u].configOk {
      RejectedFlat(rows, s, u, seen);
    } else {
      StartFlat(rows, s, u, x, q);
      var b := Started(s, u);
      RowAt(rows, b, u);
      ApplyFlat(rows, b, u, seen, x, q);
      var t := RunActions(b, u, GiveActions(u, b.fibers[u].realm, rows[u].gives(seen))).state;
      EndFlat(rows, b, t, u, seen);
      LoadedFrom(rows, s, b, Load(RowBehaviour(rows), s, u), u, seen);
    }
  }

  lemma {:induction false} RowAt(rows: seq<Row>, s: State, u: Uid)
    requires Flat(rows, s, {u}) && u < |rows|
    ensures |s.fibers| == |rows| && s.fibers[u].entry == rows[u].entry
  {
  }

  // ---- one refresh -----------------------------------------------------------------------------

  /** The outcome of refreshing row u: only u moves, and unless it failed before, to what a load that sees
      what others serve now ends in. */
  ghost predicate RowRefreshed(rows: seq<Row>, s: State, r: Result, u: Uid)
    requires |s.fibers| == |rows| && u < |rows|
  {
    var seen := Outer(s, u);
    var f := s.fibers[u];
    && r.Done? && Flat(rows, r.state, {}) && OnlyRow(s, r.state, u)
    && (forall slot :: slot in r.state.store.impls && slot !in s.store.impls ==>
      r.state.store.impls[slot].owner == u)
    && r.state.fibers[u].phase == (if f.phase == Failed then Failed else rows[u].Outcome(seen))
    && (r.state.fibers[u].phase == Active ==> Saw(r.state.fibers[u]) == seen)
    && (f.phase == Failed ==> r.state.fibers[u] == f)
  }

  lemma {:induction false} FedIffLive(rows: seq<Row>, s: State, u: Uid)
    requires u < |s.fibers| && u < |rows| && s.fibers[u].decl == rows[u].decl
    ensures rows[u].Fed(Seen(s, u)) <==> ComputeEpoch(s, u).Live?
  {
    LiveIffResolved(s, u);
    forall n | n in rows[u].decl.inject ensures n in Seen(s, u) <==> Resolve(s.store, s.fibers[u].realm, n).Some? {
      assert n in s.fibers[u].decl.Names();
      assert Resolve(s.store, s.fibers[u].realm, n) == Lookup(s.store.impls, SlotOf(s, u, n));
    }
  }

  lemma {:induction false} FlatBusy(rows: seq<Row>, s: State, u: Uid)
    requires Flat(rows, s, {}) && u < |rows| && s.fibers[u].phase != Active
    ensures Flat(rows, s, {u}) && Outer(s, u) == Seen(s, u)
  {
    forall slot | slot in s.store.impls ensures Backed(rows, s, slot, {u}) { assert Backed(rows, s, slot, {}); }
  }

  /** An ACTIVE row that holds the current epoch has seen what others serve now, and serves none of it. */
  lemma {:induction false} CurrentSaw(rows: seq<Row>, s: State, u: Uid)
    requires Flat(rows, s, {}) && u < |rows| && s.fibers[u].phase == Active && s.fibers[u].bound == Bindings(s, u)
    ensures Saw(s.fibers[u]) == Seen(s, u) == Outer(s, u)
  {
    SawSeen(s, u);
    assert RowRight(rows, s, u);
    var names := s.fibers[u].decl.Names();
    forall n | n in Seen(s, u) ensures n in Outer(s, u) {
      var i :| 0 <= i < |names| && names[i] == n;
      assert Bindings(s, u)[i] == Lookup(s.store.impls, SlotOf(s, u, n));
    }
  }

  /** Withdrawing an ACTIVE row leaves the other rows as they were, and it sees what they serve. */
  lemma {:induction false} UnloadFlat(rows: seq<Row>, s: State, u: Uid)
    requires Flat(rows, s, {}) && Own(s, {}) && u < |rows| && s.fibers[u].phase == Active
    ensures var t := Unload(s, u);
      && Flat(rows, t, {u}) && OnlyRow(s, t, u) && t.fibers[u].phase == Pending && Seen(t, u) == Outer(s, u)
      && forall slot :: slot in t.store.impls ==> slot in s.store.impls
  {
    var s1 := SetPhase(s, u, Unloading);
    PutOwn(s, u, s.fibers[u].(phase := Unloading), {});
    assert s1 == Put(s, u, s.fibers[u].(phase := Unloading));
    assert s1.fibers[u].children == [] by { assert RowFixed(s.fibers[u], rows[u]); }
    DiscardEmpties(s1, u);
    var d := Discard(s1, u);
    var t := Unload(s, u);
    assert t == SetPhase(d, u, Pending);
    EmptiedFlat(rows, s, t, u);
  }

  lemma {:induction false} EmptiedFlat(rows: seq<Row>, s: State, t: State, u: Uid)
    requires Flat(rows, s, {}) && u < |rows| && SameShape(s, t) && RowFixed(t.fibers[u], rows[u])
    requires forall v: Uid :: v < |rows| && v != u ==> t.fibers[v] == s.fibers[v]
    requires forall slot :: slot in t.store.impls <==> slot in s.store.impls && s.store.impls[slot].owner != u
    requires forall slot :: slot in t.store.impls ==> t.store.impls[slot] == s.store.impls[slot]
    ensures Flat(rows, t, {u}) && OnlyRow(s, t, u) && Seen(t, u) == Outer(s, u)
  {
    OffersSame(rows, s, t);
    forall v: Uid | v < |rows| && v != u ensures RowRight(rows, t, v) { RightSame(rows, s, t, u, v, {}); }
    forall slot | slot in t.store.impls ensures Backed(rows, t, slot, {u}) { assert Backed(rows, s, slot, {}); }
    assert forall n :: SlotOf(t, u, n) == SlotOf(s, u, n);
  }

  lemma {:induction false} SetEpochFlat(rows: seq<Row>, s: State, u: Uid, e: Epoch, seen: seq<Option<Impl>>)
    requires Flat(rows, s, {}) && u < |rows|
    ensures var s1 := SetEpoch(s, u, e, seen);
      Flat(rows, s1, {}) && OnlyRow(s, s1, u) && Outer(s1, u) == Outer(s, u) && Seen(s1, u) == Seen(s, u)
  {
    var t := SetEpoch(s, u, e, seen);
    OffersSame(rows, s, t);
    assert forall v: Uid, n :: v < |rows| ==> SlotOf(t, v, n) == SlotOf(s, v, n);
    forall v: Uid | v < |rows| ensures RowRight(rows, t, v) { assert RowRight(rows, s, v); }
    forall slot | slot in t.store.impls ensures Backed(rows, t, slot, {}) { assert Backed(rows, s, slot, {}); }
  }

  lemma {:induction false} LoadedRefreshes(rows: seq<Row>, s: State, s1: State, r: Result, u: Uid)
    requires |s.fibers| == |rows| == |s1.fibers| && u < |rows| && OnlyRow(s, s1, u)
    requires s.fibers[u].phase != Failed && rows[u].Fed(Outer(s, u)) && Loaded(rows, s1, r, u, Outer(s, u))
    requires forall slot :: slot in s1.store.impls ==> slot in s.store.impls
    ensures RowRefreshed(rows, s, r, u)
  {
  }

  lemma {:induction false} FirstLoadFlat(rows: seq<Row>, s: State, u: Uid, x: set<Uid>, q: seq<Uid>)
    requires Flat(rows, s, {}) && u < |rows| && Own(s, {}) && Steady(s, x + {u}, q)
    requires s.fibers[u].phase == Pending && rows[u].Fed(Seen(s, u)) && ComputeEpoch(s, u).Live?
    ensures var s1 := SetEpoch(s, u, ComputeEpoch(s, u), Bindings(s, u));
      && RowRefreshed(rows, s, Load(RowBehaviour(rows), s1, u), u)
      && Loaded(rows, s1, Load(RowBehaviour(rows), s1, u), u, Outer(s, u))
  {
    var s1 := SetEpoch(s, u, ComputeEpoch(s, u), Bindings(s, u));
    EpochSet(s, u, x, q);
    PutOwn(s, u, s1.fibers[u], {});
    SetEpochFlat(rows, s, u, ComputeEpoch(s, u), Bindings(s, u));
    FlatBusy(rows, s, u);
    FlatBusy(rows, s1, u);
    hide Own, Core, Flat, Loaded, RowRefreshed, Load;
    LoadFlat(rows, s1, u, x + {u}, q);
    LoadedRefreshes(rows, s, s1, Load(RowBehaviour(rows), s1, u), u);
  }

  /** What u requires is not its own, so others serve it once u is withdrawn. */
  lemma {:induction false} FedByOthers(rows: seq<Row>, s: State, u: Uid)
    requires Flat(rows, s, {}) && u < |rows|
    ensures s.fibers[u].phase != Failed && rows[u].Fed(Seen(s, u)) ==> rows[u].Fed(Outer(s, u))
    ensures !rows[u].Fed(Seen(s, u)) ==> !rows[u].Fed(Outer(s, u))
  {
    assert Outer(s, u) <= Seen(s, u);
    assert RowRight(rows, s, u);
    if s.fibers[u].phase != Failed && rows[u].Fed(Seen(s, u)) {
      forall n | n in rows[u].decl.inject ensures n in Outer(s, u) {
        assert Backed(rows, s, SlotOf(s, u, n), {});
      }
    }
  }

  lemma {:induction false} ReloadFlat(rows: seq<Row>, s: State, u: Uid, x: set<Uid>, q: seq<Uid>)
    requires u < |s.fibers| && Flat(rows, s, {}) && u < |rows| && Own(s, {}) && Steady(s, x + {u}, q)
    requires s.fibers[u].phase == Active && rows[u].Fed(Outer(s, u)) && ComputeEpoch(s, u).Live?
    ensures var s1 := SetEpoch(s, u, ComputeEpoch(s, u), Bindings(s, u));
      RowRefreshed(rows, s, Load(RowBehaviour(rows), Unload(s1, u), u), u)
  {
    hide Flat, Filed, Tree, Ordered, Load, Loaded, Sound, Due, OnlyRow, Outer, Seen;
    var s1 := SetEpoch(s, u, ComputeEpoch(s, u), Bindings(s, u));
    FlatSize(rows, s, {});
    EpochSet(s, u, x, q);
    PutOwn(s, u, s1.fibers[u], {});
    SetEpochFlat(rows, s, u, ComputeEpoch(s, u), Bindings(s, u));
    UnloadSteady(s1, u, x + {u}, q);
    UnloadOwn(s1, u, {});
    var t := Unload(s1, u);
    FewerLapsed(s1, t, u);
    UnloadFlat(rows, s1, u);
    LoadFlat(rows, t, u, x + {u}, q);
    FlatSize(rows, t, {u});
    OnlyTwice(s, s1, t, u);
    LoadedRefreshes(rows, s, t, Load(RowBehaviour(rows), t, u), u);
  }

  lemma {:induction false} FlatSize(rows: seq<Row>, s: State, busy: set<Uid>)
    requires Flat(rows, s, busy)
    ensures |s.fibers| == |rows|
  {
  }

  lemma {:induction false} OnlyTwice(s: State, s1: State, t: State, u: Uid)
    requires OnlyRow(s, s1, u) && OnlyRow(s1, t, u)
    ensures OnlyRow(s, t, u)
  {
  }

  lemma {:induction false} WithdrawnFlat(rows: seq<Row>, s: State, u: Uid)
    requires Flat(rows, s, {}) && u < |rows| && Own(s, {}) && s.fibers[u].phase == Active
    requires !rows[u].Fed(Outer(s, u))
    ensures var s1 := SetEpoch(s, u, ComputeEpoch(s, u), Bindings(s, u));
      RowRefreshed(rows, s, Done(Unload(s1, u)), u)
  {
    var s1 := SetEpoch(s, u, ComputeEpoch(s, u), Bindings(s, u));
    PutOwn(s, u, s1.fibers[u], {});
    SetEpochFlat(rows, s, u, ComputeEpoch(s, u), Bindings(s, u));
    hide Own, Unload, Outer;
    UnloadFlat(rows, s1, u);
    OnlyTwice(s, s1, Unload(s1, u), u);
    IdleFlat(rows, Unload(s1, u), u);
  }

  lemma {:induction false} IdleFlat(rows: seq<Row>, s: State, u: Uid)
    requires Flat(rows, s, {u}) && u < |rows| && s.fibers[u].phase == Pending
    ensures Flat(rows, s, {})
  {
    forall slot | slot in s.store.impls ensures Backed(rows, s, slot, {}) { assert Backed(rows, s, slot, {u}); }
  }

  /** A row that carries the current epoch is what its phase says already. */
  lemma {:induction false} CurrentFlat(rows: seq<Row>, s: State, u: Uid)
    requires Flat(rows, s, {}) && u < |rows| && Serialized(s.store) && Sound(s.store, s.fibers[u], false)
    requires s.fibers[u].phase != Failed && s.fibers[u].epoch == ComputeEpoch(s, u)
    ensures RowRefreshed(rows, s, Done(s), u)
  {
    FedIffLive(rows, s, u);
    FedByOthers(rows, s, u);
    assert RowRight(rows, s, u);
    if s.fibers[u].phase == Active {
      CurrentMeansBound(s, u);
      CurrentSaw(rows, s, u);
    }
  }

  lemma {:induction false} RefreshFlat(rows: seq<Row>, s: State, u: Uid, x: set<Uid>, q: seq<Uid>)
    requires Flat(rows, s, {}) && u < |rows| && Own(s, {}) && Steady(s, x + {u}, q)
    ensures RowRefreshed(rows, s, Refresh(RowBehaviour(rows), s, u), u)
  {
    FedIffLive(rows, s, u);
    FedByOthers(rows, s, u);
    assert RowRight(rows, s, u) && RowFixed(s.fibers[u], rows[u]) && Sound(s.store, s.fibers[u], false);
    var f := s.fibers[u];
    if f.phase != Failed {
      if ComputeEpoch(s, u) == f.epoch {
        CurrentFlat(rows, s, u);
      } else if ComputeEpoch(s, u).Inactive? {
        WithdrawnFlat(rows, s, u);
      } else if f.phase == Pending {
        FirstLoadFlat(rows, s, u, x, q);
      } else {
        ReloadFlat(rows, s, u, x, q);
      }
    }
  }
}
