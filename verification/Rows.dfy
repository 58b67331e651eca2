/** Flat compositions: rows mounted fresh, none of which mounts others. What a row's apply provides and
    whether it returns may depend on which of its declared names resolve when it starts. How one load and
    one unload of such a row change the tree. */
module Rows {
  import opened Lists
  import opened Registry
  import opened Runtime
  import opened Teardown
  import opened Currency
  import opened Ownership
  import opened Shutdown

  /** `may` lists the names the row's apply may provide, `gives` those it provides, in order, when it sees
      the names `seen`; the other two say whether config resolution and apply return. */
  datatype Row = Row(
    entry: string, decl: Decl, isolated: set<Name>, may: set<Name>,
    configOk: bool, gives: set<Name> -> seq<Name>, applyOk: set<Name> -> bool)
  {
    predicate Fed(seen: set<Name>) {
      forall n :: n in decl.inject ==> n in seen
    }

    /** A load that sees these names ends ACTIVE. */
    predicate Succeeds(seen: set<Name>) {
      configOk && applyOk(seen) && forall n :: n in decl.provide ==> n in gives(seen)
    }

    predicate Runs(seen: set<Name>) {
      Fed(seen) && Succeeds(seen)
    }

    predicate Fails(seen: set<Name>) {
      Fed(seen) && !Succeeds(seen)
    }

    /** The phase a PENDING row ends in when it is refreshed and sees these names. */
    function Outcome(seen: set<Name>): Phase {
      if !Fed(seen) then Pending else if Succeeds(seen) then Active else Failed
    }

    function NameSet(): set<Name> {
      set n | n in decl.Names()
    }

    /** The declared names another flat row could serve: those the row does not keep to itself. */
    function Visible(): set<Name> {
      set n | n in decl.Names() && n !in isolated
    }

    /** Whether its load succeeds does not depend on its optional injections. */
    ghost predicate Steadfast() {
      forall p, q :: Fed(p) && Fed(q) && p <= Visible() && q <= Visible() ==> Succeeds(p) == Succeeds(q)
    }

    /** Nor does it ever give less for seeing more. */
    ghost predicate Monotone() {
      forall p, q :: Fed(p) && p <= q <= NameSet() ==>
        Succeeds(p) == Succeeds(q) && forall n :: n in gives(p) ==> n in gives(q)
    }

    /** It provides nothing twice and nothing off its list. */
    ghost predicate WellFormed() {
      forall seen :: NoDup(gives(seen)) && forall n :: n in gives(seen) ==> n in may
    }
  }

  function GiveActions(u: Uid, r: RealmId, names: seq<Name>): seq<Action> {
    seq(|names|, i requires 0 <= i < |names| => Provide(u, r, names[i], false))
  }

  function EndingOf(ok: bool): Ending {
    if ok then Returns else Raises
  }

  function RowScript(row: Row, u: Uid, r: RealmId, seen: set<Name>): Script {
    Script(EndingOf(row.configOk), GiveActions(u, r, row.gives(seen)), EndingOf(row.applyOk(seen)))
  }

  /** The declared names of u that resolve. */
  function Seen(s: State, u: Uid): set<Name>
    requires u < |s.fibers|
  {
    set n | n in s.fibers[u].decl.Names() && SlotOf(s, u, n) in s.store.impls
  }

  function RowBehaviour(rows: seq<Row>): Behaviour {
    (u: Uid, s: State) =>
      if u < |rows| && u < |s.fibers| && s.fibers[u].entry == rows[u].entry
      then RowScript(rows[u], u, s.fibers[u].realm, Seen(s, u))
      else Script(Returns, [], Returns)
  }

  // ---- providing a list of names --------------------------------------------------------------

  ghost predicate SameRow(f: Fiber, f': Fiber) {
    SameLoad(f, f') && f'.children == f.children && f'.restart == f.restart
  }

  ghost predicate Given(s: State, t: State, u: Uid, r: RealmId, names: seq<Name>) {
    && |t.fibers| == |s.fibers| && u < |s.fibers|
    && t.mounted == s.mounted && t.activation == s.activation && t.log == s.log && t.store.realms == s.store.realms
    && (forall v: Uid :: v < |s.fibers| && v != u ==> t.fibers[v] == s.fibers[v])
    && SameRow(s.fibers[u], t.fibers[u])
    && (forall n :: n in t.fibers[u].provided <==> n in s.fibers[u].provided || n in names)
    && (forall slot :: slot in s.store.impls ==> slot in t.store.impls && t.store.impls[slot] == s.store.impls[slot])
    && (forall slot :: slot in t.store.impls && slot !in s.store.impls ==>
         && t.store.impls[slot].owner == u && slot.name in names
         && slot == Slot(OwnerOf(s.store.realms, r, slot.name), slot.name))
    && (forall n :: n in names ==> Slot(OwnerOf(s.store.realms, r, n), n) in t.store.impls)
  }

  lemma {:induction false} GiveAll(s: State, u: Uid, r: RealmId, names: seq<Name>)
    requires Acting(s, u) && r < |s.store.realms| && NoDup(names)
    requires forall n :: n in names ==> Slot(OwnerOf(s.store.realms, r, n), n) !in s.store.impls
    ensures RunActions(s, u, GiveActions(u, r, names)).Ok?
    ensures Given(s, RunActions(s, u, GiveActions(u, r, names)).state, u, r, names)
    decreases |names|
  {
    if names != [] {
      var n := names[0];
      var t := ProvideStep(s, u, r, n).state;
      assert GiveActions(u, r, names)[1..] == GiveActions(u, r, names[1..]);
      assert GiveActions(u, r, names)[0] == Provide(u, r, n, false);
      NoDupTail(names);
      assert n in names && forall m :: m in names[1..] ==> m in names && m != n;
      GiveAll(t, u, r, names[1..]);
      GivenCons(s, t, RunActions(t, u, GiveActions(u, r, names[1..])).state, u, r, names);
    }
  }

  lemma {:induction false} GivenCons(s: State, t: State, z: State, u: Uid, r: RealmId, names: seq<Name>)
    requires Acting(s, u) && names != []
    requires Slot(OwnerOf(s.store.realms, r, names[0]), names[0]) !in s.store.impls
    requires t == ProvideStep(s, u, r, names[0]).state
    requires Given(t, z, u, r, names[1..])
    ensures Given(s, z, u, r, names)
  {
    assert forall n :: n in names <==> n == names[0] || n in names[1..];
  }

  // ---- withdrawing them again -----------------------------------------------------------------

  /** What discarding a childless fiber leaves: the others untouched, exactly their registrations. */
  ghost predicate Emptied(s: State, t: State, u: Uid) {
    && |t.fibers| == |s.fibers| && u < |s.fibers|
    && t.mounted == s.mounted && t.activation == s.activation && t.store.realms == s.store.realms
    && (forall v: Uid :: v < |s.fibers| && v != u ==> t.fibers[v] == s.fibers[v])
    && SameRow(s.fibers[u], t.fibers[u]) && Bare(t.fibers[u])
    && (forall slot :: slot in t.store.impls <==> slot in s.store.impls && s.store.impls[slot].owner != u)
    && (forall slot :: slot in t.store.impls ==> t.store.impls[slot] == s.store.impls[slot])
  }

  lemma {:induction false} DiscardEmpties(s: State, u: Uid)
    requires Own(s, {}) && u < |s.fibers| && s.fibers[u].children == [] && s.fibers[u].phase != Disposed
    ensures Emptied(s, Discard(s, u), u)
  {
    var s2 := Put(s, u, s.fibers[u].(provided := {}));
    assert DisposeAll(s, u, []) == s;
    var d := Unwind(s2, u);
    assert d == Discard(s, u);
    UnwindAlone(s2, u);
    DiscardOwn(s, u, {});
    DiscardWanes(s, u);
    assert Fades(s.fibers[u], d.fibers[u], true);
    OwnersHoldEffects(d);
    OthersKept(s, d, u);
  }

  /** A registration whose owner still holds its undo is still live. */
  lemma {:induction false} OthersKept(s: State, d: State, u: Uid)
    requires Filed(s) && Filed(d) && |d.fibers| == |s.fibers|
    requires forall v: Uid :: v < |s.fibers| && v != u ==> d.fibers[v] == s.fibers[v]
    ensures forall slot :: slot in s.store.impls && s.store.impls[slot].owner != u ==> slot in d.store.impls
  {
    forall slot | slot in s.store.impls && s.store.impls[slot].owner != u ensures slot in d.store.impls {
      var i := s.store.impls[slot];
      assert Files(s.fibers[i.owner], i);
      assert EffectsOk(d.store, i.owner, d.fibers[i.owner].effects);
      var k :| 0 <= k < |d.fibers[i.owner].effects| && d.fibers[i.owner].effects[k] == Undo(i);
    }
  }
}
