/** The realm tree of src/aka/core/registry.py: the two views of it agree, and a change of a name is
    seen only by the realms that share its owner. The objects come last. */
module Realms {
  import opened Lists
  import opened Registry

  // ---- the two views -----------------------------------------------------------------------------

  /** Realm._impls of one realm. */
  function Held(g: Store, r: RealmId): map<Name, Impl> {
    map slot | slot in g.impls && slot.realm == r :: slot.name := g.impls[slot]
  }

  /** Realm.entries. */
  function Entries(g: Store, r: RealmId): map<Name, Impl>
    requires Forest(g.realms) && r < |g.realms|
    decreases r
  {
    var inherited := match g.realms[r].parent
      case None => map[]
      case Some(p) => var above := Entries(g, p); map n | n in above && n !in g.realms[r].isolated :: above[n];
    inherited + Held(g, r)
  }

  /** Every registration sits with the realm that owns its name. */
  ghost predicate Tidy(g: Store) {
    && Forest(g.realms)
    && forall slot :: slot in g.impls ==>
         slot.realm < |g.realms| && OwnerOf(g.realms, slot.realm, slot.name) == slot.realm && g.impls[slot].slot == slot
  }

  ghost predicate Agrees(g: Store, r: RealmId)
    requires Forest(g.realms) && r < |g.realms|
  {
    forall n :: (n in Entries(g, r) <==> Resolve(g, r, n).Some?)
      && (n in Entries(g, r) ==> Resolve(g, r, n) == Some(Entries(g, r)[n]))
  }

  lemma {:induction false} OwnerIdempotent(realms: seq<Realm>, r: RealmId, n: Name)
    requires Forest(realms) && r < |realms|
    ensures OwnerOf(realms, r, n) <= r && OwnerOf(realms, OwnerOf(realms, r, n), n) == OwnerOf(realms, r, n)
    decreases r
  {
    if realms[r].parent.Some? && n !in realms[r].isolated {
      OwnerIdempotent(realms, realms[r].parent.value, n);
    }
  }

  /** Main result: entries lists exactly what resolve finds, name by name. */
  lemma {:induction false} EntriesAreResolve(g: Store, r: RealmId)
    requires Tidy(g) && r < |g.realms|
    ensures Agrees(g, r)
    decreases r
  {
    var p := g.realms[r].parent;
    if p.Some? { EntriesAreResolve(g, p.value); }
    forall n
      ensures (n in Entries(g, r) <==> Resolve(g, r, n).Some?)
        && (n in Entries(g, r) ==> Resolve(g, r, n) == Some(Entries(g, r)[n]))
    {
      OwnerIdempotent(g.realms, r, n);
      if n in Held(g, r) { assert Slot(r, n) in g.impls; }
      if Slot(r, n) in g.impls { assert n in Held(g, r); }
    }
  }

  /** The views agree in every realm only because every registration sits with its owner. */
  lemma {:induction false} AgreementNeedsTidy(g: Store)
    requires Forest(g.realms)
    requires forall slot :: slot in g.impls ==> slot.realm < |g.realms| && g.impls[slot].slot == slot
    ensures Tidy(g) <==> forall r: RealmId :: r < |g.realms| ==> Agrees(g, r)
  {
    if Tidy(g) {
      forall r: RealmId | r < |g.realms| ensures Agrees(g, r) { EntriesAreResolve(g, r); }
    } else {
      var slot :| slot in g.impls && OwnerOf(g.realms, slot.realm, slot.name) != slot.realm;
      assert slot.name in Held(g, slot.realm);
      assert Entries(g, slot.realm)[slot.name] == g.impls[slot];
      assert !Agrees(g, slot.realm);
    }
  }

  // ---- histories -----------------------------------------------------------------------------------

  datatype Change =
    | Isolate(base: RealmId, names: set<Name>)
    | Provide(realm: RealmId, name: Name, owner: Uid)
    | Withdraw(impl: Impl)

  /** One call; a provide of a taken slot and the disposer of a dead registration change nothing. */
  function Apply(g: Store, c: Change): Store {
    match c
    case Isolate(base, names) => if base < |g.realms| then AddRealm(g, base, names) else g
    case Provide(r, n, owner) =>
      var slot := Slot(OwnerOf(g.realms, r, n), n);
      if r < |g.realms| && slot !in g.impls then Register(g, slot, owner) else g
    case Withdraw(i) => if IsLive(g, i) then Remove(g, i) else g
  }

  function Replay(g: Store, cs: seq<Change>): Store
    decreases |cs|
  {
    if cs == [] then g else Replay(Apply(g, cs[0]), cs[1..])
  }

  const FRESH := Store([Realm(None, {})], map[], 0)

  lemma {:induction false} ApplyTidy(g: Store, c: Change)
    requires Tidy(g) && Serialized(g)
    ensures Tidy(Apply(g, c)) && Serialized(Apply(g, c)) && g.serial <= Apply(g, c).serial
  {
    match c {
      case Isolate(base, names) =>
        if base < |g.realms| {
          forall slot | slot in g.impls
            ensures OwnerOf(g.realms + [Realm(Some(base), names)], slot.realm, slot.name) == slot.realm
          {
            OwnerOfStable(g.realms, Realm(Some(base), names), slot.realm, slot.name);
          }
        }
      case Provide(r, n, _) => if r < |g.realms| { OwnerIdempotent(g.realms, r, n); }
      case Withdraw(_) =>
    }
  }

  /** Main result: whatever the history of isolations, provides and withdrawals, the views agree in
      every realm and no two live registrations share a slot or a serial. */
  lemma {:induction false} HistoriesAgree(g: Store, cs: seq<Change>)
    requires Tidy(g) && Serialized(g)
    ensures var h := Replay(g, cs);
      && Tidy(h) && Serialized(h)
      && forall r: RealmId :: r < |h.realms| ==> Agrees(h, r)
    decreases |cs|
  {
    if cs == [] {
      AgreementNeedsTidy(g);
    } else {
      ApplyTidy(g, cs[0]);
      HistoriesAgree(Apply(g, cs[0]), cs[1..]);
    }
  }

  lemma {:induction false} FreshTidy()
    ensures Tidy(FRESH) && Serialized(FRESH)
  {
  }

  /** The same from a fresh root, where every history starts. */
  lemma {:induction false} HistoriesFromTheStart(cs: seq<Change>)
    ensures var h := Replay(FRESH, cs);
      && Tidy(h) && Serialized(h)
      && forall r: RealmId :: r < |h.realms| ==> Agrees(h, r)
  {
    FreshTidy();
    HistoriesAgree(FRESH, cs);
  }

  /** Main result: a provide is seen exactly by the realms that share the owner, for that name. */
  lemma {:induction false} ProvideIsLocal(g: Store, r: RealmId, n: Name, owner: Uid, x: RealmId, m: Name)
    requires Tidy(g) && r < |g.realms| && Slot(OwnerOf(g.realms, r, n), n) !in g.impls
    ensures Resolve(Apply(g, Provide(r, n, owner)), x, m) ==
      if m == n && OwnerOf(g.realms, x, n) == OwnerOf(g.realms, r, n)
      then Some(Impl(Slot(OwnerOf(g.realms, r, n), n), owner, g.serial + 1))
      else Resolve(g, x, m)
    ensures Resolve(Apply(g, Provide(r, n, owner)), x, m) != Resolve(g, x, m) <==>
      m == n && OwnerOf(g.realms, x, n) == OwnerOf(g.realms, r, n)
  {
  }

  /** An isolation changes nothing for the realms there are; the new one finds what its base finds, but of the
      isolated names it finds nothing until something is provided there. */
  lemma {:induction false} IsolateIsLocal(g: Store, base: RealmId, names: set<Name>, x: RealmId, m: Name)
    requires Tidy(g) && base < |g.realms| && x <= |g.realms|
    ensures var h := Apply(g, Isolate(base, names));
      && |h.realms| == |g.realms| + 1
      && Resolve(h, x, m) ==
           (if x < |g.realms| then Resolve(g, x, m) else if m in names then None else Resolve(g, base, m))
      && OwnerOf(h.realms, x, m) ==
           (if x < |g.realms| then OwnerOf(g.realms, x, m) else if m in names then x else OwnerOf(g.realms, base, m))
  {
    var extra := Realm(Some(base), names);
    OwnerOfStable(g.realms, extra, base, m);
    if x < |g.realms| { OwnerOfStable(g.realms, extra, x, m); }
  }

  lemma {:induction false} WithdrawIsLocal(g: Store, i: Impl, x: RealmId, m: Name)
    requires Tidy(g) && IsLive(g, i)
    ensures Resolve(Apply(g, Withdraw(i)), x, m) ==
      if m == i.slot.name && OwnerOf(g.realms, x, m) == i.slot.realm then None else Resolve(g, x, m)
    ensures Resolve(Apply(g, Withdraw(i)), x, m) != Resolve(g, x, m) <==>
      m == i.slot.name && OwnerOf(g.realms, x, m) == i.slot.realm
  {
  }

  /** A registration's disposer undoes its provide, and only that: run late, after the slot changed
      hands, it does nothing. */
  lemma {:induction false} WithdrawUndoesProvide(g: Store, r: RealmId, n: Name, owner: Uid)
    requires Tidy(g) && Serialized(g) && r < |g.realms| && Slot(OwnerOf(g.realms, r, n), n) !in g.impls
    ensures var i := Impl(Slot(OwnerOf(g.realms, r, n), n), owner, g.serial + 1);
      var h := Apply(g, Provide(r, n, owner));
      && Apply(h, Withdraw(i)) == h.(impls := g.impls)
      && forall heir :: var k := Apply(Apply(Apply(h, Withdraw(i)), Provide(r, n, heir)), Withdraw(i));
           k == Apply(Apply(h, Withdraw(i)), Provide(r, n, heir))
  {
    var slot := Slot(OwnerOf(g.realms, r, n), n);
    assert g.impls[slot := Impl(slot, owner, g.serial + 1)] - {slot} == g.impls;
  }

  // ---- the objects -----------------------------------------------------------------------------------

  class RealmObject {
    const id: RealmId
    const parent: RealmObject?
    const isolated: set<Name>
    var impls: map<Name, Impl>

    constructor (id: RealmId, parent: RealmObject?, isolated: set<Name>)
      ensures this.id == id && this.parent == parent && this.isolated == isolated && impls == map[]
    {
      this.id, this.parent, this.isolated, impls := id, parent, isolated, map[];
    }
  }

  /** The realms of one root, in creation order, with the root's serial counter. */
  class RealmTree {
    var realms: seq<RealmObject>
    var serial: nat
    ghost var repr: set<RealmObject>

    ghost predicate Valid()
      reads this, repr
    {
      && 0 < |realms| && realms[0].parent == null
      && (forall i :: 0 <= i < |realms| ==> realms[i] in repr && realms[i].id == i)
      && (forall i :: 0 <= i < |realms| && realms[i].parent != null ==>
           realms[i].parent.id < i && realms[realms[i].parent.id] == realms[i].parent)
      && (forall i, n :: 0 <= i < |realms| && n in realms[i].impls ==> realms[i].impls[n].slot == Slot(i, n))
    }

    ghost function Shapes(): (rs: seq<Realm>)
      requires Valid()
      reads this, repr
      ensures |rs| == |realms| && Forest(rs)
      ensures forall i :: 0 <= i < |rs| ==>
        rs[i] == Realm(if realms[i].parent == null then None else Some(realms[i].parent.id), realms[i].isolated)
    {
      seq(|realms|, i requires 0 <= i < |realms| reads this, repr =>
        Realm(if realms[i].parent == null then None else Some(realms[i].parent.id), realms[i].isolated))
    }

    /** Every live registration, by owning realm and name. */
    ghost function View(): (g: Store)
      requires Valid()
      reads this, repr
      ensures g.realms == Shapes() && g.serial == serial
      ensures forall slot :: slot in g.impls <==> slot.realm < |realms| && slot.name in realms[slot.realm].impls
      ensures forall slot :: slot in g.impls ==> g.impls[slot] == realms[slot.realm].impls[slot.name]
    {
      var slots := set i, n | 0 <= i < |realms| && n in realms[i].impls :: Slot(i, n);
      Store(Shapes(), map slot | slot in slots :: realms[slot.realm].impls[slot.name], serial)
    }

    constructor ()
      ensures Valid() && fresh(repr) && View() == FRESH
    {
      var root := new RealmObject(0, null, {});
      realms, serial, repr := [root], 0, {root};
      new;
      assert Shapes() == FRESH.realms;
    }

    /** Realm._owner_of: walk up to the first realm that isolates the name, or the root. */
    method FindOwner(r: RealmId, name: Name) returns (o: RealmObject)
      requires Valid() && r < |realms|
      ensures o in repr && o.id < |realms| && realms[o.id] == o && o.id == OwnerOf(Shapes(), r, name)
      decreases r
    {
      var here := realms[r];
      if here.parent == null || name in here.isolated { return here; }
      o := FindOwner(here.parent.id, name);
    }

    /** The pointwise reading of View. */
    ghost predicate Shows(g: Store)
      requires Valid()
      reads this, repr
    {
      && g.realms == Shapes() && g.serial == serial
      && (forall slot :: slot in g.impls <==> slot.realm < |realms| && slot.name in realms[slot.realm].impls)
      && (forall slot :: slot in g.impls ==> g.impls[slot] == realms[slot.realm].impls[slot.name])
    }

    lemma {:induction false} ViewIs(g: Store)
      requires Valid() && Shows(g)
      ensures View() == g
    {
      assert View().impls == g.impls;
    }

    method Isolated(r: RealmId, names: set<Name>) returns (child: RealmId)
      requires Valid() && r < |realms|
      modifies this
      ensures Valid() && fresh(repr - old(repr)) && child == |old(realms)|
      ensures View() == AddRealm(old(View()), r, names)
    {
      hide View, Shapes, OwnerOf;
      child := |realms|;
      ghost var g := View();
      var o := new RealmObject(child, realms[r], names);
      ghost var before := realms;
      realms := realms + [o];
      repr := repr + {o};
      forall i | 0 <= i < child ensures realms[i] == before[i] { }
      assert Shapes() == g.realms + [Realm(Some(r), names)];
      forall slot: Slot
        ensures slot in g.impls <==> slot.realm < |realms| && slot.name in realms[slot.realm].impls
      {
        if slot.realm == child { assert realms[child] == o; }
      }
      ViewIs(AddRealm(g, r, names));
    }

    /** Realm.resolve. */
    method Look(r: RealmId, name: Name) returns (found: Option<Impl>)
      requires Valid() && r < |realms|
      ensures found == Resolve(View(), r, name)
    {
      hide View;
      var o := FindOwner(r, name);
      found := if name in o.impls then Some(o.impls[name]) else None;
    }

    /** Write one realm's dictionary. */
    method Write(k: RealmId, impls: map<Name, Impl>)
      requires Valid() && k < |realms| && forall n :: n in impls ==> impls[n].slot == Slot(k, n)
      modifies repr
      ensures Valid() && Shapes() == old(Shapes())
      ensures realms[k].impls == impls
      ensures forall j :: 0 <= j < |realms| && j != k ==> realms[j].impls == old(realms[j].impls)
    {
      realms[k].impls := impls;
      assert Shapes() == old(Shapes());
    }

    /** Realm.provide: refused when the owner already holds the name. */
    method Publish(r: RealmId, name: Name, owner: Uid) returns (made: Option<Impl>)
      requires Valid() && r < |realms|
      modifies this`serial, repr
      ensures Valid()
      ensures View() == Apply(old(View()), Provide(r, name, owner))
      ensures var slot := Slot(OwnerOf(old(View()).realms, r, name), name);
        made == if slot in old(View()).impls then None else Some(Impl(slot, owner, old(serial) + 1))
    {
      hide View, Shapes, OwnerOf, Forest, Register, Apply, Valid;
      ghost var g := View();
      ProvideCases(g, r, name, owner);
      var o := FindOwner(r, name);
      assert o.id == OwnerOf(g.realms, r, name) && (Slot(o.id, name) in g.impls <==> name in o.impls);
      if name in o.impls { return None; }
      var i := Record(o.id, name, owner);
      made := Some(i);
    }

    lemma {:induction false} ProvideCases(g: Store, r: RealmId, name: Name, owner: Uid)
      requires r < |g.realms|
      ensures var slot := Slot(OwnerOf(g.realms, r, name), name);
        Apply(g, Provide(r, name, owner)) == if slot in g.impls then g else Register(g, slot, owner)
    {
    }

    /** The next serial, stored under the name in the owning realm. */
    method Record(k: RealmId, name: Name, owner: Uid) returns (i: Impl)
      requires Valid() && k < |realms|
      modifies this`serial, repr
      ensures Valid() && i == Impl(Slot(k, name), owner, old(serial) + 1)
      ensures View() == Register(old(View()), Slot(k, name), owner)
    {
      hide View, Shapes, OwnerOf, Forest, Resolve;
      ghost var g := View();
      i := Impl(Slot(k, name), owner, serial + 1);
      Write(k, realms[k].impls[name := i]);
      forall slot: Slot
        ensures slot in g.impls[i.slot := i] <==> slot.realm < |realms| && slot.name in realms[slot.realm].impls
        ensures slot in g.impls[i.slot := i] ==> g.impls[i.slot := i][slot] == realms[slot.realm].impls[slot.name]
      {
        if slot.realm < |realms| && slot.realm != k {
          assert realms[slot.realm].impls == old(realms[slot.realm].impls);
        }
      }
      Count(g, i);
    }

    /** root._serial += 1, for the registration just written. */
    method Count(ghost g: Store, i: Impl)
      requires Valid() && g.realms == Shapes() && g.serial == serial && i.serial == serial + 1
      requires Shows(g.(impls := g.impls[i.slot := i]))
      modifies this`serial
      ensures Valid() && View() == g.(impls := g.impls[i.slot := i], serial := i.serial)
    {
      serial := serial + 1;
      assert Shapes() == g.realms;
      ViewIs(g.(impls := g.impls[i.slot := i], serial := i.serial));
    }

    /** The disposer: deletes the name only while it still holds this registration. */
    method Retire(i: Impl) returns (deleted: bool)
      requires Valid() && i.slot.realm < |realms|
      modifies repr
      ensures Valid()
      ensures View() == Apply(old(View()), Withdraw(i)) && deleted == IsLive(old(View()), i)
    {
      hide View, Shapes, OwnerOf, Forest;
      ghost var g := View();
      var o := realms[i.slot.realm];
      deleted := i.slot.name in o.impls && o.impls[i.slot.name] == i;
      if deleted {
        Write(o.id, o.impls - {i.slot.name});
        ViewIs(Remove(g, i));
      }
    }

    /** Realm.entries: the inherited entries minus the isolated names, then the realm's own. */
    method List(r: RealmId) returns (merged: map<Name, Impl>)
      requires Valid() && r < |realms|
      ensures merged == Entries(View(), r)
      decreases r
    {
      hide View, Shapes, Held, OwnerOf;
      HeldIs(r);
      var here := realms[r];
      merged := map[];
      if here.parent != null {
        var above := List(here.parent.id);
        merged := map n | n in above && n !in here.isolated :: above[n];
      }
      merged := merged + here.impls;
    }

    lemma {:induction false} HeldIs(r: RealmId)
      requires Valid() && r < |realms|
      ensures Held(View(), r) == realms[r].impls
    {
      var held := Held(View(), r);
      forall n ensures n in realms[r].impls <==> n in held {
        if n in realms[r].impls { assert Slot(r, n) in View().impls; }
      }
    }
  }
}
