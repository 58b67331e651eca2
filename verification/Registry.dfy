/** The service store and its isolation realms (src/aka/core/registry.py), on values: every realm
    of one tree sits in a table, a parent before its children, and one map holds the live
    implementations by (owning realm, name). */
module Registry {
  import opened Lists

  type Uid = nat
  type RealmId = nat
  type Name = string

  datatype Realm = Realm(parent: Option<RealmId>, isolated: set<Name>)

  datatype Slot = Slot(realm: RealmId, name: Name)

  datatype Impl = Impl(slot: Slot, owner: Uid, serial: nat)

  datatype Store = Store(realms: seq<Realm>, impls: map<Slot, Impl>, serial: nat)

  /** Parents precede children, so every upward walk ends at the root realm. */
  ghost predicate Forest(realms: seq<Realm>) {
    0 < |realms| && forall r: RealmId :: r < |realms| && realms[r].parent.Some? ==> realms[r].parent.value < r
  }

  function OwnerOf(realms: seq<Realm>, r: RealmId, name: Name): RealmId {
    if r < |realms| && realms[r].parent.Some? && name !in realms[r].isolated && realms[r].parent.value < r
    then OwnerOf(realms, realms[r].parent.value, name)
    else r
  }

  function Lookup(impls: map<Slot, Impl>, slot: Slot): Option<Impl> {
    if slot in impls then Some(impls[slot]) else None
  }

  function Resolve(g: Store, r: RealmId, name: Name): Option<Impl> {
    Lookup(g.impls, Slot(OwnerOf(g.realms, r, name), name))
  }

  function AddRealm(g: Store, parent: RealmId, isolated: set<Name>): Store {
    g.(realms := g.realms + [Realm(Some(parent), isolated)])
  }

  /** A registration under a free slot; the serial is the tree-wide counter's next value. */
  function Register(g: Store, slot: Slot, owner: Uid): Store {
    g.(impls := g.impls[slot := Impl(slot, owner, g.serial + 1)], serial := g.serial + 1)
  }

  /** The disposer's guard: the slot still holds exactly this registration. */
  predicate IsLive(g: Store, i: Impl) {
    i.slot in g.impls && g.impls[i.slot] == i
  }

  function Remove(g: Store, i: Impl): Store {
    g.(impls := g.impls - {i.slot})
  }

  /** Serials are positive, bounded by the counter, and never shared by two live registrations. */
  ghost predicate Serialized(g: Store) {
    && (forall slot :: slot in g.impls ==> g.impls[slot].slot == slot && 1 <= g.impls[slot].serial <= g.serial)
    && (forall a, b :: a in g.impls && b in g.impls && g.impls[a].serial == g.impls[b].serial ==> a == b)
  }

  /** A registration seen in the past: any live one with the same serial is that registration. */
  ghost predicate Known(g: Store, i: Impl) {
    && 1 <= i.serial <= g.serial
    && forall slot :: slot in g.impls && g.impls[slot].serial == i.serial ==> g.impls[slot] == i
  }

  lemma {:induction false} OwnerOfStable(realms: seq<Realm>, extra: Realm, r: RealmId, name: Name)
    requires Forest(realms) && r < |realms|
    ensures OwnerOf(realms + [extra], r, name) == OwnerOf(realms, r, name)
    decreases r
  {
    if realms[r].parent.Some? && name !in realms[r].isolated {
      OwnerOfStable(realms, extra, realms[r].parent.value, name);
    }
  }
}
