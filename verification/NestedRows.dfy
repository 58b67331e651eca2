/** Fresh trees of rows that mount a fixed list of children: the round bounds with nesting counted as depth. */
module NestedRows {
  import opened Lists
  import opened Registry
  import opened Runtime
  import opened Settling
  import opened Runs
  import opened Ownership
  import opened OwnedActions
  import opened Ranks
  import opened KeyedRanks
  import Rows

  // ---- mounting the outermost rows ----------------------------------------------------------------------

  ghost predicate Roots(c: Cast, es: seq<string>) {
    forall e :: e in es ==> e in c && c[e].parent == None
  }

  function MountRoot(c: Cast, s: State, e: string): State
    requires e in c
  {
    MountStep(s, None, 0, e, c[e].decl, c[e].isolated).state
  }

  /** The host mounts the rows of es in order. */
  ghost function MountRoots(c: Cast, es: seq<string>): State
    requires Roots(c, es)
    decreases |es|
  {
    if es == [] then EMPTY else MountRoot(c, MountRoots(c, es[..|es| - 1]), es[|es| - 1])
  }

  /** From s to t one fiber joined: an outermost row, in the realm made for it. */
  ghost predicate Seated(c: Cast, s: State, t: State, e: string) {
    && e in c && c[e].parent == None && s.store.realms <= t.store.realms && 0 < |s.store.realms|
    && |t.fibers| == |s.fibers| + 1 && t.fibers[..|s.fibers|] == s.fibers && t.fibers[|s.fibers|].entry == e
    && (c[e].isolated == {} ==> t.fibers[|s.fibers|].realm == 0)
    && (c[e].isolated != {} ==>
      && t.fibers[|s.fibers|].realm == |s.store.realms| < |t.store.realms|
      && t.store.realms[|s.store.realms|] == Realm(Some(0), c[e].isolated))
  }

  lemma {:induction false} RootSlot(c: Cast, s: State, t: State, e: string, n: Name)
    requires Staged(c, false, s) && Seated(c, s, t, e)
    ensures n in c[e].isolated ==> SlotOf(t, |s.fibers|, n).realm == |s.store.realms|
    ensures n !in c[e].isolated ==> SlotOf(t, |s.fibers|, n) == Slot(0, n)
    ensures HomeOf(c, e, n) == if n in c[e].isolated then Some(e) else None
  {
    assert t.store.realms[0] == s.store.realms[0];
    assert OwnerOf(t.store.realms, 0, n) == 0;
  }

  lemma {:induction false} RootSited(c: Cast, s: State, t: State, e: string)
    requires Staged(c, false, s) && Seated(c, s, t, e)
    ensures Sited(c, t)
  {
    hide Plays, HomeOf, SlotOf;
    var k := |s.fibers|;
    forall v: Uid | v < k ensures t.fibers[v] == s.fibers[v] { assert t.fibers[..k][v] == t.fibers[v]; }
    forall v: Uid, n | v < k
      ensures SlotOf(t, v, n) == SlotOf(s, v, n) && SlotOf(t, v, n).realm < |s.store.realms|
    {
      OldSlot(c, s, t, v, n);
    }
    forall n
      ensures SlotOf(t, k, n).realm == 0 ==> HomeOf(c, e, n) == None
      ensures SlotOf(t, k, n).realm == 0 || SlotOf(t, k, n).realm == |s.store.realms|
    {
      RootSlot(c, s, t, e, n);
    }
  }

  lemma {:induction false} RootPlays(c: Cast, named: bool, s: State, e: string)
    requires Staged(c, named, s) && e in c && c[e].parent == None
    ensures Staged(c, named, MountRoot(c, s, e))
  {
    var t := MountRoot(c, s, e);
    if t != s {
      forall v: Uid | v < |s.fibers| ensures Plays(c, named, t, v) { GrownPlays(c, named, s, t, v); }
      assert Plays(c, named, t, |s.fibers|);
      if !named { RootSited(c, s, t, e); }
    }
  }

  lemma {:induction false} RootsStaged(c: Cast, named: bool, es: seq<string>)
    requires Roots(c, es)
    ensures var s := MountRoots(c, es);
      Staged(c, named, s) && Steady(s, {}, []) && Own(s, {})
    decreases |es|
  {
    if es == [] {
      EmptySteady();
    } else {
      var e := es[|es| - 1];
      var s := MountRoots(c, es[..|es| - 1]);
      RootsStaged(c, named, es[..|es| - 1]);
      hide Staged, Steady, Own;
      RootPlays(c, named, s, e);
      MountSteady(s, None, 0, e, c[e].decl, c[e].isolated, {});
      MountOwn(s, None, 0, e, c[e].decl, c[e].isolated, {});
    }
  }

  // ---- fixed scripts -----------------------------------------------------------------------------------

  /** What a row's apply does: mount these rows, in order, then provide these names. */
  datatype Plan = Plan(kids: seq<string>, gives: seq<Name>)

  function MountActions(c: Cast, u: Uid, r: RealmId, kids: seq<string>): seq<Action>
    requires forall k :: k in kids ==> k in c
  {
    seq(|kids|, i requires 0 <= i < |kids| => Mount(u, r, kids[i], c[kids[i]].decl, c[kids[i]].isolated, false))
  }

  /** Every row mounts rows whose parent it is, and provides what it may. */
  ghost predicate Fitting(c: Cast, plans: map<string, Plan>) {
    forall e :: e in plans ==>
      && e in c
      && (forall k :: k in plans[e].kids ==> k in c && c[k].parent == Some(e))
      && (forall n :: n in plans[e].gives ==> n in c[e].may)
  }

  ghost function Scripted(c: Cast, plans: map<string, Plan>): Behaviour
    requires Fitting(c, plans)
  {
    (u: Uid, s: State) =>
      if u < |s.fibers| && s.fibers[u].entry in plans then
        var f := s.fibers[u];
        var plan := plans[f.entry];
        Script(Returns, MountActions(c, u, f.realm, plan.kids) + Rows.GiveActions(u, f.realm, plan.gives), Returns)
      else Script(Returns, [], Returns)
  }

  lemma {:induction false} ScriptedObeys(c: Cast, plans: map<string, Plan>, named: bool)
    requires Fitting(c, plans)
    ensures Obeys(c, named, Scripted(c, plans))
  {
    var w := Scripted(c, plans);
    forall u: Uid, s: State, a | u < |s.fibers| && s.fibers[u].entry in c && a in w(u, s).actions
      ensures Allowed(c, named, s, u, a)
    {
      var f := s.fibers[u];
      var kids, gives := plans[f.entry].kids, plans[f.entry].gives;
      var mounts, offers := MountActions(c, u, f.realm, kids), Rows.GiveActions(u, f.realm, gives);
      if a in mounts {
        var i :| 0 <= i < |mounts| && mounts[i] == a;
        assert kids[i] in kids;
      } else {
        var i :| 0 <= i < |offers| && offers[i] == a;
        assert gives[i] in gives;
      }
    }
  }

  /** Main result: rows that mount a fixed list of children and provide a fixed list of names, nested and
      mounted in any way, settle within depth + 1 rounds, where every row ranks above its parent and above
      whoever may provide a name it declares, and none above `depth`; within depth + 2 rounds when only the
      providers in the same home count. */
  lemma {:induction false} NestedRowsSettle(
    c: Cast, plans: map<string, Plan>, es: seq<string>, depth: nat, rounds: nat)
    requires Nested(c) && Fitting(c, plans) && Roots(c, es) && forall e :: e in c ==> RankOf(c, e) <= depth
    requires (AboveGivers(c) && rounds >= depth + 1) || (AboveSuppliers(c) && rounds >= depth + 2)
    ensures Settle(Scripted(c, plans), MountRoots(c, es), rounds).Done?
  {
    var w, s := Scripted(c, plans), MountRoots(c, es);
    if AboveGivers(c) && rounds >= depth + 1 {
      ScriptedObeys(c, plans, true);
      RootsStaged(c, true, es);
      AllQueued(c, true, s);
      hide *;
      NestedConvergence(c, depth, w, s, rounds);
    } else {
      ScriptedObeys(c, plans, false);
      RootsStaged(c, false, es);
      AllQueued(c, false, s);
      hide *;
      NestedKeyedConvergence(c, depth, w, s, rounds);
    }
  }

  lemma {:induction false} AllQueued(c: Cast, named: bool, s: State)
    requires Staged(c, named, s) && Steady(s, {}, [])
    ensures AtLeast(c, s, s.pending, 0) && Bound(c, s, s.pending, 0, [])
  {
  }
}
