/** Plugins that may do whatever they like with their own fiber, nested as deep as they like: what one
    refresh can reach when every plugin ranks above its parent and above whoever may serve it. */
module Ranks {
  import opened Lists
  import opened Registry
  import opened Runtime

  /** What is fixed about a row id: its declaration, the names its apply may provide, the names its mount
      isolates, the row whose apply mounts it, if any, and its rank. Which of the names it provides, which
      children it mounts and how its loads end is up to the behaviour. */
  datatype Part = Part(decl: Decl, may: set<Name>, isolated: set<Name>, parent: Option<string>, rank: nat)

  type Cast = map<string, Part>

  function RankOf(c: Cast, e: string): nat {
    if e in c then c[e].rank else 0
  }

  /** Every row ranks above its parent. */
  ghost predicate Nested(c: Cast) {
    forall e :: e in c && c[e].parent.Some? ==> c[e].parent.value in c && RankOf(c, c[e].parent.value) < RankOf(c, e)
  }

  /** Every declarer of a name ranks above every row that may provide it. */
  ghost predicate AboveGivers(c: Cast) {
    forall g, d, n :: g in c && d in c && n in c[g].may && n in c[d].decl.Names() ==> RankOf(c, g) < RankOf(c, d)
  }

  /** The row whose mount isolates the name for e: e itself or the nearest ancestor that does; None when
      the name is shared by the whole tree. */
  function HomeOf(c: Cast, e: string, n: Name): Option<string>
    decreases RankOf(c, e)
  {
    if e !in c then None
    else if n in c[e].isolated then Some(e)
    else if c[e].parent.Some? && RankOf(c, c[e].parent.value) < RankOf(c, e) then HomeOf(c, c[e].parent.value, n)
    else None
  }

  /** What the apply of u may do: act for itself, provide names from its list, mount its own children, ask
      for a restart of what ranks above it. Unless the graph is read by bare name, it provides and mounts
      in its own realm and asks for no restarts. */
  ghost predicate Allowed(c: Cast, named: bool, s: State, u: Uid, a: Action)
    requires u < |s.fibers|
  {
    var f := s.fibers[u];
    f.entry in c &&
      match a
      case Isolate(_, _) => true
      case Provide(who, base, name, _) => who == u && name in c[f.entry].may && (named || base == f.realm)
      case Withdraw(who, _) => who == u
      case File(who, _) => who == u
      case Mount(who, base, child, d, isolated, _) =>
        && who == u && child in c && c[child].parent == Some(f.entry) && d == c[child].decl
        && isolated == c[child].isolated && (named || base == f.realm)
      case Drop(_) => true
      case Restart(v) => named && v < |s.fibers| && RankOf(c, f.entry) < RankOf(c, s.fibers[v].entry)
  }

  ghost predicate Obeys(c: Cast, named: bool, w: Behaviour) {
    forall u: Uid, s: State :: u < |s.fibers| && s.fibers[u].entry in c ==>
      && !w(u, s).config.Aborts? && !w(u, s).ending.Aborts?
      && forall a :: a in w(u, s).actions ==> Allowed(c, named, s, u, a)
  }

  /** Fiber u plays its part. */
  ghost predicate Plays(c: Cast, named: bool, s: State, u: Uid)
    requires u < |s.fibers|
  {
    var f := s.fibers[u];
    && f.entry in c && f.decl == c[f.entry].decl && (!named ==> f.realm < |s.store.realms| && !f.restart)
    && (forall k :: k in f.children ==>
      && u < k < |s.fibers| && s.fibers[k].parent == Some(u)
      && s.fibers[k].entry in c && c[s.fibers[k].entry].parent == Some(f.entry))
    && (forall x :: x in f.effects && x.Undo? ==>
      x.impl.slot.name in c[f.entry].may && (!named ==> x.impl.slot == SlotOf(s, u, x.impl.slot.name)))
  }

  /** Names that live in one place have one home. */
  ghost predicate Sited(c: Cast, s: State) {
    && (forall u: Uid, v: Uid, n :: u < |s.fibers| && v < |s.fibers| && SlotOf(s, u, n) == SlotOf(s, v, n) ==>
         HomeOf(c, s.fibers[u].entry, n) == HomeOf(c, s.fibers[v].entry, n))
    && (forall u: Uid, n :: u < |s.fibers| && SlotOf(s, u, n).realm == 0 ==> HomeOf(c, s.fibers[u].entry, n) == None)
  }

  ghost predicate Staged(c: Cast, named: bool, s: State) {
    && Uids(s, s.mounted) && Forest(s.store.realms)
    && (forall u: Uid :: u < |s.fibers| ==> Plays(c, named, s, u))
    && (!named ==> Sited(c, s))
  }

  /** From s to t: of the fibers there were, u and some of rank at least `low` changed; new ones rank at
      least `low`, and when the graph is read by name, so does everyone who was queued. */
  ghost predicate Reach(c: Cast, named: bool, low: nat, u: Uid, s: State, t: State) {
    && |s.fibers| <= |t.fibers| && s.store.realms <= t.store.realms
    && (forall v: Uid :: v < |s.fibers| ==> Identical(s.fibers[v], t.fibers[v]))
    && (forall v: Uid :: v < |s.fibers| && v != u && RankOf(c, s.fibers[v].entry) < low ==> t.fibers[v] == s.fibers[v])
    && (forall v: Uid :: |s.fibers| <= v < |t.fibers| ==> RankOf(c, t.fibers[v].entry) >= low)
    && (named ==> forall v :: v in t.pending ==>
      v in s.pending || (v < |t.fibers| && RankOf(c, t.fibers[v].entry) >= low))
  }

  /** What is settled when a fiber is made. */
  ghost predicate Identical(f: Fiber, f': Fiber) {
    f'.entry == f.entry && f'.decl == f.decl && f'.realm == f.realm && f'.parent == f.parent
  }

  lemma {:induction false} ReachTrans(
    c: Cast, named: bool, low: nat, u: Uid, s: State, t: State, r: State)
    requires Reach(c, named, low, u, s, t) && Reach(c, named, low, u, t, r)
    ensures Reach(c, named, low, u, s, r)
  {
    forall v: Uid | v < |s.fibers| ensures Identical(s.fibers[v], r.fibers[v]) {
      assert Identical(s.fibers[v], t.fibers[v]) && Identical(t.fibers[v], r.fibers[v]);
    }
    forall v: Uid | v < |s.fibers| && v != u && RankOf(c, s.fibers[v].entry) < low ensures r.fibers[v] == s.fibers[v] {
      assert Identical(s.fibers[v], t.fibers[v]);
    }
    forall v: Uid | |s.fibers| <= v < |r.fibers| ensures RankOf(c, r.fibers[v].entry) >= low {
      if v < |t.fibers| { assert Identical(t.fibers[v], r.fibers[v]); }
    }
    if named {
      forall v | v in r.pending ensures v in s.pending || (v < |r.fibers| && RankOf(c, r.fibers[v].entry) >= low) {
        if v in t.pending && v !in s.pending { assert Identical(t.fibers[v], r.fibers[v]); }
      }
    }
  }

  /** What a child of u reaches, u reaches. */
  lemma {:induction false} ReachFromChild(
    c: Cast, named: bool, low: nat, low': nat, u: Uid, k: Uid, s: State, t: State)
    requires Reach(c, named, low', k, s, t) && low <= low'
    requires k < |s.fibers| && RankOf(c, s.fibers[k].entry) >= low
    ensures Reach(c, named, low, u, s, t)
  {
  }

  /** Names resolve where they did. */
  lemma {:induction false} SlotsStand(s: State, t: State, u: Uid, n: Name)
    requires Forest(s.store.realms) && u < |s.fibers| && u < |t.fibers| && s.fibers[u].realm < |s.store.realms|
    requires s.store.realms <= t.store.realms && t.fibers[u].realm == s.fibers[u].realm
    ensures SlotOf(t, u, n) == SlotOf(s, u, n)
  {
    OwnerStands(s.store.realms, t.store.realms, s.fibers[u].realm, n);
  }

  lemma {:induction false} OwnerStands(realms: seq<Realm>, more: seq<Realm>, r: RealmId, n: Name)
    requires Forest(realms) && realms <= more && r < |realms|
    ensures OwnerOf(more, r, n) == OwnerOf(realms, r, n) < |realms|
    decreases r
  {
    assert more[r] == realms[r];
    if realms[r].parent.Some? && n !in realms[r].isolated { OwnerStands(realms, more, realms[r].parent.value, n); }
  }

  /** A fiber that lost children and effects, or only ran, still plays its part. */
  ghost predicate Lighter(f: Fiber, f': Fiber) {
    && Identical(f, f') && (f'.restart ==> f.restart)
    && (forall k :: k in f'.children ==> k in f.children)
    && (forall x :: x in f'.effects ==> x in f.effects)
  }

  lemma {:induction false} SitedStands(c: Cast, s: State, t: State)
    requires Sited(c, s) && Forest(s.store.realms) && s.store.realms <= t.store.realms && |t.fibers| == |s.fibers|
    requires forall v: Uid :: v < |s.fibers| ==> Identical(s.fibers[v], t.fibers[v])
    requires forall v: Uid :: v < |s.fibers| ==> s.fibers[v].realm < |s.store.realms|
    ensures Sited(c, t)
  {
    forall v: Uid, n | v < |t.fibers| ensures SlotOf(t, v, n) == SlotOf(s, v, n) {
      assert Identical(s.fibers[v], t.fibers[v]);
      SlotsStand(s, t, v, n);
    }
    forall u: Uid, v: Uid, n | u < |t.fibers| && v < |t.fibers| && SlotOf(t, u, n) == SlotOf(t, v, n)
      ensures HomeOf(c, t.fibers[u].entry, n) == HomeOf(c, t.fibers[v].entry, n)
    {
      assert Identical(s.fibers[u], t.fibers[u]) && Identical(s.fibers[v], t.fibers[v]);
    }
    forall u: Uid, n | u < |t.fibers| && SlotOf(t, u, n).realm == 0
      ensures HomeOf(c, t.fibers[u].entry, n) == None
    {
      assert Identical(s.fibers[u], t.fibers[u]);
    }
  }

  /** The same fibers over the same realms, as far as Sited reads them. */
  lemma {:induction false} SitedStill(c: Cast, named: bool, s: State, t: State)
    requires Staged(c, named, s) && s.store.realms <= t.store.realms && |t.fibers| == |s.fibers|
    requires forall v: Uid :: v < |s.fibers| ==> Identical(s.fibers[v], t.fibers[v])
    ensures !named ==> Sited(c, t)
  {
    if !named {
      forall v: Uid | v < |s.fibers| ensures s.fibers[v].realm < |s.store.realms| { assert Plays(c, named, s, v); }
      SitedStands(c, s, t);
    }
  }

  lemma {:induction false} LighterPlays(c: Cast, named: bool, s: State, t: State)
    requires Staged(c, named, s) && |t.fibers| == |s.fibers| && s.store.realms <= t.store.realms
    requires Forest(t.store.realms)
    requires forall v: Uid :: v < |s.fibers| ==> Lighter(s.fibers[v], t.fibers[v])
    requires forall v :: v in t.mounted ==> v in s.mounted
    ensures Staged(c, named, t)
  {
    forall v: Uid | v < |s.fibers| ensures Identical(s.fibers[v], t.fibers[v]) {
      assert Lighter(s.fibers[v], t.fibers[v]);
    }
    SitedStill(c, named, s, t);
    forall v: Uid | v < |t.fibers| ensures Plays(c, named, t, v) {
      assert Plays(c, named, s, v) && Lighter(s.fibers[v], t.fibers[v]);
      forall k | k in t.fibers[v].children
        ensures s.fibers[k].entry == t.fibers[k].entry && t.fibers[k].parent == Some(v)
      {
        assert k in s.fibers[v].children;
        assert Lighter(s.fibers[k], t.fibers[k]);
      }
      if !named {
        forall x | x in t.fibers[v].effects && x.Undo? ensures x.impl.slot == SlotOf(t, v, x.impl.slot.name) {
          SlotsStand(s, t, v, x.impl.slot.name);
        }
      }
    }
  }

  // ---- teardown --------------------------------------------------------------------------------------

  ghost predicate Ready(c: Cast, named: bool, s: State, u: Uid) {
    Nested(c) && (named ==> AboveGivers(c)) && Staged(c, named, s) && u < |s.fibers|
  }

  /** Staged still, and only u and what ranks above it was reached. */
  ghost predicate Confined(c: Cast, named: bool, u: Uid, s: State, t: State)
    requires u < |s.fibers|
  {
    Staged(c, named, t) && Reach(c, named, RankOf(c, s.fibers[u].entry) + 1, u, s, t)
  }

  lemma {:induction false} RevertReaches(c: Cast, named: bool, s: State, u: Uid, x: Effect)
    requires Ready(c, named, s, u) && s.fibers[u].entry in c
    requires x.Undo? ==> x.impl.slot.name in c[s.fibers[u].entry].may
    ensures Confined(c, named, u, s, Revert(s, u, x))
  {
    var t := Revert(s, u, x);
    forall v: Uid | v < |s.fibers| ensures Lighter(s.fibers[v], t.fibers[v]) { }
    LighterPlays(c, named, s, t);
    assert Plays(c, named, s, u);
    if named {
      forall v | v in t.pending
        ensures v in s.pending || (v < |t.fibers| && RankOf(c, t.fibers[v].entry) > RankOf(c, s.fibers[u].entry))
      {
        if v !in s.pending {
          assert Declares(s, v, x.impl.slot.name);
          assert Plays(c, named, s, v);
        }
      }
    }
  }

  lemma {:induction false} PutReaches(c: Cast, named: bool, s: State, u: Uid, f: Fiber)
    requires Ready(c, named, s, u) && Lighter(s.fibers[u], f)
    ensures Confined(c, named, u, s, Put(s, u, f))
  {
    LighterPlays(c, named, s, Put(s, u, f));
  }

  lemma {:induction false} ConfinedTrans(
    c: Cast, named: bool, u: Uid, s: State, t: State, r: State)
    requires u < |s.fibers| && Confined(c, named, u, s, t) && u < |t.fibers| && Confined(c, named, u, t, r)
    ensures Confined(c, named, u, s, r)
  {
    assert Identical(s.fibers[u], t.fibers[u]);
    ReachTrans(c, named, RankOf(c, s.fibers[u].entry) + 1, u, s, t, r);
  }

  lemma {:induction false} UnwindReaches(c: Cast, named: bool, s: State, u: Uid)
    requires Ready(c, named, s, u)
    ensures Confined(c, named, u, s, Unwind(s, u))
    decreases |s.fibers[u].effects|
  {
    hide Plays, Reach;
    var n := |s.fibers[u].effects|;
    if n == 0 {
      PutReaches(c, named, s, u, s.fibers[u]);
      assert Put(s, u, s.fibers[u]) == s;
    } else {
      var x := s.fibers[u].effects[n - 1];
      var f := s.fibers[u].(effects := s.fibers[u].effects[..n - 1]);
      var t := Put(s, u, f);
      var r := Revert(t, u, x);
      PutReaches(c, named, s, u, f);
      EffectAllowed(c, named, s, u, x);
      RevertReaches(c, named, t, u, x);
      ConfinedTrans(c, named, u, s, t, r);
      UnwindReaches(c, named, r, u);
      ConfinedTrans(c, named, u, s, r, Unwind(r, u));
    }
  }

  lemma {:induction false} EffectAllowed(c: Cast, named: bool, s: State, u: Uid, x: Effect)
    requires Staged(c, named, s) && u < |s.fibers| && x in s.fibers[u].effects
    ensures s.fibers[u].entry in c && (x.Undo? ==> x.impl.slot.name in c[s.fibers[u].entry].may)
  {
    assert Plays(c, named, s, u);
  }

  lemma {:induction false} DiscardReaches(c: Cast, named: bool, s: State, u: Uid)
    requires Ready(c, named, s, u)
    ensures Confined(c, named, u, s, Discard(s, u))
    decreases |s.fibers| - u, 1, 0
  {
    hide Staged, Reach;
    var s1 := DisposeAll(s, u, s.fibers[u].children);
    ChildrenPlay(c, named, s, u);
    DisposeAllReaches(c, named, s, u, s.fibers[u].children);
    var f := s1.fibers[u].(provided := {});
    PutReaches(c, named, s1, u, f);
    ConfinedTrans(c, named, u, s, s1, Put(s1, u, f));
    UnwindReaches(c, named, Put(s1, u, f), u);
    ConfinedTrans(c, named, u, s, Put(s1, u, f), Discard(s, u));
  }

  /** k is a child of u by its part. */
  ghost predicate ChildOf(c: Cast, s: State, u: Uid, k: Uid) {
    && u < k < |s.fibers| && s.fibers[k].parent == Some(u) && s.fibers[k].entry in c
    && c[s.fibers[k].entry].parent == Some(s.fibers[u].entry)
  }

  lemma {:induction false} ChildrenPlay(c: Cast, named: bool, s: State, u: Uid)
    requires Staged(c, named, s) && u < |s.fibers|
    ensures forall k :: k in s.fibers[u].children ==> ChildOf(c, s, u, k)
  {
    assert Plays(c, named, s, u);
  }

  lemma {:induction false} ChildStays(
    c: Cast, named: bool, low: nat, u: Uid, s: State, t: State, k: Uid, x: Uid)
    requires ChildOf(c, s, u, k) && Reach(c, named, low, x, s, t)
    ensures ChildOf(c, t, u, k)
  {
    assert Identical(s.fibers[u], t.fibers[u]) && Identical(s.fibers[k], t.fibers[k]);
  }

  lemma {:induction false} DisposeAllReaches(
    c: Cast, named: bool, s: State, u: Uid, ks: seq<Uid>)
    requires Ready(c, named, s, u) && forall k :: k in ks ==> ChildOf(c, s, u, k)
    ensures Confined(c, named, u, s, DisposeAll(s, u, ks))
    decreases |s.fibers| - u, 0, |ks|
  {
    hide Staged, Reach, Nested, AboveGivers;
    if ks == [] {
      PutReaches(c, named, s, u, s.fibers[u]);
      assert Put(s, u, s.fibers[u]) == s;
    } else {
      var k := ks[0];
      assert k in ks && forall j :: j in ks[1..] ==> j in ks;
      var s1 := Dispose(s, k);
      DisposeReaches(c, named, s, u, k);
      forall j | j in ks[1..] ensures ChildOf(c, s1, u, j) {
        ChildStays(c, named, RankOf(c, s.fibers[u].entry) + 1, u, s, s1, j, u);
      }
      DisposeAllReaches(c, named, s1, u, ks[1..]);
      ConfinedTrans(c, named, u, s, s1, DisposeAll(s1, u, ks[1..]));
    }
  }

  lemma {:induction false} PhaseReaches(c: Cast, named: bool, s: State, u: Uid, p: Phase)
    requires Ready(c, named, s, u)
    ensures Confined(c, named, u, s, SetPhase(s, u, p))
  {
    var t := SetPhase(s, u, p);
    forall v: Uid | v < |s.fibers| ensures Lighter(s.fibers[v], t.fibers[v]) { }
    LighterPlays(c, named, s, t);
  }

  lemma {:induction false} UnloadReaches(c: Cast, named: bool, s: State, u: Uid)
    requires Ready(c, named, s, u)
    ensures Confined(c, named, u, s, Unload(s, u))
    decreases |s.fibers| - u, 2
  {
    hide Staged, Reach, Nested, AboveGivers;
    var t := SetPhase(s, u, Unloading);
    PhaseReaches(c, named, s, u, Unloading);
    DiscardReaches(c, named, t, u);
    ConfinedTrans(c, named, u, s, t, Discard(t, u));
    PhaseReaches(c, named, Discard(t, u), u, Pending);
    ConfinedTrans(c, named, u, s, Discard(t, u), Unload(s, u));
  }

  lemma {:induction false} ForgetReaches(c: Cast, named: bool, s: State, u: Uid, k: Uid)
    requires Ready(c, named, s, u) && ChildOf(c, s, u, k)
    ensures Confined(c, named, u, s, Forget(s, k))
  {
    var t := Forget(s, k);
    forall v: Uid | v < |s.fibers| ensures Lighter(s.fibers[v], t.fibers[v]) { }
    LighterPlays(c, named, s, t);
  }

  /** Disposing a child reaches the parent and what ranks above it. */
  lemma {:induction false} DisposeReaches(c: Cast, named: bool, s: State, u: Uid, k: Uid)
    requires Ready(c, named, s, u) && ChildOf(c, s, u, k)
    ensures Confined(c, named, u, s, Dispose(s, k))
    decreases |s.fibers| - k, 3
  {
    hide Staged, Reach, AboveGivers;
    var d := match s.fibers[k].phase
      case Disposed => s
      case Failed => Discard(s, k)
      case _ => Unload(s, k);
    if s.fibers[k].phase == Disposed {
      PutReaches(c, named, s, k, s.fibers[k]);
      assert Put(s, k, s.fibers[k]) == s;
    } else if s.fibers[k].phase == Failed {
      DiscardReaches(c, named, s, k);
    } else {
      UnloadReaches(c, named, s, k);
    }
    var low, low' := RankOf(c, s.fibers[u].entry) + 1, RankOf(c, s.fibers[k].entry) + 1;
    assert low <= low';
    ReachFromChild(c, named, low, low', u, k, s, d);
    if s.fibers[k].phase != Disposed {
      ChildStays(c, named, low, u, s, d, k, u);
      ForgetReaches(c, named, d, u, k);
      ConfinedTrans(c, named, u, s, d, Forget(d, k));
    }
  }

  lemma {:induction false} NothingReached(c: Cast, named: bool, s: State, u: Uid)
    requires Ready(c, named, s, u)
    ensures Confined(c, named, u, s, s)
  {
    PutReaches(c, named, s, u, s.fibers[u]);
    assert Put(s, u, s.fibers[u]) == s;
  }

  // ---- what a load may do ------------------------------------------------------------------------------

  /** The pieces of Staged one at a time: old fibers, then the rest. */
  lemma {:induction false} GrownPlays(c: Cast, named: bool, s: State, t: State, v: Uid)
    requires Staged(c, named, s) && v < |s.fibers| <= |t.fibers| && s.store.realms <= t.store.realms
    requires forall k: Uid :: k < |s.fibers| ==> Identical(s.fibers[k], t.fibers[k])
    requires t.fibers[v].children == s.fibers[v].children && t.fibers[v].effects == s.fibers[v].effects
    requires named || t.fibers[v].restart == s.fibers[v].restart
    ensures Plays(c, named, t, v)
  {
    assert Plays(c, named, s, v);
    forall k | k in t.fibers[v].children
      ensures t.fibers[k].entry == s.fibers[k].entry && t.fibers[k].parent == s.fibers[k].parent
    {
      assert Identical(s.fibers[k], t.fibers[k]);
    }
    if !named {
      forall x | x in t.fibers[v].effects && x.Undo? ensures x.impl.slot == SlotOf(t, v, x.impl.slot.name) {
        SlotsStand(s, t, v, x.impl.slot.name);
      }
    }
  }

  lemma {:induction false} IsolateReaches(
    c: Cast, named: bool, s: State, u: Uid, base: RealmId, names: set<Name>)
    requires Ready(c, named, s, u) && base < |s.store.realms|
    ensures Confined(c, named, u, s, s.(store := AddRealm(s.store, base, names)))
  {
    var t := s.(store := AddRealm(s.store, base, names));
    forall v: Uid | v < |t.fibers| ensures Plays(c, named, t, v) { GrownPlays(c, named, s, t, v); }
    SitedStill(c, named, s, t);
  }

  lemma {:induction false} ProvideReaches(
    c: Cast, named: bool, s: State, u: Uid, r: RealmId, n: Name)
    requires Ready(c, named, s, u) && s.fibers[u].entry in c && n in c[s.fibers[u].entry].may
    requires named || r == s.fibers[u].realm
    ensures Confined(c, named, u, s, ProvideStep(s, u, r, n).state)
  {
    var t := ProvideStep(s, u, r, n).state;
    if t != s {
      forall v: Uid | v < |t.fibers| && v != u ensures Plays(c, named, t, v) { GrownPlays(c, named, s, t, v); }
      assert Plays(c, named, s, u);
      assert Plays(c, named, t, u);
      SitedStill(c, named, s, t);
      if named {
        forall v | v in t.pending
          ensures v in s.pending || (v < |t.fibers| && RankOf(c, t.fibers[v].entry) > RankOf(c, s.fibers[u].entry))
        {
          if v !in s.pending {
            assert Declares(s, v, n);
            assert Plays(c, named, s, v);
          }
        }
      }
    } else {
      PutReaches(c, named, s, u, s.fibers[u]);
      assert Put(s, u, s.fibers[u]) == s;
    }
  }

  lemma {:induction false} WithdrawReaches(c: Cast, named: bool, s: State, u: Uid, k: nat)
    requires Ready(c, named, s, u) && k < |s.fibers[u].effects|
    ensures Confined(c, named, u, s, WithdrawStep(s, u, k))
  {
    var es := s.fibers[u].effects;
    var f := s.fibers[u].(effects := Cut(es, k));
    EffectAllowed(c, named, s, u, es[k]);
    PutReaches(c, named, s, u, f);
    RevertReaches(c, named, Put(s, u, f), u, es[k]);
    ConfinedTrans(c, named, u, s, Put(s, u, f), WithdrawStep(s, u, k));
  }

  lemma {:induction false} FileReaches(c: Cast, named: bool, s: State, u: Uid, tag: nat)
    requires Ready(c, named, s, u)
    ensures Confined(c, named, u, s, FileStep(s, u, tag))
  {
    var t := FileStep(s, u, tag);
    forall v: Uid | v < |t.fibers| && v != u ensures Plays(c, named, t, v) { GrownPlays(c, named, s, t, v); }
    assert Plays(c, named, s, u);
    assert Plays(c, named, t, u);
    SitedStill(c, named, s, t);
  }

  /** The realm of a new child: the parent's, or a fresh one below it that owns the isolated names. */
  ghost predicate RealmFor(s: State, g: Store, u: Uid, r: RealmId, isolated: set<Name>)
    requires u < |s.fibers|
  {
    if isolated == {} then g == s.store && r == s.fibers[u].realm
    else g == AddRealm(s.store, s.fibers[u].realm, isolated) && r == |s.store.realms|
  }

  /** From s to t one fiber joined: a child of u, in the realm made for it. */
  ghost predicate Joined(c: Cast, s: State, t: State, u: Uid, child: string) {
    && u < |s.fibers| && s.store.realms <= t.store.realms && |t.fibers| == |s.fibers| + 1
    && child in c && c[child].parent == Some(s.fibers[u].entry) && t.fibers[|s.fibers|].entry == child
    && RealmFor(s, t.store, u, t.fibers[|s.fibers|].realm, c[child].isolated)
    && forall v: Uid :: v < |s.fibers| ==> Identical(s.fibers[v], t.fibers[v])
  }

  /** An isolated name of the new child lives in its new realm; any other where the parent's does. */
  lemma {:induction false} ChildSlot(c: Cast, s: State, t: State, u: Uid, child: string, n: Name)
    requires Nested(c) && Staged(c, false, s) && Joined(c, s, t, u, child)
    ensures n in c[child].isolated ==> SlotOf(t, |s.fibers|, n).realm == |s.store.realms|
    ensures n !in c[child].isolated ==>
      SlotOf(t, |s.fibers|, n) == SlotOf(s, u, n) && HomeOf(c, child, n) == HomeOf(c, s.fibers[u].entry, n)
  {
    assert Plays(c, false, s, u) && Identical(s.fibers[u], t.fibers[u]);
    SlotsStand(s, t, u, n);
  }

  lemma {:induction false} OldSlot(c: Cast, s: State, t: State, v: Uid, n: Name)
    requires Staged(c, false, s) && s.store.realms <= t.store.realms && v < |s.fibers| <= |t.fibers|
    requires Identical(s.fibers[v], t.fibers[v])
    ensures SlotOf(t, v, n) == SlotOf(s, v, n) && SlotOf(t, v, n).realm < |s.store.realms|
  {
    assert Plays(c, false, s, v);
    OwnerStands(s.store.realms, t.store.realms, s.fibers[v].realm, n);
  }

  lemma {:induction false} ChildSited(c: Cast, s: State, t: State, u: Uid, child: string)
    requires Nested(c) && Staged(c, false, s) && Joined(c, s, t, u, child)
    ensures Sited(c, t)
  {
    hide Plays, Nested, HomeOf, RealmFor, SlotOf;
    var k := |s.fibers|;
    forall v: Uid, n | v < k
      ensures SlotOf(t, v, n) == SlotOf(s, v, n) && SlotOf(t, v, n).realm < |s.store.realms|
    {
      OldSlot(c, s, t, v, n);
    }
    forall v: Uid, n | v < k && SlotOf(t, k, n) == SlotOf(t, v, n)
      ensures HomeOf(c, child, n) == HomeOf(c, s.fibers[v].entry, n)
    {
      ChildSlot(c, s, t, u, child, n);
    }
    forall n | SlotOf(t, k, n).realm == 0 ensures HomeOf(c, child, n) == None {
      ChildSlot(c, s, t, u, child, n);
    }
    assert forall v: Uid :: v < k ==> t.fibers[v].entry == s.fibers[v].entry;
  }

  lemma {:induction false} AddChildReaches(
    c: Cast, named: bool, s: State, g: Store, u: Uid, child: string, r: RealmId)
    requires Ready(c, named, s, u) && s.fibers[u].entry in c
    requires child in c && c[child].parent == Some(s.fibers[u].entry)
    requires s.store.realms <= g.realms && Forest(g.realms)
    requires !named ==> RealmFor(s, g, u, r, c[child].isolated)
    ensures Confined(c, named, u, s, AddFiber(s.(store := g), NewFiber(child, c[child].decl, r, Some(u))))
  {
    var t := AddFiber(s.(store := g), NewFiber(child, c[child].decl, r, Some(u)));
    var n := |s.fibers|;
    assert Plays(c, named, s, u);
    forall v: Uid | v < |s.fibers| && v != u ensures Plays(c, named, t, v) { GrownPlays(c, named, s, t, v); }
    ParentPlays(c, named, s, t, u);
    assert Plays(c, named, t, n);
    if !named { ChildSited(c, s, t, u, child); }
  }

  /** The parent, with the newest fiber as one more child. */
  lemma {:induction false} ParentPlays(c: Cast, named: bool, s: State, t: State, u: Uid)
    requires Staged(c, named, s) && u < |s.fibers| && |t.fibers| == |s.fibers| + 1
    requires s.store.realms <= t.store.realms
    requires forall v: Uid :: v < |s.fibers| && v != u ==> t.fibers[v] == s.fibers[v]
    requires t.fibers[u] == s.fibers[u].(children := s.fibers[u].children + [|s.fibers|])
    requires ChildOf(c, t, u, |s.fibers|)
    ensures Plays(c, named, t, u)
  {
    var t0 := t.(fibers := t.fibers[u := s.fibers[u]]);
    GrownPlays(c, named, s, t0, u);
    assert forall m :: SlotOf(t, u, m) == SlotOf(t0, u, m);
    forall k | k in t.fibers[u].children ensures ChildOf(c, t, u, k) {
      if k != |s.fibers| { assert k in t0.fibers[u].children && t0.fibers[k] == t.fibers[k]; }
    }
  }

  lemma {:induction false} MountReaches(c: Cast, named: bool, s: State, u: Uid, r: RealmId, child: string)
    requires Ready(c, named, s, u) && s.fibers[u].entry in c && r < |s.store.realms|
    requires child in c && c[child].parent == Some(s.fibers[u].entry) && (named || r == s.fibers[u].realm)
    ensures Confined(c, named, u, s, MountStep(s, Some(u), r, child, c[child].decl, c[child].isolated).state)
  {
    if EntryTaken(s, child) {
      NothingReached(c, named, s, u);
    } else if c[child].isolated == {} {
      assert s.(store := s.store) == s;
      AddChildReaches(c, named, s, s.store, u, child, r);
    } else {
      AddChildReaches(c, named, s, AddRealm(s.store, r, c[child].isolated), u, child, |s.store.realms|);
    }
  }

  lemma {:induction false} UpwardReaches(c: Cast, named: bool, s: State, u: Uid, v: Uid)
    requires Ready(c, named, s, u) && named && v < |s.fibers|
    requires RankOf(c, s.fibers[u].entry) < RankOf(c, s.fibers[v].entry)
    ensures Confined(c, named, u, s, RestartStep(s, v))
  {
    var t := RestartStep(s, v);
    forall k: Uid | k < |t.fibers| ensures Plays(c, named, t, k) { GrownPlays(c, named, s, t, k); }
  }

  lemma {:induction false} ActReaches(c: Cast, named: bool, s: State, u: Uid, a: Action)
    requires u < |s.fibers| && Ready(c, named, s, u) && Allowed(c, named, s, u, a)
    ensures Confined(c, named, u, s, Act(s, u, a).state)
  {
    hide Ready, Confined, ProvideStep, MountStep, WithdrawStep, FileStep, RestartStep, Dispose;
    if Act(s, u, a).state == s {
      NothingReached(c, named, s, u);
    } else {
      match a {
        case Isolate(base, names) => IsolateReaches(c, named, s, u, base, names);
        case Provide(_, r, n, _) => ProvideReaches(c, named, s, u, r, n);
        case Withdraw(_, k) => WithdrawReaches(c, named, s, u, k);
        case File(_, tag) => FileReaches(c, named, s, u, tag);
        case Mount(_, r, child, _, _, _) => MountReaches(c, named, s, u, r, child);
        case Drop(k) => DropReaches(c, named, s, u, k);
        case Restart(v) => UpwardReaches(c, named, s, u, v);
      }
    }
  }

  lemma {:induction false} DropReaches(c: Cast, named: bool, s: State, u: Uid, k: nat)
    requires Ready(c, named, s, u) && k < |s.fibers[u].children|
    requires u < s.fibers[u].children[k] < |s.fibers|
    ensures Confined(c, named, u, s, Dispose(s, s.fibers[u].children[k]))
  {
    ChildrenPlay(c, named, s, u);
    assert s.fibers[u].children[k] in s.fibers[u].children;
    DisposeReaches(c, named, s, u, s.fibers[u].children[k]);
  }

  lemma {:induction false} ConfinedReady(c: Cast, named: bool, u: Uid, s: State, t: State)
    requires u < |s.fibers| && Ready(c, named, s, u) && Confined(c, named, u, s, t)
    ensures Ready(c, named, t, u) && Identical(s.fibers[u], t.fibers[u])
  {
  }

  lemma {:induction false} AllowedStays(c: Cast, named: bool, s: State, t: State, u: Uid, a: Action)
    requires u < |s.fibers| && Allowed(c, named, s, u, a) && Confined(c, named, u, s, t)
    ensures u < |t.fibers| && Allowed(c, named, t, u, a)
  {
    assert Identical(s.fibers[u], t.fibers[u]);
    if a.Restart? { assert Identical(s.fibers[a.target], t.fibers[a.target]); }
  }

  lemma {:induction false} RunReaches(
    c: Cast, named: bool, s: State, u: Uid, actions: seq<Action>)
    requires u < |s.fibers| && Ready(c, named, s, u)
    requires forall a :: a in actions ==> Allowed(c, named, s, u, a)
    ensures Confined(c, named, u, s, RunActions(s, u, actions).state)
    decreases |actions|
  {
    hide Ready, Confined, Act, Allowed;
    if actions == [] {
      NothingReached(c, named, s, u);
    } else {
      assert actions[0] in actions && forall a :: a in actions[1..] ==> a in actions;
      ActGrows(s, u, actions[0]);
      var t := Act(s, u, actions[0]);
      ActReaches(c, named, s, u, actions[0]);
      ConfinedReady(c, named, u, s, t.state);
      if t.Ok? {
        forall a | a in actions[1..] ensures Allowed(c, named, t.state, u, a) {
          AllowedStays(c, named, s, t.state, u, a);
        }
        RunReaches(c, named, t.state, u, actions[1..]);
        ConfinedTrans(c, named, u, s, t.state, RunActions(t.state, u, actions[1..]).state);
      }
    }
  }

  /** Rewriting what no part speaks of. */
  lemma {:induction false} FieldsReach(c: Cast, named: bool, s: State, u: Uid, t: State)
    requires Ready(c, named, s, u) && |t.fibers| == |s.fibers| && Lighter(s.fibers[u], t.fibers[u])
    requires t.fibers == s.fibers[u := t.fibers[u]] && t.store == s.store
    requires t.mounted == s.mounted && t.pending == s.pending
    ensures Confined(c, named, u, s, t)
  {
    LighterPlays(c, named, s, t);
  }

  lemma {:induction false} FailReaches(c: Cast, named: bool, s: State, u: Uid)
    requires Ready(c, named, s, u)
    ensures Confined(c, named, u, s, Fail(s, u)) && Confined(c, named, u, s, Fail(Discard(s, u), u))
  {
    FieldsReach(c, named, s, u, Fail(s, u));
    DiscardReaches(c, named, s, u);
    FieldsReach(c, named, Discard(s, u), u, Fail(Discard(s, u), u));
    ConfinedTrans(c, named, u, s, Discard(s, u), Fail(Discard(s, u), u));
  }

  /** A refresh returns, having reached u and what ranks above it. */
  ghost predicate Returned(c: Cast, named: bool, u: Uid, s: State, r: Result)
    requires u < |s.fibers|
  {
    r.Done? && Confined(c, named, u, s, r.state)
  }

  lemma {:induction false} EndReaches(
    c: Cast, named: bool, s: State, u: Uid, ending: Ending)
    requires Ready(c, named, s, u) && !ending.Aborts?
    ensures Returned(c, named, u, s, EndLoad(s, u, ending))
  {
    FailReaches(c, named, s, u);
    FieldsReach(c, named, s, u, SetPhase(s, u, Active));
  }

  lemma {:induction false} LoadReaches(
    c: Cast, named: bool, w: Behaviour, s: State, u: Uid)
    requires u < |s.fibers| && Ready(c, named, s, u) && Obeys(c, named, w)
    ensures Returned(c, named, u, s, Load(w, s, u))
  {
    hide Ready, Confined, Allowed, RunActions, EndLoad, Fail, Discard;
    var s1 := SetPhase(s, u, Loading);
    var script := w(u, s1);
    PartKnown(c, named, s, u);
    FieldsReach(c, named, s, u, s1);
    ConfinedReady(c, named, u, s, s1);
    if script.config.Raises? {
      FailReaches(c, named, s1, u);
      ConfinedTrans(c, named, u, s, s1, Fail(s1, u));
    } else {
      var b := BeginApply(s1, u);
      FieldsReach(c, named, s1, u, b);
      ConfinedReady(c, named, u, s1, b);
      forall a | a in script.actions ensures Allowed(c, named, b, u, a) { AllowedStays(c, named, s1, b, u, a); }
      var t := RunActions(b, u, script.actions);
      RunReaches(c, named, b, u, script.actions);
      ConfinedReady(c, named, u, b, t.state);
      ConfinedTrans(c, named, u, s, s1, b);
      ConfinedTrans(c, named, u, s, b, t.state);
      FailReaches(c, named, t.state, u);
      EndReaches(c, named, t.state, u, script.ending);
      ConfinedTrans(c, named, u, s, t.state, Load(w, s, u).state);
    }
  }

  lemma {:induction false} PartKnown(c: Cast, named: bool, s: State, u: Uid)
    requires Ready(c, named, s, u)
    ensures s.fibers[u].entry in c
  {
    assert Plays(c, named, s, u);
  }

  lemma {:induction false} RestartReaches(c: Cast, named: bool, s: State, u: Uid)
    requires u < |s.fibers| && Ready(c, named, s, u)
    ensures Confined(c, named, u, s, TakeRestart(s, u))
  {
    hide Ready, Confined, Unload;
    var s1 := Put(s, u, s.fibers[u].(restart := false));
    var f := s1.fibers[u];
    var s2 := if f.phase == Failed then SetPhase(s1, u, Pending)
              else if f.effects != [] || f.children != [] || f.phase == Active then Unload(s1, u)
              else s1;
    FieldsReach(c, named, s, u, s1);
    ConfinedReady(c, named, u, s, s1);
    if f.phase == Failed {
      FieldsReach(c, named, s1, u, s2);
    } else if s2 == s1 {
      NothingReached(c, named, s1, u);
    } else {
      UnloadReaches(c, named, s1, u);
    }
    ConfinedReady(c, named, u, s1, s2);
    FieldsReach(c, named, s2, u, TakeRestart(s, u));
    ConfinedTrans(c, named, u, s, s1, s2);
    ConfinedTrans(c, named, u, s, s2, TakeRestart(s, u));
  }

  lemma {:induction false} FollowReaches(
    c: Cast, named: bool, w: Behaviour, s: State, u: Uid)
    requires u < |s.fibers| && Ready(c, named, s, u) && Obeys(c, named, w)
    ensures Returned(c, named, u, s, Follow(w, s, u))
  {
    hide Ready, Confined, Unload, Load, Obeys;
    var s1 := SetEpoch(s, u, ComputeEpoch(s, u), Bindings(s, u));
    NothingReached(c, named, s, u);
    FieldsReach(c, named, s, u, s1);
    ConfinedReady(c, named, u, s, s1);
    UnloadReaches(c, named, s1, u);
    ConfinedReady(c, named, u, s1, Unload(s1, u));
    LoadReaches(c, named, w, s1, u);
    LoadReaches(c, named, w, Unload(s1, u), u);
    ConfinedTrans(c, named, u, s, s1, Unload(s1, u));
    ConfinedTrans(c, named, u, s, s1, Load(w, s1, u).state);
    ConfinedTrans(c, named, u, s, Unload(s1, u), Load(w, Unload(s1, u), u).state);
  }

  lemma {:induction false} RefreshReaches(
    c: Cast, named: bool, w: Behaviour, s: State, u: Uid)
    requires u < |s.fibers| && Ready(c, named, s, u) && Obeys(c, named, w)
    ensures Returned(c, named, u, s, Refresh(w, s, u))
  {
    hide Ready, Confined, TakeRestart, Follow, Obeys;
    NothingReached(c, named, s, u);
    var t := if s.fibers[u].restart then TakeRestart(s, u) else s;
    if s.fibers[u].restart { RestartReaches(c, named, s, u); }
    ConfinedReady(c, named, u, s, t);
    FollowReaches(c, named, w, t, u);
    ConfinedTrans(c, named, u, s, t, Follow(w, t, u).state);
  }

  // ---- rounds ----------------------------------------------------------------------------------------

  /** Everyone listed ranks at least `low`. */
  ghost predicate AtLeast(c: Cast, s: State, us: seq<Uid>, low: nat) {
    forall u :: u in us ==> u < |s.fibers| && RankOf(c, s.fibers[u].entry) >= low
  }

  lemma {:induction false} StepRaises(
    c: Cast, w: Behaviour, s: State, u: Uid, rest: seq<Uid>, low: nat)
    requires Ready(c, true, s, u) && Obeys(c, true, w)
    requires AtLeast(c, s, [u] + rest, low) && AtLeast(c, s, s.pending, low + 1)
    ensures var t := Refresh(w, s, u);
      && t.Done? && Staged(c, true, t.state)
      && AtLeast(c, t.state, rest, low) && AtLeast(c, t.state, t.state.pending, low + 1)
  {
    hide Staged, Obeys, Nested, AboveGivers;
    RefreshReaches(c, true, w, s, u);
    var t := Refresh(w, s, u).state;
    assert u in [u] + rest;
    forall v | v in rest ensures v < |t.fibers| && RankOf(c, t.fibers[v].entry) >= low {
      assert v in [u] + rest;
      assert Identical(s.fibers[v], t.fibers[v]);
    }
    forall v | v in t.pending ensures v < |t.fibers| && RankOf(c, t.fibers[v].entry) >= low + 1 {
      if v in s.pending { assert Identical(s.fibers[v], t.fibers[v]); }
    }
  }

  lemma {:induction false} BatchRaises(
    c: Cast, w: Behaviour, s: State, batch: seq<Uid>, low: nat)
    requires Nested(c) && AboveGivers(c) && Staged(c, true, s) && Obeys(c, true, w)
    requires AtLeast(c, s, batch, low) && AtLeast(c, s, s.pending, low + 1)
    ensures Uids(s, batch)
    ensures var t := RunBatch(w, s, batch);
      t.Done? && Staged(c, true, t.state) && AtLeast(c, t.state, t.state.pending, low + 1)
    decreases |batch|
  {
    hide Staged, Obeys, Nested, AboveGivers, Refresh;
    if batch != [] {
      assert batch == [batch[0]] + batch[1..] && batch[0] in batch;
      StepRaises(c, w, s, batch[0], batch[1..], low);
      BatchRaises(c, w, Refresh(w, s, batch[0]).state, batch[1..], low);
    }
  }

  lemma {:induction false} StagedIgnoresQueue(c: Cast, named: bool, s: State, pending: seq<Uid>)
    requires Staged(c, named, s)
    ensures Staged(c, named, s.(pending := pending))
  {
    LighterPlays(c, named, s, s.(pending := pending));
  }

  /** Main result: from any staged state, whatever is queued, settling under any obedient behaviour ends
      within depth + 1 rounds, where no row ranks above `depth`. */
  lemma {:induction false} NestedConvergence(
    c: Cast, depth: nat, w: Behaviour, s: State, rounds: nat, low: nat := 0)
    requires Nested(c) && AboveGivers(c) && Obeys(c, true, w)
    requires forall e :: e in c ==> RankOf(c, e) <= depth
    requires Staged(c, true, s) && AtLeast(c, s, s.pending, low) && rounds + low > depth
    ensures Settle(w, s, rounds).Done?
    decreases rounds
  {
    hide Obeys, Nested, AboveGivers, RunBatch;
    if s.pending != [] {
      assert s.pending[0] in s.pending && Plays(c, true, s, s.pending[0]);
      var batch := Dedup(s.pending);
      StagedIgnoresQueue(c, true, s, []);
      BatchRaises(c, w, s.(pending := []), batch, low);
      NestedConvergence(c, depth, w, RunBatch(w, s.(pending := []), batch).state, rounds - 1, low + 1);
    }
  }
}
