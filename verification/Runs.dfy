/** Whole runs: what a host may do to a root between settles, and what holds whenever the queue is
    empty. */
module Runs {
  import opened Lists
  import opened Registry
  import opened Runtime
  import opened Currency
  import opened Settling

  datatype HostStep =
    | HostMount(entry: string, decl: Decl, isolated: set<Name>)
    | HostSettle
    | HostRestart(target: Uid)
    | HostEnqueue(target: Uid)
    | HostProvide(who: Uid, realm: RealmId, name: Name)
    | HostWithdraw(who: Uid, index: nat)
    | HostFile(who: Uid, tag: nat)
    | HostPlugin(who: Uid, base: RealmId, child: string, decl: Decl, isolated: set<Name>)

  /** A provide outside a settle: the registration is announced, and dependents settle, before the
      undo is filed; if that settle raises, the undo never is. */
  function ProvideAndSettle(w: Behaviour, rounds: nat, s: State, u: Uid, r: RealmId, name: Name): Result
    requires u < |s.fibers|
  {
    var slot := Slot(OwnerOf(s.store.realms, r, name), name);
    if !Acting(s, u) || slot in s.store.impls then Done(s)
    else
      var s1 := Notify(s.(store := Register(s.store, slot, u)), name);
      var t := if Woken(s, s.mounted, name) == [] then Done(s1) else Settle(w, s1, rounds);
      if t.Done? && u < |t.state.fibers| then Done(FileProvide(t.state, u, s1.store.impls[slot])) else t
  }

  function WithdrawAndSettle(w: Behaviour, rounds: nat, s: State, u: Uid, k: nat): Result
    requires u < |s.fibers| && k < |s.fibers[u].effects|
  {
    var s1 := WithdrawStep(s, u, k);
    if s1.pending == s.pending then Done(s1) else Settle(w, s1, rounds)
  }

  /** One host call. A call the source refuses with an exception leaves the state as it is. */
  function Host(w: Behaviour, rounds: nat, s: State, h: HostStep): Result {
    match h
    case HostMount(entry, d, isolated) => Done(MountStep(s, None, 0, entry, d, isolated).state)
    case HostSettle => Settle(w, s, rounds)
    case HostRestart(u) =>
      if u < |s.fibers| && s.fibers[u].phase != Disposed then Settle(w, RestartStep(s, u), rounds) else Done(s)
    case HostEnqueue(u) => Done(if u < |s.fibers| then Enqueue(s, u) else s)
    case HostProvide(u, r, name) =>
      if u < |s.fibers| && r < |s.store.realms| then ProvideAndSettle(w, rounds, s, u, r, name) else Done(s)
    case HostWithdraw(u, k) =>
      if Acting(s, u) && k < |s.fibers[u].effects| then WithdrawAndSettle(w, rounds, s, u, k) else Done(s)
    case HostFile(u, tag) => Done(if Acting(s, u) then FileStep(s, u, tag) else s)
    case HostPlugin(u, r, entry, d, isolated) =>
      if Acting(s, u) && r < |s.store.realms| && MountStep(s, Some(u), r, entry, d, isolated).Ok?
      then Settle(w, MountStep(s, Some(u), r, entry, d, isolated).state, rounds)
      else Done(s)
  }

  /** A host call, and how the plugins behave while it lasts: what they read from outside the runtime may
      have changed since the call before. */
  datatype Call = Call(plugins: Behaviour, step: HostStep)

  /** A run stops at the first call that aborts or diverges. */
  function Exec(rounds: nat, s: State, run: seq<Call>): Result
    decreases |run|
  {
    if run == [] then Done(s)
    else
      var t := Host(run[0].plugins, rounds, s, run[0].step);
      if t.Done? then Exec(rounds, t.state, run[1..]) else t
  }

  /** No stale reference: a mounted fiber that has not failed is ACTIVE exactly when every required
      injection resolves, and the registrations its apply started from are those that resolve now. */
  ghost predicate NoStale(s: State) {
    forall u: Uid :: u < |s.fibers| && s.fibers[u].phase !in {Disposed, Failed} ==>
      var f := s.fibers[u];
      && f.phase in {Pending, Active}
      && (f.phase == Active <==> forall n :: n in f.decl.inject ==> Resolve(s.store, f.realm, n).Some?)
      && (f.phase == Active ==> f.bound == Bindings(s, u))
  }

  // ---- equal epochs mean identical registrations ---------------------------------------------

  lemma {:induction false} SerialPinsImpl(g: Store, a: Option<Impl>, slot: Slot)
    requires Serialized(g) && (a.Some? ==> Known(g, a.value))
    requires SerialOf(a) == SerialOf(Lookup(g.impls, slot))
    ensures a == Lookup(g.impls, slot)
  {
  }

  /** Serials are never 0 and never reused, so a stored epoch equal to the one computed now comes
      from the very registrations that resolve now. */
  lemma {:induction false} EpochPinsBindings(s: State, u: Uid)
    requires u < |s.fibers| && Serialized(s.store)
    requires AllKnown(s.store, s.fibers[u].seen) && |s.fibers[u].seen| == |s.fibers[u].decl.Names()|
    requires s.fibers[u].epoch.Live? && s.fibers[u].epoch == EpochOf(s.fibers[u].decl, s.fibers[u].seen)
    requires s.fibers[u].epoch == ComputeEpoch(s, u)
    ensures s.fibers[u].seen == Bindings(s, u)
  {
    var f := s.fibers[u];
    var b := Bindings(s, u);
    forall i | 0 <= i < |f.seen| ensures f.seen[i] == b[i] {
      assert f.epoch.serials[i] == SerialOf(f.seen[i]) == SerialOf(b[i]);
      SerialPinsImpl(s.store, f.seen[i], Slot(OwnerOf(s.store.realms, f.realm, f.decl.Names()[i]), f.decl.Names()[i]));
    }
  }

  lemma {:induction false} CurrentMeansBound(s: State, u: Uid)
    requires u < |s.fibers| && Serialized(s.store) && Sound(s.store, s.fibers[u], false)
    requires s.fibers[u].phase == Active && s.fibers[u].epoch == ComputeEpoch(s, u)
    ensures s.fibers[u].bound == Bindings(s, u)
  {
    var f := s.fibers[u];
    EpochPinsBindings(s, u);
    forall i | 0 <= i < |f.seen| && f.seen[i].Some? ensures IsLive(s.store, f.seen[i].value) {
      assert f.seen[i] == Bindings(s, u)[i];
    }
    assert !SomeDead(s.store, f.seen);
  }

  lemma {:induction false} LiveIffResolved(s: State, u: Uid)
    requires u < |s.fibers|
    ensures ComputeEpoch(s, u).Live? <==> forall n :: n in s.fibers[u].decl.inject ==>
      Resolve(s.store, s.fibers[u].realm, n).Some?
  {
    var f := s.fibers[u];
    var b := Bindings(s, u);
    forall i | 0 <= i < |f.decl.inject| ensures b[i] == Resolve(s.store, f.realm, f.decl.inject[i]) {
      assert f.decl.Names()[i] == f.decl.inject[i];
    }
  }

  lemma {:induction false} QuietNoStale(s: State)
    requires Steady(s, {}, []) && s.pending == []
    ensures NoStale(s)
  {
    forall u: Uid | u < |s.fibers| && s.fibers[u].phase !in {Disposed, Failed}
      ensures s.fibers[u].phase in {Pending, Active}
      ensures s.fibers[u].phase == Active <==> forall n :: n in s.fibers[u].decl.inject ==>
        Resolve(s.store, s.fibers[u].realm, n).Some?
      ensures s.fibers[u].phase == Active ==> s.fibers[u].bound == Bindings(s, u)
    {
      assert Due(s, u, {}, []);
      LiveIffResolved(s, u);
      if s.fibers[u].phase == Active { CurrentMeansBound(s, u); }
    }
  }

  // ---- every host step keeps Steady -----------------------------------------------------------

  lemma {:induction false} ProvideSteady(
    w: Behaviour, rounds: nat, s: State, u: Uid, r: RealmId, name: Name, x: set<Uid>)
    requires Steady(s, x, []) && u < |s.fibers|
    ensures Resumable(ProvideAndSettle(w, rounds, s, u, r, name), x, [])
  {
    hide Sound, Due, Serialized, Forest, OwnerOf, Woken;
    var slot := Slot(OwnerOf(s.store.realms, r, name), name);
    if Acting(s, u) && slot !in s.store.impls {
      var s1 := Notify(s.(store := Register(s.store, slot, u)), name);
      RegisterCore(s, slot, u, {}, x, []);
      hide Settle, Notify;
      var t := if Woken(s, s.mounted, name) == [] then Done(s1) else Settle(w, s1, rounds);
      SettleSteady(w, s1, rounds, x);
      if t.Done? && u < |t.state.fibers| {
        CoreIgnores(t.state, FileProvide(t.state, u, s1.store.impls[slot]), {}, x, []);
      }
    }
  }

  lemma {:induction false} MountSteady(
    s: State, parent: Option<Uid>, r: RealmId, entry: string, d: Decl, isolated: set<Name>, x: set<Uid>)
    requires Steady(s, x, []) && r < |s.store.realms|
    ensures Steady(MountStep(s, parent, r, entry, d, isolated).state, x, [])
  {
    hide Sound, Due;
    MountCore(s, parent, r, entry, d, isolated, {}, x, []);
  }

  lemma {:induction false} RestartStepSteady(s: State, u: Uid, x: set<Uid>)
    requires Steady(s, x, [])
    ensures Steady(RestartStep(s, u), x, [])
  {
    RestartCore(s, u, {}, x, []);
  }

  lemma {:induction false} WithdrawSteady(s: State, u: Uid, k: nat, x: set<Uid>)
    requires Steady(s, x, []) && u < |s.fibers| && k < |s.fibers[u].effects|
    ensures Steady(WithdrawStep(s, u, k), x, [])
  {
    WithdrawCore(s, u, k, {}, x, []);
    var es := s.fibers[u].effects;
    RevertRest(Put(s, u, s.fibers[u].(effects := Cut(es, k))), u, es[k], {});
  }

  lemma {:induction false} HostSteady(w: Behaviour, rounds: nat, s: State, h: HostStep, x: set<Uid>)
    requires Steady(s, x, [])
    ensures Resumable(Host(w, rounds, s, h), x, [])
  {
    hide Sound, Due;
    match h {
      case HostMount(entry, d, isolated) => MountSteady(s, None, 0, entry, d, isolated, x);
      case HostSettle => SettleSteady(w, s, rounds, x);
      case HostRestart(u) =>
        RestartStepSteady(s, u, x);
        SettleSteady(w, RestartStep(s, u), rounds, x);
      case HostEnqueue(u) => if u < |s.fibers| { CoreIgnores(s, Enqueue(s, u), {}, x, []); }
      case HostProvide(u, r, name) => if u < |s.fibers| { ProvideSteady(w, rounds, s, u, r, name, x); }
      case HostWithdraw(u, k) =>
        if Acting(s, u) && k < |s.fibers[u].effects| {
          WithdrawSteady(s, u, k, x);
          SettleSteady(w, WithdrawStep(s, u, k), rounds, x);
        }
      case HostFile(u, tag) => if Acting(s, u) { CoreIgnores(s, FileStep(s, u, tag), {}, x, []); }
      case HostPlugin(u, r, entry, d, isolated) =>
        if Acting(s, u) && r < |s.store.realms| {
          MountSteady(s, Some(u), r, entry, d, isolated, x);
          SettleSteady(w, MountStep(s, Some(u), r, entry, d, isolated).state, rounds, x);
        }
    }
  }

  lemma {:induction false} EmptySteady()
    ensures Steady(EMPTY, {}, [])
  {
  }

  lemma {:induction false} ExecSteady(rounds: nat, s: State, run: seq<Call>)
    requires Steady(s, {}, [])
    ensures Resumable(Exec(rounds, s, run), {}, [])
    decreases |run|
  {
    if run != [] {
      HostSteady(run[0].plugins, rounds, s, run[0].step, {});
      var t := Host(run[0].plugins, rounds, s, run[0].step);
      if t.Done? { ExecSteady(rounds, t.state, run[1..]); }
    }
  }

  /** Main result: after every abort-free run of host calls, over every plugin behaviour in every call, an
      empty queue means no stale reference. */
  lemma {:induction false} NoStaleReference(rounds: nat, run: seq<Call>)
    requires Exec(rounds, EMPTY, run).Done?
    ensures Exec(rounds, EMPTY, run).state.pending == [] ==> NoStale(Exec(rounds, EMPTY, run).state)
  {
    EmptySteady();
    ExecSteady(rounds, EMPTY, run);
    if Exec(rounds, EMPTY, run).state.pending == [] { QuietNoStale(Exec(rounds, EMPTY, run).state); }
  }
}
