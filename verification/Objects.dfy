/** Root and Fiber as the objects of src/aka/core/fiber.py. Every method is proved to compute the
    step of the same name in Runtime, so what Runtime's runs guarantee, these objects guarantee. */
module Objects {
  import opened Lists
  import opened Registry
  import opened Runtime
  import opened Currency
  import opened Settling
  import opened Runs
  import opened Shutdown

  class FiberObject {
    const entry: string
    const decl: Decl
    const realm: RealmId
    const parent: Option<Uid>
    var children: seq<Uid>
    var effects: seq<Effect>
    var provided: set<Name>
    var phase: Phase
    var epoch: Epoch
    var restart: bool
    var seen: seq<Option<Impl>>
    var bound: seq<Option<Impl>>

    constructor (entry: string, decl: Decl, realm: RealmId, parent: Option<Uid>)
      ensures Value() == NewFiber(entry, decl, realm, parent)
    {
      this.entry, this.decl, this.realm, this.parent := entry, decl, realm, parent;
      children, effects, provided, phase, epoch := [], [], {}, Pending, Inactive;
      restart, seen, bound := false, [], [];
    }

    function Value(): Fiber
      reads this
    {
      Fiber(entry, decl, realm, parent, children, effects, provided, phase, epoch, restart, seen, bound)
    }
  }

  /** How a call that runs plugin code ends. */
  datatype Outcome = Finished | Escaped | Exhausted

  function Ended(o: Outcome, s: State): Result {
    match o
    case Finished => Done(s)
    case Escaped => Aborted(s)
    case Exhausted => Diverged(s)
  }

  class RootObject {
    const settleRounds: nat
    var fibers: seq<FiberObject>
    var mounted: seq<Uid>
    var store: Store
    var pending: seq<Uid>
    var activation: seq<Uid>
    var log: seq<Mark>
    ghost var repr: set<FiberObject>

    ghost predicate Valid()
      reads this
    {
      && (forall i, j :: 0 <= i < j < |fibers| ==> fibers[i] != fibers[j])
      && (forall i :: 0 <= i < |fibers| ==> fibers[i] in repr)
    }

    function Table(): (fs: seq<Fiber>)
      reads this, fibers
      ensures |fs| == |fibers|
    {
      seq(|fibers|, i requires 0 <= i < |fibers| reads this, fibers => fibers[i].Value())
    }

    function St(): (s: State)
      reads this, fibers
      ensures |s.fibers| == |fibers|
    {
      State(Table(), mounted, store, pending, activation, log)
    }

    constructor (rounds: nat)
      ensures Valid() && fibers == [] && repr == {} && St() == EMPTY && settleRounds == rounds
    {
      settleRounds := rounds;
      fibers, mounted, pending, activation, log := [], [], [], [], [];
      repr := {};
      store := Store([Realm(None, {})], map[], 0);
      new;
      assert Table() == [];
    }

    /** _transition and observe. */
    method Transition(u: Uid, p: Phase)
      requires Valid() && u < |fibers|
      modifies this, repr
      ensures fibers == old(fibers) && repr == old(repr) && St() == SetPhase(old(St()), u, p)
    {
      fibers[u].phase := p;
      if p == Active {
        activation := Without(activation, u) + [u];
      }
      assert Table() == old(Table())[u := fibers[u].Value()];
    }

    /** _service_changed: the loop over the mounted fibers. */
    method ServiceChanged(name: Name) returns (woken: bool)
      requires Valid()
      modifies this`pending
      ensures St() == Notify(old(St()), name)
      ensures woken <==> Woken(old(St()), mounted, name) != []
    {
      hide Woken;
      ghost var s := St();
      ghost var all := Woken(s, mounted, name);
      var i := 0;
      woken := false;
      ghost var done: seq<Uid> := [];
      assert mounted[0..] == mounted;
      while i < |mounted|
        invariant i <= |mounted|
        invariant Table() == s.fibers
        invariant pending == s.pending + done
        invariant done + Woken(s, mounted[i..], name) == all
        invariant woken <==> done != []
      {
        var v := mounted[i];
        WokenNext(s, mounted, i, name);
        if v < |fibers| && name in fibers[v].decl.Names() {
          assert Declares(s, v, name);
          pending := pending + [v];
          done := done + [v];
          woken := true;
        } else {
          assert !Declares(s, v, name);
        }
        i := i + 1;
      }
      WokenNone(s, mounted[i..], name);
      assert St() == s.(pending := s.pending + all);
    }

    lemma {:induction false} WokenNone(s: State, us: seq<Uid>, name: Name)
      requires us == []
      ensures Woken(s, us, name) == []
    {
    }

    lemma {:induction false} WokenNext(s: State, us: seq<Uid>, i: nat, name: Name)
      requires i < |us|
      ensures Woken(s, us[i..], name) ==
        (if Declares(s, us[i], name) then [us[i]] else []) + Woken(s, us[i + 1..], name)
    {
      assert us[i..][1..] == us[i + 1..];
    }

    /** The realm's disposer: only the registration it was made for is withdrawn. */
    method Withdraw(i: Impl)
      requires Valid()
      modifies this`store, this`pending
      ensures St() == Retract(old(St()), i)
    {
      if IsLive(store, i) {
        store := Remove(store, i);
        assert Table() == old(Table());
        var _ := ServiceChanged(i.slot.name);
      }
    }

    /** Run the disposer of an effect that has left its stack. */
    method RunDisposer(u: Uid, e: Effect)
      requires Valid() && u < |fibers|
      modifies this, repr
      ensures fibers == old(fibers) && repr == old(repr) && St() == Revert(old(St()), u, e)
    {
      log := log + [Ran(u, e, store.impls)];
      match e {
        case Undo(i) =>
          fibers[u].provided := fibers[u].provided - {i.slot.name};
          assert Table() == old(Table())[u := fibers[u].Value()];
          Withdraw(i);
        case Cleanup(_) =>
          assert Table() == old(Table());
      }
    }

    /** EffectStack.unwind: pop and run until nothing is left. */
    method UnwindEffects(u: Uid)
      requires Valid() && u < |fibers|
      modifies this, repr
      ensures fibers == old(fibers) && repr == old(repr) && St() == Unwind(old(St()), u)
    {
      hide Unwind, Revert;
      while fibers[u].effects != []
        invariant fibers == old(fibers) && repr == old(repr)
        invariant Unwind(St(), u) == Unwind(old(St()), u)
        decreases |fibers[u].effects|
      {
        ghost var s := St();
        UnwindOnce(s, u);
        var n := |fibers[u].effects| - 1;
        var e := fibers[u].effects[n];
        fibers[u].effects := fibers[u].effects[..n];
        assert Table() == s.fibers[u := fibers[u].Value()];
        RunDisposer(u, e);
      }
      UnwindOnce(St(), u);
    }

    lemma {:induction false} UnwindOnce(s: State, u: Uid)
      requires u < |s.fibers|
      ensures var n := |s.fibers[u].effects|;
        if n == 0 then Unwind(s, u) == s
        else
          var t := Put(s, u, s.fibers[u].(effects := s.fibers[u].effects[..n - 1]));
          Unwind(s, u) == Unwind(Revert(t, u, s.fibers[u].effects[n - 1]), u)
    {
    }

    /** _discard_effects. */
    method DiscardEffects(u: Uid)
      requires Valid() && u < |fibers|
      modifies this, repr
      ensures fibers == old(fibers) && repr == old(repr) && St() == Discard(old(St()), u)
      decreases |fibers| - u, 1, 0
    {
      DisposeChildren(u, fibers[u].children);
      ghost var s := St();
      fibers[u].provided := {};
      assert Table() == s.fibers[u := fibers[u].Value()];
      UnwindEffects(u);
    }

    method DisposeChildren(u: Uid, cs: seq<Uid>)
      requires Valid() && u < |fibers|
      modifies this, repr
      ensures fibers == old(fibers) && repr == old(repr) && St() == DisposeAll(old(St()), u, cs)
      decreases |fibers| - u, 0
    {
      var i := 0;
      while i < |cs|
        invariant i <= |cs| && fibers == old(fibers) && repr == old(repr)
        invariant DisposeAll(St(), u, cs[i..]) == DisposeAll(old(St()), u, cs)
      {
        assert cs[i..][0] == cs[i] && cs[i..][1..] == cs[i + 1..];
        if u < cs[i] < |fibers| {
          DisposeFiber(cs[i]);
        }
        i := i + 1;
      }
    }

    /** _unload. */
    method UnloadFiber(u: Uid)
      requires Valid() && u < |fibers|
      modifies this, repr
      ensures fibers == old(fibers) && repr == old(repr) && St() == Unload(old(St()), u)
      decreases |fibers| - u, 2
    {
      Transition(u, Unloading);
      DiscardEffects(u);
      Transition(u, Pending);
    }

    /** The tail of dispose: leave the parent, become DISPOSED, be forgotten by the root. */
    method Detach(u: Uid)
      requires Valid() && u < |fibers|
      modifies this, repr
      ensures fibers == old(fibers) && repr == old(repr) && St() == Forget(old(St()), u)
    {
      var p := fibers[u].parent;
      if p.Some? && p.value < |fibers| {
        fibers[p.value].children := Without(fibers[p.value].children, u);
        assert Table() == old(Table())[p.value := fibers[p.value].Value()];
      }
      Transition(u, Disposed);
      mounted := Without(mounted, u);
    }

    /** Fiber.dispose. */
    method DisposeFiber(u: Uid)
      requires Valid() && u < |fibers|
      modifies this, repr
      ensures fibers == old(fibers) && repr == old(repr) && St() == Dispose(old(St()), u)
      decreases |fibers| - u, 3
    {
      if fibers[u].phase == Disposed { return; }
      if fibers[u].phase != Failed {
        UnloadFiber(u);
      } else {
        DiscardEffects(u);
      }
      Detach(u);
    }

    // ---- what plugin code may do -----------------------------------------------------------------

    /** Fiber.provide while the root is settling: dependents are queued, not settled. */
    method ProvideService(u: Uid, r: RealmId, name: Name) returns (ok: bool)
      requires Valid() && u < |fibers|
      modifies this, repr
      ensures fibers == old(fibers) && repr == old(repr)
      ensures ProvideStep(old(St()), u, r, name) == if ok then Ok(St()) else Err(St())
    {
      var slot := Slot(OwnerOf(store.realms, r, name), name);
      if fibers[u].phase !in {Loading, Active} || slot in store.impls { return false; }
      store := Register(store, slot, u);
      assert Table() == old(Table());
      var _ := ServiceChanged(name);
      FileUndo(u, store.impls[slot]);
      return true;
    }

    method FileUndo(u: Uid, i: Impl)
      requires Valid() && u < |fibers|
      modifies repr
      ensures St() == FileProvide(old(St()), u, i)
    {
      fibers[u].provided := fibers[u].provided + {i.slot.name};
      fibers[u].effects := fibers[u].effects + [Undo(i)];
      assert Table() == old(Table())[u := fibers[u].Value()];
    }

    method FileCleanup(u: Uid, tag: nat)
      requires Valid() && u < |fibers|
      modifies repr
      ensures St() == FileStep(old(St()), u, tag)
    {
      fibers[u].effects := fibers[u].effects + [Cleanup(tag)];
      assert Table() == old(Table())[u := fibers[u].Value()];
    }

    method DisposeEffect(u: Uid, k: nat)
      requires Valid() && u < |fibers| && k < |fibers[u].effects|
      modifies this, repr
      ensures fibers == old(fibers) && repr == old(repr) && St() == WithdrawStep(old(St()), u, k)
    {
      var e := fibers[u].effects[k];
      fibers[u].effects := Cut(fibers[u].effects, k);
      assert Table() == old(Table())[u := fibers[u].Value()];
      RunDisposer(u, e);
    }

    /** Root.mount. */
    method Mount(parent: Option<Uid>, r: RealmId, entry: string, d: Decl, isolated: set<Name>) returns (ok: bool)
      requires Valid()
      modifies this, repr
      ensures Valid() && old(fibers) <= fibers && fresh(repr - old(repr))
      ensures MountStep(old(St()), parent, r, entry, d, isolated) == if ok then Ok(St()) else Err(St())
    {
      var taken := IsTaken(entry);
      if taken { return false; }
      var realm := r;
      if isolated != {} {
        realm := |store.realms|;
        store := AddRealm(store, r, isolated);
      }
      assert Table() == old(Table());
      AppendFiber(parent, realm, entry, d);
      return true;
    }

    /** The Fiber constructor and its entry in the root's dictionary and queue. */
    method AdoptChild(parent: Option<Uid>, u: Uid)
      requires Valid() && u == |fibers|
      modifies repr
      ensures Valid() && St() == old(St()).(fibers := Table())
      ensures Table() ==
        if parent.Some? && parent.value < u then
          var p := old(Table())[parent.value];
          old(Table())[parent.value := p.(children := p.children + [u])]
        else old(Table())
    {
      if parent.Some? && parent.value < u {
        fibers[parent.value].children := fibers[parent.value].children + [u];
        assert Table() == old(Table())[parent.value := fibers[parent.value].Value()];
      } else {
        assert Table() == old(Table());
      }
    }

    method AppendFiber(parent: Option<Uid>, realm: RealmId, entry: string, d: Decl)
      requires Valid()
      modifies this, repr
      ensures Valid() && old(fibers) <= fibers && fresh(repr - old(repr))
      ensures St() == AddFiber(old(St()), NewFiber(entry, d, realm, parent))
    {
      ghost var s := St();
      var u := |fibers|;
      AdoptChild(parent, u);
      PushFiber(entry, d, realm, parent);
      mounted := mounted + [u];
      pending := pending + [u];
      assert St() == AddFiber(s, NewFiber(entry, d, realm, parent));
    }

    method PushFiber(entry: string, d: Decl, realm: RealmId, parent: Option<Uid>)
      requires Valid()
      modifies this`fibers, this`repr
      ensures Valid() && old(fibers) <= fibers && fresh(repr - old(repr))
      ensures Table() == old(Table()) + [NewFiber(entry, d, realm, parent)]
    {
      ghost var fs := Table();
      var f := new FiberObject(entry, d, realm, parent);
      fibers := fibers + [f];
      repr := repr + {f};
      assert f.Value() == NewFiber(entry, d, realm, parent);
      assert Table() == fs + [f.Value()];
    }

    method IsTaken(entry: string) returns (taken: bool)
      ensures taken == EntryTaken(St(), entry)
    {
      var i := 0;
      while i < |mounted|
        invariant i <= |mounted|
        invariant forall k :: 0 <= k < i ==> !(mounted[k] < |fibers| && St().fibers[mounted[k]].entry == entry)
      {
        if mounted[i] < |fibers| && fibers[mounted[i]].entry == entry {
          assert mounted[i] in mounted && St().fibers[mounted[i]].entry == entry;
          return true;
        }
        i := i + 1;
      }
      return false;
    }

    /** Fiber.restart up to its settle. */
    method RequestRestart(u: Uid)
      requires Valid()
      modifies this`pending, repr
      ensures St() == RestartStep(old(St()), u)
    {
      if u < |fibers| && fibers[u].phase != Disposed {
        fibers[u].restart := true;
        assert Table() == old(Table())[u := fibers[u].Value()];
        pending := pending + [u];
      }
    }

    method Perform(u: Uid, a: Action) returns (ok: bool)
      requires Valid() && u < |fibers|
      modifies this, repr
      ensures Valid() && old(fibers) <= fibers && fresh(repr - old(repr))
      ensures Act(old(St()), u, a) == if ok then Ok(St()) else Err(St())
    {
      hide Dispose, MountStep, ProvideStep, WithdrawStep, FileStep;
      match a {
        case Isolate(base, names) =>
          if base >= |store.realms| { return false; }
          store := AddRealm(store, base, names);
          assert Table() == old(Table());
          ok := true;
        case Provide(who, r, name, tolerant) =>
          if who >= |fibers| || r >= |store.realms| { return false; }
          ok := ProvideService(who, r, name);
          ok := ok || tolerant;
        case Withdraw(who, k) =>
          if who >= |fibers| || fibers[who].phase !in {Loading, Active} || k >= |fibers[who].effects| { return false; }
          DisposeEffect(who, k);
          ok := true;
        case File(who, tag) =>
          if who >= |fibers| || fibers[who].phase !in {Loading, Active} { return false; }
          FileCleanup(who, tag);
          ok := true;
        case Mount(who, r, entry, d, isolated, tolerant) =>
          if who >= |fibers| || fibers[who].phase !in {Loading, Active} || r >= |store.realms| { return false; }
          ok := Mount(Some(who), r, entry, d, isolated);
          ok := ok || tolerant;
        case Drop(k) =>
          if k >= |fibers[u].children| || !(u < fibers[u].children[k] < |fibers|) { return false; }
          DisposeFiber(fibers[u].children[k]);
          ok := true;
        case Restart(target) =>
          RequestRestart(target);
          ok := true;
      }
    }

    // ---- lifecycle ---------------------------------------------------------------------------------

    /** The actions of one apply; stops at the first that raises. */
    method PerformAll(u: Uid, actions: seq<Action>) returns (ok: bool)
      requires Valid() && u < |fibers|
      modifies this, repr
      ensures Valid() && old(fibers) <= fibers && fresh(repr - old(repr))
      ensures RunActions(old(St()), u, actions) == if ok then Ok(St()) else Err(St())
    {
      var i := 0;
      assert actions[0..] == actions;
      while i < |actions|
        invariant i <= |actions|
        invariant Valid() && old(fibers) <= fibers && fresh(repr - old(repr))
        invariant RunActions(St(), u, actions[i..]) == RunActions(old(St()), u, actions)
      {
        assert actions[i..][0] == actions[i] && actions[i..][1..] == actions[i + 1..];
        ok := Perform(u, actions[i]);
        if !ok { return; }
        i := i + 1;
      }
      ok := true;
    }

    method StoreEpoch(u: Uid, e: Epoch, seen: seq<Option<Impl>>)
      requires Valid() && u < |fibers|
      modifies repr
      ensures St() == SetEpoch(old(St()), u, e, seen)
    {
      fibers[u].epoch := e;
      fibers[u].seen := seen;
      assert Table() == old(Table())[u := fibers[u].Value()];
    }

    /** _fail. */
    method FailFiber(u: Uid)
      requires Valid() && u < |fibers|
      modifies this, repr
      ensures fibers == old(fibers) && repr == old(repr) && St() == Fail(old(St()), u)
    {
      StoreEpoch(u, Inactive, fibers[u].seen);
      Transition(u, Failed);
    }

    /** What an escaping exception leaves behind. */
    method ResetFiber(u: Uid)
      requires Valid() && u < |fibers|
      modifies this, repr
      ensures fibers == old(fibers) && repr == old(repr) && St() == Reset(old(St()), u)
    {
      DiscardEffects(u);
      StoreEpoch(u, Inactive, fibers[u].seen);
      Transition(u, Pending);
    }

    method DiscardAndFail(u: Uid)
      requires Valid() && u < |fibers|
      modifies this, repr
      ensures fibers == old(fibers) && repr == old(repr) && St() == Fail(Discard(old(St()), u), u)
    {
      DiscardEffects(u);
      FailFiber(u);
    }

    /** History: what the injections resolve to as apply starts. */
    method RecordStart(u: Uid)
      requires Valid() && u < |fibers|
      modifies this`log, repr
      ensures St() == BeginApply(old(St()), u)
    {
      var b := Bindings(St(), u);
      log := log + [Start(u, Phases(St()), store.impls)];
      fibers[u].bound := b;
      assert Table() == old(Table())[u := fibers[u].Value()];
    }

    /** _load. */
    method LoadFiber(w: Behaviour, u: Uid) returns (o: Outcome)
      requires Valid() && u < |fibers|
      modifies this, repr
      ensures Valid() && old(fibers) <= fibers && fresh(repr - old(repr))
      ensures Ended(o, St()) == Load(w, old(St()), u)
    {
      hide RunActions, BeginApply, EndLoad, Fail, Discard, SetPhase, Reset;
      Transition(u, Loading);
      var script := w(u, St());
      if script.config == Raises {
        FailFiber(u);
        return Finished;
      } else if script.config == Aborts {
        ResetFiber(u);
        return Escaped;
      }
      o := RunApply(u, script);
    }

    /** The part of _load behind config resolution. */
    method RunApply(u: Uid, script: Script) returns (o: Outcome)
      requires Valid() && u < |fibers|
      modifies this, repr
      ensures Valid() && old(fibers) <= fibers && fresh(repr - old(repr))
      ensures Ended(o, St()) ==
        var t := RunActions(BeginApply(old(St()), u), u, script.actions);
        if t.Err? then Done(Fail(Discard(t.state, u), u)) else EndLoad(t.state, u, script.ending)
    {
      hide RunActions, BeginApply, EndLoad, Fail, Discard;
      RecordStart(u);
      var ok := PerformAll(u, script.actions);
      if !ok {
        DiscardAndFail(u);
        return Finished;
      }
      o := FinishLoad(u, script.ending);
    }

    method FinishLoad(u: Uid, ending: Ending) returns (o: Outcome)
      requires Valid() && u < |fibers|
      modifies this, repr
      ensures fibers == old(fibers) && repr == old(repr) && Ended(o, St()) == EndLoad(old(St()), u, ending)
    {
      if ending == Aborts {
        ResetFiber(u);
        return Escaped;
      }
      if ending == Raises || !(fibers[u].decl.provide <= fibers[u].provided) {
        DiscardAndFail(u);
      } else {
        Transition(u, Active);
      }
      return Finished;
    }

    method HonourRestart(u: Uid)
      requires Valid() && u < |fibers|
      modifies this, repr
      ensures fibers == old(fibers) && repr == old(repr) && St() == TakeRestart(old(St()), u)
    {
      fibers[u].restart := false;
      assert Table() == old(Table())[u := fibers[u].Value()];
      if fibers[u].phase == Failed {
        Transition(u, Pending);
      } else if fibers[u].effects != [] || fibers[u].children != [] || fibers[u].phase == Active {
        UnloadFiber(u);
      }
      StoreEpoch(u, Inactive, fibers[u].seen);
    }

    /** Fiber.refresh. */
    method RefreshFiber(w: Behaviour, u: Uid) returns (o: Outcome)
      requires Valid() && u < |fibers|
      modifies this, repr
      ensures Valid() && old(fibers) <= fibers && fresh(repr - old(repr))
      ensures Ended(o, St()) == Refresh(w, old(St()), u)
    {
      hide Load, Unload, SetEpoch, ComputeEpoch, TakeRestart;
      o := Finished;
      if fibers[u].phase == Disposed { return; }
      if fibers[u].restart {
        HonourRestart(u);
      }
      if fibers[u].phase == Failed { return; }
      o := FollowEpoch(w, u);
    }

    /** The tail of refresh: compare the epoch, then load, unload or reload. */
    method FollowEpoch(w: Behaviour, u: Uid) returns (o: Outcome)
      requires Valid() && u < |fibers| && fibers[u].phase != Failed
      modifies this, repr
      ensures Valid() && old(fibers) <= fibers && fresh(repr - old(repr))
      ensures Ended(o, St()) == Follow(w, old(St()), u)
    {
      FollowCases(w, St(), u);
      hide Follow, Load, Unload, SetEpoch, ComputeEpoch, Bindings;
      o := Finished;
      var epoch, previous := ComputeEpoch(St(), u), fibers[u].epoch;
      if epoch == previous { return; }
      StoreEpoch(u, epoch, Bindings(St(), u));
      if epoch.Inactive? {
        if fibers[u].phase == Active {
          UnloadFiber(u);
        }
      } else if previous.Inactive? {
        o := LoadFiber(w, u);
      } else {
        o := ReloadFiber(w, u);
      }
    }

    method ReloadFiber(w: Behaviour, u: Uid) returns (o: Outcome)
      requires Valid() && u < |fibers|
      modifies this, repr
      ensures Valid() && old(fibers) <= fibers && fresh(repr - old(repr))
      ensures Ended(o, St()) == Load(w, Unload(old(St()), u), u)
    {
      hide Load, Unload;
      UnloadFiber(u);
      o := LoadFiber(w, u);
    }

    lemma {:induction false} FollowCases(w: Behaviour, s: State, u: Uid)
      requires u < |s.fibers| && s.fibers[u].phase != Failed
      ensures var epoch := ComputeEpoch(s, u);
        var s1 := SetEpoch(s, u, epoch, Bindings(s, u));
        && s1.fibers[u].phase == s.fibers[u].phase
        && (epoch == s.fibers[u].epoch ==> Follow(w, s, u) == Done(s))
        && (epoch != s.fibers[u].epoch && epoch.Inactive? ==>
          Follow(w, s, u) == Done(if s.fibers[u].phase == Active then Unload(s1, u) else s1))
        && (epoch != s.fibers[u].epoch && epoch.Live? ==>
          Follow(w, s, u) == Load(w, if s.fibers[u].epoch.Inactive? then s1 else Unload(s1, u), u))
    {
    }

    /** One round of settle: pop fibers off the batch; an escaping exception puts the rest back in
        front. */
    method DrainBatch(w: Behaviour, all: seq<Uid>) returns (o: Outcome)
      requires Valid() && Uids(St(), all)
      modifies this, repr
      ensures Valid() && old(fibers) <= fibers && fresh(repr - old(repr))
      ensures Ended(o, St()) == RunBatch(w, old(St()), all)
    {
      hide RunBatch, Refresh;
      var batch := all;
      while batch != []
        invariant Valid() && old(fibers) <= fibers && fresh(repr - old(repr))
        invariant Uids(St(), batch)
        invariant RunBatch(w, St(), batch) == RunBatch(w, old(St()), all)
        decreases |batch|
      {
        BatchNext(w, St(), batch);
        var u := batch[0];
        batch := batch[1..];
        o := RefreshFiber(w, u);
        if o != Finished {
          ghost var s := St();
          pending := batch + pending;
          assert Table() == s.fibers;
          return;
        }
      }
      BatchEmpty(w, St());
      o := Finished;
    }

    lemma {:induction false} BatchNext(w: Behaviour, s: State, batch: seq<Uid>)
      requires Uids(s, batch) && batch != []
      ensures batch[0] < |s.fibers| && Uids(s, batch[1..]) && !Refresh(w, s, batch[0]).Diverged?
      ensures RunBatch(w, s, batch) ==
        var t := Refresh(w, s, batch[0]);
        if t.Done? then RunBatch(w, t.state, batch[1..]) else Aborted(t.state.(pending := batch[1..] + t.state.pending))
    {
      assert batch[0] in batch && forall u :: u in batch[1..] ==> u in batch;
    }

    lemma {:induction false} BatchEmpty(w: Behaviour, s: State)
      ensures RunBatch(w, s, []) == Done(s)
    {
    }

    /** One round of the budget, from a queue that is not empty. */
    lemma {:induction false} SettleNext(w: Behaviour, s: State, rounds: nat, excused: set<Uid>)
      requires Steady(s, excused, []) && s.pending != [] && rounds > 0
      ensures var s0 := s.(pending := []);
        && Uids(s0, Dedup(s.pending))
        && var r := RunBatch(w, s0, Dedup(s.pending));
           && Settle(w, s, rounds) == (if r.Done? then Settle(w, r.state, rounds - 1) else r)
           && (r.Done? ==> Steady(r.state, excused, []))
    {
      Requeue(s, excused, [], [], Dedup(s.pending));
      RunBatchSteady(w, s.(pending := []), Dedup(s.pending), excused);
    }

    lemma {:induction false} SettleEnds(w: Behaviour, s: State, rounds: nat)
      ensures s.pending == [] ==> Settle(w, s, rounds) == Done(s)
      ensures s.pending != [] ==> Settle(w, s, 0) == Diverged(s)
    {
    }

    /** Root.settle. */
    method SettleAll(w: Behaviour, ghost excused: set<Uid>) returns (o: Outcome)
      requires Valid() && Steady(St(), excused, [])
      modifies this, repr
      ensures Valid() && old(fibers) <= fibers && fresh(repr - old(repr))
      ensures Ended(o, St()) == Settle(w, old(St()), settleRounds)
    {
      hide Settle, RunBatch, Steady, Dedup;
      var rounds := 0;
      while pending != []
        invariant rounds <= settleRounds
        invariant Valid() && old(fibers) <= fibers && fresh(repr - old(repr))
        invariant Steady(St(), excused, [])
        invariant Settle(w, St(), settleRounds - rounds) == Settle(w, old(St()), settleRounds)
        decreases settleRounds - rounds
      {
        SettleEnds(w, St(), 0);
        if rounds == settleRounds { return Exhausted; }
        ghost var s := St();
        SettleNext(w, s, settleRounds - rounds, excused);
        rounds := rounds + 1;
        var batch := Dedup(pending);
        pending := [];
        assert St() == s.(pending := []);
        o := DrainBatch(w, batch);
        if o != Finished { return; }
      }
      SettleEnds(w, St(), settleRounds - rounds);
      o := Finished;
    }

    // ---- calls from outside a settle -----------------------------------------------------------------

    /** Fiber.provide: the dependents settle before the undo is filed. */
    method ProvideOutside(w: Behaviour, ghost excused: set<Uid>, u: Uid, r: RealmId, name: Name) returns (o: Outcome)
      requires Valid() && Steady(St(), excused, []) && u < |fibers|
      modifies this, repr
      ensures Valid() && old(fibers) <= fibers && fresh(repr - old(repr))
      ensures Ended(o, St()) == ProvideAndSettle(w, settleRounds, old(St()), u, r, name)
    {
      hide Settle, Steady, Notify, Woken, OwnerOf, FileProvide;
      var slot := Slot(OwnerOf(store.realms, r, name), name);
      if fibers[u].phase !in {Loading, Active} || slot in store.impls { return Finished; }
      ghost var s := St();
      store := Register(store, slot, u);
      var i := store.impls[slot];
      assert St() == s.(store := store);
      var woken := ServiceChanged(name);
      PublishedSteady(s, slot, u, excused);
      o := Finished;
      if woken {
        o := SettleAll(w, excused);
        if o != Finished { return; }
      }
      FileUndo(u, i);
    }

    lemma {:induction false} PublishedSteady(s: State, slot: Slot, u: Uid, excused: set<Uid>)
      requires Steady(s, excused, []) && slot !in s.store.impls
      ensures Steady(Notify(s.(store := Register(s.store, slot, u)), slot.name), excused, [])
      ensures Notify(s.(store := Register(s.store, slot, u)), slot.name).store == Register(s.store, slot, u)
      ensures (Woken(s.(store := Register(s.store, slot, u)), s.mounted, slot.name) != []) <==>
        (Woken(s, s.mounted, slot.name) != [])
    {
      RegisterCore(s, slot, u, {}, excused, []);
      MemberOrEmpty(Woken(s.(store := Register(s.store, slot, u)), s.mounted, slot.name));
      MemberOrEmpty(Woken(s, s.mounted, slot.name));
      forall v
        ensures Declares(s.(store := Register(s.store, slot, u)), v, slot.name) <==> Declares(s, v, slot.name) { }
    }

    /** An effect's disposer called by the host. */
    method DisposeEffectOutside(w: Behaviour, ghost excused: set<Uid>, u: Uid, k: nat) returns (o: Outcome)
      requires Valid() && Steady(St(), excused, []) && u < |fibers| && k < |fibers[u].effects|
      modifies this, repr
      ensures Valid() && old(fibers) <= fibers && fresh(repr - old(repr))
      ensures Ended(o, St()) == WithdrawAndSettle(w, settleRounds, old(St()), u, k)
    {
      hide Settle, Steady, WithdrawStep;
      var before := pending;
      WithdrawSteady(St(), u, k, excused);
      DisposeEffect(u, k);
      o := Finished;
      if pending != before {
        o := SettleAll(w, excused);
      }
    }

    /** Fiber.restart. */
    method RestartOutside(w: Behaviour, ghost excused: set<Uid>, u: Uid) returns (o: Outcome)
      requires Valid() && Steady(St(), excused, []) && u < |fibers|
      modifies this, repr
      ensures Valid() && old(fibers) <= fibers && fresh(repr - old(repr))
      ensures Ended(o, St()) == Host(w, settleRounds, old(St()), HostRestart(u))
    {
      hide Settle, Steady;
      if fibers[u].phase == Disposed { return Finished; }
      RestartStepSteady(St(), u, excused);
      RequestRestart(u);
      o := SettleAll(w, excused);
    }

    /** Context.plugin: mount a child and settle. */
    method MountOutside(
      w: Behaviour, ghost excused: set<Uid>, u: Uid, r: RealmId, child: string, d: Decl,
      isolated: set<Name>) returns (o: Outcome)
      requires Valid() && Steady(St(), excused, []) && u < |fibers|
      modifies this, repr
      ensures Valid() && old(fibers) <= fibers && fresh(repr - old(repr))
      ensures Ended(o, St()) == Host(w, settleRounds, old(St()), HostPlugin(u, r, child, d, isolated))
    {
      hide Settle, Steady, MountStep;
      if fibers[u].phase !in {Loading, Active} || r >= |store.realms| { return Finished; }
      MountSteady(St(), Some(u), r, child, d, isolated, excused);
      var ok := Mount(Some(u), r, child, d, isolated);
      if !ok {
        MountRefused(old(St()), Some(u), r, child, d, isolated);
        return Finished;
      }
      o := SettleAll(w, excused);
    }

    lemma {:induction false} MountRefused(
      s: State, parent: Option<Uid>, r: RealmId, child: string, d: Decl, isolated: set<Name>)
      ensures MountStep(s, parent, r, child, d, isolated).Err? ==>
        MountStep(s, parent, r, child, d, isolated).state == s
    {
    }

    // ---- teardown --------------------------------------------------------------------------------------

    /** Root.dispose: reverse activation order, then an empty queue. */
    method DisposeRoot()
      requires Valid()
      modifies this, repr
      ensures fibers == old(fibers) && repr == old(repr) && St() == RootDispose(old(St()))
    {
      hide Dispose, Sorted;
      var remaining := Sorted(St(), mounted);
      ghost var s0 := St();
      var i := 0;
      assert remaining[0..] == remaining;
      while i < |remaining|
        invariant i <= |remaining| && fibers == old(fibers) && repr == old(repr)
        invariant DisposeEach(St(), remaining[i..]) == DisposeEach(s0, remaining)
      {
        assert remaining[i..][0] == remaining[i] && remaining[i..][1..] == remaining[i + 1..];
        if remaining[i] < |fibers| {
          DisposeFiber(remaining[i]);
        }
        i := i + 1;
      }
      ghost var s := St();
      pending := [];
      assert Table() == s.fibers;
    }
  }
}
