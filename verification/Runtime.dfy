/** The plugin runtime of src/aka/core/fiber.py as a state machine on values.

    A plugin is an arbitrary strategy: each time its fiber loads, `Behaviour` is asked, for that
    fiber and the whole state, which actions the load performs and how it ends. */
module Runtime {
  import opened Lists
  import opened Registry

  datatype Phase = Pending | Loading | Active | Unloading | Disposed | Failed

  datatype Epoch = Inactive | Live(serials: seq<nat>)

  /** A filed effect: the undo of a registration, or a plugin's own cleanup. */
  datatype Effect = Undo(impl: Impl) | Cleanup(tag: nat)

  /** What a fiber is mounted with: what its plugin declares, both injection lists in the sorted order
      compute_epoch reads, and whether the tree is required to have it ACTIVE. */
  datatype Decl = Decl(inject: seq<Name>, optional: seq<Name>, provide: set<Name>, required: bool) {
    function Names(): seq<Name> { inject + optional }
  }

  /** One mounted plugin. `seen` and `bound` are history: what the injections resolved to when the
      current epoch was computed, and when the last apply started. */
  datatype Fiber = Fiber(
    entry: string, decl: Decl, realm: RealmId, parent: Option<Uid>,
    children: seq<Uid>, effects: seq<Effect>, provided: set<Name>,
    phase: Phase, epoch: Epoch, restart: bool,
    seen: seq<Option<Impl>>, bound: seq<Option<Impl>>)

  /** History of what plugin code observed: an apply starting, a disposer running. */
  datatype Mark =
    | Start(who: Uid, phases: seq<Phase>, services: map<Slot, Impl>)
    | Ran(who: Uid, effect: Effect, services: map<Slot, Impl>)

  /** `fibers` is indexed by uid and keeps disposed fibers; `mounted` is the insertion order of
      Root.fibers; `pending` is the work queue. */
  datatype State = State(
    fibers: seq<Fiber>, mounted: seq<Uid>, store: Store,
    pending: seq<Uid>, activation: seq<Uid>, log: seq<Mark>)

  datatype Ending = Returns | Raises | Aborts

  datatype Action =
    | Isolate(base: RealmId, names: set<Name>)
    | Provide(who: Uid, realm: RealmId, name: Name, tolerant: bool)
    | Withdraw(who: Uid, index: nat)
    | File(who: Uid, tag: nat)
    | Mount(who: Uid, realm: RealmId, entry: string, decl: Decl, isolated: set<Name>, tolerant: bool)
    | Drop(index: nat)
    | Restart(target: Uid)

  /** One load: how config resolution ends, then what apply does and how it ends. */
  datatype Script = Script(config: Ending, actions: seq<Action>, ending: Ending)

  type Behaviour = (Uid, State) -> Script

  datatype Step = Ok(state: State) | Err(state: State)

  /** Diverged: the round budget ran out with work left. Aborted: a BaseException escaped. */
  datatype Result = Done(state: State) | Aborted(state: State) | Diverged(state: State)

  const EMPTY := State([], [], Store([Realm(None, {})], map[], 0), [], [], [])

  // ---- the dependency epoch --------------------------------------------------------------

  function Resolved(g: Store, r: RealmId, names: seq<Name>): (b: seq<Option<Impl>>)
    ensures |b| == |names|
  {
    seq(|names|, i requires 0 <= i < |names| => Resolve(g, r, names[i]))
  }

  /** Where a name lives for u. */
  function SlotOf(s: State, u: Uid, n: Name): Slot
    requires u < |s.fibers|
  {
    Slot(OwnerOf(s.store.realms, s.fibers[u].realm, n), n)
  }

  function Bindings(s: State, u: Uid): seq<Option<Impl>>
    requires u < |s.fibers|
  {
    Resolved(s.store, s.fibers[u].realm, s.fibers[u].decl.Names())
  }

  function SerialOf(b: Option<Impl>): nat {
    if b.Some? then b.value.serial else 0
  }

  /** INACTIVE when a required service is missing, otherwise the serials, 0 for an absent
      optional one. */
  function EpochOf(d: Decl, b: seq<Option<Impl>>): Epoch
    requires |b| == |d.Names()|
  {
    if exists i :: 0 <= i < |d.inject| && b[i].None? then Inactive
    else Live(seq(|b|, i requires 0 <= i < |b| => SerialOf(b[i])))
  }

  function ComputeEpoch(s: State, u: Uid): Epoch
    requires u < |s.fibers|
  {
    EpochOf(s.fibers[u].decl, Bindings(s, u))
  }

  // ---- field updates -----------------------------------------------------------------------

  function Put(s: State, u: Uid, f: Fiber): State
    requires u < |s.fibers|
  {
    s.(fibers := s.fibers[u := f])
  }

  /** _transition with observe: becoming active moves the fiber to the end of the activation order. */
  function SetPhase(s: State, u: Uid, p: Phase): State
    requires u < |s.fibers|
  {
    Put(s, u, s.fibers[u].(phase := p))
      .(activation := if p == Active then Without(s.activation, u) + [u] else s.activation)
  }

  function SetEpoch(s: State, u: Uid, e: Epoch, seen: seq<Option<Impl>>): State
    requires u < |s.fibers|
  {
    Put(s, u, s.fibers[u].(epoch := e, seen := seen))
  }

  function Enqueue(s: State, u: Uid): State {
    s.(pending := s.pending + [u])
  }

  predicate Declares(s: State, u: Uid, name: Name) {
    u < |s.fibers| && name in s.fibers[u].decl.Names()
  }

  function Woken(s: State, among: seq<Uid>, name: Name): (w: seq<Uid>)
    ensures forall v :: v in w <==> v in among && Declares(s, v, name)
  {
    if among == [] then []
    else (if Declares(s, among[0], name) then [among[0]] else []) + Woken(s, among[1..], name)
  }

  /** _service_changed: queue every mounted fiber that declares the name. */
  function Notify(s: State, name: Name): State {
    s.(pending := s.pending + Woken(s, s.mounted, name))
  }

  // ---- teardown ----------------------------------------------------------------------------

  function Retract(s: State, i: Impl): State {
    if IsLive(s.store, i) then Notify(s.(store := Remove(s.store, i)), i.slot.name) else s
  }

  /** Run one disposer; the effect is already off the stack. */
  function Revert(s: State, u: Uid, e: Effect): (r: State)
    requires u < |s.fibers|
    ensures |r.fibers| == |s.fibers|
    ensures r.fibers[u].effects == s.fibers[u].effects
  {
    var s1 := s.(log := s.log + [Ran(u, e, s.store.impls)]);
    match e
    case Undo(i) =>
      Retract(Put(s1, u, s1.fibers[u].(provided := s1.fibers[u].provided - {i.slot.name})), i)
    case Cleanup(_) => s1
  }

  function Unwind(s: State, u: Uid): (r: State)
    requires u < |s.fibers|
    ensures |r.fibers| == |s.fibers|
    decreases |s.fibers[u].effects|
  {
    var n := |s.fibers[u].effects|;
    if n == 0 then s
    else
      var e := s.fibers[u].effects[n - 1];
      Unwind(Revert(Put(s, u, s.fibers[u].(effects := s.fibers[u].effects[..n - 1])), u, e), u)
  }

  /** _discard_effects: children first, in mount order, then this fiber's own effects. */
  function Discard(s: State, u: Uid): (r: State)
    requires u < |s.fibers|
    ensures |r.fibers| == |s.fibers|
    decreases |s.fibers| - u, 1, 0
  {
    var s1 := DisposeAll(s, u, s.fibers[u].children);
    Unwind(Put(s1, u, s1.fibers[u].(provided := {})), u)
  }

  /** A child's uid is larger than its parent's in every reachable state, so the guard only serves
      termination. */
  function DisposeAll(s: State, u: Uid, cs: seq<Uid>): (r: State)
    requires u < |s.fibers|
    ensures |r.fibers| == |s.fibers|
    decreases |s.fibers| - u, 0, |cs|
  {
    if cs == [] then s
    else DisposeAll(if u < cs[0] < |s.fibers| then Dispose(s, cs[0]) else s, u, cs[1..])
  }

  function Unload(s: State, u: Uid): (r: State)
    requires u < |s.fibers|
    ensures |r.fibers| == |s.fibers|
    decreases |s.fibers| - u, 2
  {
    SetPhase(Discard(SetPhase(s, u, Unloading), u), u, Pending)
  }

  function Forget(s: State, u: Uid): (r: State)
    requires u < |s.fibers|
    ensures |r.fibers| == |s.fibers|
  {
    var p := s.fibers[u].parent;
    var s1 := if p.Some? && p.value < |s.fibers|
              then Put(s, p.value, s.fibers[p.value].(children := Without(s.fibers[p.value].children, u)))
              else s;
    SetPhase(s1, u, Disposed).(mounted := Without(s.mounted, u))
  }

  function Dispose(s: State, u: Uid): (r: State)
    requires u < |s.fibers|
    ensures |r.fibers| == |s.fibers|
    decreases |s.fibers| - u, 3
  {
    match s.fibers[u].phase
    case Disposed => s
    case Failed => Forget(Discard(s, u), u)
    case _ => Forget(Unload(s, u), u)
  }

  // ---- what plugin code may do ---------------------------------------------------------------

  /** A context acts for a fiber that is loading or active. */
  predicate Acting(s: State, u: Uid) {
    u < |s.fibers| && s.fibers[u].phase in {Loading, Active}
  }

  function ProvideStep(s: State, u: Uid, r: RealmId, name: Name): Step
    requires u < |s.fibers|
  {
    var slot := Slot(OwnerOf(s.store.realms, r, name), name);
    if !Acting(s, u) || slot in s.store.impls then Err(s)
    else
      var s1 := Notify(s.(store := Register(s.store, slot, u)), name);
      Ok(FileProvide(s1, u, s1.store.impls[slot]))
  }

  /** The part of Fiber.provide after the registration: remember the name, file the undo. */
  function FileProvide(s: State, u: Uid, i: Impl): State
    requires u < |s.fibers|
  {
    Put(s, u, s.fibers[u].(provided := s.fibers[u].provided + {i.slot.name},
                           effects := s.fibers[u].effects + [Undo(i)]))
  }

  function Cut(es: seq<Effect>, k: nat): seq<Effect>
    requires k < |es|
  {
    es[..k] + es[k + 1..]
  }

  /** The disposer of one filed effect, called early. */
  function WithdrawStep(s: State, u: Uid, k: nat): State
    requires u < |s.fibers| && k < |s.fibers[u].effects|
  {
    var es := s.fibers[u].effects;
    Revert(Put(s, u, s.fibers[u].(effects := Cut(es, k))), u, es[k])
  }

  function FileStep(s: State, u: Uid, tag: nat): State
    requires u < |s.fibers|
  {
    Put(s, u, s.fibers[u].(effects := s.fibers[u].effects + [Cleanup(tag)]))
  }

  predicate EntryTaken(s: State, entry: string) {
    exists v :: v in s.mounted && v < |s.fibers| && s.fibers[v].entry == entry
  }

  function NewFiber(entry: string, d: Decl, r: RealmId, parent: Option<Uid>): Fiber {
    Fiber(entry, d, r, parent, [], [], {}, Pending, Inactive, false, [], [])
  }

  /** A fresh uid, mounted last, listed under its parent, queued for its first refresh. */
  function AddFiber(s: State, f: Fiber): State {
    var u := |s.fibers|;
    var fs :=
      if f.parent.Some? && f.parent.value < u then
        var p := s.fibers[f.parent.value];
        s.fibers[f.parent.value := p.(children := p.children + [u])]
      else s.fibers;
    s.(fibers := fs + [f], mounted := s.mounted + [u], pending := s.pending + [u])
  }

  /** Root.mount: a row id in use is refused; isolated names put the fiber in a realm of its own. */
  function MountStep(s: State, parent: Option<Uid>, r: RealmId, entry: string, d: Decl, isolated: set<Name>): Step {
    if EntryTaken(s, entry) then Err(s)
    else if isolated == {} then Ok(AddFiber(s, NewFiber(entry, d, r, parent)))
    else Ok(AddFiber(s.(store := AddRealm(s.store, r, isolated)), NewFiber(entry, d, |s.store.realms|, parent)))
  }

  function RestartStep(s: State, u: Uid): State {
    if u < |s.fibers| && s.fibers[u].phase != Disposed
    then Enqueue(Put(s, u, s.fibers[u].(restart := true)), u)
    else s
  }

  function Tolerate(t: Step, tolerant: bool): Step {
    if t.Err? && tolerant then Ok(t.state) else t
  }

  /** One action of the plugin whose fiber u is loading, possibly through another acting fiber. */
  function Act(s: State, u: Uid, a: Action): Step
    requires u < |s.fibers|
  {
    match a
    case Isolate(base, names) =>
      if base < |s.store.realms| then Ok(s.(store := AddRealm(s.store, base, names))) else Err(s)
    case Provide(who, r, name, tolerant) =>
      if who < |s.fibers| && r < |s.store.realms| then Tolerate(ProvideStep(s, who, r, name), tolerant) else Err(s)
    case Withdraw(who, k) =>
      if Acting(s, who) && k < |s.fibers[who].effects| then Ok(WithdrawStep(s, who, k)) else Err(s)
    case File(who, tag) =>
      if Acting(s, who) then Ok(FileStep(s, who, tag)) else Err(s)
    case Mount(who, r, entry, d, isolated, tolerant) =>
      if Acting(s, who) && r < |s.store.realms|
      then Tolerate(MountStep(s, Some(who), r, entry, d, isolated), tolerant)
      else Err(s)
    case Drop(k) =>
      if k < |s.fibers[u].children| && u < s.fibers[u].children[k] < |s.fibers|
      then Ok(Dispose(s, s.fibers[u].children[k]))
      else Err(s)
    case Restart(target) => Ok(RestartStep(s, target))
  }

  lemma ActGrows(s: State, u: Uid, a: Action)
    requires u < |s.fibers|
    ensures |s.fibers| <= |Act(s, u, a).state.fibers|
  {
  }

  function RunActions(s: State, u: Uid, actions: seq<Action>): (r: Step)
    requires u < |s.fibers|
    ensures |s.fibers| <= |r.state.fibers|
    decreases |actions|
  {
    if actions == [] then Ok(s)
    else
      ActGrows(s, u, actions[0]);
      var t := Act(s, u, actions[0]);
      if t.Err? then t else RunActions(t.state, u, actions[1..])
  }

  // ---- lifecycle -------------------------------------------------------------------------------

  function Fail(s: State, u: Uid): State
    requires u < |s.fibers|
  {
    SetPhase(SetEpoch(s, u, Inactive, s.fibers[u].seen), u, Failed)
  }

  /** What an abort leaves behind: no effects, an inactive epoch, PENDING. */
  function Reset(s: State, u: Uid): State
    requires u < |s.fibers|
  {
    var s1 := Discard(s, u);
    SetPhase(SetEpoch(s1, u, Inactive, s1.fibers[u].seen), u, Pending)
  }

  function Phases(s: State): seq<Phase> {
    seq(|s.fibers|, i requires 0 <= i < |s.fibers| => s.fibers[i].phase)
  }

  function BeginApply(s: State, u: Uid): State
    requires u < |s.fibers|
  {
    Put(s, u, s.fibers[u].(bound := Bindings(s, u)))
      .(log := s.log + [Start(u, Phases(s), s.store.impls)])
  }

  /** _load. */
  function Load(w: Behaviour, s: State, u: Uid): (r: Result)
    requires u < |s.fibers|
    ensures |s.fibers| <= |r.state.fibers|
  {
    var s1 := SetPhase(s, u, Loading);
    var script := w(u, s1);
    match script.config
    case Raises => Done(Fail(s1, u))
    case Aborts => Aborted(Reset(s1, u))
    case Returns =>
      var t := RunActions(BeginApply(s1, u), u, script.actions);
      if t.Err? then Done(Fail(Discard(t.state, u), u))
      else EndLoad(t.state, u, script.ending)
  }

  function EndLoad(s: State, u: Uid, ending: Ending): (r: Result)
    requires u < |s.fibers|
    ensures |s.fibers| == |r.state.fibers|
  {
    match ending
    case Raises => Done(Fail(Discard(s, u), u))
    case Aborts => Aborted(Reset(s, u))
    case Returns =>
      if s.fibers[u].decl.provide <= s.fibers[u].provided then Done(SetPhase(s, u, Active))
      else Done(Fail(Discard(s, u), u))
  }

  /** The restart branch at the head of refresh. */
  function TakeRestart(s: State, u: Uid): (r: State)
    requires u < |s.fibers|
    ensures |s.fibers| == |r.fibers|
  {
    var s1 := Put(s, u, s.fibers[u].(restart := false));
    var f := s1.fibers[u];
    var s2 := if f.phase == Failed then SetPhase(s1, u, Pending)
              else if f.effects != [] || f.children != [] || f.phase == Active then Unload(s1, u)
              else s1;
    SetEpoch(s2, u, Inactive, s2.fibers[u].seen)
  }

  /** The rest of refresh: compare the epoch and load, unload or reload. */
  function Follow(w: Behaviour, s: State, u: Uid): (r: Result)
    requires u < |s.fibers|
    ensures |s.fibers| <= |r.state.fibers|
  {
    var epoch := ComputeEpoch(s, u);
    var previous := s.fibers[u].epoch;
    if s.fibers[u].phase == Failed || epoch == previous then Done(s)
    else
      var s1 := SetEpoch(s, u, epoch, Bindings(s, u));
      if epoch.Inactive? then Done(if s.fibers[u].phase == Active then Unload(s1, u) else s1)
      else if previous.Inactive? then Load(w, s1, u)
      else Load(w, Unload(s1, u), u)
  }

  function Refresh(w: Behaviour, s: State, u: Uid): (r: Result)
    requires u < |s.fibers|
    ensures |s.fibers| <= |r.state.fibers|
  {
    if s.fibers[u].phase == Disposed then Done(s)
    else Follow(w, if s.fibers[u].restart then TakeRestart(s, u) else s, u)
  }

  // ---- the settle loop -------------------------------------------------------------------------

  predicate Uids(s: State, us: seq<Uid>) {
    forall u :: u in us ==> u < |s.fibers|
  }

  /** One round; an abort puts the unprocessed rest of the batch back in front. */
  function RunBatch(w: Behaviour, s: State, batch: seq<Uid>): (r: Result)
    requires Uids(s, batch)
    ensures |s.fibers| <= |r.state.fibers|
    ensures !r.Diverged?
    decreases |batch|
  {
    if batch == [] then Done(s)
    else
      assert batch[0] in batch && forall u :: u in batch[1..] ==> u in batch;
      var t := Refresh(w, s, batch[0]);
      match t
      case Done(s1) => RunBatch(w, s1, batch[1..])
      case _ => Aborted(t.state.(pending := batch[1..] + t.state.pending))
  }

  /** Root.settle with a budget of rounds. Queue entries are uids, so all of them exist. */
  function Settle(w: Behaviour, s: State, rounds: nat): (r: Result)
    decreases rounds
  {
    if s.pending == [] then Done(s)
    else if rounds == 0 || !Uids(s, s.pending) then Diverged(s)
    else
      var t := RunBatch(w, s.(pending := []), Dedup(s.pending));
      if t.Done? then Settle(w, t.state, rounds - 1) else t
  }
}
