/** One load, from its script alone: how it ends, what its apply filed and registered, and that whatever
    does not end ACTIVE is undone in reverse. */
module Loads {
  import opened Lists
  import opened Registry
  import opened Runtime
  import opened Teardown
  import opened Currency
  import opened Runs
  import opened Ownership
  import opened OwnedRuns
  import opened Shutdown
  import opened Restarts

  // ---- an apply, action by action --------------------------------------------------------------------

  /** Taken in turn from s, none of these actions raises. */
  ghost predicate Trace(s: State, u: Uid, actions: seq<Action>, states: seq<State>) {
    && |states| == |actions| + 1 && states[0] == s
    && (forall i :: 0 <= i < |states| ==> u < |states[i].fibers|)
    && (forall i :: 0 <= i < |actions| ==> Act(states[i], u, actions[i]) == Ok(states[i + 1]))
  }

  /** The actions an apply got through: all of them, or those before the first that raises. */
  ghost predicate Applied(s: State, u: Uid, wanted: seq<Action>, done: seq<Action>, states: seq<State>) {
    && Trace(s, u, done, states) && done <= wanted
    && (|done| < |wanted| ==> Act(states[|done|], u, wanted[|done|]).Err?)
  }

  lemma {:induction false} AppliedAll(s: State, u: Uid, wanted: seq<Action>)
    returns (done: seq<Action>, states: seq<State>)
    requires u < |s.fibers|
    ensures Applied(s, u, wanted, done, states)
    decreases |wanted|
  {
    if wanted == [] || Act(s, u, wanted[0]).Err? {
      done, states := [], [s];
    } else {
      ActGrows(s, u, wanted[0]);
      hide Act;
      var d, ts := AppliedAll(Act(s, u, wanted[0]).state, u, wanted[1..]);
      done, states := [wanted[0]] + d, [s] + ts;
    }
  }

  /** Running the actions is getting through them. */
  lemma {:induction false} RunIsApplied(
    s: State, u: Uid, wanted: seq<Action>, done: seq<Action>, states: seq<State>)
    requires Applied(s, u, wanted, done, states)
    ensures var t := RunActions(s, u, wanted);
      (t.Ok? <==> done == wanted) && (t.Ok? ==> t.state == states[|done|])
      && (t.Err? ==> t.state == Act(states[|done|], u, wanted[|done|]).state)
    decreases |wanted|
  {
    hide Act;
    if done != [] {
      var states' := states[1..];
      assert states[0] == s && Act(states[0], u, done[0]) == Ok(states[1]);
      assert Trace(states[1], u, done[1..], states') by {
        forall i | 0 <= i < |done| - 1 ensures Act(states'[i], u, done[1..][i]) == Ok(states'[i + 1]) {
          assert Act(states[i + 1], u, done[i + 1]) == Ok(states[i + 2]);
        }
      }
      RunIsApplied(states[1], u, wanted[1..], done[1..], states');
      assert done == [done[0]] + done[1..] && wanted == [wanted[0]] + wanted[1..];
    }
  }

  /** An action that raises changes nothing. */
  lemma {:induction false} RaisingChangesNothing(s: State, u: Uid, a: Action)
    requires u < |s.fibers| && Act(s, u, a).Err?
    ensures Act(s, u, a).state == s
  {
    hide Dispose, Notify, AddFiber, Register, Revert;
  }

  lemma {:induction false} TraceKeepsLoad(s: State, u: Uid, actions: seq<Action>, states: seq<State>, k: nat)
    requires Trace(s, u, actions, states) && k <= |actions|
    ensures SameLoad(s.fibers[u], states[k].fibers[u])
  {
    hide Act;
    if k > 0 {
      TraceKeepsLoad(s, u, actions, states, k - 1);
      assert Act(states[k - 1], u, actions[k - 1]) == Ok(states[k]);
      ActKeepsLoad(states[k - 1], u, actions[k - 1]);
    }
  }

  /** A refused publication or mount is an exception: it changes nothing, and apply goes on exactly when it
      catches it. */
  lemma {:induction false} RefusalsChangeNothing(s: State, u: Uid, a: Action)
    requires u < |s.fibers|
    requires
      || (a.Provide? && a.who < |s.fibers| && a.realm < |s.store.realms|
          && (!Acting(s, a.who) || Resolve(s.store, a.realm, a.name).Some?))
      || (a.Mount? && Acting(s, a.who) && a.realm < |s.store.realms|
          && exists v :: v in s.mounted && v < |s.fibers| && s.fibers[v].entry == a.entry)
    ensures Act(s, u, a) == if a.tolerant then Ok(s) else Err(s)
  {
    hide OwnerOf, Notify, AddFiber;
  }

  /** A publication that is accepted is what the name resolves to there, under a serial of its own. */
  lemma {:induction false} PublishedResolves(s: State, u: Uid, a: Action)
    requires u < |s.fibers| && a.Provide? && Acting(s, a.who) && a.realm < |s.store.realms|
    requires Resolve(s.store, a.realm, a.name).None?
    ensures Act(s, u, a).Ok?
    ensures var i := Resolve(Act(s, u, a).state.store, a.realm, a.name);
      i.Some? && i.value.owner == a.who && i.value.slot.name == a.name && s.store.serial < i.value.serial
  {
    hide OwnerOf, Woken;
  }

  /** The realm an apply isolates names in sees those as its own and every other name as its base does. */
  lemma {:induction false} IsolatesExactly(s: State, u: Uid, a: Action, name: Name)
    requires u < |s.fibers| && Forest(s.store.realms) && a.Isolate? && a.base < |s.store.realms|
    ensures var r := |s.store.realms|;
      var t := Act(s, u, a).state;
      && Act(s, u, a).Ok? && r < |t.store.realms| && t.store.impls == s.store.impls && t.fibers == s.fibers
      && OwnerOf(t.store.realms, r, name) == if name in a.names then r else OwnerOf(s.store.realms, a.base, name)
  {
    OwnerOfStable(s.store.realms, Realm(Some(a.base), a.names), a.base, name);
  }

  /** Dropping a child disposes that child, and spares everyone who is not below it. */
  lemma {:induction false} DropSparesOthers(s: State, u: Uid, k: nat)
    requires Kept(s) && u < |s.fibers| && k < |s.fibers[u].children|
    ensures var c := s.fibers[u].children[k];
      var t := Act(s, u, Drop(k));
      && t.Ok? && c < |t.state.fibers| && t.state.fibers[c].phase == Disposed && Bare(t.state.fibers[c])
      && c !in t.state.mounted && Aside(s, t.state, c)
  {
    var c := s.fibers[u].children[k];
    assert c in s.fibers[u].children;
    assert u < c < |s.fibers| && s.fibers[c].phase != Disposed by { assert Tree(s); }
    hide Kept, Aside, Dispose;
    DisposeKept(s, c);
    DisposeAside(s, c);
    DisposedIsBare(s, c);
  }

  lemma {:induction false} DisposedIsBare(s: State, c: Uid)
    requires c < |s.fibers| && s.fibers[c].phase != Disposed && Kept(Dispose(s, c))
    ensures Dispose(s, c).fibers[c].phase == Disposed && Bare(Dispose(s, c).fibers[c])
    ensures c !in Dispose(s, c).mounted
  {
    hide Unload, Discard, Tree, Filed;
  }

  // ---- what is filed ----------------------------------------------------------------------------------

  /** An effect as the plugin knows it: its own cleanup, or the service it published. */
  datatype Label = Tag(tag: nat) | Service(name: Name)

  function LabelOf(e: Effect): Label {
    match e
    case Cleanup(tag) => Tag(tag)
    case Undo(i) => Service(i.slot.name)
  }

  function Labels(es: seq<Effect>): (ls: seq<Label>)
    ensures |ls| == |es|
  {
    seq(|es|, i requires 0 <= i < |es| => LabelOf(es[i]))
  }

  function Backwards<T>(s: seq<T>): (r: seq<T>)
    ensures |r| == |s| && forall i :: 0 <= i < |s| ==> r[i] == s[|s| - 1 - i]
  {
    seq(|s|, i requires 0 <= i < |s| => s[|s| - 1 - i])
  }

  /** What an action that does not raise files for u: a cleanup, or the undo of a service nobody provides
      there yet. */
  function Filing(s: State, u: Uid, a: Action): seq<Label> {
    match a
    case File(who, tag) => if who == u then [Tag(tag)] else []
    case Provide(who, r, name, _) =>
      if who == u && Acting(s, u) && Resolve(s.store, r, name).None? then [Service(name)] else []
    case _ => []
  }

  /** What the first k actions file, in order. */
  function Filings(u: Uid, actions: seq<Action>, states: seq<State>, k: nat): seq<Label>
    requires k <= |actions| <= |states|
  {
    if k == 0 then [] else Filings(u, actions, states, k - 1) + Filing(states[k - 1], u, actions[k - 1])
  }

  /** The effects whose disposers u ran, in order. */
  function RanIn(log: seq<Mark>, u: Uid): seq<Effect> {
    if log == [] then []
    else
      var m := log[|log| - 1];
      RanIn(log[..|log| - 1], u) + if m.Ran? && m.who == u then [m.effect] else []
  }

  lemma {:induction false} RanInJoin(a: seq<Mark>, b: seq<Mark>, u: Uid)
    ensures RanIn(a + b, u) == RanIn(a, u) + RanIn(b, u)
    decreases |b|
  {
    if b == [] {
      assert a + b == a;
    } else {
      assert (a + b)[..|a + b| - 1] == a + b[..|b| - 1];
      RanInJoin(a, b[..|b| - 1], u);
    }
  }

  lemma {:induction false} RanInNone(log: seq<Mark>, u: Uid)
    requires forall k :: 0 <= k < |log| ==> !RanBy(log[k], u)
    ensures RanIn(log, u) == []
    decreases |log|
  {
    if log != [] {
      assert !RanBy(log[|log| - 1], u);
      RanInNone(log[..|log| - 1], u);
    }
  }

  predicate OwnWithdraw(u: Uid, a: Action) {
    a.Withdraw? && a.who == u
  }

  lemma {:induction false} ProvideFiles(s: State, u: Uid, who: Uid, r: RealmId, name: Name)
    requires u < |s.fibers| && who < |s.fibers|
    ensures var t := ProvideStep(s, who, r, name);
      && u < |t.state.fibers| && t.state.fibers[u].phase == s.fibers[u].phase && t.state.log == s.log
      && (t.Err? ==> t.state == s)
      && (t.Ok? <==> Acting(s, who) && Resolve(s.store, r, name).None?)
      && t.state.fibers[u].provided == s.fibers[u].provided + (if t.Ok? && who == u then {name} else {})
      && Labels(t.state.fibers[u].effects)
         == Labels(s.fibers[u].effects) + if t.Ok? && who == u then [Service(name)] else []
  {
    hide Woken, OwnerOf;
  }

  lemma {:induction false} MountFiles(
    s: State, u: Uid, who: Uid, r: RealmId, entry: string, d: Decl, isolated: set<Name>)
    requires u < |s.fibers| && who < |s.fibers|
    ensures var t := MountStep(s, Some(who), r, entry, d, isolated).state;
      && u < |t.fibers| && t.fibers[u].phase == s.fibers[u].phase && t.log == s.log
      && t.fibers[u].effects == s.fibers[u].effects && t.fibers[u].provided == s.fibers[u].provided
  {
    hide EntryTaken;
  }

  function NameOf(e: Effect): set<Name> {
    if e.Undo? then {e.impl.slot.name} else {}
  }

  lemma {:induction false} WithdrawFiles(s: State, u: Uid, who: Uid, k: nat)
    requires u < |s.fibers| && who < |s.fibers| && k < |s.fibers[who].effects|
    ensures var t := WithdrawStep(s, who, k);
      && u < |t.fibers| && t.fibers[u].phase == s.fibers[u].phase
      && t.log == s.log + [Ran(who, s.fibers[who].effects[k], s.store.impls)]
      && t.fibers[u].effects == (if who == u then Cut(s.fibers[u].effects, k) else s.fibers[u].effects)
      && t.fibers[u].provided == s.fibers[u].provided - (if who == u then NameOf(s.fibers[u].effects[k]) else {})
  {
  }

  /** One action: what u's stack gains, and that no disposer of u runs but in a withdrawal of its own. */
  lemma {:induction false} ActFiles(s: State, u: Uid, a: Action)
    requires u < |s.fibers| && s.fibers[u].phase == Loading && Act(s, u, a).Ok?
    ensures var t := Act(s, u, a).state;
      && u < |t.fibers| && t.fibers[u].phase == Loading && s.log <= t.log
      && (if OwnWithdraw(u, a)
          then a.index < |s.fibers[u].effects| && t.fibers[u].effects == Cut(s.fibers[u].effects, a.index)
               && t.log == s.log + [Ran(u, s.fibers[u].effects[a.index], s.store.impls)]
          else Labels(t.fibers[u].effects) == Labels(s.fibers[u].effects) + Filing(s, u, a)
               && forall k :: |s.log| <= k < |t.log| ==> !RanBy(t.log[k], u))
  {
    hide Dispose, Woken, EntryTaken, Without, OwnerOf, ProvideStep, MountStep, Retract;
    match a {
      case Provide(who, r, name, _) => ProvideFiles(s, u, who, r, name);
      case Mount(who, r, entry, d, isolated, _) => MountFiles(s, u, who, r, entry, d, isolated);
      case Withdraw(who, k) => WithdrawFiles(s, u, who, k);
      case Drop(k) =>
        var c := s.fibers[u].children[k];
        DisposeWanes(s, c);
        DisposeAbove(s, c, u);
        assert Fades(s.fibers[u], Dispose(s, c).fibers[u], false);
      case _ =>
    }
  }

  function RanSince(s: State, t: State, u: Uid): seq<Effect>
    requires |s.log| <= |t.log|
  {
    RanIn(t.log[|s.log|..], u)
  }

  lemma {:induction false} RanSinceJoin(s: State, t: State, r: State, u: Uid)
    requires s.log <= t.log <= r.log
    ensures RanSince(s, r, u) == RanSince(s, t, u) + RanSince(t, r, u)
  {
    assert r.log[|s.log|..] == t.log[|s.log|..] + r.log[|t.log|..];
    RanInJoin(t.log[|s.log|..], r.log[|t.log|..], u);
  }

  ghost predicate NeverWithdraws(u: Uid, actions: seq<Action>, k: nat)
    requires k <= |actions|
  {
    forall i :: 0 <= i < k ==> !OwnWithdraw(u, actions[i])
  }

  lemma {:induction false} LabelsCut(es: seq<Effect>, k: nat)
    requires k < |es|
    ensures multiset(Labels(Cut(es, k))) + multiset(Labels([es[k]])) == multiset(Labels(es))
  {
    assert Labels(es) == Labels(es)[..k] + [LabelOf(es[k])] + Labels(es)[k + 1..];
    assert Labels(Cut(es, k)) == Labels(es)[..k] + Labels(es)[k + 1..];
    assert Labels([es[k]]) == [LabelOf(es[k])];
  }

  lemma {:induction false} LabelsJoin(a: seq<Effect>, b: seq<Effect>)
    ensures Labels(a + b) == Labels(a) + Labels(b)
  {
  }

  /** What u holds and what it ran add up to what it held before and what was filed. */
  ghost predicate Accounted(s: State, t: State, u: Uid, filed: seq<Label>) {
    && u < |s.fibers| && u < |t.fibers| && s.log <= t.log
    && multiset(Labels(t.fibers[u].effects)) + multiset(Labels(RanSince(s, t, u)))
       == multiset(Labels(s.fibers[u].effects)) + multiset(filed)
  }

  /** The stack grew by exactly this, and no disposer of u ran. */
  ghost predicate Stacked(s: State, t: State, u: Uid, filed: seq<Label>) {
    && u < |s.fibers| && u < |t.fibers| && s.log <= t.log
    && Labels(t.fibers[u].effects) == Labels(s.fibers[u].effects) + filed
    && RanSince(s, t, u) == []
  }

  lemma {:induction false} ActAccounted(s: State, u: Uid, a: Action)
    requires u < |s.fibers| && s.fibers[u].phase == Loading && Act(s, u, a).Ok?
    ensures Accounted(s, Act(s, u, a).state, u, Filing(s, u, a))
    ensures !OwnWithdraw(u, a) ==> Stacked(s, Act(s, u, a).state, u, Filing(s, u, a))
  {
    hide Act;
    var t := Act(s, u, a).state;
    ActFiles(s, u, a);
    if OwnWithdraw(u, a) {
      var e := s.fibers[u].effects[a.index];
      var m := Ran(u, e, s.store.impls);
      assert t.log[|s.log|..] == [m] && [m][..0] == [];
      assert RanIn([m], u) == RanIn([], u) + [e];
      LabelsCut(s.fibers[u].effects, a.index);
    } else {
      RanInNone(t.log[|s.log|..], u);
    }
  }

  lemma {:induction false} SumsJoin<T>(
    a: multiset<T>, b: multiset<T>, c: multiset<T>, d: multiset<T>, e: multiset<T>, f: multiset<T>, g: multiset<T>)
    requires a + b == c + d && e + f == a + g
    ensures e + (b + f) == c + (d + g)
  {
    assert e + (b + f) == (e + f) + b;
    assert (a + g) + b == (a + b) + g;
    assert (c + d) + g == c + (d + g);
  }

  lemma {:induction false} AccountedJoin(s: State, t: State, r: State, u: Uid, a: seq<Label>, b: seq<Label>)
    requires Accounted(s, t, u, a) && Accounted(t, r, u, b)
    ensures Accounted(s, r, u, a + b)
    ensures Stacked(s, t, u, a) && Stacked(t, r, u, b) ==> Stacked(s, r, u, a + b)
  {
    RanSinceJoin(s, t, r, u);
    var x, y := RanSince(s, t, u), RanSince(t, r, u);
    LabelsJoin(x, y);
    hide RanSince, Labels;
    SumsJoin(
      multiset(Labels(t.fibers[u].effects)), multiset(Labels(x)), multiset(Labels(s.fibers[u].effects)), multiset(a),
      multiset(Labels(r.fibers[u].effects)), multiset(Labels(y)), multiset(b));
    assert multiset(Labels(x) + Labels(y)) == multiset(Labels(x)) + multiset(Labels(y));
    assert multiset(a + b) == multiset(a) + multiset(b);
  }

  lemma {:induction false} TraceAccounted(s: State, u: Uid, actions: seq<Action>, states: seq<State>, k: nat)
    requires Trace(s, u, actions, states) && s.fibers[u].phase == Loading && k <= |actions|
    ensures states[k].fibers[u].phase == Loading
    ensures Accounted(s, states[k], u, Filings(u, actions, states, k))
    ensures NeverWithdraws(u, actions, k) ==> Stacked(s, states[k], u, Filings(u, actions, states, k))
  {
    hide Act, Filing, Accounted, Stacked;
    if k == 0 {
      assert s.log[|s.log|..] == [];
      assert Accounted(s, s, u, []) && Stacked(s, s, u, []) by { hide Accounted, Stacked; SelfAccounted(s, u); }
    } else {
      TraceAccounted(s, u, actions, states, k - 1);
      assert Act(states[k - 1], u, actions[k - 1]) == Ok(states[k]);
      ActFiles(states[k - 1], u, actions[k - 1]);
      ActAccounted(states[k - 1], u, actions[k - 1]);
      AccountedJoin(
        s, states[k - 1], states[k], u,
        Filings(u, actions, states, k - 1), Filing(states[k - 1], u, actions[k - 1]));
    }
  }

  lemma {:induction false} SelfAccounted(s: State, u: Uid)
    requires u < |s.fibers|
    ensures Accounted(s, s, u, []) && Stacked(s, s, u, [])
  {
    assert s.log[|s.log|..] == [];
  }

  // ---- discarding ----------------------------------------------------------------------------------------

  lemma {:induction false} RanInAll(log: seq<Mark>, u: Uid)
    requires forall k :: 0 <= k < |log| ==> RanBy(log[k], u)
    ensures |RanIn(log, u)| == |log|
    ensures forall k :: 0 <= k < |log| ==> RanBy(log[k], u) && RanIn(log, u)[k] == log[k].effect
    decreases |log|
  {
    if log != [] {
      assert RanBy(log[|log| - 1], u);
      RanInAll(log[..|log| - 1], u);
    }
  }

  lemma {:induction false} UnwindRan(s: State, u: Uid)
    requires u < |s.fibers|
    ensures var t := Unwind(s, u);
      s.log <= t.log && RanSince(s, t, u) == Backwards(s.fibers[u].effects)
  {
    var t := Unwind(s, u);
    UnwindRunsBackwards(s, u);
    UnwindMarks(s, u);
    hide Unwind;
    var log := t.log[|s.log|..];
    forall k | 0 <= k < |log| ensures RanBy(log[k], u) && log[k].effect == Backwards(s.fibers[u].effects)[k] {
      assert log[k] == t.log[|s.log| + k];
    }
    RanInAll(log, u);
    assert RanIn(log, u) == Backwards(s.fibers[u].effects);
  }

  /** Discarding u runs each of its disposers once, the newest first. */
  lemma {:induction false} DiscardRan(s: State, u: Uid)
    requires u < |s.fibers| && s.fibers[u].phase != Disposed
    ensures var t := Discard(s, u);
      && s.log <= t.log && t.fibers[u].effects == []
      && RanSince(s, t, u) == Backwards(s.fibers[u].effects)
  {
    var s1 := DisposeAll(s, u, s.fibers[u].children);
    DisposeAllAbove(s, u, s.fibers[u].children, u);
    DisposeAllWanes(s, u, s.fibers[u].children);
    assert Fades(s.fibers[u], s1.fibers[u], false);
    var s2 := Put(s1, u, s1.fibers[u].(provided := {}));
    RanInNone(s1.log[|s.log|..], u);
    UnwindRan(s2, u);
    DiscardWanes(s, u);
    assert Discard(s, u) == Unwind(s2, u);
    hide Discard, Unwind;
    RanSinceJoin(s, s1, Discard(s, u), u);
  }

  /** What the host files with an acting fiber is the first thing to run when that fiber is unloaded; with any
      other fiber it files nothing. */
  lemma {:induction false} FiledOutsideRunsFirst(w: Behaviour, rounds: nat, s: State, u: Uid, tag: nat)
    requires u < |s.fibers|
    ensures var r := Host(w, rounds, s, HostFile(u, tag));
      && r.Done? && |r.state.fibers| == |s.fibers| && r.state.log == s.log
      && (if Acting(s, u)
          then s.log <= Unload(r.state, u).log
               && RanSince(r.state, Unload(r.state, u), u) == [Cleanup(tag)] + Backwards(s.fibers[u].effects)
          else r.state == s)
  {
    if Acting(s, u) {
      var t := Host(w, rounds, s, HostFile(u, tag)).state;
      var x := SetPhase(t, u, Unloading);
      DiscardRan(x, u);
      hide Discard;
      assert RanSince(t, Unload(t, u), u) == RanSince(x, Discard(x, u), u);
    }
  }

  // ---- the whole load ------------------------------------------------------------------------------------

  function Begun(s: State, u: Uid): State
    requires u < |s.fibers|
  {
    BeginApply(SetPhase(s, u, Loading), u)
  }

  function Asked(w: Behaviour, s: State, u: Uid): Script
    requires u < |s.fibers|
  {
    w(u, SetPhase(s, u, Loading))
  }

  /** What a load of u comes to when its config returns: done are the actions its apply gets through. */
  ghost predicate Went(w: Behaviour, s: State, u: Uid, done: seq<Action>, states: seq<State>) {
    u < |s.fibers| && Asked(w, s, u).config.Returns? && Applied(Begun(s, u), u, Asked(w, s, u).actions, done, states)
  }

  /** u takes back a service of that name, in whichever realm. */
  predicate TakesBack(s: State, u: Uid, a: Action, name: Name) {
    OwnWithdraw(u, a) && u < |s.fibers| && a.index < |s.fibers[u].effects|
    && LabelOf(s.fibers[u].effects[a.index]) == Service(name)
  }

  /** Action j publishes the name for u, and none of the first k after it takes that name back. */
  ghost predicate StandsFrom(u: Uid, name: Name, actions: seq<Action>, states: seq<State>, j: nat, k: nat)
    requires j < k <= |actions| <= |states|
  {
    && Filing(states[j], u, actions[j]) == [Service(name)]
    && forall i :: j < i < k ==> !TakesBack(states[i], u, actions[i], name)
  }

  ghost predicate Stands(u: Uid, name: Name, actions: seq<Action>, states: seq<State>, k: nat)
    requires k <= |actions| <= |states|
  {
    exists j :: 0 <= j < k && StandsFrom(u, name, actions, states, j, k)
  }

  lemma {:induction false} ActProvided(s: State, u: Uid, a: Action, name: Name)
    requires u < |s.fibers| && s.fibers[u].phase == Loading && Act(s, u, a).Ok?
    requires u < |Act(s, u, a).state.fibers|
    ensures name in Act(s, u, a).state.fibers[u].provided <==>
      Filing(s, u, a) == [Service(name)] || (name in s.fibers[u].provided && !TakesBack(s, u, a, name))
  {
    hide Dispose, Woken, EntryTaken, Without, OwnerOf, ProvideStep, MountStep, WithdrawStep;
    match a {
      case Provide(who, r, n, _) => ProvideFiles(s, u, who, r, n);
      case Mount(who, r, entry, d, isolated, _) => MountFiles(s, u, who, r, entry, d, isolated);
      case Withdraw(who, k) => WithdrawFiles(s, u, who, k);
      case Drop(k) =>
        var c := s.fibers[u].children[k];
        DisposeWanes(s, c);
        assert Fades(s.fibers[u], Dispose(s, c).fibers[u], false);
      case _ =>
    }
  }

  lemma {:induction false} StandsNext(u: Uid, name: Name, actions: seq<Action>, states: seq<State>, k: nat)
    requires k < |actions| <= |states|
    ensures Stands(u, name, actions, states, k + 1) <==>
      || Filing(states[k], u, actions[k]) == [Service(name)]
      || (Stands(u, name, actions, states, k) && !TakesBack(states[k], u, actions[k], name))
  {
    hide Filing, TakesBack;
    if Filing(states[k], u, actions[k]) == [Service(name)] {
      assert StandsFrom(u, name, actions, states, k, k + 1);
    } else if Stands(u, name, actions, states, k) && !TakesBack(states[k], u, actions[k], name) {
      var j :| 0 <= j < k && StandsFrom(u, name, actions, states, j, k);
      assert StandsFrom(u, name, actions, states, j, k + 1);
    }
    if Stands(u, name, actions, states, k + 1) {
      var j :| 0 <= j < k + 1 && StandsFrom(u, name, actions, states, j, k + 1);
      if j < k { assert StandsFrom(u, name, actions, states, j, k); }
    }
  }

  lemma {:induction false} TraceProvided(
    s: State, u: Uid, actions: seq<Action>, states: seq<State>, k: nat, name: Name)
    requires Trace(s, u, actions, states) && s.fibers[u].phase == Loading && k <= |actions|
    requires s.fibers[u].provided == {}
    ensures name in states[k].fibers[u].provided <==> Stands(u, name, actions, states, k)
  {
    hide Act, Filing, TakesBack;
    if k > 0 {
      TraceProvided(s, u, actions, states, k - 1, name);
      TraceKeepsLoad(s, u, actions, states, k - 1);
      assert Act(states[k - 1], u, actions[k - 1]) == Ok(states[k]);
      ActProvided(states[k - 1], u, actions[k - 1], name);
      StandsNext(u, name, actions, states, k - 1);
    }
  }

  /** Every service u declares stands when its apply has returned. */
  ghost predicate Complete(s: State, u: Uid, done: seq<Action>, states: seq<State>)
    requires u < |s.fibers| && |done| <= |states|
  {
    forall name :: name in s.fibers[u].decl.provide ==> Stands(u, name, done, states, |done|)
  }

  lemma {:induction false} CompleteIff(s: State, u: Uid, wanted: seq<Action>, done: seq<Action>, states: seq<State>)
    requires u < |s.fibers| && s.fibers[u].provided == {} && Applied(Begun(s, u), u, wanted, done, states)
    ensures var last := states[|done|].fibers[u];
      last.decl == s.fibers[u].decl && (last.decl.provide <= last.provided <==> Complete(s, u, done, states))
  {
    TraceKeepsLoad(Begun(s, u), u, done, states, |done|);
    forall name ensures name in states[|done|].fibers[u].provided <==> Stands(u, name, done, states, |done|) {
      TraceProvided(Begun(s, u), u, done, states, |done|, name);
    }
  }

  /** Main result: how a load ends. It is ACTIVE exactly when config returned, every action went through, apply
      returned and nothing it declares is missing; it passes an abort of config or apply on, and nothing else;
      and an ending that is not ACTIVE leaves nothing of the load: no effect, no child, no service, no epoch. */
  lemma {:induction false} LoadEnds(w: Behaviour, s: State, u: Uid, done: seq<Action>, states: seq<State>)
    requires Kept(s) && u < |s.fibers| && s.fibers[u].phase == Pending
    requires Asked(w, s, u).config.Returns? ==> Went(w, s, u, done, states)
    ensures var script := Asked(w, s, u);
      var r := Load(w, s, u);
      var all := script.config.Returns? && done == script.actions;
      && u < |r.state.fibers| && !r.Diverged?
      && (r.Aborted? <==> script.config.Aborts? || (all && script.ending.Aborts?))
      && (r.state.fibers[u].phase == Active <==>
           all && script.ending.Returns? && Complete(s, u, done, states))
      && (r.state.fibers[u].phase == Active ==>
           r.state.fibers[u] == states[|done|].fibers[u].(phase := Active)
           && r.state.fibers[u].epoch == s.fibers[u].epoch
           && r.state.store == states[|done|].store && r.state.log == states[|done|].log)
      && (r.state.fibers[u].phase != Active ==>
           r.state.fibers[u].phase == (if r.Aborted? then Pending else Failed)
           && Bare(r.state.fibers[u]) && r.state.fibers[u].epoch.Inactive?)
  {
    assert Bare(s.fibers[u]);
    LoadKept(w, s, u, {});
    if Asked(w, s, u).config.Returns? {
      RunIsApplied(Begun(s, u), u, Asked(w, s, u).actions, done, states);
      TraceKeepsLoad(Begun(s, u), u, done, states, |done|);
      CompleteIff(s, u, Asked(w, s, u).actions, done, states);
      hide RunActions, Discard, Kept, Complete;
    } else {
      hide RunActions, Discard, Kept;
    }
  }

  /** An apply that does not end ACTIVE is discarded where it stopped. */
  lemma {:induction false} FailingDiscards(w: Behaviour, s: State, u: Uid, done: seq<Action>, states: seq<State>)
    requires Kept(s) && u < |s.fibers| && s.fibers[u].phase == Pending && Went(w, s, u, done, states)
    requires Load(w, s, u).state.fibers[u].phase != Active
    ensures Load(w, s, u).state.log == Discard(states[|done|], u).log
  {
    var last := states[|done|];
    RunIsApplied(Begun(s, u), u, Asked(w, s, u).actions, done, states);
    if done != Asked(w, s, u).actions { RaisingChangesNothing(last, u, Asked(w, s, u).actions[|done|]); }
    hide RunActions, Discard, Kept;
  }

  lemma {:induction false} MultisetBackwards<T>(s: seq<T>)
    ensures multiset(Backwards(s)) == multiset(s)
  {
    if s == [] {
      assert Backwards(s) == s;
    } else {
      var n := |s| - 1;
      assert Backwards(s) == [s[n]] + Backwards(s[..n]);
      MultisetBackwards(s[..n]);
      assert s == s[..n] + [s[n]];
    }
  }

  lemma {:induction false} LabelsBackwards(es: seq<Effect>)
    ensures Labels(Backwards(es)) == Backwards(Labels(es))
  {
  }

  lemma {:induction false} BegunQuiet(s: State, u: Uid)
    requires u < |s.fibers|
    ensures Accounted(s, Begun(s, u), u, []) && Stacked(s, Begun(s, u), u, [])
  {
    RanInNone(Begun(s, u).log[|s.log|..], u);
  }

  lemma {:induction false} DiscardAccounted(s: State, u: Uid)
    requires u < |s.fibers| && s.fibers[u].phase != Disposed
    ensures Accounted(s, Discard(s, u), u, []) && Discard(s, u).fibers[u].effects == []
    ensures Labels(RanSince(s, Discard(s, u), u)) == Backwards(Labels(s.fibers[u].effects))
  {
    DiscardRan(s, u);
    LabelsBackwards(s.fibers[u].effects);
    MultisetBackwards(Labels(s.fibers[u].effects));
    hide Discard, RanSince;
    assert Labels([]) == [];
  }

  lemma {:induction false} PendingHoldsNothing(s: State, u: Uid)
    requires Kept(s) && u < |s.fibers| && s.fibers[u].phase == Pending
    ensures s.fibers[u].effects == [] && Labels(s.fibers[u].effects) == []
  {
    assert Bare(s.fibers[u]);
  }

  /** Where the apply stops, all it filed is held or was withdrawn. */
  lemma {:induction false} StoppedAccounted(w: Behaviour, s: State, u: Uid, done: seq<Action>, states: seq<State>)
    requires u < |s.fibers| && Went(w, s, u, done, states)
    ensures var last, filed := states[|done|], Filings(u, done, states, |done|);
      && u < |last.fibers| && last.fibers[u].phase == Loading && Accounted(s, last, u, filed)
      && (NeverWithdraws(u, done, |done|) ==> Stacked(s, last, u, filed))
  {
    var b, last, filed := Begun(s, u), states[|done|], Filings(u, done, states, |done|);
    TraceAccounted(b, u, done, states, |done|);
    BegunQuiet(s, u);
    hide Trace, Accounted, Stacked;
    AccountedJoin(s, b, last, u, [], filed);
    assert [] + filed == filed;
  }

  /** And once it is discarded, nothing is held. */
  lemma {:induction false} DiscardedUndone(s: State, last: State, u: Uid, filed: seq<Label>)
    requires u < |s.fibers| && s.fibers[u].effects == [] && u < |last.fibers| && last.fibers[u].phase != Disposed
    requires Accounted(s, last, u, filed)
    ensures var d := Discard(last, u);
      && Accounted(s, d, u, filed) && d.fibers[u].effects == []
      && (Stacked(s, last, u, filed) ==> Labels(RanSince(s, d, u)) == Backwards(filed))
  {
    var d := Discard(last, u);
    DiscardAccounted(last, u);
    hide Discard;
    AccountedJoin(s, last, d, u, filed, []);
    RanSinceJoin(s, last, d, u);
    assert filed + [] == filed;
    if Stacked(s, last, u, filed) {
      assert Labels(s.fibers[u].effects) + filed == filed;
      assert RanSince(s, d, u) == RanSince(last, d, u);
    }
  }

  /** Main result: over one load of u, every cleanup and every service its apply filed is either still held or
      was undone, once each. If u withdrew none of them itself, then an apply that ends ACTIVE holds them all in
      the order of its calls, and one that fails or aborts undid them all in the reverse of that order. */
  lemma {:induction false} LoadUndoes(w: Behaviour, s: State, u: Uid, done: seq<Action>, states: seq<State>)
    requires Kept(s) && u < |s.fibers| && s.fibers[u].phase == Pending && Went(w, s, u, done, states)
    ensures var t := Load(w, s, u).state;
      var filed := Filings(u, done, states, |done|);
      && u < |t.fibers| && s.log <= t.log
      && multiset(Labels(t.fibers[u].effects)) + multiset(Labels(RanSince(s, t, u))) == multiset(filed)
      && (t.fibers[u].phase != Active ==> t.fibers[u].effects == [])
      && (NeverWithdraws(u, done, |done|) ==>
           if t.fibers[u].phase == Active then Labels(t.fibers[u].effects) == filed && RanSince(s, t, u) == []
           else Labels(RanSince(s, t, u)) == Backwards(filed))
  {
    hide Load, Discard, Complete, Kept, Filings, Act;
    var t := Load(w, s, u).state;
    var last, filed := states[|done|], Filings(u, done, states, |done|);
    LoadEnds(w, s, u, done, states);
    PendingHoldsNothing(s, u);
    StoppedAccounted(w, s, u, done, states);
    if t.fibers[u].phase != Active {
      FailingDiscards(w, s, u, done, states);
      DiscardedUndone(s, last, u, filed);
    }
  }

  // ---- what an ACTIVE fiber provides ------------------------------------------------------------------------

  /** Every name u is remembered to provide has its undo filed. */
  ghost predicate Backed(f: Fiber) {
    forall n :: n in f.provided ==>
      exists k :: 0 <= k < |f.effects| && f.effects[k].Undo? && f.effects[k].impl.slot.name == n
  }

  lemma {:induction false} ActBacked(s: State, u: Uid, a: Action)
    requires u < |s.fibers| && s.fibers[u].phase == Loading && Backed(s.fibers[u]) && Act(s, u, a).Ok?
    ensures u < |Act(s, u, a).state.fibers| && Backed(Act(s, u, a).state.fibers[u])
  {
    hide Dispose, Woken, EntryTaken, Without, OwnerOf, IsLive, Remove, ProvideStep, MountStep, Backed;
    ActKeepsLoad(s, u, a);
    var f, f' := s.fibers[u], Act(s, u, a).state.fibers[u];
    match a {
      case Drop(k) =>
        var c := s.fibers[u].children[k];
        DisposeWanes(s, c);
        assert Fades(f, Dispose(s, c).fibers[u], false);
        MoreBacked(f, f');
      case Withdraw(who, k) =>
        if who == u { CutBacked(f, k, f'); } else { MoreBacked(f, f'); }
      case Provide(who, r, name, _) => ProvideBacked(s, u, who, r, name);
      case Mount(who, r, entry, d, isolated, _) =>
        MountFiles(s, u, who, r, entry, d, isolated);
        MoreBacked(f, f');
      case _ => MoreBacked(f, f');
    }
  }

  lemma {:induction false} MoreBacked(f: Fiber, f': Fiber)
    requires Backed(f) && f.effects <= f'.effects
    requires f'.provided <= f.provided || (f.effects < f'.effects && f'.effects[|f.effects|].Undo?
      && f'.provided <= f.provided + {f'.effects[|f.effects|].impl.slot.name})
    ensures Backed(f')
  {
    forall n | n in f'.provided
      ensures exists k :: 0 <= k < |f'.effects| && f'.effects[k].Undo? && f'.effects[k].impl.slot.name == n
    {
      if n in f.provided {
        var k :| 0 <= k < |f.effects| && f.effects[k].Undo? && f.effects[k].impl.slot.name == n;
        assert f'.effects[k] == f.effects[k];
      } else {
        assert f'.effects[|f.effects|].impl.slot.name == n;
      }
    }
  }

  lemma {:induction false} ProvideBacked(s: State, u: Uid, who: Uid, r: RealmId, name: Name)
    requires u < |s.fibers| && who < |s.fibers| && Backed(s.fibers[u])
    ensures u < |ProvideStep(s, who, r, name).state.fibers|
    ensures Backed(ProvideStep(s, who, r, name).state.fibers[u])
  {
    hide Woken, OwnerOf, Backed;
    MoreBacked(s.fibers[u], ProvideStep(s, who, r, name).state.fibers[u]);
  }

  lemma {:induction false} CutBacked(f: Fiber, k: nat, f': Fiber)
    requires Backed(f) && k < |f.effects| && f'.effects == Cut(f.effects, k)
    requires f'.provided == if f.effects[k].Undo? then f.provided - {f.effects[k].impl.slot.name} else f.provided
    ensures Backed(f')
  {
    forall n | n in f'.provided
      ensures exists j :: 0 <= j < |f'.effects| && f'.effects[j].Undo? && f'.effects[j].impl.slot.name == n
    {
      var j :| 0 <= j < |f.effects| && f.effects[j].Undo? && f.effects[j].impl.slot.name == n;
      assert j != k;
      assert f'.effects[if j < k then j else j - 1] == f.effects[j];
    }
  }

  lemma {:induction false} TraceBacked(s: State, u: Uid, actions: seq<Action>, states: seq<State>, k: nat)
    requires Trace(s, u, actions, states) && s.fibers[u].phase == Loading && k <= |actions| && Backed(s.fibers[u])
    ensures Backed(states[k].fibers[u])
  {
    hide Act, Backed;
    if k > 0 {
      TraceBacked(s, u, actions, states, k - 1);
      TraceAccounted(s, u, actions, states, k - 1);
      assert Act(states[k - 1], u, actions[k - 1]) == Ok(states[k]);
      ActBacked(states[k - 1], u, actions[k - 1]);
    }
  }

  /** u published the name, and its undo is filed. */
  ghost predicate Serves(s: State, u: Uid, name: Name) {
    exists slot :: slot in s.store.impls && slot.name == name && s.store.impls[slot].owner == u
      && u < |s.fibers| && Files(s.fibers[u], s.store.impls[slot])
  }

  /** Main result: when a load ends ACTIVE, every service the plugin declares is live, is this fiber's own, and
      will be withdrawn by one of its disposers. */
  lemma {:induction false} ActiveServesItsDeclared(w: Behaviour, s: State, u: Uid)
    requires Kept(s) && u < |s.fibers| && s.fibers[u].phase == Pending
    requires Load(w, s, u).state.fibers[u].phase == Active
    ensures forall n :: n in s.fibers[u].decl.provide ==> Serves(Load(w, s, u).state, u, n)
  {
    hide Load, Act, Complete, Stands, Filing;
    var t := Load(w, s, u).state;
    var done, states := AppliedAll(Begun(s, u), u, Asked(w, s, u).actions);
    LoadEnds(w, s, u, done, states);
    LoadKept(w, s, u, {});
    assert Bare(s.fibers[u]);
    BegunQuiet(s, u);
    TraceBacked(Begun(s, u), u, done, states, |done|);
    CompleteIff(s, u, Asked(w, s, u).actions, done, states);
    hide Trace, Tree, Idle;
    forall n | n in s.fibers[u].decl.provide ensures Serves(t, u, n) {
      var es := t.fibers[u].effects;
      assert Backed(t.fibers[u]);
      var k :| 0 <= k < |es| && es[k].Undo? && es[k].impl.slot.name == n;
      assert EffectsOk(t.store, u, es);
      assert Files(t.fibers[u], es[k].impl) && t.store.impls[es[k].impl.slot] == es[k].impl;
    }
  }
}
