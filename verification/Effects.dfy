/** The effect stack of src/aka/core/effects.py: whatever disposers do while they run, every filed
    effect is disposed exactly once, and an unwind takes what is left in reverse filing order. */
module Effects {
  import opened Lists

  /** How plugin code ends: normally, with an Exception, or with another BaseException. */
  datatype How = Returned | Raised | Escaped

  /** A disposer as data: what it does to its own stack while it runs, and how it ends. */
  datatype Disposer = Disposer(ops: seq<Op>, ending: How)

  /** File another effect, or call the disposer handed out for the id-th effect; a tolerant operation
      swallows an Exception. */
  datatype Op = File(d: Disposer, tolerant: bool) | Call(id: nat, tolerant: bool)

  /** History: a disposer run by the unwind loop, by its own handle, or at once because it was filed
      during an unwind. */
  datatype Entry = Popped(id: nat) | Early(id: nat) | AtOnce(d: Disposer)

  // ---- sizes, for termination --------------------------------------------------------------------

  function Size(d: Disposer): nat {
    1 + OpsSize(d.ops)
  }

  function OpsSize(ops: seq<Op>): nat {
    if ops == [] then 0 else OpSize(ops[0]) + OpsSize(ops[1..])
  }

  function OpSize(op: Op): nat {
    match op
    case File(d, _) => 1 + Size(d)
    case Call(_, _) => 1
  }

  // ---- reading the log -----------------------------------------------------------------------------

  /** The ids of the filed effects that were disposed, in order. */
  function Runs(log: seq<Entry>): (ids: seq<nat>) {
    if log == [] then []
    else
      var e := log[|log| - 1];
      Runs(log[..|log| - 1]) + if e.AtOnce? then [] else [e.id]
  }

  /** Those the unwind loop took. */
  function PoppedIds(log: seq<Entry>): (ids: seq<nat>) {
    if log == [] then []
    else
      var e := log[|log| - 1];
      PoppedIds(log[..|log| - 1]) + if e.Popped? then [e.id] else []
  }

  ghost predicate CalledEarly(log: seq<Entry>, id: nat) {
    Early(id) in log
  }

  /** The ids from last to first, without those called early. */
  ghost function Backwards(ids: seq<nat>, log: seq<Entry>): (r: seq<nat>) {
    if ids == [] then [] else Backwards(ids[1..], log) + if CalledEarly(log, ids[0]) then [] else [ids[0]]
  }

  lemma {:induction false} LogSnoc(log: seq<Entry>, e: Entry)
    ensures Runs(log + [e]) == Runs(log) + if e.AtOnce? then [] else [e.id]
    ensures PoppedIds(log + [e]) == PoppedIds(log) + if e.Popped? then [e.id] else []
  {
    assert (log + [e])[..|log|] == log;
  }

  lemma {:induction false} RunsCover(log: seq<Entry>, id: nat)
    ensures id in Runs(log) <==> id in PoppedIds(log) || CalledEarly(log, id)
  {
    if log != [] {
      var n := |log| - 1;
      assert log == log[..n] + [log[n]];
      RunsCover(log[..n], id);
    }
  }

  lemma {:induction false} BackwardsKept(ids: seq<nat>, log: seq<Entry>, log': seq<Entry>)
    requires forall id :: id in ids ==> (CalledEarly(log', id) <==> CalledEarly(log, id))
    ensures Backwards(ids, log') == Backwards(ids, log)
  {
    if ids != [] {
      assert ids[0] in ids && forall id :: id in ids[1..] ==> id in ids;
      BackwardsKept(ids[1..], log, log');
    }
  }

  /** Ids that were all called early add nothing in front. */
  lemma {:induction false} BackwardsSkips(ids: seq<nat>, j: nat, log: seq<Entry>)
    requires j <= |ids| && forall i :: 0 <= i < j ==> CalledEarly(log, ids[i])
    ensures Backwards(ids, log) == Backwards(ids[j..], log)
  {
    if j > 0 {
      assert ids[1..][j - 1..] == ids[j..];
      BackwardsSkips(ids[1..], j - 1, log);
    } else {
      assert ids[0..] == ids;
    }
  }

  /** Read backwards: the loop's order is the filing order reversed. */
  lemma {:induction false} BackwardsDecreases(ids: seq<nat>, log: seq<Entry>)
    requires forall i, j :: 0 <= i < j < |ids| ==> ids[i] < ids[j]
    ensures forall i, j :: 0 <= i < j < |Backwards(ids, log)| ==> Backwards(ids, log)[i] > Backwards(ids, log)[j]
    ensures forall id :: id in Backwards(ids, log) <==> id in ids && !CalledEarly(log, id)
  {
    if ids != [] {
      BackwardsDecreases(ids[1..], log);
      var rest := Backwards(ids[1..], log);
      assert forall i :: 0 <= i < |rest| ==> rest[i] in rest;
      assert forall id :: id in ids[1..] ==> id in ids && id > ids[0];
      assert forall id :: id in ids ==> id == ids[0] || id in ids[1..];
    }
  }

  lemma {:induction false} RunsGrow(log: seq<Entry>, log': seq<Entry>, id: nat)
    requires log <= log' && id in Runs(log)
    ensures id in Runs(log')
    decreases |log'|
  {
    if log' != log {
      RunsGrow(log, log'[..|log'| - 1], id);
    }
  }

  /** What was disposed once is not disposed again, so it is not called early later. */
  lemma {:induction false} OnceOnly(log: seq<Entry>, log': seq<Entry>, id: nat)
    requires log <= log' && NoDup(Runs(log')) && id in Runs(log)
    ensures CalledEarly(log', id) <==> CalledEarly(log, id)
    decreases |log'|
  {
    if log' != log {
      var n := |log'| - 1;
      var shorter := log'[..n];
      assert log' == shorter + [log'[n]];
      RunsGrow(log, shorter, id);
      if !log'[n].AtOnce? {
        var k :| 0 <= k < |Runs(shorter)| && Runs(shorter)[k] == id;
        assert Runs(log')[k] == id && Runs(log')[|Runs(shorter)|] == log'[n].id;
      }
      assert NoDup(Runs(shorter)) by {
        forall i, j | 0 <= i < j < |Runs(shorter)| ensures Runs(shorter)[i] != Runs(shorter)[j] {
          assert Runs(log')[i] == Runs(shorter)[i] && Runs(log')[j] == Runs(shorter)[j];
        }
      }
      OnceOnly(log, shorter, id);
    }
  }

  /** The loop took ids[j] next, after everything between j and m was called early. */
  lemma {:induction false} BackwardsTakes(ids: seq<nat>, j: nat, m: nat, log: seq<Entry>, log': seq<Entry>)
    requires j < m <= |ids| && log + [Popped(ids[j])] <= log' && NoDup(Runs(log'))
    requires ids[j] !in Runs(log)
    requires forall i :: j < i < m ==> CalledEarly(log, ids[i])
    requires forall i :: m <= i < |ids| ==> ids[i] in Runs(log)
    ensures Backwards(ids[j..], log') == Backwards(ids[m..], log) + [ids[j]]
  {
    var log1 := log + [Popped(ids[j])];
    LogSnoc(log, Popped(ids[j]));
    RunsCover(log, ids[j]);
    OnceOnly(log1, log', ids[j]);
    assert !CalledEarly(log', ids[j]);
    assert ids[j..][1..] == ids[j + 1..];
    var tail := ids[j + 1..];
    forall i | 0 <= i < m - j - 1 ensures CalledEarly(log', tail[i]) {
      assert tail[i] == ids[j + 1 + i] && Early(tail[i]) in log;
    }
    BackwardsSkips(tail, m - j - 1, log');
    assert tail[m - j - 1..] == ids[m..];
    forall id | id in ids[m..] ensures CalledEarly(log', id) <==> CalledEarly(log, id) {
      OnceOnly(log, log', id);
    }
    BackwardsKept(ids[m..], log, log');
  }

  /** Those whose disposer raised an Exception. */
  ghost function RaisedOf(ids: seq<nat>, hows: seq<How>): seq<nat>
    requires |ids| == |hows|
  {
    if ids == [] then []
    else
      var n := |ids| - 1;
      RaisedOf(ids[..n], hows[..n]) + if hows[n] == Raised then [ids[n]] else []
  }

  /** Every disposer that does nothing to its stack ended as it says. */
  ghost predicate Fit(ids: seq<nat>, hows: seq<How>, filed: seq<EffectObject>) {
    && |ids| == |hows|
    && forall k :: 0 <= k < |ids| ==>
      ids[k] < |filed| && (filed[ids[k]].dispose.ops == [] ==> hows[k] == filed[ids[k]].dispose.ending)
  }

  /** What the loop knows of the effects it popped: how they ended, who raised, whether one escaped. */
  ghost predicate Reported(
    popped: seq<nat>, hows: seq<How>, filed: seq<EffectObject>, failures: seq<nat>, abort: bool)
  {
    Fit(popped, hows, filed) && failures == RaisedOf(popped, hows) && (abort <==> Escaped in hows)
  }

  lemma {:induction false} ReportedNext(
    popped: seq<nat>, hows: seq<How>, filed: seq<EffectObject>, failures: seq<nat>, abort: bool, id: nat, how: How)
    requires Reported(popped, hows, filed, failures, abort)
    requires id < |filed| && (filed[id].dispose.ops == [] ==> how == filed[id].dispose.ending)
    ensures Reported(popped + [id], hows + [how], filed,
      if how == Raised then failures + [id] else failures, abort || how == Escaped)
  {
    assert (popped + [id])[..|popped|] == popped && (hows + [how])[..|hows|] == hows;
  }

  lemma {:induction false} Unreported(ids: seq<nat>, filed: seq<EffectObject>)
    ensures Reported(Backwards(ids[|ids|..], []), [], filed, [], false)
    ensures forall log :: Backwards(ids[|ids|..], log) == []
  {
  }

  lemma {:induction false} ReportedAll(
    popped: seq<nat>, hows: seq<How>, filed: seq<EffectObject>, failures: seq<nat>, abort: bool)
    requires Reported(popped, hows, filed, failures, abort)
    ensures Fit(popped, hows, filed) && failures == RaisedOf(popped, hows) && (abort <==> Escaped in hows)
  {
  }

  // ---- the objects -----------------------------------------------------------------------------------

  class EffectObject {
    const id: nat
    const dispose: Disposer
    var disposed: bool

    constructor (id: nat, dispose: Disposer)
      ensures this.id == id && this.dispose == dispose && !disposed
    {
      this.id, this.dispose, disposed := id, dispose, false;
    }
  }

  function Weight(es: seq<EffectObject>): nat {
    if es == [] then 0 else Size(es[0].dispose) + Weight(es[1..])
  }

  /** list.remove by identity. */
  function Remove(es: seq<EffectObject>, e: EffectObject): (r: seq<EffectObject>)
    ensures e in es ==> Weight(r) + Size(e.dispose) == Weight(es)
    ensures e !in es ==> r == es
  {
    if es == [] then [] else if es[0] == e then es[1..] else [es[0]] + Remove(es[1..], e)
  }

  ghost predicate Rising(es: seq<EffectObject>) {
    forall i, j :: 0 <= i < j < |es| ==> es[i].id < es[j].id
  }

  lemma {:induction false} RisingTail(es: seq<EffectObject>)
    requires Rising(es) && es != []
    ensures Rising(es[1..]) && forall x :: x in es[1..] ==> es[0].id < x.id
  {
  }

  lemma {:induction false} RisingCons(e: EffectObject, es: seq<EffectObject>)
    requires Rising(es) && forall x :: x in es ==> e.id < x.id
    ensures Rising([e] + es)
  {
    var r := [e] + es;
    forall i, j | 0 <= i < j < |r| ensures r[i].id < r[j].id {
      assert r[j] == es[j - 1] && es[j - 1] in es;
    }
  }

  lemma {:induction false} RemoveRising(es: seq<EffectObject>, e: EffectObject)
    requires Rising(es)
    ensures Rising(Remove(es, e)) && forall x :: x in Remove(es, e) <==> x in es && x != e
  {
    if es != [] {
      RisingTail(es);
      if es[0] != e {
        RemoveRising(es[1..], e);
        RisingCons(es[0], Remove(es[1..], e));
      }
      hide Rising, Remove;
      assert forall x :: x in es <==> x == es[0] || x in es[1..];
    }
  }

  lemma {:induction false} WeightSnoc(es: seq<EffectObject>, e: EffectObject)
    ensures Weight(es + [e]) == Weight(es) + Size(e.dispose)
  {
    if es == [] {
      assert [e][1..] == [];
      assert [] + [e] == [e];
    } else {
      assert (es + [e])[1..] == es[1..] + [e];
      WeightSnoc(es[1..], e);
    }
  }

  function Handles(es: seq<EffectObject>): (ids: seq<nat>)
    ensures |ids| == |es| && forall i :: 0 <= i < |es| ==> ids[i] == es[i].id
  {
    seq(|es|, i requires 0 <= i < |es| => es[i].id)
  }

  /** One fiber's stack; `filed` are the effects whose disposers were handed out. */
  class EffectStack {
    var effects: seq<EffectObject>
    var unwinding: bool
    var filed: seq<EffectObject>
    ghost var log: seq<Entry>
    ghost var repr: set<EffectObject>

    /** An effect is on the stack until it is disposed, and it was disposed exactly when the log shows
        it, once. */
    ghost predicate Valid()
      reads this, repr
    {
      && (forall i :: 0 <= i < |filed| ==> filed[i] in repr && filed[i].id == i)
      && (forall e :: e in effects ==> e.id < |filed| && filed[e.id] == e)
      && Rising(effects)
      && (forall i :: 0 <= i < |filed| ==> (filed[i].disposed <==> filed[i] !in effects))
      && (forall i :: 0 <= i < |filed| ==> (filed[i].disposed <==> i in Runs(log)))
      && NoDup(Runs(log)) && (forall id :: id in Runs(log) ==> id < |filed|)
    }

    /** Valid, but for an effect off the list that is about to be disposed. */
    ghost predicate Pulled(e: EffectObject)
      reads this, repr
    {
      && (forall i :: 0 <= i < |filed| ==> filed[i] in repr && filed[i].id == i)
      && e.id < |filed| && filed[e.id] == e && e !in effects && e in repr && !e.disposed
      && (forall x :: x in effects ==> x.id < |filed| && filed[x.id] == x)
      && Rising(effects)
      && (forall i :: 0 <= i < |filed| && i != e.id ==> (filed[i].disposed <==> filed[i] !in effects))
      && (forall i :: 0 <= i < |filed| ==> (filed[i].disposed <==> i in Runs(log)))
      && NoDup(Runs(log)) && (forall id :: id in Runs(log) ==> id < |filed|)
    }

    /** Flag the effect before its disposer runs. */
    method Flag(e: EffectObject, ghost entry: Entry)
      requires Pulled(e) && !entry.AtOnce? && entry.id == e.id
      modifies this`log, e
      ensures Valid() && e.disposed && log == old(log) + [entry]
    {
      e.disposed := true;
      log := log + [entry];
      LogSnoc(old(log), entry);
      NoDupSnoc(Runs(old(log)), e.id);
    }

    /** What any code running on the stack keeps. */
    twostate predicate Advanced()
      reads this, repr
    {
      && old(log) <= log && old(filed) <= filed && unwinding == old(unwinding)
      && (old(unwinding) ==> filed == old(filed))
      && PoppedIds(log) == old(PoppedIds(log))
      && fresh(repr - old(repr))
    }

    constructor ()
      ensures Valid() && fresh(repr) && effects == [] && filed == [] && log == [] && !unwinding
    {
      effects, filed, unwinding, log, repr := [], [], false, [], {};
    }

    /** list.remove, of an effect that is on the list. */
    method Pull(e: EffectObject)
      requires Valid() && e.id < |filed| && filed[e.id] == e && !e.disposed
      modifies this`effects
      ensures Pulled(e) && Weight(effects) + Size(e.dispose) == old(Weight(effects))
    {
      RemoveRising(effects, e);
      effects := Remove(effects, e);
    }

    /** The handle of one effect: reverses it unless that already happened. */
    method CallHandle(id: nat) returns (how: How)
      requires Valid() && id < |filed|
      modifies this, repr
      ensures Valid() && Advanced()
      ensures id in Runs(log)
      ensures old(filed[id].disposed) ==>
        how == Returned && log == old(log) && effects == old(effects) && filed == old(filed)
      ensures !old(filed[id].disposed) ==> |log| > |old(log)| && log[|old(log)|] == Early(id)
      ensures Weight(effects) <= old(Weight(effects))
      decreases Weight(effects), 1
    {
      hide Runs, PoppedIds, Weight, Rising;
      var e := filed[id];
      if e.disposed { return Returned; }
      Pull(e);
      Flag(e, Early(id));
      LogSnoc(old(log), Early(id));
      ghost var log1 := log;
      how := Execute(e.dispose);
      RunsGrow(log1, log, id);
    }

    method FileEffect(d: Disposer)
      requires Valid()
      modifies this`effects, this`filed, this`repr
      ensures Valid() && fresh(repr - old(repr)) && |filed| == |old(filed)| + 1 && filed[..|old(filed)|] == old(filed)
      ensures var e := filed[|old(filed)|];
        e.dispose == d && effects == old(effects) + [e] && Weight(effects) == old(Weight(effects)) + Size(d)
    {
      hide Runs, PoppedIds, Weight;
      var e := new EffectObject(|filed|, d);
      WeightSnoc(effects, e);
      filed := filed + [e];
      effects := effects + [e];
      repr := repr + {e};
    }

    /** EffectStack.add: filed last, or run at once while the stack is being unwound. */
    method Add(d: Disposer) returns (how: How, handle: Option<nat>)
      requires Valid()
      modifies this, repr
      ensures Valid() && Advanced()
      ensures handle == if old(unwinding) then None else Some(|old(filed)|)
      ensures !old(unwinding) ==> how == Returned && |filed| == |old(filed)| + 1 && filed[|old(filed)|].dispose == d
                                  && effects == old(effects) + [filed[|old(filed)|]] && log == old(log)
      ensures old(unwinding) ==> |log| > |old(log)| && log[|old(log)|] == AtOnce(d)
      ensures Weight(effects) <= old(Weight(effects)) + Size(d)
      decreases Weight(effects) + Size(d), 2
    {
      hide Runs, PoppedIds, Weight, Rising;
      if unwinding {
        log := log + [AtOnce(d)];
        LogSnoc(old(log), AtOnce(d));
        how := Execute(d);
        return how, None;
      }
      handle := Some(|filed|);
      FileEffect(d);
      how := Returned;
    }

    /** Run a disposer. */
    method Execute(d: Disposer) returns (how: How)
      requires Valid()
      modifies this, repr
      ensures Valid() && Advanced()
      ensures Weight(effects) <= old(Weight(effects)) + OpsSize(d.ops)
      ensures d.ops == [] ==> how == d.ending
      decreases Weight(effects) + Size(d), 0
    {
      how := ExecuteOps(d.ops);
      if how == Returned { how := d.ending; }
    }

    method ExecuteOps(ops: seq<Op>) returns (how: How)
      requires Valid()
      modifies this, repr
      ensures Valid() && Advanced()
      ensures Weight(effects) <= old(Weight(effects)) + OpsSize(ops)
      ensures ops == [] ==> how == Returned
      decreases Weight(effects) + OpsSize(ops), 0
    {
      if ops == [] { return Returned; }
      var tolerant := ops[0].tolerant;
      assert OpsSize(ops) == OpSize(ops[0]) + OpsSize(ops[1..]);
      match ops[0] {
        case File(d, _) =>
          var handle;
          how, handle := Add(d);
        case Call(id, _) =>
          how := Returned;
          if id < |filed| { how := CallHandle(id); }
      }
      if how == Escaped || (how == Raised && !tolerant) { return; }
      how := ExecuteOps(ops[1..]);
    }

    /** The unwind loop between two pops: `ids` were on the stack when it began, those from m on are
        gone. */
    ghost predicate Underway(before: seq<Entry>, ids: seq<nat>, m: nat)
      reads this, repr
    {
      && Valid() && unwinding && before <= log && m <= |ids|
      && (forall i, j :: 0 <= i < j < |ids| ==> ids[i] < ids[j])
      && (forall i :: 0 <= i < |ids| ==> ids[i] < |filed| && ids[i] !in Runs(before))
      && (forall e :: e in effects ==> e.id in ids[..m])
      && (forall i :: m <= i < |ids| ==> ids[i] in Runs(log))
      && PoppedIds(log) == PoppedIds(before) + Backwards(ids[m..], log)
    }

    /** What left the stack without being popped was called early. */
    lemma {:induction false} GoneEarly(before: seq<Entry>, ids: seq<nat>, m: nat, i: nat)
      requires Underway(before, ids, m) && i < m && filed[ids[i]] !in effects
      ensures CalledEarly(log, ids[i])
    {
      RunsCover(log, ids[i]);
      RunsCover(before, ids[i]);
      BackwardsOnly(ids[m..], log, ids[i]);
      assert ids[i] !in ids[m..];
    }

    /** The top of the stack sits at some j below m, and everything between was called early. */
    lemma {:induction false} TopIs(before: seq<Entry>, ids: seq<nat>, m: nat) returns (j: nat)
      requires Underway(before, ids, m) && effects != []
      ensures j < m && ids[j] == effects[|effects| - 1].id && ids[j] !in Runs(log)
      ensures forall i :: j < i < m ==> CalledEarly(log, ids[i])
      ensures forall e :: e in effects && e != effects[|effects| - 1] ==> e.id in ids[..j]
    {
      hide Runs, PoppedIds, CalledEarly, Backwards;
      var e := effects[|effects| - 1];
      assert e in effects && e.id in ids[..m];
      j :| 0 <= j < m && ids[j] == e.id;
      assert filed[e.id] == e;
      forall i | j < i < m ensures CalledEarly(log, ids[i]) {
        assert ids[i] > e.id;
        assert filed[ids[i]] !in effects;
        GoneEarly(before, ids, m, i);
      }
      forall x | x in effects && x != e ensures x.id in ids[..j] {
        var i :| 0 <= i < m && ids[i] == x.id;
        var k :| 0 <= k < |effects| && effects[k] == x;
        assert x.id < e.id;
        assert i < j;
        assert ids[..j][i] == x.id;
      }
    }

    lemma {:induction false} BackwardsOnly(ids: seq<nat>, log: seq<Entry>, id: nat)
      ensures id in Backwards(ids, log) ==> id in ids
    {
      if ids != [] { BackwardsOnly(ids[1..], log, id); }
    }

    /** Pop and flag. */
    method PopTop(ghost before: seq<Entry>, ghost ids: seq<nat>, ghost m: nat) returns (e: EffectObject, ghost j: nat)
      requires Underway(before, ids, m) && effects != []
      modifies this`effects, this`log, repr
      ensures Valid() && j < m && e.id == ids[j] && log == old(log) + [Popped(e.id)] && ids[j] !in old(Runs(log))
      ensures forall i :: j < i < m ==> CalledEarly(old(log), ids[i])
      ensures forall x :: x in effects ==> x.id in ids[..j]
      ensures Weight(effects) + Size(e.dispose) == old(Weight(effects))
      ensures e.id < |filed| && filed[e.id] == e && filed == old(filed)
    {
      hide Runs, PoppedIds, Weight, Rising, CalledEarly;
      j := TopIs(before, ids, m);
      e := Pop();
      Flag(e, Popped(e.id));
    }

    /** list.pop. */
    method Pop() returns (e: EffectObject)
      requires Valid() && effects != []
      modifies this`effects
      ensures Pulled(e) && e == old(effects[|effects| - 1])
      ensures forall x :: x in effects ==> x in old(effects) && x != e
      ensures Weight(effects) + Size(e.dispose) == old(Weight(effects))
    {
      hide Runs, Weight, PoppedIds, NoDup;
      var n := |effects| - 1;
      e := effects[n];
      WeightSnoc(effects[..n], e);
      assert effects[..n] + [e] == effects;
      effects := effects[..n];
    }

    /** One turn of the loop: pop, flag, dispose. An effect on the list is never disposed already, so
        the loop's skip never applies. */
    method TakeTop(
      ghost before: seq<Entry>, ghost ids: seq<nat>, ghost m: nat) returns (how: How, id: nat, ghost j: nat)
      requires Underway(before, ids, m) && effects != []
      modifies this, repr
      ensures j < m && id == ids[j] && Underway(before, ids, j) && filed == old(filed) && fresh(repr - old(repr))
      ensures Backwards(ids[j..], log) == old(Backwards(ids[m..], log)) + [id]
      ensures Weight(effects) < old(Weight(effects))
      ensures id < |filed| && (filed[id].dispose.ops == [] ==> how == filed[id].dispose.ending)
    {
      hide Runs, PoppedIds, Weight, Backwards, Rising;
      ghost var log0 := log;
      var e;
      e, j := PopTop(before, ids, m);
      id := e.id;
      ghost var log1, kept := log, effects;
      LogSnoc(log0, Popped(id));
      how := Execute(e.dispose);
      forall i | j <= i < |ids| ensures ids[i] in Runs(log) {
        if j < i < m { RunsCover(log0, ids[i]); }
        RunsGrow(log1, log, ids[i]);
      }
      BackwardsTakes(ids, j, m, log0, log);
      forall x | x in effects ensures x.id in ids[..j] {
        if x.id in Runs(log1) { RunsGrow(log1, log, x.id); }
        assert x in kept;
      }
    }

    lemma {:induction false} UnwindStarts(ids: seq<nat>)
      requires Valid() && ids == Handles(effects)
      ensures forall i, j :: 0 <= i < j < |ids| ==> ids[i] < ids[j]
      ensures forall i :: 0 <= i < |ids| ==> ids[i] < |filed| && ids[i] !in Runs(log)
      ensures forall e :: e in effects ==> e.id in ids
    {
      forall i | 0 <= i < |ids| ensures ids[i] < |filed| && ids[i] !in Runs(log) {
        assert effects[i] in effects && filed[ids[i]] == effects[i];
      }
      forall e | e in effects ensures e.id in ids {
        var i :| 0 <= i < |effects| && effects[i] == e;
        assert ids[i] == e.id;
      }
    }

    lemma {:induction false} UnwindEnds(before: seq<Entry>, ids: seq<nat>, m: nat)
      requires Underway(before, ids, m) && effects == []
      ensures Backwards(ids, log) == Backwards(ids[m..], log)
      ensures PoppedIds(log) == PoppedIds(before) + Backwards(ids, log) && before <= log
      ensures forall i :: 0 <= i < |filed| ==> filed[i].disposed && i in Runs(log)
    {
      hide Runs, PoppedIds, CalledEarly, Backwards;
      forall i | 0 <= i < m ensures CalledEarly(log, ids[i]) { GoneEarly(before, ids, m, i); }
      BackwardsSkips(ids, m, log);
    }

    /** The loop: failures are collected, an abort is remembered, the rest still runs. */
    method Drain(
      ghost before: seq<Entry>, ghost ids: seq<nat>) returns (failures: seq<nat>, abort: bool, ghost hows: seq<How>)
      requires Underway(before, ids, |ids|)
      modifies this, repr
      ensures Valid() && effects == [] && filed == old(filed) && before <= log && fresh(repr - old(repr))
      ensures forall i :: 0 <= i < |filed| ==> filed[i].disposed && i in Runs(log)
      ensures PoppedIds(log) == PoppedIds(before) + Backwards(ids, log)
      ensures Fit(Backwards(ids, log), hows, filed) && failures == RaisedOf(Backwards(ids, log), hows)
      ensures abort <==> Escaped in hows
    {
      hide Runs, PoppedIds, Weight, Rising, Underway, Backwards, Reported;
      failures, abort, hows := [], false, [];
      Unreported(ids, filed);
      ghost var m := |ids|;
      ghost var popped := Backwards(ids[m..], log);
      while effects != []
        invariant 0 <= m <= |ids| && Underway(before, ids, m) && filed == old(filed) && fresh(repr - old(repr))
        invariant popped == Backwards(ids[m..], log) && Reported(popped, hows, filed, failures, abort)
        decreases Weight(effects)
      {
        var how, id;
        how, id, m := TakeTop(before, ids, m);
        ReportedNext(popped, hows, filed, failures, abort, id, how);
        hows, popped := hows + [how], popped + [id];
        if how == Raised {
          failures := failures + [id];
        } else if how == Escaped {
          abort := true;
        }
      }
      UnwindEnds(before, ids, m);
      StillValid(before, ids, m);
      ReportedAll(popped, hows, filed, failures, abort);
    }

    lemma {:induction false} StillValid(before: seq<Entry>, ids: seq<nat>, m: nat)
      requires Underway(before, ids, m)
      ensures Valid()
    {
    }

    /** EffectStack.unwind: pop and dispose until the stack is empty, whatever the disposers raise. The
        loop takes exactly the effects nobody disposed early, in reverse filing order. */
    method Unwind() returns (failures: seq<nat>, abort: bool, ghost hows: seq<How>)
      requires Valid() && !unwinding
      modifies this, repr
      ensures Valid() && effects == [] && !unwinding && filed == old(filed) && old(log) <= log
      ensures fresh(repr - old(repr))
      ensures forall i :: 0 <= i < |filed| ==> filed[i].disposed && i in Runs(log)
      ensures PoppedIds(log) == old(PoppedIds(log)) + Backwards(old(Handles(effects)), log)
      ensures Fit(Backwards(old(Handles(effects)), log), hows, filed)
      ensures failures == RaisedOf(Backwards(old(Handles(effects)), log), hows)
      ensures abort <==> Escaped in hows
    {
      hide Runs, PoppedIds, Rising, RaisedOf;
      ghost var ids := Handles(effects);
      UnwindStarts(ids);
      unwinding := true;
      assert ids[|ids|..] == [] && ids[..|ids|] == ids;
      failures, abort, hows := Drain(log, ids);
      unwinding := false;
    }
  }
}
