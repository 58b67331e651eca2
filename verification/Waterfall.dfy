/** EventBus.waterfall of src/aka/core/events.py: nested delegation with one next() per listener,
    liveness checks during the dispatch, and the two-way monotonicity check. */
module Waterfall {
  import opened Lists

  datatype Outcome<V> = Got(value: V) | Threw

  /** One thing a callback does: end, dispose listeners, call its own next(), or call a next() it got
      hold of from listener i. */
  datatype Move<V> =
    | End(outcome: Outcome<V>)
    | Drop(ids: set<nat>)
    | Next(forward: Option<V>)
    | Borrow(i: nat)

  /** A listener's callback as an arbitrary strategy: given its value and how each of its moves ended
      (so it may catch anything), it picks the next move; after `limit` moves it ends. */
  datatype Callback<!V> = Callback(
    limit: V -> nat, move: (V, seq<Outcome<V>>) -> Move<V>, finish: (V, seq<Outcome<V>>) -> Outcome<V>)

  /** The snapshot a dispatch works on: callbacks in (order, sequence) order, the terminal, and the
      event's declaration. `covers(a, b)`: the shrink check finds nothing of b missing in a. */
  datatype Setup<!V> = Setup(
    chain: seq<Callback<V>>, terminal: V -> Outcome<V>, monotonic: bool, covers: (V, V) -> bool, accepts: V -> bool)

  datatype Run<V> = Called(k: nat, value: V) | Terminal(value: V, outcome: Outcome<V>)

  /** `calls`, `values` and `captured` are the closure variables of the listeners that have started. */
  datatype Dispatch<V> = Dispatch(
    live: set<nat>, calls: map<nat, nat>, values: map<nat, V>, captured: map<nat, V>, spent: set<nat>,
    skipped: seq<nat>, log: seq<Run<V>>)

  datatype Pair<V> = Pair(outcome: Outcome<V>, d: Dispatch<V>)

  function Index<V>(run: Run<V>, n: nat): nat {
    if run.Called? then run.k else n
  }

  /** From log to log': new entries have index at least k, strictly rising, and name live listeners. */
  ghost predicate Extends<V>(log: seq<Run<V>>, log': seq<Run<V>>, k: nat, n: nat, live: set<nat>) {
    && log <= log'
    && (forall i :: |log| <= i < |log'| ==>
      k <= Index(log'[i], n) <= n && (log'[i].Called? ==> log'[i].k in live && log'[i].k < n))
    && (forall i, j :: |log| <= i < j < |log'| ==> Index(log'[i], n) < Index(log'[j], n))
  }

  /** Every listener that has started, but for `top`, has used up its next(). */
  ghost predicate Used<V>(d: Dispatch<V>, top: int) {
    && d.values.Keys == d.calls.Keys && d.spent <= d.calls.Keys
    && forall i :: i in d.calls && i != top ==> d.calls[i] > 0 || i in d.spent
  }

  ghost predicate Below<V>(d: Dispatch<V>, k: nat) {
    forall i :: i in d.calls ==> i < k
  }

  ghost predicate Shrinks<V>(d: Dispatch<V>, d': Dispatch<V>) {
    d'.live <= d.live && d.spent <= d'.spent
  }

  /** delegate() refuses: the dispatch of listener i is over, or its next() was called before, or there
      is no such closure. */
  predicate Refused<V>(d: Dispatch<V>, i: nat) {
    i !in d.calls || i in d.spent || d.calls[i] > 0
  }

  /** The closures of the listeners before k are as they were, and nobody's value changed. */
  ghost predicate Keeps<V>(d: Dispatch<V>, d': Dispatch<V>, k: nat) {
    && (forall i :: i in d.calls ==> i in d'.calls && i in d.values && i in d'.values && d'.values[i] == d.values[i])
    && (forall i :: i in d.calls ==> d'.calls[i] >= d.calls[i] && (i < k ==> d'.calls[i] == d.calls[i]))
    && (forall i :: i < k ==> (i in d'.spent <==> i in d.spent) && (i in d'.captured <==> i in d.captured))
    && (forall i :: i < k && i in d.captured ==> d'.captured[i] == d.captured[i])
  }

  /** build(k)(value). */
  function Step<V>(c: Setup<V>, k: nat, value: V, d: Dispatch<V>): (r: Pair<V>)
    requires k <= |c.chain| && Used(d, -1) && Below(d, k)
    ensures Used(r.d, -1) && Shrinks(d, r.d)
    ensures Extends(d.log, r.d.log, k, |c.chain|, d.live)
    ensures Keeps(d, r.d, k)
    decreases |c.chain| - k, 2
  {
    if k == |c.chain| then
      var o := c.terminal(value);
      Pair(o, d.(log := d.log + [Terminal(value, o)]))
    else if k !in d.live then Step(c, k + 1, value, d)
    else
      var d1 := Open(d, k, value);
      var r1 := Follow(c, k, [], d1);
      var t := Close(c, k, r1);
      KeepsTwice(d, d1, r1.d, k);
      KeepsTwice(d, r1.d, t.d, k);
      ExtendsFrom(d.log, Called(k, value), t.d.log, k, |c.chain|, d.live);
      t
  }

  lemma {:induction false} KeepsTwice<V>(d: Dispatch<V>, d1: Dispatch<V>, d2: Dispatch<V>, k: nat)
    requires Keeps(d, d1, k) && Keeps(d1, d2, k)
    ensures Keeps(d, d2, k)
  {
  }

  lemma {:induction false} ExtendsFrom<V>(
    log: seq<Run<V>>, called: Run<V>, log': seq<Run<V>>, k: nat, n: nat, live: set<nat>)
    requires Extends(log + [called], log', k + 1, n, live) && called.Called? && called.k == k && k in live && k < n
    ensures Extends(log, log', k, n, live)
  {
    assert log'[|log|] == called;
  }

  /** The closure variables of listener k as its callback starts. */
  function Open<V>(d: Dispatch<V>, k: nat, value: V): (r: Dispatch<V>)
    requires Used(d, -1) && Below(d, k)
    ensures Used(r, k) && Below(r, k + 1) && Shrinks(d, r) && Keeps(d, r, k)
    ensures k in r.calls && r.calls[k] == 0 && r.values[k] == value && k !in r.spent && k !in r.captured
  {
    d.(calls := d.calls[k := 0], values := d.values[k := value], captured := d.captured - {k},
       log := d.log + [Called(k, value)])
  }

  /** After the callback: its next() is spent, and its result is checked. */
  function Close<V>(c: Setup<V>, k: nat, r: Pair<V>): (t: Pair<V>)
    requires k in r.d.calls && Used(r.d, k)
    ensures Used(t.d, -1) && Shrinks(r.d, t.d) && Keeps(r.d, t.d, k) && t.d.log == r.d.log
  {
    var d := r.d.(spent := r.d.spent + {k});
    if r.outcome.Threw? then Pair(Threw, d)
    else
      var d2 := if d.calls[k] == 0 then d.(skipped := d.skipped + [k]) else d;
      if (d.calls[k] > 0 && k in d.captured && c.monotonic && !c.covers(r.outcome.value, d.captured[k]))
        || !c.accepts(r.outcome.value)
      then Pair(Threw, d2)
      else Pair(r.outcome, d2)
  }

  /** What a listener passes when its move calls its own next(), by name or as a borrowed delegate. */
  function OwnNext<V>(move: Move<V>, k: nat): Option<Option<V>> {
    match move
    case Next(forward) => Some(forward)
    case Borrow(i) => if i == k then Some(None) else None
    case _ => None
  }

  /** The callback of listener k, after the moves that ended as `heard` says. */
  function Follow<V>(c: Setup<V>, k: nat, heard: seq<Outcome<V>>, d: Dispatch<V>): (r: Pair<V>)
    requires k < |c.chain| && k in d.calls && k !in d.spent && Used(d, k)
    requires d.calls[k] == 0 ==> Below(d, k + 1)
    ensures k in r.d.calls && k !in r.d.spent && Used(r.d, k) && Shrinks(d, r.d)
    ensures Extends(d.log, r.d.log, k + 1, |c.chain|, d.live)
    ensures d.calls[k] > 0 ==> r.d.log == d.log && r.d.captured == d.captured
    ensures Keeps(d, r.d, k) && ((k in d.captured ==> d.calls[k] > 0) ==> k in r.d.captured ==> r.d.calls[k] > 0)
    decreases |c.chain| - k, 1, c.chain[k].limit(d.values[k]) - |heard|
  {
    var value := d.values[k];
    if |heard| >= c.chain[k].limit(value) then Pair(c.chain[k].finish(value, heard), d)
    else
      var move := c.chain[k].move(value, heard);
      var own := OwnNext(move, k);
      if own.Some? then
        var r := Delegate(c, k, own.value, d);
        Follow(c, k, heard + [r.outcome], r.d)
      else
        match move
        case End(outcome) => Pair(outcome, d)
        case Drop(ids) => Follow(c, k, heard + [Threw], d.(live := d.live - ids))
        case Borrow(i) =>
          assert Refused(d, i);
          Follow(c, k, heard + [Threw], d)
  }

  lemma {:induction false} FollowEnds<V>(c: Setup<V>, k: nat, heard: seq<Outcome<V>>, d: Dispatch<V>)
    requires k < |c.chain| && k in d.calls && k !in d.spent && Used(d, k)
    requires d.calls[k] == 0 ==> Below(d, k + 1)
    ensures var value := d.values[k];
      |heard| >= c.chain[k].limit(value) ==> Follow(c, k, heard, d) == Pair(c.chain[k].finish(value, heard), d)
  {
  }

  /** One move of the callback. */
  lemma {:induction false} FollowMoves<V>(c: Setup<V>, k: nat, heard: seq<Outcome<V>>, d: Dispatch<V>)
    requires k < |c.chain| && k in d.calls && k !in d.spent && Used(d, k)
    requires d.calls[k] == 0 ==> Below(d, k + 1)
    requires |heard| < c.chain[k].limit(d.values[k])
    ensures var move := c.chain[k].move(d.values[k], heard);
      var own := OwnNext(move, k);
      if own.Some? then
        var r := Delegate(c, k, own.value, d);
        && k in r.d.calls && r.d.calls[k] > 0 && k !in r.d.spent && Used(r.d, k) && r.d.values[k] == d.values[k]
        && Follow(c, k, heard, d) == Follow(c, k, heard + [r.outcome], r.d)
      else match move
        case End(outcome) => Follow(c, k, heard, d) == Pair(outcome, d)
        case Drop(ids) =>
          var d1 := d.(live := d.live - ids);
          Used(d1, k) && (Below(d, k + 1) ==> Below(d1, k + 1))
          && Follow(c, k, heard, d) == Follow(c, k, heard + [Threw], d1)
        case Borrow(_) => Follow(c, k, heard, d) == Follow(c, k, heard + [Threw], d)
  {
  }

  /** delegate(forward), called by listener k itself. */
  function Delegate<V>(c: Setup<V>, k: nat, forward: Option<V>, d: Dispatch<V>): (r: Pair<V>)
    requires k < |c.chain| && k in d.calls && k !in d.spent && Used(d, k)
    requires d.calls[k] == 0 ==> Below(d, k + 1)
    ensures k in r.d.calls && r.d.calls[k] > 0 && k !in r.d.spent && Used(r.d, k) && Shrinks(d, r.d)
    ensures Extends(d.log, r.d.log, k + 1, |c.chain|, d.live)
    ensures d.calls[k] > 0 ==> r.outcome == Threw && r.d.log == d.log && r.d.captured == d.captured
    ensures Keeps(d, r.d, k)
    decreases |c.chain| - k, 0
  {
    var d1 := d.(calls := d.calls[k := d.calls[k] + 1]);
    if d1.calls[k] > 1 then Pair(Threw, d1)
    else
      var forwarded := if forward.Some? then forward.value else d.values[k];
      if c.monotonic && !c.covers(forwarded, d.values[k]) then Pair(Threw, d1)
      else
        var r := Step(c, k + 1, forwarded, d1);
        if r.outcome.Got? then Pair(r.outcome, r.d.(captured := r.d.captured[k := r.outcome.value])) else r
  }

  /** The first call runs the rest of the chain, unless the forward is refused; every other one throws. */
  lemma {:induction false} DelegateCases<V>(c: Setup<V>, k: nat, forward: Option<V>, d: Dispatch<V>)
    requires k < |c.chain| && k in d.calls && k !in d.spent && Used(d, k)
    requires d.calls[k] == 0 ==> Below(d, k + 1)
    ensures k in d.values
    ensures var d1 := d.(calls := d.calls[k := d.calls[k] + 1]);
      var forwarded := if forward.Some? then forward.value else d.values[k];
      if d.calls[k] > 0 || (c.monotonic && !c.covers(forwarded, d.values[k]))
      then Delegate(c, k, forward, d) == Pair(Threw, d1)
      else
        && Used(d1, -1) && Below(d1, k + 1)
        && var r := Step(c, k + 1, forwarded, d1);
          Delegate(c, k, forward, d) ==
            if r.outcome.Got? then Pair(r.outcome, r.d.(captured := r.d.captured[k := r.outcome.value])) else r
  {
    hide Step, Extends, Keeps, Shrinks;
    NextReady(c, k, d);
  }

  // ---- what comes back up ------------------------------------------------------------------------------

  /** On a monotone event whose next() returned: the result misses something of what next() returned. */
  predicate Shrunk<V>(c: Setup<V>, k: nat, e: Dispatch<V>, result: V) {
    c.monotonic && k in e.calls && e.calls[k] > 0 && k in e.captured && !c.covers(result, e.captured[k])
  }

  /** Main result: for any event, a live listener's step has the callback's own result, unless it is refused
      or has shrunk, and then it throws. The history and what was captured are the callback's; a listener
      that returned without calling next() is noted, in order, and its next() is spent. */
  lemma {:induction false} StepResult<V>(c: Setup<V>, k: nat, value: V, d: Dispatch<V>)
    requires k < |c.chain| && k in d.live && Used(d, -1) && Below(d, k)
    ensures var callback := Follow(c, k, [], Open(d, k, value));
      var t := Step(c, k, value, d);
      && (forall x :: t.outcome == Got(x) <==>
           callback.outcome == Got(x) && c.accepts(x) && !Shrunk(c, k, callback.d, x))
      && (t.outcome.Threw? <==>
           callback.outcome.Threw? || !c.accepts(callback.outcome.value)
           || Shrunk(c, k, callback.d, callback.outcome.value))
      && t.d.log == callback.d.log && t.d.captured == callback.d.captured && t.d.live == callback.d.live
      && t.d.spent == callback.d.spent + {k}
      && t.d.skipped == callback.d.skipped
           + if callback.outcome.Got? && k in callback.d.calls && callback.d.calls[k] == 0 then [k] else []
  {
  }

  /** A listener that rewrites what it is given with f, calls next() with that once, and rewrites what comes
      back with g. */
  function Wrapping<V>(f: V -> V, g: V -> V): Callback<V> {
    Callback(
      (value: V) => 1,
      (value: V, heard: seq<Outcome<V>>) => Next(Some(f(value))),
      (value: V, heard: seq<Outcome<V>>) => if heard != [] && heard[0].Got? then Got(g(heard[0].value)) else Threw)
  }

  /** What a chain of such listeners should make of a value, from position k on. */
  function Composed<V>(c: Setup<V>, fs: seq<V -> V>, gs: seq<V -> V>, k: nat, value: V): Outcome<V>
    requires |fs| == |gs|
    decreases |fs| - k
  {
    if k >= |fs| then c.terminal(value)
    else if c.monotonic && !c.covers(fs[k](value), value) then Threw
    else
      var inner := Composed(c, fs, gs, k + 1, fs[k](value));
      if inner.Threw? then Threw
      else
        var result := gs[k](inner.value);
        if (c.monotonic && !c.covers(result, inner.value)) || !c.accepts(result) then Threw else Got(result)
  }

  /** The chain consists of such listeners, all of them live. */
  ghost predicate Wraps<V>(c: Setup<V>, fs: seq<V -> V>, gs: seq<V -> V>, d: Dispatch<V>) {
    && |fs| == |gs| == |c.chain|
    && forall k: nat :: k < |fs| ==> c.chain[k] == Wrapping(fs[k], gs[k]) && k in d.live
  }

  lemma {:induction false} WrapperFollows<V>(
    c: Setup<V>, fs: seq<V -> V>, gs: seq<V -> V>, k: nat, value: V, d: Dispatch<V>)
    requires k < |c.chain| && Wraps(c, fs, gs, d) && k in d.calls && k !in d.spent && Used(d, k) && Below(d, k + 1)
    requires k in d.values && d.values[k] == value
    ensures var r := Delegate(c, k, Some(fs[k](value)), d);
      Follow(c, k, [], d) ==
        Pair(if r.outcome.Got? then Got(gs[k](r.outcome.value)) else Threw, r.d)
  {
    hide Delegate, Follow, Step, Used, Below, Extends, Keeps, Shrinks;
    var r := Delegate(c, k, Some(fs[k](value)), d);
    var callback := c.chain[k];
    assert callback == Wrapping(fs[k], gs[k]);
    WrappingDoes(fs[k], gs[k], value, r.outcome);
    FollowMoves(c, k, [], d);
    assert [] + [r.outcome] == [r.outcome];
    FollowEnds(c, k, [r.outcome], r.d);
  }

  lemma {:induction false} WrappingDoes<V>(f: V -> V, g: V -> V, value: V, o: Outcome<V>)
    ensures var callback := Wrapping(f, g);
      && callback.limit(value) == 1 && callback.move(value, []) == Next(Some(f(value)))
      && callback.finish(value, [o]) == if o.Got? then Got(g(o.value)) else Threw
  {
  }

  /** The dispatch as the rest of the chain starts: k has called its next(). */
  function Passing<V>(d: Dispatch<V>, k: nat, value: V): Dispatch<V>
    requires Used(d, -1) && Below(d, k)
  {
    var d1 := Open(d, k, value);
    d1.(calls := d1.calls[k := 1])
  }

  /** One such listener around the rest of the chain. */
  lemma {:induction false} WrapperDelegates<V>(
    c: Setup<V>, fs: seq<V -> V>, gs: seq<V -> V>, k: nat, value: V, d: Dispatch<V>)
    requires k < |c.chain| && Wraps(c, fs, gs, d) && Used(d, -1) && Below(d, k)
    ensures var d2 := Passing(d, k, value);
      Used(d2, -1) && Below(d2, k + 1) && Wraps(c, fs, gs, d2)
    ensures var forward := fs[k](value);
      var r := Delegate(c, k, Some(forward), Open(d, k, value));
      if c.monotonic && !c.covers(forward, value) then r == Pair(Threw, Passing(d, k, value))
      else
        var s := Step(c, k + 1, forward, Passing(d, k, value));
        && k in s.d.calls && s.d.calls[k] == 1
        && r.outcome == s.outcome && r.d.live == s.d.live && k in r.d.calls && r.d.calls[k] == 1
        && (s.outcome.Got? ==> k in r.d.captured && r.d.captured[k] == s.outcome.value)
  {
    DelegateCases(c, k, Some(fs[k](value)), Open(d, k, value));
    hide Step, Delegate;
  }

  lemma {:induction false} WrapperStep<V>(
    c: Setup<V>, fs: seq<V -> V>, gs: seq<V -> V>, k: nat, value: V, d: Dispatch<V>)
    requires k < |c.chain| && Wraps(c, fs, gs, d) && Used(d, -1) && Below(d, k)
    ensures var d2 := Passing(d, k, value);
      Used(d2, -1) && Below(d2, k + 1) && Wraps(c, fs, gs, d2)
    ensures var forward := fs[k](value);
      var t := Step(c, k, value, d);
      if c.monotonic && !c.covers(forward, value) then t.outcome.Threw? && t.d.live == d.live
      else
        var s := Step(c, k + 1, forward, Passing(d, k, value));
        && t.d.live == s.d.live
        && (s.outcome.Threw? ==> t.outcome.Threw?)
        && (s.outcome.Got? ==>
             var result := gs[k](s.outcome.value);
             t.outcome ==
               if (c.monotonic && !c.covers(result, s.outcome.value)) || !c.accepts(result) then Threw else Got(result))
  {
    var d1 := Open(d, k, value);
    assert Wraps(c, fs, gs, d1);
    WrapperFollows(c, fs, gs, k, value, d1);
    StepResult(c, k, value, d);
    WrapperDelegates(c, fs, gs, k, value, d);
    hide Step, Follow, Delegate, Used, Below, Wraps;
  }

  /** Main result: over a whole chain of listeners that wrap next(), monotone or not, the dispatch has the
      result of the composed rewrites around the terminal. */
  lemma {:induction false} WrappersCompose<V>(
    c: Setup<V>, fs: seq<V -> V>, gs: seq<V -> V>, k: nat, value: V, d: Dispatch<V>)
    requires k <= |c.chain| && Wraps(c, fs, gs, d) && Used(d, -1) && Below(d, k)
    ensures Step(c, k, value, d).outcome == Composed(c, fs, gs, k, value)
    decreases |c.chain| - k
  {
    if k < |c.chain| {
      WrapperStep(c, fs, gs, k, value, d);
      hide Step, Used, Below, Passing;
      WrappersCompose(c, fs, gs, k + 1, fs[k](value), Passing(d, k, value));
    }
  }

  /** A live listener that ends at once, without calling next(), decides alone: nobody after it runs, and its
      own result stands if it is accepted. */
  lemma {:induction false} ShortCircuits<V>(c: Setup<V>, k: nat, value: V, d: Dispatch<V>, o: Outcome<V>)
    requires k < |c.chain| && k in d.live && Used(d, -1) && Below(d, k)
    requires c.chain[k].limit(value) > 0 && c.chain[k].move(value, []) == End(o)
    ensures var t := Step(c, k, value, d);
      && t.outcome == (if o.Got? && c.accepts(o.value) then o else Threw)
      && t.d.log == d.log + [Called(k, value)] && t.d.live == d.live
      && t.d.skipped == d.skipped + if o.Got? then [k] else []
  {
    var d1 := Open(d, k, value);
    FollowMoves(c, k, [], d1);
    StepResult(c, k, value, d);
  }

  // ---- monotone events -------------------------------------------------------------------------------

  ghost predicate Preorder<V(!new)>(covers: (V, V) -> bool) {
    && (forall a :: covers(a, a))
    && (forall a, b, x :: covers(a, b) && covers(b, x) ==> covers(a, x))
  }

  /** The terminal ran, its input covers `value`, and `result` covers what it returned. */
  ghost predicate Carried<V>(c: Setup<V>, log: seq<Run<V>>, from: nat, value: V, result: V) {
    exists t :: from <= t < |log| && log[t].Terminal? && log[t].outcome.Got?
      && c.covers(log[t].value, value) && c.covers(result, log[t].outcome.value)
  }

  ghost predicate AllReturned<V>(log: seq<Run<V>>, from: nat, captured: map<nat, V>) {
    forall t :: from <= t < |log| && log[t].Called? ==> log[t].k in captured
  }

  /** Listener k's next() returned: it ran the rest of the chain once, on a forward that covers what k
      was given. */
  ghost predicate Passed<V>(c: Setup<V>, k: nat, d: Dispatch<V>, e: Dispatch<V>, forward: V, d0: Dispatch<V>)
    requires k < |c.chain| && k in d.values && k in e.captured
  {
    && Used(d0, -1) && Below(d0, k + 1) && d0.log == d.log
    && (c.monotonic ==> c.covers(forward, d.values[k]))
    && var s := Step(c, k + 1, forward, d0);
       && s.outcome == Got(e.captured[k]) && s.d.log == e.log
       && forall i :: i > k ==> (i in e.captured <==> i in s.d.captured)
  }

  /** With the closure counter up, the rest of the chain may run. */
  lemma {:induction false} NextReady<V>(c: Setup<V>, k: nat, d: Dispatch<V>)
    requires k < |c.chain| && k in d.calls && k !in d.spent && Used(d, k)
    requires d.calls[k] == 0 ==> Below(d, k + 1)
    ensures k in d.values
    ensures var d1 := d.(calls := d.calls[k := d.calls[k] + 1]);
      d.calls[k] == 0 ==> Used(d1, -1) && Below(d1, k + 1)
  {
  }

  lemma {:induction false} NextPasses<V>(c: Setup<V>, k: nat, forward: Option<V>, d: Dispatch<V>)
    requires k < |c.chain| && k in d.calls && k !in d.spent && Used(d, k) && d.calls[k] == 0 && Below(d, k + 1)
    requires k !in d.captured
    ensures var r := Delegate(c, k, forward, d);
      k in r.d.captured ==> exists f, d0 :: Passed(c, k, d, r.d, f, d0)
  {
    hide Used, Below, Step, Follow, Extends, Shrinks;
    NextReady(c, k, d);
    var r := Delegate(c, k, forward, d);
    if k in r.d.captured {
      var d1 := d.(calls := d.calls[k := 1]);
      var f := if forward.Some? then forward.value else d.values[k];
      assert Passed(c, k, d, r.d, f, d1);
    }
  }

  /** Once next() was called, the rest of the callback changes neither the log nor what was captured. */
  lemma {:induction false} NextThenFollow<V>(
    c: Setup<V>, k: nat, forward: Option<V>, heard: seq<Outcome<V>>, d: Dispatch<V>)
    requires k < |c.chain| && k in d.calls && k !in d.spent && Used(d, k) && d.calls[k] == 0 && Below(d, k + 1)
    requires k !in d.captured
    ensures var r := Delegate(c, k, forward, d);
      var e := Follow(c, k, heard + [r.outcome], r.d).d;
      k in e.captured ==> exists f, d0 :: Passed(c, k, d, e, f, d0)
  {
    hide Follow, Step, Delegate, Passed, Extends, Shrinks;
    NextPasses(c, k, forward, d);
    var r := Delegate(c, k, forward, d);
    var e := Follow(c, k, heard + [r.outcome], r.d).d;
    PassedKept(c, k, d, r.d, e);
  }

  lemma {:induction false} PassedKept<V>(c: Setup<V>, k: nat, d: Dispatch<V>, e: Dispatch<V>, e': Dispatch<V>)
    requires k < |c.chain| && k in d.values && e'.captured == e.captured && e'.log == e.log
    requires k in e.captured ==> exists f, d0 :: Passed(c, k, d, e, f, d0)
    ensures k in e'.captured ==> exists f, d0 :: Passed(c, k, d, e', f, d0)
  {
    if k in e.captured {
      var f, d0 :| Passed(c, k, d, e, f, d0);
      assert Passed(c, k, d, e', f, d0);
    }
  }

  lemma {:induction false} FollowPasses<V>(c: Setup<V>, k: nat, heard: seq<Outcome<V>>, d: Dispatch<V>)
    requires k < |c.chain| && k in d.calls && k !in d.spent && Used(d, k) && d.calls[k] == 0 && Below(d, k + 1)
    requires k !in d.captured
    ensures var r := Follow(c, k, heard, d);
      k in r.d.captured ==> exists f, d0 :: Passed(c, k, d, r.d, f, d0)
    decreases c.chain[k].limit(d.values[k]) - |heard|
  {
    hide Passed, Step, Delegate;
    if |heard| < c.chain[k].limit(d.values[k]) {
      match c.chain[k].move(d.values[k], heard)
      case End(_) =>
      case Drop(ids) =>
        var d1 := d.(live := d.live - ids);
        FollowPasses(c, k, heard + [Threw], d1);
        PassedFrom(c, k, d1, d, Follow(c, k, heard, d).d);
      case Next(forward) => NextThenFollow(c, k, forward, heard, d);
      case Borrow(i) =>
        if i == k {
          NextThenFollow(c, k, None, heard, d);
        } else {
          FollowPasses(c, k, heard + [Threw], d);
        }
    }
  }

  lemma {:induction false} PassedFrom<V>(c: Setup<V>, k: nat, d: Dispatch<V>, d': Dispatch<V>, e: Dispatch<V>)
    requires k < |c.chain| && k in d.values && d'.values == d.values && d'.log == d.log
    requires k in e.captured ==> exists f, d0 :: Passed(c, k, d, e, f, d0)
    ensures k in e.captured ==> exists f, d0 :: Passed(c, k, d', e, f, d0)
  {
    if k in e.captured {
      var f, d0 :| Passed(c, k, d, e, f, d0);
      assert Passed(c, k, d', e, f, d0);
    }
  }

  /** Main result: when the check of a monotone event is a preorder and every listener that ran got its
      next() back, nothing is lost on the way down or up; listeners disposed in time are the identity. */
  lemma {:induction false} NothingLost<V(!new)>(c: Setup<V>, k: nat, value: V, d: Dispatch<V>)
    requires k <= |c.chain| && Used(d, -1) && Below(d, k) && c.monotonic && Preorder(c.covers)
    requires var r := Step(c, k, value, d); r.outcome.Got? && AllReturned(r.d.log, |d.log|, r.d.captured)
    ensures Carried(c, Step(c, k, value, d).d.log, |d.log|, value, Step(c, k, value, d).outcome.value)
    decreases |c.chain| - k
  {
    if k == |c.chain| {
      assert Step(c, k, value, d).d.log[|d.log|].Terminal?;
    } else if k !in d.live {
      NothingLost(c, k + 1, value, d);
    } else {
      var forward, d0, e := LiveStep(c, k, value, d);
      NothingLost(c, k + 1, forward, d0);
      CarriedOn(c, k, value, d, forward, d0, e);
    }
  }

  /** A live listener whose next() returned: the rest of the chain as it ran, and the check on the way
      up. */
  lemma {:induction false} LiveStep<V(!new)>(
    c: Setup<V>, k: nat, value: V, d: Dispatch<V>) returns (forward: V, d0: Dispatch<V>, e: Dispatch<V>)
    requires k < |c.chain| && k in d.live && Used(d, -1) && Below(d, k) && c.monotonic
    requires var r := Step(c, k, value, d); r.outcome.Got? && AllReturned(r.d.log, |d.log|, r.d.captured)
    ensures k in Open(d, k, value).values && k in e.captured && Passed(c, k, Open(d, k, value), e, forward, d0)
    ensures var r := Step(c, k, value, d);
      r.d.log == e.log && r.d.captured == e.captured && c.covers(r.outcome.value, e.captured[k])
      && d0.log == d.log + [Called(k, value)]
  {
    hide Passed;
    var d1 := Open(d, k, value);
    var f := Follow(c, k, [], d1);
    var r := Step(c, k, value, d);
    assert r == Close(c, k, f);
    assert d1.log[|d.log|] == Called(k, value) && d1.log <= r.d.log;
    assert r.d.log[|d.log|] == Called(k, value);
    FollowPasses(c, k, [], d1);
    forward, d0 :| Passed(c, k, d1, f.d, forward, d0);
    PassedLog(c, k, d1, f.d, forward, d0);
    e := f.d;
  }

  lemma {:induction false} PassedLog<V>(
    c: Setup<V>, k: nat, d: Dispatch<V>, e: Dispatch<V>, forward: V, d0: Dispatch<V>)
    requires k < |c.chain| && k in d.values && k in e.captured && Passed(c, k, d, e, forward, d0)
    ensures d0.log == d.log
  {
  }

  lemma {:induction false} CarriedOn<V(!new)>(
    c: Setup<V>, k: nat, value: V, d: Dispatch<V>, forward: V, d0: Dispatch<V>, e: Dispatch<V>)
    requires k < |c.chain| && Used(d, -1) && Below(d, k) && c.monotonic && Preorder(c.covers)
    requires k in e.captured && Passed(c, k, Open(d, k, value), e, forward, d0)
    requires |d0.log| >= |d.log| && Carried(c, e.log, |d0.log|, forward, e.captured[k])
    requires var r := Step(c, k, value, d);
      r.outcome.Got? && r.d.log == e.log && c.covers(r.outcome.value, e.captured[k])
    ensures Carried(c, Step(c, k, value, d).d.log, |d.log|, value, Step(c, k, value, d).outcome.value)
  {
    hide Step;
    var result := Step(c, k, value, d).outcome.value;
    var t :| |d0.log| <= t < |e.log| && e.log[t].Terminal? && e.log[t].outcome.Got?
      && c.covers(e.log[t].value, forward) && c.covers(e.captured[k], e.log[t].outcome.value);
    assert c.covers(forward, value);
    assert c.covers(e.log[t].value, value) && c.covers(result, e.log[t].outcome.value);
  }

  /** Whatever the listeners catch: per dispatch each listener runs at most once, in snapshot order, and
      the terminal at most once, last. */
  lemma {:induction false} OncePerDispatch<V>(c: Setup<V>, payload: V, d: Dispatch<V>, i: nat, j: nat)
    requires Used(d, -1) && Below(d, 0) && d.log == [] && i < j < |Step(c, 0, payload, d).d.log|
    ensures var log := Step(c, 0, payload, d).d.log;
      && log[i].Called? && log[i].k in d.live
      && (log[j].Called? ==> log[i].k < log[j].k)
  {
    var log := Step(c, 0, payload, d).d.log;
    assert Index(log[i], |c.chain|) < Index(log[j], |c.chain|);
  }

  /** A chain whose listeners are all disposed is its terminal. */
  lemma {:induction false} DeadChain<V>(c: Setup<V>, k: nat, value: V, d: Dispatch<V>)
    requires k <= |c.chain| && Used(d, -1) && Below(d, k) && forall i :: k <= i < |c.chain| ==> i !in d.live
    ensures Step(c, k, value, d) == Pair(c.terminal(value), d.(log := d.log + [Terminal(value, c.terminal(value))]))
    decreases |c.chain| - k
  {
    if k < |c.chain| { DeadChain(c, k + 1, value, d); }
  }
}
