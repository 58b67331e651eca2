/** The event bus of src/aka/core/events.py as an object: registration, snapshots in (order, sequence)
    order, notification, and the waterfall dispatch, whose nested closures compute Waterfall.Step. */
module Events {
  import opened Lists
  import opened Waterfall

  /** How an observer ends: normally, with an Exception, or with another BaseException. */
  datatype Ending = Returns | Raises | Escapes

  /** What an observer does: dispose listeners (by sequence number), then end. */
  datatype Reaction = Reaction(drops: set<nat>, ending: Ending)

  datatype Handler<!V> = Observer(react: V -> Reaction) | Wrapper(callback: Callback<V>)

  /** One registration; sequence numbers identify it, and its callback. */
  datatype Listener = Listener(event: string, order: int, sequence: nat)

  // ---- snapshots ---------------------------------------------------------------------------------

  /** The sort key (order, sequence). */
  predicate Before(a: Listener, b: Listener) {
    a.order < b.order || (a.order == b.order && a.sequence < b.sequence)
  }

  ghost predicate InTurn(chain: seq<Listener>) {
    forall i, j :: 0 <= i < j < |chain| ==> Before(chain[i], chain[j])
  }

  /** A bucket: registration order, and every sequence number once. */
  ghost predicate Registered(bucket: seq<Listener>) {
    forall i, j :: 0 <= i < j < |bucket| ==> bucket[i].sequence < bucket[j].sequence
  }

  function Place(x: Listener, chain: seq<Listener>): (r: seq<Listener>)
    ensures |r| == |chain| + 1 && forall y :: y in r <==> y == x || y in chain
  {
    if chain == [] || Before(x, chain[0]) then [x] + chain
    else
      assert chain == [chain[0]] + chain[1..];
      [chain[0]] + Place(x, chain[1..])
  }

  /** listeners(): the bucket sorted by (order, sequence). */
  function Snapshot(bucket: seq<Listener>): (r: seq<Listener>)
    ensures |r| == |bucket| && forall y :: y in r <==> y in bucket
  {
    if bucket == [] then []
    else
      var n := |bucket| - 1;
      assert bucket == bucket[..n] + [bucket[n]];
      Place(bucket[n], Snapshot(bucket[..n]))
  }

  lemma {:induction false} PlaceInTurn(x: Listener, chain: seq<Listener>)
    requires InTurn(chain) && forall y :: y in chain ==> y.sequence != x.sequence
    ensures InTurn(Place(x, chain))
  {
    if chain != [] && !Before(x, chain[0]) {
      assert forall i, j :: 0 <= i < j < |chain[1..]| ==> Before(chain[1..][i], chain[1..][j]);
      PlaceInTurn(x, chain[1..]);
      var rest := Place(x, chain[1..]);
      forall j | 0 <= j < |rest| ensures Before(chain[0], rest[j]) {
        assert rest[j] in rest;
        assert chain[0] in chain;
        if rest[j] != x {
          assert rest[j] in chain[1..];
          var k :| 0 <= k < |chain[1..]| && chain[1..][k] == rest[j];
          assert chain[k + 1] == rest[j];
        }
      }
    } else if chain != [] {
      forall j | 0 <= j < |chain| ensures Before(x, chain[j]) {
        if j > 0 { assert Before(chain[0], chain[j]); }
      }
    }
  }

  /** A snapshot holds the bucket's listeners, each once, lowest order first and ties by sequence. */
  lemma {:induction false} SnapshotInTurn(bucket: seq<Listener>)
    requires Registered(bucket)
    ensures InTurn(Snapshot(bucket))
  {
    if bucket != [] {
      var n := |bucket| - 1;
      SnapshotInTurn(bucket[..n]);
      forall y | y in Snapshot(bucket[..n]) ensures y.sequence != bucket[n].sequence {
        var k :| 0 <= k < |bucket[..n]| && bucket[..n][k] == y;
      }
      PlaceInTurn(bucket[n], Snapshot(bucket[..n]));
    }
  }

  /** The bucket without the given sequence numbers. */
  function Prune(bucket: seq<Listener>, drops: set<nat>): (r: seq<Listener>) {
    if bucket == [] then []
    else
      var n := |bucket| - 1;
      Prune(bucket[..n], drops) + if bucket[n].sequence in drops then [] else [bucket[n]]
  }

  lemma {:induction false} PruneRegistered(bucket: seq<Listener>, drops: set<nat>)
    requires Registered(bucket)
    ensures Registered(Prune(bucket, drops))
    ensures forall y :: y in Prune(bucket, drops) <==> y in bucket && y.sequence !in drops
  {
    if bucket != [] {
      var n := |bucket| - 1;
      assert bucket == bucket[..n] + [bucket[n]];
      PruneRegistered(bucket[..n], drops);
      var r := Prune(bucket[..n], drops);
      forall i | 0 <= i < |r| ensures r[i].sequence < bucket[n].sequence {
        assert r[i] in r && r[i] in bucket[..n];
        var k :| 0 <= k < |bucket[..n]| && bucket[..n][k] == r[i];
      }
    }
  }

  // ---- the closures of one dispatch ------------------------------------------------------------------

  /** The mutable state the nested functions of waterfall share. */
  class DispatchObject<V> {
    const c: Setup<V>
    var live: set<nat>
    var calls: map<nat, nat>
    var values: map<nat, V>
    var captured: map<nat, V>
    var spent: set<nat>
    var skipped: seq<nat>
    var log: seq<Run<V>>

    constructor (c: Setup<V>, live: set<nat>)
      ensures this.c == c && State() == Dispatch(live, map[], map[], map[], {}, [], [])
    {
      this.c, this.live := c, live;
      calls, values, captured, spent, skipped, log := map[], map[], map[], {}, [], [];
    }

    function State(): Dispatch<V>
      reads this
    {
      Dispatch(live, calls, values, captured, spent, skipped, log)
    }

    /** build(k)(value). */
    method RunStep(k: nat, value: V) returns (o: Outcome<V>)
      requires k <= |c.chain| && Used(State(), -1) && Below(State(), k)
      modifies this
      ensures Pair(o, State()) == Step(c, k, value, old(State()))
      decreases |c.chain| - k, 2
    {
      hide Extends, Keeps, Shrinks, Delegate;
      if k == |c.chain| {
        o := c.terminal(value);
        log := log + [Terminal(value, o)];
        return;
      }
      if k !in live {
        o := RunStep(k + 1, value);
        return;
      }
      calls, values, captured := calls[k := 0], values[k := value], captured - {k};
      log := log + [Called(k, value)];
      assert State() == Open(old(State()), k, value);
      o := RunCallback(k);
      ghost var r := Pair(o, State());
      spent := spent + {k};
      if o.Threw? { return; }
      var ok := true;
      if calls[k] == 0 {
        skipped := skipped + [k];
      } else if k in captured && c.monotonic {
        ok := c.covers(o.value, captured[k]);
      }
      if !ok || !c.accepts(o.value) { o := Threw; }
      assert Pair(o, State()) == Close(c, k, r);
    }

    /** The listener's callback, one move at a time. */
    method RunCallback(k: nat) returns (o: Outcome<V>)
      requires k < |c.chain| && k in calls && k !in spent && Used(State(), k)
      requires calls[k] == 0 ==> Below(State(), k + 1)
      modifies this
      ensures Pair(o, State()) == Follow(c, k, [], old(State()))
      decreases |c.chain| - k, 1
    {
      hide Follow, Delegate, Used, Below, Step, Extends, Keeps, Shrinks;
      NextReady(c, k, State());
      var heard: seq<Outcome<V>> := [];
      var value := values[k];
      while |heard| < c.chain[k].limit(value)
        invariant k in calls && k !in spent && Used(State(), k) && k in values && values[k] == value
        invariant calls[k] == 0 ==> Below(State(), k + 1)
        invariant Follow(c, k, heard, State()) == Follow(c, k, [], old(State()))
        decreases c.chain[k].limit(value) - |heard|
      {
        FollowMoves(c, k, heard, State());
        var r: Outcome<V> := Threw;
        match c.chain[k].move(value, heard) {
          case End(outcome) => return outcome;
          case Drop(ids) => live := live - ids;
          case Next(forward) => r := CallNext(k, forward);
          case Borrow(i) => if i == k { r := CallNext(k, None); }
        }
        heard := heard + [r];
      }
      FollowEnds(c, k, heard, State());
      o := c.chain[k].finish(value, heard);
    }

    /** delegate(forward). */
    method CallNext(k: nat, forward: Option<V>) returns (o: Outcome<V>)
      requires k < |c.chain| && k in calls && k !in spent && Used(State(), k)
      requires calls[k] == 0 ==> Below(State(), k + 1)
      modifies this
      ensures Pair(o, State()) == Delegate(c, k, forward, old(State()))
      decreases |c.chain| - k, 0
    {
      hide Step, Extends, Used, Below, Delegate;
      ghost var d := State();
      DelegateCases(c, k, forward, d);
      calls := calls[k := calls[k] + 1];
      assert State() == d.(calls := d.calls[k := d.calls[k] + 1]);
      if calls[k] > 1 { return Threw; }
      var forwarded := if forward.Some? then forward.value else values[k];
      if c.monotonic && !c.covers(forwarded, values[k]) { return Threw; }
      o := RunStep(k + 1, forwarded);
      if o.Got? { captured := captured[k := o.value]; }
    }
  }

  // ---- the bus ---------------------------------------------------------------------------------------

  /** The sequence numbers of the snapshot at the given positions. */
  function SequencesAt(chain: seq<Listener>, ks: set<nat>): set<nat> {
    set k | k in ks && k < |chain| :: chain[k].sequence
  }

  function Positions(n: nat): (s: set<nat>)
    ensures forall k: nat :: k in s <==> k < n
  {
    if n == 0 then {} else Positions(n - 1) + {n - 1}
  }

  /** What the observer registered as l disposes when it is called. */
  function Drops<V>(handlers: map<nat, Handler<V>>, l: Listener, payload: V): set<nat> {
    if l.sequence in handlers && handlers[l.sequence].Observer? then handlers[l.sequence].react(payload).drops else {}
  }

  function EndingOf<V>(handlers: map<nat, Handler<V>>, l: Listener, payload: V): Ending {
    if l.sequence in handlers && handlers[l.sequence].Observer?
    then handlers[l.sequence].react(payload).ending
    else Returns
  }

  /** How the observer at position k ends. */
  predicate Ends<V>(handlers: map<nat, Handler<V>>, chain: seq<Listener>, payload: V, k: nat, ending: Ending) {
    k < |chain| && EndingOf(handlers, chain[k], payload) == ending
  }

  /** No called listener before position k disposed the one at k, or let an exception escape. */
  ghost predicate Spared<V>(handlers: map<nat, Handler<V>>, chain: seq<Listener>, called: seq<nat>, payload: V, k: nat)
    requires k < |chain|
  {
    forall j :: j in called && j < k && j < |chain| ==>
      chain[k].sequence !in Drops(handlers, chain[j], payload) && EndingOf(handlers, chain[j], payload) != Escapes
  }

  ghost function Dropped<V>(
    handlers: map<nat, Handler<V>>, chain: seq<Listener>, called: seq<nat>, payload: V): (s: set<nat>)
    ensures forall x :: x in s <==> exists j :: j in called && j < |chain| && x in Drops(handlers, chain[j], payload)
  {
    if called == [] then {}
    else
      var n := |called| - 1;
      assert called == called[..n] + [called[n]];
      Dropped(handlers, chain, called[..n], payload) +
        if called[n] < |chain| then Drops(handlers, chain[called[n]], payload) else {}
  }

  function Callbacks<V>(chain: seq<Listener>, handlers: map<nat, Handler<V>>): (cs: seq<Callback<V>>)
    requires forall k :: 0 <= k < |chain| ==> chain[k].sequence in handlers && handlers[chain[k].sequence].Wrapper?
    ensures |cs| == |chain| && forall k :: 0 <= k < |chain| ==> handlers[chain[k].sequence] == Wrapper(cs[k])
  {
    seq(|chain|, k requires 0 <= k < |chain| => handlers[chain[k].sequence].callback)
  }

  lemma {:induction false} FreshDispatch<V>(n: nat)
    ensures var d: Dispatch<V> := Dispatch(Positions(n), map[], map[], map[], {}, [], []);
      Used(d, -1) && Below(d, 0)
  {
  }

  class EventBus<V> {
    var buckets: map<string, seq<Listener>>
    var handlers: map<nat, Handler<V>>
    var sequence: nat
    var closed: bool

    /** Buckets are in registration order, and every listener's callback is known. */
    ghost predicate Valid()
      reads this
    {
      forall e :: e in buckets ==>
        && Registered(buckets[e])
        && forall l :: l in buckets[e] ==> l.event == e && l.sequence <= sequence && l.sequence in handlers
    }

    constructor ()
      ensures Valid() && buckets == map[] && !closed
    {
      buckets, handlers, sequence, closed := map[], map[], 0, false;
    }

    function Bucket(e: string): seq<Listener>
      reads this
    {
      if e in buckets then buckets[e] else []
    }

    /** on: a fresh sequence number at the end of the bucket; a closed bus registers nothing. */
    method On(e: string, order: int, handler: Handler<V>) returns (l: Option<Listener>)
      requires Valid()
      modifies this
      ensures Valid() && closed == old(closed)
      ensures l == if closed then None else Some(Listener(e, order, old(sequence) + 1))
      ensures closed ==> buckets == old(buckets)
      ensures !closed ==>
        buckets == old(buckets)[e := old(Bucket(e)) + [l.value]]
        && handlers == old(handlers)[old(sequence) + 1 := handler]
    {
      if closed { return None; }
      sequence := sequence + 1;
      var made := Listener(e, order, sequence);
      handlers := handlers[sequence := handler];
      buckets := buckets[e := Bucket(e) + [made]];
      l := Some(made);
    }

    /** The disposer on returned. */
    method Off(l: Listener)
      requires Valid()
      modifies this`buckets
      ensures Valid()
      ensures buckets ==
        if l.event in old(buckets) then old(buckets)[l.event := Prune(old(buckets)[l.event], {l.sequence})]
        else old(buckets)
    {
      if l.event in buckets {
        PruneRegistered(buckets[l.event], {l.sequence});
        buckets := buckets[l.event := Prune(buckets[l.event], {l.sequence})];
      }
    }

    /** listeners. */
    method Listeners(e: string) returns (chain: seq<Listener>)
      requires Valid()
      ensures InTurn(chain) && multiset(chain) == multiset(Bucket(e))
    {
      chain := Snapshot(Bucket(e));
      SnapshotInTurn(Bucket(e));
      SnapshotSame(Bucket(e));
    }

    /** close: no listener, and none ever again. */
    method CloseBus()
      modifies this`closed, this`buckets
      ensures Valid() && closed && buckets == map[]
    {
      closed, buckets := true, map[];
    }

    /** The dispatch of emit after the listeners before position i: who was called, who was reported, and
        what is left of the bucket. */
    ghost predicate Emitting(
      e: string, bucket: seq<Listener>, payload: V, chain: seq<Listener>, called: seq<nat>, reports: seq<nat>, i: nat)
      reads this
    {
      && Valid() && i <= |chain| && Registered(bucket) && multiset(chain) == multiset(bucket)
      && (forall a, b :: 0 <= a < b < |called| ==> called[a] < called[b])
      && (forall k :: k in called ==> k < i && k < |chain|)
      && (forall k: nat :: k < i ==> (k in called <==> Spared(handlers, chain, called, payload, k)))
      && (forall k :: k in reports <==> k in called && Ends(handlers, chain, payload, k, Raises))
      && Bucket(e) == Prune(bucket, Dropped(handlers, chain, called, payload))
    }

    /** The observer at position i: called unless it was disposed since the snapshot was taken. */
    method Observe(
      e: string, ghost bucket: seq<Listener>, payload: V, chain: seq<Listener>, called0: seq<nat>, reports0: seq<nat>,
        i: nat)
      returns (called: seq<nat>, reports: seq<nat>, escaped: bool)
      requires i < |chain| && Emitting(e, bucket, payload, chain, called0, reports0, i)
      requires forall k :: k in called0 ==> !Ends(handlers, chain, payload, k, Escapes)
      modifies this`buckets
      ensures Emitting(e, bucket, payload, chain, called, reports, i + 1)
      ensures called == called0 || called == called0 + [i]
      ensures escaped <==> i in called && Ends(handlers, chain, payload, i, Escapes)
    {
      hide Prune, Dropped, Spared, Registered, Drops, EndingOf;
      called, reports, escaped := called0, reports0, false;
      var l := chain[i];
      assert l in chain;
      SameMembers(chain, bucket);
      PruneRegistered(bucket, Dropped(handlers, chain, called, payload));
      assert forall a :: 0 <= a < |called| ==> called[a] in called;
      SparedNow(handlers, chain, called, payload, i);
      if l in Bucket(e) {
        var drops := Drops(handlers, l, payload);
        DroppedSnoc(handlers, chain, called, payload, i);
        PruneTwice(bucket, Dropped(handlers, chain, called, payload), drops);
        Disposed(e, drops);
        called := called + [i];
        match EndingOf(handlers, l, payload) {
          case Returns =>
          case Raises => reports := reports + [i];
          case Escapes => escaped := true;
        }
      }
    }

    /** emit: the snapshot's listeners in turn. One is skipped exactly when an earlier one disposed it or
        let a BaseException escape; an Exception stops nobody. */
    method Emit(
      e: string, payload: V) returns (chain: seq<Listener>, called: seq<nat>, reports: seq<nat>, escaped: bool)
      requires Valid()
      modifies this`buckets
      ensures Valid() && closed == old(closed)
      ensures closed ==> called == [] && !escaped && buckets == old(buckets)
      ensures !closed ==> InTurn(chain) && multiset(chain) == multiset(old(Bucket(e)))
      ensures forall i, j :: 0 <= i < j < |called| ==> called[i] < called[j] < |chain|
      ensures !closed ==> forall k: nat :: k in called <==> k < |chain| && Spared(handlers, chain, called, payload, k)
      ensures forall k :: k in reports <==> k in called && Ends(handlers, chain, payload, k, Raises)
      ensures escaped <==> exists k :: k in called && Ends(handlers, chain, payload, k, Escapes)
      ensures !closed ==> Bucket(e) == Prune(old(Bucket(e)), Dropped(handlers, chain, called, payload))
    {
      hide Prune, Dropped, Spared, InTurn, Drops, EndingOf;
      called, reports, chain, escaped := [], [], [], false;
      if closed { return; }
      chain := Listeners(e);
      ghost var bucket := Bucket(e);
      PruneNothing(bucket);
      NobodyDropped(handlers, chain, payload);
      var i := 0;
      while i < |chain| && !escaped
        invariant Emitting(e, bucket, payload, chain, called, reports, i)
        invariant forall k :: k in called && k < i - 1 ==> !Ends(handlers, chain, payload, k, Escapes)
        invariant escaped <==> i > 0 && i - 1 in called && Ends(handlers, chain, payload, i - 1, Escapes)
      {
        called, reports, escaped := Observe(e, bucket, payload, chain, called, reports, i);
        i := i + 1;
      }
      assert forall a :: 0 <= a < |called| ==> called[a] in called;
      if escaped { EscapeEnds(handlers, chain, called, payload, i - 1); }
    }

    /** waterfall. Between its calls the dispatch only disposes listeners, so what it leaves of the
        bucket is what is still live. */
    method Waterfall(
      e: string, payload: V, terminal: V -> Outcome<V>, monotonic: bool, covers: (V, V) -> bool, accepts: V -> bool)
      returns (o: Outcome<V>, ghost chain: seq<Listener>, ghost c: Setup<V>, ghost r: Pair<V>)
      requires Valid() && forall l :: l in Bucket(e) ==> handlers[l.sequence].Wrapper?
      modifies this`buckets
      ensures Valid() && closed == old(closed)
      ensures closed ==> o == terminal(payload) && buckets == old(buckets)
      ensures !closed ==>
        && InTurn(chain) && multiset(chain) == multiset(old(Bucket(e)))
        && |c.chain| == |chain|
        && (forall k :: 0 <= k < |chain| ==>
             chain[k].sequence in handlers && handlers[chain[k].sequence] == Wrapper(c.chain[k]))
        && r == Step(c, 0, payload, Dispatch(Positions(|chain|), map[], map[], map[], {}, [], []))
        && o == (if r.outcome.Got? && !accepts(r.outcome.value) then Threw else r.outcome)
        && Bucket(e) == Prune(old(Bucket(e)), SequencesAt(chain, Positions(|chain|) - r.d.live))
    {
      if closed {
        o := terminal(payload);
        chain, c := [], Setup([], terminal, monotonic, covers, accepts);
        r := Pair(o, Dispatch({}, map[], map[], map[], {}, [], []));
        return;
      }
      var snapshot := Listeners(e);
      hide Step, Prune, Used, Below, Extends, SequencesAt, Registered, InTurn;
      SameMembers(snapshot, Bucket(e));
      assert forall k :: 0 <= k < |snapshot| ==> snapshot[k] in snapshot;
      var callbacks := Callbacks(snapshot, handlers);
      var setup := Setup(callbacks, terminal, monotonic, covers, accepts);
      chain, c := snapshot, setup;
      var live;
      o, live, r := Dispatched(setup, payload);
      if o.Got? && !accepts(o.value) { o := Threw; }
      Disposed(e, SequencesAt(snapshot, Positions(|snapshot|) - live));
    }

    /** The closures of one dispatch, made and run. */
    method Dispatched(setup: Setup<V>, payload: V) returns (o: Outcome<V>, live: set<nat>, ghost r: Pair<V>)
      ensures r == Step(setup, 0, payload, Dispatch(Positions(|setup.chain|), map[], map[], map[], {}, [], []))
      ensures o == r.outcome && live == r.d.live
    {
      hide Step, Used, Below, Extends;
      FreshDispatch<V>(|setup.chain|);
      var run := new DispatchObject(setup, Positions(|setup.chain|));
      r := Step(setup, 0, payload, run.State());
      o := run.RunStep(0, payload);
      live := run.live;
    }

    /** What the dispatch disposed leaves the bucket. */
    method Disposed(e: string, drops: set<nat>)
      requires Valid()
      modifies this`buckets
      ensures Valid() && Bucket(e) == Prune(old(Bucket(e)), drops)
    {
      if e in buckets {
        PruneRegistered(buckets[e], drops);
        buckets := buckets[e := Prune(buckets[e], drops)];
      }
    }
  }

  lemma {:induction false} SameMembers(a: seq<Listener>, b: seq<Listener>)
    requires multiset(a) == multiset(b)
    ensures forall x :: x in a <==> x in b
  {
    forall x ensures x in a <==> x in b { assert x in multiset(a) <==> x in multiset(b); }
  }

  /** Nobody is called after a BaseException escaped. */
  lemma {:induction false} EscapeEnds<V>(
    handlers: map<nat, Handler<V>>, chain: seq<Listener>, called: seq<nat>, payload: V, i: nat)
    requires i in called && Ends(handlers, chain, payload, i, Escapes)
    ensures forall k: nat :: i < k < |chain| ==> !Spared(handlers, chain, called, payload, k)
  {
  }

  lemma {:induction false} SparedNow<V>(
    handlers: map<nat, Handler<V>>, chain: seq<Listener>, called: seq<nat>, payload: V, i: nat)
    requires i < |chain| && forall j :: j in called ==> j < i && !Ends(handlers, chain, payload, j, Escapes)
    ensures Spared(handlers, chain, called, payload, i) <==>
      chain[i].sequence !in Dropped(handlers, chain, called, payload)
  {
  }

  lemma {:induction false} NobodyDropped<V>(handlers: map<nat, Handler<V>>, chain: seq<Listener>, payload: V)
    ensures Dropped(handlers, chain, [], payload) == {}
  {
  }

  lemma {:induction false} DroppedSnoc<V>(
    handlers: map<nat, Handler<V>>, chain: seq<Listener>, called: seq<nat>, payload: V, i: nat)
    requires i < |chain|
    ensures Dropped(handlers, chain, called + [i], payload) ==
      Dropped(handlers, chain, called, payload) + Drops(handlers, chain[i], payload)
    ensures forall k: nat :: k <= i ==>
      Spared(handlers, chain, called + [i], payload, k) == Spared(handlers, chain, called, payload, k)
  {
    assert (called + [i])[..|called|] == called;
  }

  lemma {:induction false} PruneNothing(bucket: seq<Listener>)
    ensures Prune(bucket, {}) == bucket
  {
    if bucket != [] { PruneNothing(bucket[..|bucket| - 1]); }
  }

  lemma {:induction false} PruneSnoc(bucket: seq<Listener>, l: Listener, drops: set<nat>)
    ensures Prune(bucket + [l], drops) == Prune(bucket, drops) + if l.sequence in drops then [] else [l]
  {
    assert (bucket + [l])[..|bucket|] == bucket;
  }

  lemma {:induction false} PruneTwice(bucket: seq<Listener>, a: set<nat>, b: set<nat>)
    ensures Prune(Prune(bucket, a), b) == Prune(bucket, a + b)
  {
    if bucket != [] {
      var n := |bucket| - 1;
      var l := bucket[n];
      assert bucket == bucket[..n] + [l];
      hide Prune;
      PruneTwice(bucket[..n], a, b);
      PruneSnoc(bucket[..n], l, a);
      PruneSnoc(bucket[..n], l, a + b);
      PruneSnoc(Prune(bucket[..n], a), l, b);
      if l.sequence in a {
        assert Prune(bucket, a) == Prune(bucket[..n], a);
        assert Prune(bucket, a + b) == Prune(bucket[..n], a + b);
      } else {
        assert Prune(bucket, a) == Prune(bucket[..n], a) + [l];
      }
    }
  }

  lemma {:induction false} SnapshotSame(bucket: seq<Listener>)
    ensures multiset(Snapshot(bucket)) == multiset(bucket)
  {
    if bucket != [] {
      var n := |bucket| - 1;
      assert bucket == bucket[..n] + [bucket[n]];
      SnapshotSame(bucket[..n]);
      PlaceSame(bucket[n], Snapshot(bucket[..n]));
    }
  }

  lemma {:induction false} PlaceSame(x: Listener, chain: seq<Listener>)
    ensures multiset(Place(x, chain)) == multiset(chain) + multiset{x}
  {
    if chain != [] {
      assert chain == [chain[0]] + chain[1..];
      PlaceSame(x, chain[1..]);
    }
  }
}
