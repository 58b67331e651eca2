/** fold_events of gpu-wiki/tools/rebuild_importance.py: counters from an append-only event log, and
    why replaying the log changes nothing. */
module FoldEvents {
  import opened Lists

  const COUNTER_NAMES: set<string> := {
    "query_count", "served_count", "applied_count", "verified_effective", "verified_ineffective", "fallback_served"}

  /** A parsed event; an absent id, key or source is "", an absent timestamp 0. `dump` is the event's
      canonical text, which stands in for a missing key. */
  datatype Event = Event(rid: string, snapshot: bool, source: string, key: string, dump: string,
    counts: map<string, int>, ts: real)

  /** A log line: blank or not JSON, or an event. */
  datatype Line = Skipped | Parsed(e: Event)

  /** What a later event replaces: a source's snapshot of a record, or an increment key. */
  datatype Slot = Snapshot(rid: string, source: string) | Increment(key: string)

  datatype Tally = Tally(counts: map<string, int>, first: Option<real>, last: Option<real>)

  function SlotOf(e: Event): Slot {
    if e.snapshot then Snapshot(e.rid, e.source) else Increment(if e.key != "" then e.key else e.dump)
  }

  predicate Counted(l: Line) {
    l.Parsed? && l.e.rid != ""
  }

  // ---- the reference definition --------------------------------------------------------------------

  /** The slots a log fills, in order of first use. */
  function Slots(log: seq<Line>): (s: seq<Slot>) {
    if log == [] then []
    else
      var n := |log| - 1;
      var before := Slots(log[..n]);
      if Counted(log[n]) && SlotOf(log[n].e) !in before then before + [SlotOf(log[n].e)] else before
  }

  /** The last event of a slot. */
  function Latest(log: seq<Line>, slot: Slot): (e: Option<Event>) {
    if log == [] then None
    else
      var n := |log| - 1;
      if Counted(log[n]) && SlotOf(log[n].e) == slot then Some(log[n].e) else Latest(log[..n], slot)
  }

  function Contribution(e: Option<Event>, rid: string, name: string): int {
    if e.Some? && e.value.rid == rid && name in e.value.counts then e.value.counts[name] else 0
  }

  /** One contribution per slot, that of its last event. */
  function Total(log: seq<Line>, slots: seq<Slot>, rid: string, name: string): int {
    if slots == [] then 0
    else Total(log, slots[..|slots| - 1], rid, name) + Contribution(Latest(log, slots[|slots| - 1]), rid, name)
  }

  /** The events that stand at the end belong to these records. */
  predicate Held(log: seq<Line>, rid: string) {
    exists slot :: slot in Slots(log) && Latest(log, slot).Some? && Latest(log, slot).value.rid == rid
  }

  predicate Stamped(log: seq<Line>, rid: string, ts: real) {
    exists l :: l in log && Counted(l) && l.e.rid == rid && l.e.ts != 0.0 && l.e.ts == ts
  }

  ghost predicate IsFirst(log: seq<Line>, rid: string, first: Option<real>) {
    match first
    case None => forall ts :: !Stamped(log, rid, ts)
    case Some(t) => Stamped(log, rid, t) && forall ts :: Stamped(log, rid, ts) ==> t <= ts
  }

  ghost predicate IsLast(log: seq<Line>, rid: string, last: Option<real>) {
    match last
    case None => forall ts :: !Stamped(log, rid, ts)
    case Some(t) => Stamped(log, rid, t) && forall ts :: Stamped(log, rid, ts) ==> ts <= t
  }

  ghost predicate TallyIs(log: seq<Line>, rid: string, t: Tally) {
    && t.counts.Keys == COUNTER_NAMES
    && (forall name :: name in COUNTER_NAMES ==> t.counts[name] == Total(log, Slots(log), rid, name))
    && IsFirst(log, rid, t.first) && IsLast(log, rid, t.last)
  }

  /** The counters of a log: a tally for each record that holds an event. */
  ghost predicate FoldIs(log: seq<Line>, folded: map<string, Tally>) {
    forall rid :: (rid in folded <==> Held(log, rid)) && (rid in folded ==> TallyIs(log, rid, folded[rid]))
  }

  // ---- replay --------------------------------------------------------------------------------------------

  /** Two logs no reader of the fold can tell apart. */
  ghost predicate Same(a: seq<Line>, b: seq<Line>) {
    && Slots(a) == Slots(b)
    && (forall slot :: Latest(a, slot) == Latest(b, slot))
    && (forall rid, ts :: Stamped(a, rid, ts) <==> Stamped(b, rid, ts))
  }

  lemma {:induction false} SameTotal(a: seq<Line>, b: seq<Line>, slots: seq<Slot>, rid: string, name: string)
    requires forall slot :: Latest(a, slot) == Latest(b, slot)
    ensures Total(a, slots, rid, name) == Total(b, slots, rid, name)
  {
    if slots != [] { SameTotal(a, b, slots[..|slots| - 1], rid, name); }
  }

  lemma {:induction false} SameTally(a: seq<Line>, b: seq<Line>, rid: string, t: Tally, u: Tally)
    requires Same(a, b) && TallyIs(a, rid, t) && TallyIs(b, rid, u)
    ensures t == u
  {
    hide IsFirst, IsLast, Stamped;
    forall name | name in COUNTER_NAMES ensures t.counts[name] == u.counts[name] {
      SameTotal(a, b, Slots(a), rid, name);
    }
    assert t.counts == u.counts;
    SameEnds(a, b, rid, t, u);
  }

  /** The fold is determined by slots, latest events and timestamps. */
  lemma {:induction false} SameFold(a: seq<Line>, b: seq<Line>, f: map<string, Tally>, g: map<string, Tally>)
    requires Same(a, b) && FoldIs(a, f) && FoldIs(b, g)
    ensures f == g
  {
    hide TallyIs;
    forall rid ensures rid in f <==> rid in g { assert Held(a, rid) <==> Held(b, rid); }
    forall rid | rid in f ensures f[rid] == g[rid] {
      SameTally(a, b, rid, f[rid], g[rid]);
    }
  }

  lemma {:induction false} SameEnds(a: seq<Line>, b: seq<Line>, rid: string, t: Tally, u: Tally)
    requires forall ts :: Stamped(a, rid, ts) <==> Stamped(b, rid, ts)
    requires IsFirst(a, rid, t.first) && IsLast(a, rid, t.last) && IsFirst(b, rid, u.first) && IsLast(b, rid, u.last)
    ensures t.first == u.first && t.last == u.last
  {
    if t.first.Some? { assert Stamped(b, rid, t.first.value); }
    if u.first.Some? { assert Stamped(a, rid, u.first.value); }
  }

  lemma {:induction false} SlotsAppend(log: seq<Line>, l: Line)
    ensures Slots(log + [l]) == if Counted(l) && SlotOf(l.e) !in Slots(log) then Slots(log) + [SlotOf(l.e)]
      else Slots(log)
    ensures forall slot :: Latest(log + [l], slot) == if Counted(l) && SlotOf(l.e) == slot then Some(l.e)
      else Latest(log, slot)
  {
    assert (log + [l])[..|log|] == log;
  }

  lemma {:induction false} SlotsAreFilled(log: seq<Line>, slot: Slot)
    ensures slot in Slots(log) <==> Latest(log, slot).Some?
    ensures Latest(log, slot).Some? ==>
      SlotOf(Latest(log, slot).value) == slot && Parsed(Latest(log, slot).value) in log
        && Latest(log, slot).value.rid != ""
  {
    if log != [] {
      var n := |log| - 1;
      assert log == log[..n] + [log[n]];
      SlotsAreFilled(log[..n], slot);
    }
  }

  lemma {:induction false} EntriesFill(log: seq<Line>, l: Line)
    requires l in log && Counted(l)
    ensures SlotOf(l.e) in Slots(log)
  {
    var n := |log| - 1;
    if log[n] != l {
      assert log == log[..n] + [log[n]];
      EntriesFill(log[..n], l);
    }
  }

  /** Appending lines seen before opens no slot and adds no timestamp. */
  lemma {:induction false} SeenLines(log: seq<Line>, more: seq<Line>)
    requires forall l :: l in more ==> l in log
    ensures Slots(log + more) == Slots(log)
    ensures forall rid, ts :: Stamped(log + more, rid, ts) <==> Stamped(log, rid, ts)
    decreases |more|
  {
    if more == [] {
      assert log + more == log;
    } else {
      var n := |more| - 1;
      assert more[n] in more && forall l :: l in more[..n] ==> l in more;
      SeenLines(log, more[..n]);
      assert log + more == (log + more[..n]) + [more[n]];
      SlotsAppend(log + more[..n], more[n]);
      if Counted(more[n]) { EntriesFill(log, more[n]); }
      forall rid, ts ensures Stamped(log + more, rid, ts) <==> Stamped(log, rid, ts) {
        if Stamped(log, rid, ts) {
          var l :| l in log && Counted(l) && l.e.rid == rid && l.e.ts != 0.0 && l.e.ts == ts;
          assert l in log + more;
        }
      }
    }
  }

  /** After log, the lines of `more` decide the slots they fill. */
  lemma {:induction false} LatestAppend(log: seq<Line>, more: seq<Line>, slot: Slot)
    ensures Latest(log + more, slot) == if Latest(more, slot).Some? then Latest(more, slot) else Latest(log, slot)
    decreases |more|
  {
    if more == [] {
      assert log + more == log;
    } else {
      var n := |more| - 1;
      assert log + more == (log + more[..n]) + [more[n]];
      assert more == more[..n] + [more[n]];
      LatestAppend(log, more[..n], slot);
      SlotsAppend(log + more[..n], more[n]);
    }
  }

  /** Main result: a log followed by itself folds to the same counters. */
  lemma {:induction false} ReplayIsNoOp(log: seq<Line>, f: map<string, Tally>, g: map<string, Tally>)
    requires FoldIs(log, f) && FoldIs(log + log, g)
    ensures f == g
  {
    SeenLines(log, log);
    forall slot ensures Latest(log + log, slot) == Latest(log, slot) { LatestAppend(log, log, slot); }
    SameFold(log, log + log, f, g);
  }

  /** Equal increment keys mean equal events. */
  ghost predicate KeysIdentify(log: seq<Line>) {
    forall a, b :: a in log && b in log && Counted(a) && Counted(b) ==>
      !a.e.snapshot && !b.e.snapshot && SlotOf(a.e) == SlotOf(b.e) ==> a == b
  }

  /** Main result: appending increments the log already holds, any number of them in any order, changes
      nothing. */
  lemma {:induction false} SeenIncrementsAddNothing(
    log: seq<Line>, more: seq<Line>, f: map<string, Tally>, g: map<string, Tally>)
    requires KeysIdentify(log) && forall l :: l in more ==> l in log && (Counted(l) ==> !l.e.snapshot)
    requires FoldIs(log, f) && FoldIs(log + more, g)
    ensures f == g
  {
    SeenLines(log, more);
    forall slot ensures Latest(log + more, slot) == Latest(log, slot) {
      LatestAppend(log, more, slot);
      SlotsAreFilled(more, slot);
      SlotsAreFilled(log, slot);
      if Latest(more, slot).Some? {
        var l := Parsed(Latest(more, slot).value);
        EntriesFill(log, l);
        assert l == Parsed(Latest(log, slot).value);
      }
    }
    SameFold(log, log + more, f, g);
  }

  // ---- the fold read off the log's positions --------------------------------------------------------------

  /** b replaces a: a snapshot of the same record and source, or an increment under the same key, an event's
      text standing for a key it lacks. */
  predicate Replaces(b: Event, a: Event) {
    && b.snapshot == a.snapshot
    && if a.snapshot then b.rid == a.rid && b.source == a.source
       else (if b.key != "" then b.key else b.dump) == (if a.key != "" then a.key else a.dump)
  }

  /** Line i is an event of some record, and no later one replaces it. */
  predicate Stands(log: seq<Line>, i: nat) {
    && i < |log| && log[i].Parsed? && log[i].e.rid != ""
    && forall j :: i < j < |log| && log[j].Parsed? && log[j].e.rid != "" ==> !Replaces(log[j].e, log[i].e)
  }

  /** What line i adds to a record's counter. */
  function Adds(log: seq<Line>, i: nat, rid: string, name: string): int {
    if Stands(log, i) && log[i].e.rid == rid && name in log[i].e.counts then log[i].e.counts[name] else 0
  }

  function SumTo(log: seq<Line>, n: nat, rid: string, name: string): int {
    if n == 0 then 0 else SumTo(log, n - 1, rid, name) + Adds(log, n - 1, rid, name)
  }

  /** Some line of the record stands. */
  predicate HasLine(log: seq<Line>, rid: string) {
    exists i: nat :: i < |log| && Stands(log, i) && log[i].e.rid == rid
  }

  /** A tally for each record with a line that stands, every counter the sum over the lines that stand. */
  ghost predicate ByPosition(log: seq<Line>, folded: map<string, Tally>) {
    && (forall rid :: rid in folded <==> HasLine(log, rid))
    && (forall rid, name :: rid in folded && name in COUNTER_NAMES ==>
      name in folded[rid].counts && folded[rid].counts[name] == SumTo(log, |log|, rid, name))
  }

  lemma {:induction false} SlotsReplace(a: Event, b: Event)
    ensures SlotOf(a) == SlotOf(b) <==> Replaces(b, a)
  {
  }

  /** The line of a slot that stands is its last. */
  lemma {:induction false} LatestStands(log: seq<Line>, slot: Slot) returns (k: nat)
    requires slot in Slots(log)
    ensures k < |log| && Counted(log[k]) && SlotOf(log[k].e) == slot && Latest(log, slot) == Some(log[k].e)
    ensures forall i: nat :: Stands(log, i) && SlotOf(log[i].e) == slot <==> i == k
  {
    k := LastOf(log, slot);
    forall i: nat ensures Stands(log, i) && SlotOf(log[i].e) == slot <==> i == k {
      if i < |log| && Counted(log[i]) && SlotOf(log[i].e) == slot {
        if i < k {
          SlotsReplace(log[i].e, log[k].e);
        } else if i == k {
          forall j | k < j < |log| && Counted(log[j]) ensures !Replaces(log[j].e, log[k].e) {
            SlotsReplace(log[k].e, log[j].e);
          }
        }
      }
    }
  }

  lemma {:induction false} LastOf(log: seq<Line>, slot: Slot) returns (k: nat)
    requires slot in Slots(log)
    ensures k < |log| && Counted(log[k]) && SlotOf(log[k].e) == slot && Latest(log, slot) == Some(log[k].e)
    ensures forall j :: k < j < |log| && Counted(log[j]) ==> SlotOf(log[j].e) != slot
  {
    var n := |log| - 1;
    if Counted(log[n]) && SlotOf(log[n].e) == slot {
      k := n;
    } else {
      k := LastOf(log[..n], slot);
    }
  }

  /** Position i's contribution, if it falls to the slot. */
  function AddsIn(log: seq<Line>, slot: Slot, i: nat, rid: string, name: string): int {
    if i < |log| && Counted(log[i]) && SlotOf(log[i].e) == slot then Adds(log, i, rid, name) else 0
  }

  function SlotSum(log: seq<Line>, slot: Slot, n: nat, rid: string, name: string): int {
    if n == 0 then 0 else SlotSum(log, slot, n - 1, rid, name) + AddsIn(log, slot, n - 1, rid, name)
  }

  /** A slot's share of the sum is the contribution of its last event. */
  lemma {:induction false} SlotSumIs(log: seq<Line>, slot: Slot, k: nat, n: nat, rid: string, name: string)
    requires k < |log| && Counted(log[k]) && SlotOf(log[k].e) == slot && n <= |log|
    requires forall i: nat :: Stands(log, i) && SlotOf(log[i].e) == slot <==> i == k
    ensures SlotSum(log, slot, n, rid, name) == if k < n then Contribution(Some(log[k].e), rid, name) else 0
  {
    hide Stands;
    if n != 0 { SlotSumIs(log, slot, k, n - 1, rid, name); }
  }

  /** The first n positions, slot by slot. */
  function SlotSums(log: seq<Line>, slots: seq<Slot>, n: nat, rid: string, name: string): int {
    if slots == [] then 0
    else SlotSums(log, slots[..|slots| - 1], n, rid, name) + SlotSum(log, slots[|slots| - 1], n, rid, name)
  }

  /** One more position adds its contribution to exactly the slot it falls to. */
  lemma {:induction false} SlotSumsNext(log: seq<Line>, slots: seq<Slot>, n: nat, rid: string, name: string)
    requires n < |log| && NoDup(slots)
    ensures SlotSums(log, slots, n + 1, rid, name) == SlotSums(log, slots, n, rid, name)
      + if Counted(log[n]) && SlotOf(log[n].e) in slots then Adds(log, n, rid, name) else 0
  {
    hide Adds;
    if slots != [] {
      var m := |slots| - 1;
      assert slots == slots[..m] + [slots[m]];
      SlotSumsNext(log, slots[..m], n, rid, name);
    }
  }

  lemma {:induction false} SumsAgree(log: seq<Line>, n: nat, rid: string, name: string)
    requires n <= |log| && NoDup(Slots(log))
    ensures SumTo(log, n, rid, name) == SlotSums(log, Slots(log), n, rid, name)
  {
    hide Adds;
    if n == 0 {
      NoSums(log, Slots(log), rid, name);
    } else {
      SumsAgree(log, n - 1, rid, name);
      SlotSumsNext(log, Slots(log), n - 1, rid, name);
      if Counted(log[n - 1]) { EntriesFill(log, log[n - 1]); } else { SkippedAdds(log, n - 1, rid, name); }
    }
  }

  lemma {:induction false} SkippedAdds(log: seq<Line>, i: nat, rid: string, name: string)
    requires i < |log| && !Counted(log[i])
    ensures Adds(log, i, rid, name) == 0
  {
  }

  lemma {:induction false} NoSums(log: seq<Line>, slots: seq<Slot>, rid: string, name: string)
    ensures SlotSums(log, slots, 0, rid, name) == 0
  {
    if slots != [] { NoSums(log, slots[..|slots| - 1], rid, name); }
  }

  lemma {:induction false} SlotsOnce(log: seq<Line>)
    ensures NoDup(Slots(log))
  {
    if log != [] { SlotsOnce(log[..|log| - 1]); }
  }

  lemma {:induction false} TotalIsSum(log: seq<Line>, slots: seq<Slot>, rid: string, name: string)
    requires forall s :: s in slots ==> s in Slots(log)
    ensures Total(log, slots, rid, name) == SlotSums(log, slots, |log|, rid, name)
  {
    if slots != [] {
      var m := |slots| - 1;
      assert slots[m] in slots && forall s :: s in slots[..m] ==> s in slots;
      TotalIsSum(log, slots[..m], rid, name);
      hide Stands, Slots;
      var k := LatestStands(log, slots[m]);
      SlotSumIs(log, slots[m], k, |log|, rid, name);
    }
  }

  /** Main result: the counters are the sums over the lines that stand. */
  lemma {:induction false} FoldByPosition(log: seq<Line>, folded: map<string, Tally>)
    requires FoldIs(log, folded)
    ensures ByPosition(log, folded)
  {
    hide Stands, HasLine, Slots, Latest, SumTo, Total, IsFirst, IsLast;
    forall rid ensures Held(log, rid) <==> HasLine(log, rid) {
      HeldStands(log, rid);
    }
    forall rid, name | rid in folded && name in COUNTER_NAMES
      ensures name in folded[rid].counts && folded[rid].counts[name] == SumTo(log, |log|, rid, name)
    {
      SlotsOnce(log);
      SumsAgree(log, |log|, rid, name);
      TotalIsSum(log, Slots(log), rid, name);
    }
  }

  lemma {:induction false} HeldStands(log: seq<Line>, rid: string)
    ensures Held(log, rid) <==> HasLine(log, rid)
  {
    hide Slots, Latest;
    if Held(log, rid) {
      var slot :| slot in Slots(log) && Latest(log, slot).Some? && Latest(log, slot).value.rid == rid;
      var k := LatestStands(log, slot);
      assert Stands(log, k);
    }
    if HasLine(log, rid) {
      var i: nat :| i < |log| && Stands(log, i) && log[i].e.rid == rid;
      EntriesFill(log, log[i]);
      var k := LatestStands(log, SlotOf(log[i].e));
    }
  }

  // ---- the loops of fold_events ----------------------------------------------------------------------------

  /** The snapshots and increments dictionaries, each in insertion order. */
  datatype Tables = Tables(snapshots: seq<Slot>, increments: seq<Slot>, events: map<Slot, Event>)

  function OfKind(slots: seq<Slot>, snapshot: bool): (r: seq<Slot>)
    ensures forall s :: s in r <==> s in slots && s.Snapshot? == snapshot
  {
    if slots == [] then []
    else
      var n := |slots| - 1;
      assert slots == slots[..n] + [slots[n]];
      OfKind(slots[..n], snapshot) + if slots[n].Snapshot? == snapshot then [slots[n]] else []
  }

  lemma {:induction false} OfKindAppend(slots: seq<Slot>, s: Slot, snapshot: bool)
    ensures OfKind(slots + [s], snapshot) == OfKind(slots, snapshot) + if s.Snapshot? == snapshot then [s] else []
  {
    assert (slots + [s])[..|slots|] == slots;
  }

  lemma {:induction false} TotalSnoc(log: seq<Line>, slots: seq<Slot>, s: Slot, rid: string, name: string)
    ensures Total(log, slots + [s], rid, name) == Total(log, slots, rid, name) + Contribution(Latest(log, s), rid, name)
  {
    assert (slots + [s])[..|slots|] == slots;
  }

  lemma {:induction false} TotalByKind(log: seq<Line>, slots: seq<Slot>, rid: string, name: string)
    ensures Total(log, slots, rid, name) ==
      Total(log, OfKind(slots, true), rid, name) + Total(log, OfKind(slots, false), rid, name)
  {
    if slots != [] {
      var n := |slots| - 1;
      var s := slots[n];
      assert slots == slots[..n] + [s];
      hide Total, OfKind;
      TotalByKind(log, slots[..n], rid, name);
      OfKindAppend(slots[..n], s, true);
      OfKindAppend(slots[..n], s, false);
      TotalSnoc(log, slots[..n], s, rid, name);
      TotalSnoc(log, OfKind(slots[..n], s.Snapshot?), s, rid, name);
      assert OfKind(slots, !s.Snapshot?) == OfKind(slots[..n], !s.Snapshot?);
    }
  }

  lemma {:induction false} TotalAppend(log: seq<Line>, a: seq<Slot>, b: seq<Slot>, rid: string, name: string)
    ensures Total(log, a + b, rid, name) == Total(log, a, rid, name) + Total(log, b, rid, name)
    decreases |b|
  {
    if b == [] {
      assert a + b == a;
    } else {
      var n := |b| - 1;
      assert (a + b)[..|a + b| - 1] == a + b[..n];
      TotalAppend(log, a, b[..n], rid, name);
    }
  }

  ghost predicate TablesAre(log: seq<Line>, t: Tables) {
    && t.snapshots == OfKind(Slots(log), true) && t.increments == OfKind(Slots(log), false)
    && (forall slot :: if slot in t.events then Latest(log, slot) == Some(t.events[slot])
      else Latest(log, slot) == None)
  }

  ghost predicate StampsAre(log: seq<Line>, stamps: map<string, seq<real>>) {
    && (forall rid, ts :: Stamped(log, rid, ts) <==> rid in stamps && ts in stamps[rid])
    && (forall rid :: rid in stamps ==> stamps[rid] != [])
  }

  method AddStamp(ghost log: seq<Line>, stamps: map<string, seq<real>>, e: Event) returns (r: map<string, seq<real>>)
    requires StampsAre(log, stamps) && e.rid != ""
    ensures StampsAre(log + [Parsed(e)], r)
  {
    StampedAppend(log, Parsed(e));
    r := stamps;
    if e.ts != 0.0 {
      r := stamps[e.rid := (if e.rid in stamps then stamps[e.rid] else []) + [e.ts]];
    }
  }

  lemma {:induction false} SkippedLine(log: seq<Line>, l: Line, t: Tables, stamps: map<string, seq<real>>)
    requires TablesAre(log, t) && StampsAre(log, stamps) && !Counted(l)
    ensures TablesAre(log + [l], t) && StampsAre(log + [l], stamps)
  {
    StampedAppend(log, l);
    SlotsAppend(log, l);
  }

  /** Reading the log: later events replace earlier ones of their slot. */
  method ReadLog(log: seq<Line>) returns (t: Tables, stamps: map<string, seq<real>>)
    ensures TablesAre(log, t) && StampsAre(log, stamps)
  {
    t, stamps := Tables([], [], map[]), map[];
    var i := 0;
    assert log[..0] == [];
    while i < |log|
      invariant i <= |log| && TablesAre(log[..i], t) && StampsAre(log[..i], stamps)
    {
      hide TablesAre, StampsAre;
      assert log[..i + 1] == log[..i] + [log[i]];
      if Counted(log[i]) {
        stamps := AddStamp(log[..i], stamps, log[i].e);
        t := Replace(log[..i], t, log[i].e);
      } else {
        SkippedLine(log[..i], log[i], t, stamps);
      }
      i := i + 1;
    }
    assert log[..i] == log;
  }

  method Replace(ghost log: seq<Line>, t: Tables, e: Event) returns (r: Tables)
    requires TablesAre(log, t) && e.rid != ""
    ensures TablesAre(log + [Parsed(e)], r)
  {
    var slot := SlotOf(e);
    SlotsAppend(log, Parsed(e));
    SlotsAreFilled(log, slot);
    OfKindAppend(Slots(log), slot, true);
    OfKindAppend(Slots(log), slot, false);
    r := t.(events := t.events[slot := e]);
    if slot !in t.events {
      if e.snapshot {
        r := r.(snapshots := r.snapshots + [slot]);
      } else {
        r := r.(increments := r.increments + [slot]);
      }
    }
  }

  lemma {:induction false} StampedAppend(log: seq<Line>, l: Line)
    ensures forall rid, ts :: Stamped(log + [l], rid, ts) <==>
      Stamped(log, rid, ts) || (Counted(l) && l.e.rid == rid && l.e.ts != 0.0 && l.e.ts == ts)
  {
    forall rid, ts
      ensures Stamped(log + [l], rid, ts) <==>
        Stamped(log, rid, ts) || (Counted(l) && l.e.rid == rid && l.e.ts != 0.0 && l.e.ts == ts)
    {
      if Stamped(log, rid, ts) {
        var x :| x in log && Counted(x) && x.e.rid == rid && x.e.ts != 0.0 && x.e.ts == ts;
        assert x in log + [l];
      }
      if Counted(l) && l.e.rid == rid && l.e.ts != 0.0 && l.e.ts == ts { assert l in log + [l]; }
    }
  }

  /** A sum per record and counter over the given slots; the records are those of the slots' events. */
  ghost predicate Summed(log: seq<Line>, slots: seq<Slot>, sums: map<string, map<string, int>>) {
    && (forall rid :: rid in sums <==>
      exists slot :: slot in slots && Latest(log, slot).Some? && Latest(log, slot).value.rid == rid)
    && (forall rid :: rid in sums ==> sums[rid].Keys == COUNTER_NAMES)
    && (forall rid, name :: name in COUNTER_NAMES ==>
         Total(log, slots, rid, name) == if rid in sums && name in sums[rid] then sums[rid][name] else 0)
  }

  function Zeros(): map<string, int> {
    map name | name in COUNTER_NAMES :: 0
  }

  /** target[name] += value, for the known counters of one event. */
  method AddCounts(target: map<string, int>, counts: map<string, int>) returns (r: map<string, int>)
    requires target.Keys == COUNTER_NAMES
    ensures r.Keys == COUNTER_NAMES
    ensures forall name :: name in COUNTER_NAMES ==>
      r[name] == target[name] + if name in counts then counts[name] else 0
  {
    r := target;
    var left := counts.Keys;
    while left != {}
      invariant left <= counts.Keys && r.Keys == COUNTER_NAMES
      invariant forall name :: name in COUNTER_NAMES ==>
        r[name] == target[name] + if name in counts && name !in left then counts[name] else 0
      decreases left
    {
      var name :| name in left;
      left := left - {name};
      if name in COUNTER_NAMES { r := r[name := r[name] + counts[name]]; }
    }
  }

  /** One pass of the summing loop. */
  method AddEvent(
    ghost log: seq<Line>, ghost slots: seq<Slot>, slot: Slot, e: Event, sums: map<string, map<string, int>>)
    returns (r: map<string, map<string, int>>)
    requires Summed(log, slots, sums) && Latest(log, slot) == Some(e)
    ensures Summed(log, slots + [slot], r)
  {
    var target := AddCounts(if e.rid in sums then sums[e.rid] else Zeros(), e.counts);
    r := sums[e.rid := target];
    SummedSnoc(log, slots, slot, e, sums, target);
  }

  /** The record's counters after the event: what they were, and what it contributes. */
  ghost predicate Raised(e: Event, sums: map<string, map<string, int>>, target: map<string, int>) {
    && target.Keys == COUNTER_NAMES
    && (e.rid in sums ==> sums[e.rid].Keys == COUNTER_NAMES)
    && forall name :: name in COUNTER_NAMES ==>
      target[name] == (if e.rid in sums then sums[e.rid][name] else 0) + if name in e.counts then e.counts[name] else 0
  }

  lemma {:induction false} SummedSnoc(
    log: seq<Line>, slots: seq<Slot>, slot: Slot, e: Event, sums: map<string, map<string, int>>,
    target: map<string, int>)
    requires Summed(log, slots, sums) && Latest(log, slot) == Some(e) && Raised(e, sums, target)
    ensures Summed(log, slots + [slot], sums[e.rid := target])
  {
    var r := sums[e.rid := target];
    RecordsSnoc(log, slots, slot, e, sums);
    hide Total, Latest;
    forall rid, name | name in COUNTER_NAMES
      ensures Total(log, slots + [slot], rid, name) == if rid in r && name in r[rid] then r[rid][name] else 0
    {
      CellSnoc(log, slots, slot, e, sums, target, rid, name);
    }
  }

  lemma {:induction false} CellSnoc(
    log: seq<Line>, slots: seq<Slot>, slot: Slot, e: Event, sums: map<string, map<string, int>>,
    target: map<string, int>, rid: string, name: string)
    requires Summed(log, slots, sums) && Latest(log, slot) == Some(e) && Raised(e, sums, target)
    requires name in COUNTER_NAMES
    ensures var r := sums[e.rid := target];
      Total(log, slots + [slot], rid, name) == if rid in r && name in r[rid] then r[rid][name] else 0
  {
    hide Total, Latest;
    TotalSnoc(log, slots, slot, rid, name);
  }

  lemma {:induction false} RecordsSnoc(
    log: seq<Line>, slots: seq<Slot>, slot: Slot, e: Event, sums: map<string, map<string, int>>)
    requires Summed(log, slots, sums) && Latest(log, slot) == Some(e)
    ensures forall rid :: rid in sums || rid == e.rid <==>
      exists x :: x in slots + [slot] && Latest(log, x).Some? && Latest(log, x).value.rid == rid
  {
    hide Total, Latest;
    forall rid
      ensures rid in sums || rid == e.rid <==>
        exists x :: x in slots + [slot] && Latest(log, x).Some? && Latest(log, x).value.rid == rid
    {
      if rid in sums {
        var x :| x in slots && Latest(log, x).Some? && Latest(log, x).value.rid == rid;
        assert x in slots + [slot];
      }
      if rid == e.rid { assert slot in slots + [slot]; }
    }
  }

  method SumSlots(ghost log: seq<Line>, t: Tables, slots: seq<Slot>) returns (sums: map<string, map<string, int>>)
    requires TablesAre(log, t) && forall s :: s in slots ==> s in Slots(log)
    ensures Summed(log, slots, sums)
  {
    sums := map[];
    var i := 0;
    assert slots[..0] == [];
    while i < |slots|
      invariant i <= |slots| && Summed(log, slots[..i], sums)
    {
      hide Summed, Slots, Latest;
      assert slots[..i + 1] == slots[..i] + [slots[i]];
      assert slots[i] in slots;
      SlotsAreFilled(log, slots[i]);
      sums := AddEvent(log, slots[..i], slots[i], t.events[slots[i]], sums);
      i := i + 1;
    }
    assert slots[..i] == slots;
  }

  method Extremes(stamps: seq<real>) returns (low: real, high: real)
    requires stamps != []
    ensures low in stamps && high in stamps && forall ts :: ts in stamps ==> low <= ts <= high
  {
    low, high := stamps[0], stamps[0];
    var i := 1;
    while i < |stamps|
      invariant 1 <= i <= |stamps| && low in stamps && high in stamps
      invariant forall j :: 0 <= j < i ==> low <= stamps[j] <= high
    {
      if stamps[i] < low { low := stamps[i]; }
      if stamps[i] > high { high := stamps[i]; }
      i := i + 1;
    }
  }

  method TallyOf(
    ghost log: seq<Line>, rid: string, counts: map<string, int>, stamps: map<string, seq<real>>) returns (t: Tally)
    requires StampsAre(log, stamps) && counts.Keys == COUNTER_NAMES
    requires forall name :: name in COUNTER_NAMES ==> counts[name] == Total(log, Slots(log), rid, name)
    ensures TallyIs(log, rid, t)
  {
    t := Tally(counts, None, None);
    if rid in stamps {
      var low, high := Extremes(stamps[rid]);
      t := Tally(counts, Some(low), Some(high));
    }
  }

  /** fold_events computes the reference definition: per record, the last snapshot of each source plus one
      contribution per increment key, and the first and last timestamps. */
  method Fold(log: seq<Line>) returns (folded: map<string, Tally>)
    ensures FoldIs(log, folded) && ByPosition(log, folded)
  {
    hide Total, Slots, Latest, StampsAre, Summed, TallyIs, Held, ByPosition;
    var t, stamps := ReadLog(log);
    var order := t.snapshots + t.increments;
    var sums := SumSlots(log, t, order);
    SumsAreTotals(log, t, sums);
    folded := map[];
    var left := sums.Keys;
    while left != {}
      invariant left <= sums.Keys && folded.Keys == sums.Keys - left
      invariant forall rid :: rid in folded ==> TallyIs(log, rid, folded[rid])
      decreases left
    {
      var rid :| rid in left;
      left := left - {rid};
      var tally := TallyOf(log, rid, sums[rid], stamps);
      folded := folded[rid := tally];
    }
    FoldByPosition(log, folded);
  }

  lemma {:induction false} SumsAreTotals(log: seq<Line>, t: Tables, sums: map<string, map<string, int>>)
    requires TablesAre(log, t) && Summed(log, t.snapshots + t.increments, sums)
    ensures forall rid :: rid in sums <==> Held(log, rid)
    ensures forall rid :: rid in sums ==>
      sums[rid].Keys == COUNTER_NAMES && forall name :: name in COUNTER_NAMES ==>
        sums[rid][name] == Total(log, Slots(log), rid, name)
  {
    hide Total, Slots, Latest, OfKind;
    assert forall s :: s in t.snapshots + t.increments <==> s in Slots(log);
    forall rid | rid in sums
      ensures forall name :: name in COUNTER_NAMES ==> sums[rid][name] == Total(log, Slots(log), rid, name)
    {
      forall name | name in COUNTER_NAMES ensures sums[rid][name] == Total(log, Slots(log), rid, name) {
        TotalByKind(log, Slots(log), rid, name);
        TotalAppend(log, t.snapshots, t.increments, rid, name);
      }
    }
  }
}
