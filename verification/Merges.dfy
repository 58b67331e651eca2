/** The capped round-robin merges of gpu-wiki/tools/query_nl.py: lanes into one record set, and
    isolated stores under one cap. */
module Merges {
  import opened Lists

  /** A dictionary in insertion order. */
  datatype Records<E> = Records(ids: seq<string>, entries: map<string, E>)

  ghost predicate WellFormed<E>(r: Records<E>) {
    NoDup(r.ids) && forall id :: id in r.ids <==> id in r.entries
  }

  /** records.setdefault. */
  function SetDefault<E>(r: Records<E>, id: string, e: E): (t: Records<E>)
    ensures WellFormed(r) ==> WellFormed(t)
    ensures forall x :: x in t.ids <==> x in r.ids || x == id
  {
    if id in r.ids then r
    else
      assert NoDup(r.ids) ==> NoDup(r.ids + [id]);
      Records(r.ids + [id], r.entries[id := e])
  }

  type Group<E> = seq<(string, E)>

  ghost function Min(a: nat, b: nat): nat {
    if a <= b then a else b
  }

  // ---- the rounds ------------------------------------------------------------------------------------

  /** In round r, with the groups before k already asked: everyone has been drawn from evenly, and
      exactly those found empty are exhausted. */
  ghost predicate Even<E>(groups: seq<Group<E>>, pos: seq<nat>, exhausted: set<nat>, r: nat, k: nat) {
    && |pos| == |groups| && k <= |groups|
    && (forall i :: 0 <= i < |groups| ==> pos[i] == Min(if i < k then r + 1 else r, |groups[i]|))
    && (forall i: nat :: i in exhausted <==> i < |groups| && |groups[i]| < if i < k then r + 1 else r)
  }

  /** Draw counts of sources that still have records differ by at most one. */
  ghost predicate Fair<E>(groups: seq<Group<E>>, pos: seq<nat>)
    requires |pos| == |groups|
  {
    forall i, j :: 0 <= i < |groups| && 0 <= j < |groups| && pos[i] < |groups[i]| && pos[j] < |groups[j]| ==>
      pos[i] <= pos[j] + 1
  }

  lemma {:induction false} EvenFair<E>(groups: seq<Group<E>>, pos: seq<nat>, exhausted: set<nat>, r: nat, k: nat)
    requires Even(groups, pos, exhausted, r, k)
    ensures Fair(groups, pos)
  {
  }

  /** The ids among the first pos[i] records of some group i. */
  ghost predicate Drawn<E>(groups: seq<Group<E>>, pos: seq<nat>, id: string)
    requires |pos| == |groups|
  {
    exists i, j :: 0 <= i < |groups| && 0 <= j < pos[i] && j < |groups[i]| && groups[i][j].0 == id
  }

  ghost predicate Offered<E>(groups: seq<Group<E>>, id: string) {
    exists i, j :: 0 <= i < |groups| && 0 <= j < |groups[i]| && groups[i][j].0 == id
  }

  /** Records held: the prior ones as they were, and for every drawn id an entry some group offers under
      it. */
  ghost predicate Gathered<E>(groups: seq<Group<E>>, pos: seq<nat>, prior: Records<E>, records: Records<E>)
    requires |pos| == |groups|
  {
    && WellFormed(records) && prior.ids <= records.ids
    && (forall id :: id in prior.entries ==> id in records.entries && records.entries[id] == prior.entries[id])
    && (forall id :: id in records.ids <==> id in prior.ids || Drawn(groups, pos, id))
    && (forall id :: id in records.ids && id !in prior.ids ==>
         exists i, j :: 0 <= i < |groups| && 0 <= j < |groups[i]| && groups[i][j] == (id, records.entries[id]))
  }

  lemma {:induction false} DrawOne<E>(groups: seq<Group<E>>, pos: seq<nat>, k: nat, id: string)
    requires |pos| == |groups| && k < |groups| && pos[k] < |groups[k]|
    ensures Drawn(groups, pos[k := pos[k] + 1], id) <==> Drawn(groups, pos, id) || id == groups[k][pos[k]].0
  {
    var next := pos[k := pos[k] + 1];
    if Drawn(groups, pos, id) {
      var i, j :| 0 <= i < |groups| && 0 <= j < pos[i] && j < |groups[i]| && groups[i][j].0 == id;
      assert 0 <= j < next[i];
    }
    if id == groups[k][pos[k]].0 {
      assert 0 <= pos[k] < next[k];
    }
    if Drawn(groups, next, id) {
      var i, j :| 0 <= i < |groups| && 0 <= j < next[i] && j < |groups[i]| && groups[i][j].0 == id;
      assert i != k || j < pos[k] || j == pos[k];
    }
  }

  lemma {:induction false} GatherOne<E>(
    groups: seq<Group<E>>, pos: seq<nat>, prior: Records<E>, records: Records<E>, k: nat)
    requires |pos| == |groups| && k < |groups| && pos[k] < |groups[k]| && Gathered(groups, pos, prior, records)
    ensures Gathered(groups, pos[k := pos[k] + 1], prior, SetDefault(records, groups[k][pos[k]].0, groups[k][pos[k]].1))
  {
    hide Drawn;
    var (id, e) := groups[k][pos[k]];
    var t := SetDefault(records, id, e);
    forall x
      ensures x in t.ids <==> x in prior.ids || Drawn(groups, pos[k := pos[k] + 1], x)
    {
      DrawOne(groups, pos, k, x);
    }
    forall x | x in t.ids && x !in prior.ids
      ensures exists i, j :: 0 <= i < |groups| && 0 <= j < |groups[i]| && groups[i][j] == (x, t.entries[x])
    {
      if x in records.ids {
        var i, j :| 0 <= i < |groups| && 0 <= j < |groups[i]| && groups[i][j] == (x, records.entries[x]);
        assert groups[i][j] == (x, t.entries[x]);
      } else {
        assert groups[k][pos[k]] == (x, t.entries[x]);
      }
    }
  }

  // ---- which entry wins ------------------------------------------------------------------------------

  /** Record j of group i was drawn. */
  ghost predicate DrawnAt<E>(groups: seq<Group<E>>, pos: seq<nat>, i: nat, j: nat)
    requires |pos| == |groups|
  {
    i < |groups| && j < |groups[i]| && j < pos[i]
  }

  /** Record j of group i was drawn before record j' of group i'. */
  predicate Sooner(i: nat, j: nat, i': nat, j': nat) {
    j < j' || (j == j' && i < i')
  }

  /** Record j of group i is drawn, has the id, and of all drawn records with the id is the first, or the
      last. */
  ghost predicate Extreme<E>(groups: seq<Group<E>>, pos: seq<nat>, id: string, i: nat, j: nat, first: bool)
    requires |pos| == |groups|
  {
    && DrawnAt(groups, pos, i, j) && groups[i][j].0 == id
    && forall i': nat, j': nat :: DrawnAt(groups, pos, i', j') && groups[i'][j'].0 == id ==>
         if first then !Sooner(i', j', i, j) else !Sooner(i, j, i', j')
  }

  /** Every id that is not prior holds the entry of its first, or last, drawn record. */
  ghost predicate Wins<E>(groups: seq<Group<E>>, pos: seq<nat>, prior: Records<E>, records: Records<E>, first: bool)
    requires |pos| == |groups|
  {
    forall id :: id in records.ids && id !in prior.ids ==>
      id in records.entries
      && exists i: nat, j: nat :: Extreme(groups, pos, id, i, j, first) && groups[i][j].1 == records.entries[id]
  }

  lemma {:induction false} DrawnNext<E>(groups: seq<Group<E>>, pos: seq<nat>, exhausted: set<nat>, r: nat, k: nat)
    requires Even(groups, pos, exhausted, r, k) && k < |groups| && pos[k] < |groups[k]|
    ensures forall i: nat, j: nat :: DrawnAt(groups, pos[k := pos[k] + 1], i, j) <==>
      DrawnAt(groups, pos, i, j) || (i == k && j == pos[k])
    ensures forall i: nat, j: nat :: DrawnAt(groups, pos, i, j) ==> Sooner(i, j, k, pos[k])
  {
    var next := pos[k := pos[k] + 1];
    forall i: nat, j: nat
      ensures DrawnAt(groups, next, i, j) <==> DrawnAt(groups, pos, i, j) || (i == k && j == pos[k])
    {
      if i < |groups| && i != k { assert next[i] == pos[i]; }
    }
    forall i: nat, j: nat | DrawnAt(groups, pos, i, j) ensures Sooner(i, j, k, pos[k]) { }
  }

  /** Another id's winner stays. */
  lemma {:induction false} OtherWinner<E>(
    groups: seq<Group<E>>, pos: seq<nat>, exhausted: set<nat>, r: nat, k: nat, id: string, i: nat, j: nat, first: bool)
    requires Even(groups, pos, exhausted, r, k) && k < |groups| && pos[k] < |groups[k]|
    requires Extreme(groups, pos, id, i, j, first) && (first || groups[k][pos[k]].0 != id)
    ensures Extreme(groups, pos[k := pos[k] + 1], id, i, j, first)
  {
    DrawnNext(groups, pos, exhausted, r, k);
  }

  /** The newest draw is the last of its id. */
  lemma {:induction false} NewestWins<E>(
    groups: seq<Group<E>>, pos: seq<nat>, exhausted: set<nat>, r: nat, k: nat, first: bool)
    requires Even(groups, pos, exhausted, r, k) && k < |groups| && pos[k] < |groups[k]|
    requires !first || !Drawn(groups, pos, groups[k][pos[k]].0)
    ensures Extreme(groups, pos[k := pos[k] + 1], groups[k][pos[k]].0, k, pos[k], first)
  {
    DrawnNext(groups, pos, exhausted, r, k);
    if first {
      forall i: nat, j: nat | DrawnAt(groups, pos, i, j) ensures groups[i][j].0 != groups[k][pos[k]].0 { }
    }
  }

  /** setdefault keeps the first entry. */
  lemma {:induction false} FirstStays<E>(
    groups: seq<Group<E>>, pos: seq<nat>, exhausted: set<nat>, r: nat, prior: Records<E>, records: Records<E>, k: nat)
    requires Even(groups, pos, exhausted, r, k) && k < |groups| && pos[k] < |groups[k]|
    requires Gathered(groups, pos, prior, records) && Wins(groups, pos, prior, records, true)
    ensures var (id, e) := groups[k][pos[k]];
      Wins(groups, pos[k := pos[k] + 1], prior, SetDefault(records, id, e), true)
  {
    hide Drawn;
    var (id, e) := groups[k][pos[k]];
    var t := SetDefault(records, id, e);
    forall x | x in t.ids && x !in prior.ids
      ensures x in t.entries
      ensures exists i: nat, j: nat ::
        Extreme(groups, pos[k := pos[k] + 1], x, i, j, true) && groups[i][j].1 == t.entries[x]
    {
      if x in records.ids {
        var i: nat, j: nat :| Extreme(groups, pos, x, i, j, true) && groups[i][j].1 == records.entries[x];
        OtherWinner(groups, pos, exhausted, r, k, x, i, j, true);
      } else {
        NewestWins(groups, pos, exhausted, r, k, true);
      }
    }
  }

  function Longest<E>(groups: seq<Group<E>>): (n: nat)
    ensures forall i :: 0 <= i < |groups| ==> |groups[i]| <= n
  {
    if groups == [] then 0
    else
      var n := Longest(groups[1..]);
      assert forall i :: 0 < i < |groups| ==> groups[i] == groups[1..][i - 1];
      if |groups[0]| > n then |groups[0]| else n
  }

  function Indices(n: nat): (s: set<nat>)
    ensures |s| == n && forall i: nat :: i in s <==> i < n
  {
    if n == 0 then {} else Indices(n - 1) + {n - 1}
  }

  /** Fewer than |groups| exhausted means some group is not. */
  lemma {:induction false} SomeLeft<E>(groups: seq<Group<E>>, exhausted: set<nat>)
    requires forall i :: i in exhausted ==> i < |groups|
    ensures |exhausted| < |groups| <==> exists i: nat :: i < |groups| && i !in exhausted
  {
    var all := Indices(|groups|);
    assert exhausted <= all;
    if exists i: nat :: i < |groups| && i !in exhausted {
      var i: nat :| i < |groups| && i !in exhausted;
      Subset(exhausted, all - {i});
    } else {
      assert exhausted == all;
    }
  }

  lemma {:induction false} Subset<T>(a: set<T>, b: set<T>)
    requires a <= b
    ensures |a| <= |b|
  {
    assert b == a + (b - a);
  }

  // ---- how many come out ---------------------------------------------------------------------------------

  function SetOf(ids: seq<string>): set<string> {
    set id | id in ids
  }

  lemma {:induction false} DistinctCount(ids: seq<string>)
    requires NoDup(ids)
    ensures |SetOf(ids)| == |ids|
  {
    if ids != [] {
      NoDupTail(ids);
      DistinctCount(ids[1..]);
      assert SetOf(ids) == SetOf(ids[1..]) + {ids[0]};
    }
  }

  /** Every id there is to serve. */
  ghost predicate Available<E>(groups: seq<Group<E>>, prior: Records<E>, all: set<string>) {
    forall id :: id in all <==> id in prior.ids || Offered(groups, id)
  }

  lemma {:induction false} MergedCount<E>(
    groups: seq<Group<E>>, pos: seq<nat>, prior: Records<E>, records: Records<E>, cap: nat, all: set<string>)
    requires |pos| == |groups| && Gathered(groups, pos, prior, records) && Available(groups, prior, all)
    requires |records.ids| <= cap
    requires |records.ids| == cap || forall i :: 0 <= i < |groups| ==> pos[i] == |groups[i]|
    ensures |records.ids| == Min(cap, |all|)
  {
    DistinctCount(records.ids);
    forall id | id in SetOf(records.ids) ensures id in all {
      if Drawn(groups, pos, id) { assert Offered(groups, id); }
    }
    Subset(SetOf(records.ids), all);
    if |records.ids| != cap {
      forall id | id in all ensures id in SetOf(records.ids) {
        if Offered(groups, id) { assert Drawn(groups, pos, id); }
      }
      assert all == SetOf(records.ids);
    }
  }

  /** The merge of query_kernel. A round that draws nothing exhausts every group, so its progress flag
      decides nothing and is not kept here. It ends with min(cap, distinct ids) records, keeps the prior ones, and
      draws evenly. */
  method MergeLanes<E>(
    groups: seq<Group<E>>, prior: Records<E>, cap: nat) returns (records: Records<E>, ghost pos: seq<nat>)
    requires WellFormed(prior) && |prior.ids| <= cap
    ensures |pos| == |groups| && Gathered(groups, pos, prior, records) && Fair(groups, pos)
    ensures Wins(groups, pos, prior, records, true)
    ensures |records.ids| <= cap
    ensures forall all :: Available(groups, prior, all) ==> |records.ids| == Min(cap, |all|)
  {
    hide Gathered, Drawn, Wins;
    records := prior;
    var drawn := seq<nat>(|groups|, i => 0);
    var exhausted: set<nat> := {};
    ghost var r, k := 0, 0;
    NothingDrawn(groups, drawn, prior);
    SomeLeft(groups, exhausted);
    while |exhausted| < |groups| && |records.ids| < cap
      invariant Even(groups, drawn, exhausted, r, k) && (k != 0 ==> |records.ids| == cap)
      invariant Gathered(groups, drawn, prior, records) && |records.ids| <= cap && r <= Longest(groups) + 1
      invariant Wins(groups, drawn, prior, records, true)
      invariant |exhausted| < |groups| <==> exists i: nat :: i < |groups| && i !in exhausted
      decreases Longest(groups) + 2 - r, |groups| - k
    {
      exhausted, drawn, records, k := Round(groups, prior, cap, exhausted, drawn, records, r);
      if k == |groups| { r, k := r + 1, 0; }
      SomeLeft(groups, exhausted);
    }
    pos := drawn;
    EvenFair(groups, pos, exhausted, r, k);
    forall all | Available(groups, prior, all) ensures |records.ids| == Min(cap, |all|) {
      MergedCount(groups, pos, prior, records, cap, all);
    }
  }

  lemma {:induction false} NothingDrawn<E>(groups: seq<Group<E>>, pos: seq<nat>, prior: Records<E>)
    requires |pos| == |groups| && WellFormed(prior) && forall i :: 0 <= i < |pos| ==> pos[i] == 0
    ensures Gathered(groups, pos, prior, prior) && forall first :: Wins(groups, pos, prior, prior, first)
  {
  }

  /** One round over the groups; it stops at the cap. */
  method Round<E>(
    groups: seq<Group<E>>, prior: Records<E>, cap: nat, exhausted0: set<nat>, drawn0: seq<nat>, records0: Records<E>,
    ghost r: nat)
    returns (exhausted: set<nat>, drawn: seq<nat>, records: Records<E>, ghost k: nat)
    requires Even(groups, drawn0, exhausted0, r, 0) && Gathered(groups, drawn0, prior, records0) && |records0.ids| < cap
    requires Wins(groups, drawn0, prior, records0, true)
    ensures Even(groups, drawn, exhausted, r, k) && Gathered(groups, drawn, prior, records) && |records.ids| <= cap
    ensures Wins(groups, drawn, prior, records, true)
    ensures 0 < k || groups == []
    ensures k != |groups| ==> |records.ids| == cap
  {
    hide Gathered, Drawn, Wins;
    exhausted, drawn, records := exhausted0, drawn0, records0;
    var index := 0;
    while index < |groups|
      invariant index <= |groups| && Even(groups, drawn, exhausted, r, index)
      invariant Gathered(groups, drawn, prior, records) && |records.ids| < cap
      invariant Wins(groups, drawn, prior, records, true)
    {
      if index !in exhausted {
        if drawn[index] == |groups[index]| {
          exhausted := exhausted + {index};
        } else {
          GatherOne(groups, drawn, prior, records, index);
          FirstStays(groups, drawn, exhausted, r, prior, records, index);
          records := SetDefault(records, groups[index][drawn[index]].0, groups[index][drawn[index]].1);
          drawn := drawn[index := drawn[index] + 1];
          if |records.ids| >= cap {
            k := index + 1;
            return;
          }
        }
      }
      index := index + 1;
    }
    k := index;
  }

  // ---- stores ----------------------------------------------------------------------------------------

  const PUBLIC_STORE := "gpu_wiki"

  /** A served record: its store, its raw id there, and the entry. */
  datatype Served<E> = Served(store: string, rid: string, raw: E)

  function ServedId(store: string, rid: string): string {
    if store == PUBLIC_STORE then rid else store + "::" + rid
  }

  /** The records of one store under their served ids. */
  function Serve<E>(store: string, records: Group<E>): (g: Group<Served<E>>)
    ensures |g| == |records|
    ensures forall j :: 0 <= j < |g| ==>
      g[j] == (ServedId(store, records[j].0), Served(store, records[j].0, records[j].1))
  {
    seq(|records|,
      j requires 0 <= j < |records| => (ServedId(store, records[j].0), Served(store, records[j].0, records[j].1)))
  }

  function ServeAll<E>(stores: seq<(string, Group<E>)>): (gs: seq<Group<Served<E>>>)
    ensures |gs| == |stores| && forall i :: 0 <= i < |gs| ==> gs[i] == Serve(stores[i].0, stores[i].1)
  {
    seq(|stores|, i requires 0 <= i < |stores| => Serve(stores[i].0, stores[i].1))
  }

  /** Each store once. */
  ghost predicate DistinctStores<E>(stores: seq<(string, Group<E>)>) {
    forall i, j :: 0 <= i < j < |stores| ==> stores[i].0 != stores[j].0
  }

  /** Assignment keeps the last entry. */
  lemma {:induction false} LastStays<E>(
    groups: seq<Group<E>>, pos: seq<nat>, exhausted: set<nat>, r: nat, records: Records<E>, k: nat)
    requires Even(groups, pos, exhausted, r, k) && k < |groups| && pos[k] < |groups[k]|
    requires Gathered(groups, pos, Nothing(), records) && Wins(groups, pos, Nothing(), records, false)
    ensures var (id, e) := groups[k][pos[k]];
      Wins(groups, pos[k := pos[k] + 1], Nothing(), Assign(records, id, e), false)
  {
    hide Drawn;
    var (id, e) := groups[k][pos[k]];
    var t := Assign(records, id, e);
    forall x | x in t.ids
      ensures x in t.entries
      ensures exists i: nat, j: nat ::
        Extreme(groups, pos[k := pos[k] + 1], x, i, j, false) && groups[i][j].1 == t.entries[x]
    {
      if x == id {
        NewestWins(groups, pos, exhausted, r, k, false);
      } else {
        var i: nat, j: nat :| Extreme(groups, pos, x, i, j, false) && groups[i][j].1 == records.entries[x];
        OtherWinner(groups, pos, exhausted, r, k, x, i, j, false);
      }
    }
  }

  /** merged[id] = e. */
  function Assign<E>(r: Records<E>, id: string, e: E): (t: Records<E>)
    ensures WellFormed(r) ==> WellFormed(t)
    ensures forall x :: x in t.ids <==> x in r.ids || x == id
  {
    assert NoDup(r.ids) && id !in r.ids ==> NoDup(r.ids + [id]);
    Records(if id in r.ids then r.ids else r.ids + [id], r.entries[id := e])
  }

  function Nothing<E>(): Records<E> {
    Records([], map[])
  }

  lemma {:induction false} AssignOne<E>(groups: seq<Group<E>>, pos: seq<nat>, records: Records<E>, k: nat)
    requires |pos| == |groups| && k < |groups| && pos[k] < |groups[k]| && Gathered(groups, pos, Nothing(), records)
    ensures Gathered(groups, pos[k := pos[k] + 1], Nothing(), Assign(records, groups[k][pos[k]].0, groups[k][pos[k]].1))
  {
    hide Drawn;
    var (id, e) := groups[k][pos[k]];
    var t := Assign(records, id, e);
    forall x
      ensures x in t.ids <==> x in Nothing<E>().ids || Drawn(groups, pos[k := pos[k] + 1], x)
    {
      DrawOne(groups, pos, k, x);
    }
    forall x | x in t.ids
      ensures exists i, j :: 0 <= i < |groups| && 0 <= j < |groups[i]| && groups[i][j] == (x, t.entries[x])
    {
      if x == id {
        assert groups[k][pos[k]] == (x, t.entries[x]);
      } else {
        var i, j :| 0 <= i < |groups| && 0 <= j < |groups[i]| && groups[i][j] == (x, records.entries[x]);
        assert groups[i][j] == (x, t.entries[x]);
      }
    }
  }

  function Total<E>(groups: seq<Group<E>>): nat {
    if groups == [] then 0 else |groups[0]| + Total(groups[1..])
  }

  /** All ids offered, group by group. */
  function Roll<E>(groups: seq<Group<E>>): (ids: seq<string>)
    ensures |ids| == Total(groups)
  {
    if groups == [] then [] else seq(|groups[0]|, j requires 0 <= j < |groups[0]| => groups[0][j].0) + Roll(groups[1..])
  }

  lemma {:induction false} RollOffers<E>(groups: seq<Group<E>>, id: string)
    ensures id in Roll(groups) <==> Offered(groups, id)
  {
    if groups != [] {
      RollOffers(groups[1..], id);
      var head := seq(|groups[0]|, j requires 0 <= j < |groups[0]| => groups[0][j].0);
      if id in head {
        var j :| 0 <= j < |head| && head[j] == id;
        assert groups[0][j].0 == id;
      }
      if Offered(groups[1..], id) {
        var i, j :| 0 <= i < |groups[1..]| && 0 <= j < |groups[1..][i]| && groups[1..][i][j].0 == id;
        assert groups[i + 1][j].0 == id;
      }
      if Offered(groups, id) {
        var i, j :| 0 <= i < |groups| && 0 <= j < |groups[i]| && groups[i][j].0 == id;
        if i == 0 { assert head[j] == id; } else { assert groups[1..][i - 1][j].0 == id; }
      }
    }
  }

  /** A list is as long as its set of elements exactly when nothing repeats. */
  lemma {:induction false} CountIffDistinct(ids: seq<string>)
    ensures |SetOf(ids)| <= |ids| && (|SetOf(ids)| == |ids| <==> NoDup(ids))
  {
    if ids != [] {
      CountIffDistinct(ids[1..]);
      assert SetOf(ids) == SetOf(ids[1..]) + {ids[0]};
      if ids[0] in ids[1..] {
        assert SetOf(ids) == SetOf(ids[1..]);
        var k :| 0 <= k < |ids[1..]| && ids[1..][k] == ids[0];
        assert ids[k + 1] == ids[0];
      } else {
        if NoDup(ids[1..]) { NoDupCons(ids[0], ids[1..]); assert [ids[0]] + ids[1..] == ids; }
        if NoDup(ids) { NoDupTail(ids); }
      }
    }
  }

  /** merge_store_records: served ids up to the cap, evenly drawn; a reached cap reports what is left. */
  method MergeStores<E>(
    stores: seq<(string, Group<E>)>,
    maxRecords: nat) returns (merged: Records<Served<E>>, dropped: nat, ghost pos: seq<nat>)
    requires DistinctStores(stores)
    ensures |pos| == |stores| && Gathered(ServeAll(stores), pos, Nothing(), merged) && Fair(ServeAll(stores), pos)
    ensures Wins(ServeAll(stores), pos, Nothing(), merged, false)
    ensures |merged.ids| == ServedCount(stores, maxRecords)
    ensures dropped == DroppedCount(stores, maxRecords)
  {
    hide Gathered, Drawn, Wins, Fair, Roll, Total, SetOf, ServeAll, DistinctStores, Longest,
      ServedCount, DroppedCount;
    var groups := ServeAll(stores);
    merged, dropped := Nothing(), 0;
    var drawn := seq<nat>(|groups|, i => 0);
    var exhausted: set<nat> := {};
    ghost var r := 0;
    NothingDrawn(groups, drawn, Nothing<Served<E>>());
    SomeLeft(groups, exhausted);
    while |exhausted| < |groups|
      invariant Even(groups, drawn, exhausted, r, 0) && r <= Longest(groups) + 1
      invariant Gathered(groups, drawn, Nothing(), merged) && (maxRecords > 0 ==> |merged.ids| < maxRecords)
      invariant Wins(groups, drawn, Nothing(), merged, false)
      invariant |exhausted| < |groups| <==> exists i: nat :: i < |groups| && i !in exhausted
      decreases Longest(groups) + 2 - r
    {
      var full;
      ghost var k;
      full, exhausted, drawn, merged, k := StoreRound(groups, maxRecords, exhausted, drawn, merged, r);
      if full {
        pos := drawn;
        EvenFair(groups, pos, exhausted, r, k);
        CappedCount(stores, maxRecords, pos, merged);
        dropped := Total(groups) - |merged.ids|;
        return;
      }
      r := r + 1;
      SomeLeft(groups, exhausted);
    }
    pos := drawn;
    EvenFair(groups, pos, exhausted, r, 0);
    UncappedCount(stores, maxRecords, pos, merged);
  }

  /** What a merge that reached its cap has served and dropped. */
  lemma {:induction false} CappedCount<E>(
    stores: seq<(string, Group<E>)>, maxRecords: nat, pos: seq<nat>, merged: Records<Served<E>>)
    requires |pos| == |ServeAll(stores)| && Gathered(ServeAll(stores), pos, Nothing(), merged)
    requires |merged.ids| == maxRecords > 0
    ensures |merged.ids| == ServedCount(stores, maxRecords) <= Total(ServeAll(stores))
    ensures Total(ServeAll(stores)) - |merged.ids| == DroppedCount(stores, maxRecords)
  {
    hide Gathered, ServeAll, Total, Roll, SetOf;
    StoresCount(ServeAll(stores), pos, merged, maxRecords);
  }

  /** One that drew everything without reaching it drops nothing. */
  lemma {:induction false} UncappedCount<E>(
    stores: seq<(string, Group<E>)>, maxRecords: nat, pos: seq<nat>, merged: Records<Served<E>>)
    requires |pos| == |ServeAll(stores)| && Gathered(ServeAll(stores), pos, Nothing(), merged)
    requires forall i :: 0 <= i < |pos| ==> pos[i] == |ServeAll(stores)[i]|
    requires maxRecords > 0 ==> |merged.ids| < maxRecords
    ensures |merged.ids| == ServedCount(stores, maxRecords) && DroppedCount(stores, maxRecords) == 0
  {
    hide Gathered, ServeAll, Total, Roll, SetOf;
    StoresCount(ServeAll(stores), pos, merged,
      if maxRecords == 0 then |merged.ids| + Total(ServeAll(stores)) + 1 else maxRecords);
  }

  lemma {:induction false} StoresCount<E>(groups: seq<Group<E>>, pos: seq<nat>, merged: Records<E>, cap: nat)
    requires |pos| == |groups| && Gathered(groups, pos, Nothing(), merged)
    requires |merged.ids| <= cap && (|merged.ids| == cap || forall i :: 0 <= i < |groups| ==> pos[i] == |groups[i]|)
    ensures |merged.ids| == Min(cap, |SetOf(Roll(groups))|) <= Total(groups)
    ensures |SetOf(Roll(groups))| <= Total(groups)
  {
    forall id ensures id in SetOf(Roll(groups)) <==> Offered(groups, id) { RollOffers(groups, id); }
    MergedCount(groups, pos, Nothing(), merged, cap, SetOf(Roll(groups)));
    CountIffDistinct(Roll(groups));
  }

  method StoreRound<E>(
    groups: seq<Group<E>>, maxRecords: nat, exhausted0: set<nat>, drawn0: seq<nat>, merged0: Records<E>, ghost r: nat)
    returns (full: bool, exhausted: set<nat>, drawn: seq<nat>, merged: Records<E>, ghost k: nat)
    requires Even(groups, drawn0, exhausted0, r, 0) && Gathered(groups, drawn0, Nothing(), merged0)
    requires maxRecords > 0 ==> |merged0.ids| < maxRecords
    requires Wins(groups, drawn0, Nothing(), merged0, false)
    ensures Even(groups, drawn, exhausted, r, k) && Gathered(groups, drawn, Nothing(), merged)
    ensures Wins(groups, drawn, Nothing(), merged, false)
    ensures full ==> |merged.ids| == maxRecords > 0
    ensures !full ==> k == |groups| && (maxRecords > 0 ==> |merged.ids| < maxRecords)
  {
    hide Gathered, Drawn, Wins;
    exhausted, drawn, merged := exhausted0, drawn0, merged0;
    var index := 0;
    while index < |groups|
      invariant index <= |groups| && Even(groups, drawn, exhausted, r, index)
      invariant Gathered(groups, drawn, Nothing(), merged) && (maxRecords > 0 ==> |merged.ids| < maxRecords)
      invariant Wins(groups, drawn, Nothing(), merged, false)
    {
      if index !in exhausted {
        if drawn[index] == |groups[index]| {
          exhausted := exhausted + {index};
        } else {
          AssignOne(groups, drawn, merged, index);
          LastStays(groups, drawn, exhausted, r, merged, index);
          merged := Assign(merged, groups[index][drawn[index]].0, groups[index][drawn[index]].1);
          drawn := drawn[index := drawn[index] + 1];
          if maxRecords > 0 && |merged.ids| >= maxRecords {
            return true, exhausted, drawn, merged, index + 1;
          }
        }
      }
      index := index + 1;
    }
    full, k := false, index;
  }

  // ---- nothing is lost --------------------------------------------------------------------------------------

  /** min(cap, distinct served ids), and no cap when it is 0. */
  function ServedCount<E>(stores: seq<(string, Group<E>)>, maxRecords: nat): nat {
    var distinct := |SetOf(Roll(ServeAll(stores)))|;
    if maxRecords == 0 || distinct < maxRecords then distinct else maxRecords
  }

  /** What a reached cap leaves behind. */
  function DroppedCount<E>(stores: seq<(string, Group<E>)>, maxRecords: nat): int {
    if maxRecords > 0 && ServedCount(stores, maxRecords) == maxRecords then Total(ServeAll(stores)) - maxRecords else 0
  }

  /** Without a reached cap, served plus dropped is the total exactly when no served id repeats. */
  lemma {:induction false} NothingLostIff<E>(stores: seq<(string, Group<E>)>, maxRecords: nat)
    ensures ServedCount(stores, maxRecords) + DroppedCount(stores, maxRecords) == Total(ServeAll(stores))
      <==> (NoDup(Roll(ServeAll(stores))) || (maxRecords > 0 && ServedCount(stores, maxRecords) == maxRecords))
  {
    CountIffDistinct(Roll(ServeAll(stores)));
  }

  /** The same id offered at two places. */
  ghost predicate Clash<E>(groups: seq<Group<E>>, i: nat, j: nat, i': nat, j': nat) {
    && i < |groups| && j < |groups[i]| && i' < |groups| && j' < |groups[i']|
    && (i < i' || (i == i' && j < j')) && groups[i][j].0 == groups[i'][j'].0
  }

  lemma {:induction false} RollRepeats<E>(groups: seq<Group<E>>)
    ensures NoDup(Roll(groups)) <==> forall i, j, i', j' :: !Clash(groups, i, j, i', j')
  {
    if groups != [] {
      var head := seq(|groups[0]|, j requires 0 <= j < |groups[0]| => groups[0][j].0);
      var rest := Roll(groups[1..]);
      assert Roll(groups) == head + rest;
      RollRepeats(groups[1..]);
      if NoDup(Roll(groups)) {
        forall i, j, i', j' ensures !Clash(groups, i, j, i', j') {
          if Clash(groups, i, j, i', j') { ClashRepeats(groups, head, rest, i, j, i', j'); }
        }
      } else {
        var a, b :| 0 <= a < b < |head + rest| && (head + rest)[a] == (head + rest)[b];
        if b < |head| {
          assert Clash(groups, 0, a, 0, b);
        } else if a >= |head| {
          assert rest[a - |head|] == rest[b - |head|];
          var i: nat, j: nat, i': nat, j': nat :| Clash(groups[1..], i, j, i', j');
          assert Clash(groups, i + 1, j, i' + 1, j');
        } else {
          assert rest[b - |head|] in rest;
          RollOffers(groups[1..], rest[b - |head|]);
          var i, j :| 0 <= i < |groups[1..]| && 0 <= j < |groups[1..][i]| && groups[1..][i][j].0 == rest[b - |head|];
          assert Clash(groups, 0, a, i + 1, j);
        }
      }
    }
  }

  lemma {:induction false} ClashRepeats<E>(
    groups: seq<Group<E>>, head: seq<string>, rest: seq<string>, i: nat, j: nat, i': nat, j': nat)
    requires groups != [] && rest == Roll(groups[1..])
    requires head == seq(|groups[0]|, k requires 0 <= k < |groups[0]| => groups[0][k].0)
    requires Clash(groups, i, j, i', j') && (NoDup(rest) ==> forall a, b, a', b' :: !Clash(groups[1..], a, b, a', b'))
    ensures !NoDup(head + rest)
  {
    var all := head + rest;
    if i > 0 {
      assert Clash(groups[1..], i - 1, j, i' - 1, j');
      var a, b :| 0 <= a < b < |rest| && rest[a] == rest[b];
      assert all[|head| + a] == all[|head| + b];
    } else if i' == 0 {
      assert all[j] == all[j'];
    } else {
      var id := groups[i'][j'].0;
      assert groups[1..][i' - 1][j'].0 == id;
      RollOffers(groups[1..], id);
      var b :| 0 <= b < |rest| && rest[b] == id;
      assert all[j] == all[|head| + b];
    }
  }

  // ---- when served ids are unique ------------------------------------------------------------------------------

  ghost predicate ColonFree(s: string) {
    forall i :: 0 <= i < |s| ==> s[i] != ':'
  }

  /** Store names as the source spells them, every store once, every raw id once per store. */
  ghost predicate ProperStores<E>(stores: seq<(string, Group<E>)>) {
    && DistinctStores(stores)
    && (forall i :: 0 <= i < |stores| ==> ColonFree(stores[i].0))
    && (forall i, j, k :: 0 <= i < |stores| && 0 <= j < k < |stores[i].1| ==> stores[i].1[j].0 != stores[i].1[k].0)
  }

  /** A public raw id that spells the namespaced id of another store's record. */
  ghost predicate Shadows<E>(stores: seq<(string, Group<E>)>, p: nat, j: nat, i: nat, k: nat) {
    && p < |stores| && stores[p].0 == PUBLIC_STORE && j < |stores[p].1|
    && i < |stores| && i != p && k < |stores[i].1|
    && stores[p].1[j].0 == stores[i].0 + "::" + stores[i].1[k].0
  }

  lemma {:induction false} NamespaceDecodes(s: string, r: string, s': string, r': string)
    requires ColonFree(s) && ColonFree(s') && s + "::" + r == s' + "::" + r'
    ensures s == s' && r == r'
  {
    var a, b := s + "::" + r, s' + "::" + r';
    assert a[|s|] == ':' && b[|s'|] == ':';
    assert |s| == |s'|;
    assert a[..|s|] == s && b[..|s'|] == s';
    assert a[|s| + 2..] == r && b[|s'| + 2..] == r';
  }

  /** Main result: over proper stores no served id repeats, and so nothing is lost, exactly when no
      public id spells another store's namespaced id. */
  lemma {:induction false} ServedUniqueIff<E>(stores: seq<(string, Group<E>)>)
    requires ProperStores(stores)
    ensures NoDup(Roll(ServeAll(stores))) <==> forall p, j, i, k :: !Shadows(stores, p, j, i, k)
  {
    var groups: seq<Group<Served<E>>> := ServeAll(stores);
    RollRepeats(groups);
    if p: nat, j: nat, i: nat, k: nat :| Shadows(stores, p, j, i, k) {
      assert stores[i].0 != PUBLIC_STORE by {
        if i < p { assert stores[i].0 != stores[p].0; } else { assert stores[p].0 != stores[i].0; }
      }
      assert ServedId(PUBLIC_STORE, stores[p].1[j].0) == ServedId(stores[i].0, stores[i].1[k].0);
      if p < i { assert Clash(groups, p, j, i, k); } else { assert Clash(groups, i, k, p, j); }
    }
    if i: nat, j: nat, i': nat, j': nat :| Clash(groups, i, j, i', j') {
      ClashShadows(stores, i, j, i', j');
    }
  }

  lemma {:induction false} ClashShadows<E>(stores: seq<(string, Group<E>)>, i: nat, j: nat, i': nat, j': nat)
    requires ProperStores(stores) && Clash(ServeAll(stores), i, j, i', j')
    ensures exists p, q, m, k :: Shadows(stores, p, q, m, k)
  {
    var a, b := stores[i], stores[i'];
    var r, r' := a.1[j].0, b.1[j'].0;
    assert ServedId(a.0, r) == ServedId(b.0, r');
    if i == i' {
      if a.0 != PUBLIC_STORE { NamespaceDecodes(a.0, r, a.0, r'); }
    } else if a.0 == PUBLIC_STORE {
      assert Shadows(stores, i, j, i', j');
    } else if b.0 == PUBLIC_STORE {
      assert Shadows(stores, i', j', i, j);
    } else {
      NamespaceDecodes(a.0, r, b.0, r');
    }
  }
}
