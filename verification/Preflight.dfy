/** The duplicate-provider preflight of src/aka/core/boot.py, and the unique-provider premise it
    supplies to settling. */
module Preflight {
  import opened Registry
  import opened Runtime
  import opened Rows
  import opened Convergence

  /** Row k is enabled, resolved, and declares a shared (not isolated) service s. */
  predicate Claims(rows: seq<Row>, k: nat, s: Name) {
    k < |rows| && s in rows[k].decl.provide && s !in rows[k].isolated
  }

  /** Two rows claim the same single-implementation service. */
  ghost predicate Contested(rows: seq<Row>, single: set<Name>, s: Name) {
    s in single && exists j: nat, k: nat :: j < k && Claims(rows, j, s) && Claims(rows, k, s)
  }

  /** The claims of a name, by row, in order. */
  function Claimants(rows: seq<Row>, s: Name): (c: seq<nat>)
    ensures forall i :: 0 <= i < |c| ==> Claims(rows, c[i], s)
    ensures forall i, j :: 0 <= i < j < |c| ==> c[i] < c[j]
    ensures forall k :: Claims(rows, k, s) ==> k in c
  {
    if rows == [] then []
    else
      var n := |rows| - 1;
      var before := Claimants(rows[..n], s);
      assert forall i :: 0 <= i < |before| ==> Claims(rows[..n], before[i], s);
      assert forall k :: Claims(rows, k, s) ==> k == n || Claims(rows[..n], k, s);
      if Claims(rows, n, s) then before + [n] else before
  }

  ghost predicate Tallied(rows: seq<Row>, collisions: map<Name, seq<nat>>) {
    forall s :: if s in collisions then collisions[s] == Claimants(rows, s) else Claimants(rows, s) == []
  }

  /** One row's claims added to the tally. */
  method CountRow(rows: seq<Row>, i: nat, before: map<Name, seq<nat>>) returns (after: map<Name, seq<nat>>)
    requires i < |rows|
    ensures forall s :: if Claims(rows, i, s)
      then s in after && after[s] == (if s in before then before[s] else []) + [i]
      else if s in before then s in after && after[s] == before[s]
      else s !in after
  {
    after := before;
    var left := rows[i].decl.provide;
    while left != {}
      invariant left <= rows[i].decl.provide
      invariant forall s :: if Claims(rows, i, s) && s !in left
        then s in after && after[s] == (if s in before then before[s] else []) + [i]
        else if s in before then s in after && after[s] == before[s]
        else s !in after
      decreases left
    {
      var s :| s in left;
      left := left - {s};
      if s !in rows[i].isolated {
        after := after[s := (if s in after then after[s] else []) + [i]];
      }
    }
  }

  /** The collisions dictionary of _prepare, and the services it refuses the boot for. */
  method FindDuplicates(rows: seq<Row>, single: set<Name>) returns (duplicates: set<Name>)
    ensures forall s :: s in duplicates <==> Contested(rows, single, s)
  {
    var collisions: map<Name, seq<nat>> := map[];
    var i := 0;
    while i < |rows|
      invariant i <= |rows|
      invariant Tallied(rows[..i], collisions)
    {
      collisions := CountRow(rows, i, collisions);
      assert rows[..i + 1][..i] == rows[..i];
      forall s
        ensures Claimants(rows[..i + 1], s) == Claimants(rows[..i], s) + if Claims(rows, i, s) then [i] else []
      {
      }
      i := i + 1;
    }
    assert rows[..i] == rows;
    duplicates := set s | s in collisions && s in single && |collisions[s]| > 1;
    forall s ensures s in duplicates <==> Contested(rows, single, s) { TwoClaimants(rows, single, s, collisions); }
  }

  lemma {:induction false} TwoClaimants(rows: seq<Row>, single: set<Name>, s: Name, collisions: map<Name, seq<nat>>)
    requires Tallied(rows, collisions)
    ensures s in collisions && s in single && |collisions[s]| > 1 <==> Contested(rows, single, s)
  {
    var c := Claimants(rows, s);
    if |c| > 1 {
      assert Claims(rows, c[0], s) && Claims(rows, c[1], s);
    }
    if j: nat, k: nat :| j < k && Claims(rows, j, s) && Claims(rows, k, s) {
      assert j in c && k in c;
    }
  }

  /** A service that may have several implementations in one root, declared unisolated by two rows: the
      preflight lets it pass, the realm does not. */
  ghost predicate Doubled(rows: seq<Row>, single: set<Name>, s: Name) {
    s !in single && exists j: nat, k: nat :: j < k && Claims(rows, j, s) && Claims(rows, k, s)
  }

  /** Row k may provide the service in the shared realm. */
  ghost predicate Hands(rows: seq<Row>, k: nat, s: Name) {
    k < |rows| && s in rows[k].may && s !in rows[k].isolated
  }

  /** Two rows may provide the service in the shared realm, and one of them does not say so: its declaration
      is all the preflight reads, but a realm and a context accept an undeclared name. */
  ghost predicate Smuggled(rows: seq<Row>, s: Name) {
    exists j: nat, k: nat ::
      j < k && Hands(rows, j, s) && Hands(rows, k, s) && !(Claims(rows, j, s) && Claims(rows, k, s))
  }

  /** Main result: when the preflight refuses nothing and no other service is declared twice in the shared
      realm, the unique-provider premise holds exactly when no two rows may provide one service there of which
      one does not declare it. For rows that may provide what they declare, the three together are exactly that
      premise. */
  lemma {:induction false} PreflightMeansComposed(rows: seq<Row>, single: set<Name>)
    requires forall u: Uid, v: Uid :: u < v < |rows| ==> rows[u].entry != rows[v].entry
    requires forall u: Uid :: u < |rows| ==> rows[u].WellFormed()
    ensures (forall s :: !Contested(rows, single, s) && !Doubled(rows, single, s)) ==>
      (Composed(rows) <==> forall s :: !Smuggled(rows, s))
    ensures (forall u: Uid :: u < |rows| ==> rows[u].decl.provide <= rows[u].may) ==>
      (Composed(rows) <==>
        forall s :: !Contested(rows, single, s) && !Doubled(rows, single, s) && !Smuggled(rows, s))
  {
    if Composed(rows) {
      forall s, j: nat, k: nat | j < k < |rows| ensures !(Hands(rows, j, s) && Hands(rows, k, s)) {
        if s !in rows[j].isolated && s !in rows[k].isolated {
          assert KeyOf(rows[j], s) == KeyOf(rows[k], s);
        }
      }
      forall k: nat, s | Claims(rows, k, s) && rows[k].decl.provide <= rows[k].may ensures Hands(rows, k, s) { }
    } else {
      var u, v, n := Clash(rows);
      assert Contested(rows, single, n) || Doubled(rows, single, n) || Smuggled(rows, n);
    }
  }

  /** Rows that are not composed clash over a shared service. */
  lemma {:induction false} Clash(rows: seq<Row>) returns (u: Uid, v: Uid, n: Name)
    requires forall u: Uid, v: Uid :: u < v < |rows| ==> rows[u].entry != rows[v].entry
    requires forall u: Uid :: u < |rows| ==> rows[u].WellFormed()
    requires !Composed(rows)
    ensures u < v && Hands(rows, u, n) && Hands(rows, v, n)
  {
    u, v, n :| u < |rows| && v < |rows| && n in rows[u].may && n in rows[v].may
      && KeyOf(rows[u], n) == KeyOf(rows[v], n) && u != v;
    if v < u { u, v := v, u; }
    assert rows[u].entry != rows[v].entry;
  }

  /** Two rows that both declare and provide a service of many implementations pass the preflight and
      still break the premise: the second provide is refused. */
  lemma {:induction false} PreflightMissesDoubles()
    ensures var d := Decl([], [], {"skills"}, false);
      var rows := [Plain("a", d, {}, ["skills"]), Plain("b", d, {}, ["skills"])];
      (forall s :: !Contested(rows, {}, s)) && Doubled(rows, {}, "skills") && !Composed(rows)
  {
    var d := Decl([], [], {"skills"}, false);
    var rows := [Plain("a", d, {}, ["skills"]), Plain("b", d, {}, ["skills"])];
    assert Claims(rows, 0, "skills") && Claims(rows, 1, "skills");
    assert "skills" in rows[0].may && "skills" in rows[1].may
      && KeyOf(rows[0], "skills") == KeyOf(rows[1], "skills");
  }

  /** So do two rows that provide a service neither declares, whatever the cardinalities. */
  lemma {:induction false} PreflightMissesUndeclared(single: set<Name>)
    ensures var d := Decl([], [], {}, false);
      var rows := [Plain("a", d, {}, ["x"]), Plain("b", d, {}, ["x"])];
      && (forall s :: !Contested(rows, single, s) && !Doubled(rows, single, s))
      && Smuggled(rows, "x") && !Composed(rows)
  {
    var d := Decl([], [], {}, false);
    var rows := [Plain("a", d, {}, ["x"]), Plain("b", d, {}, ["x"])];
    assert Hands(rows, 0, "x") && Hands(rows, 1, "x") && !Claims(rows, 0, "x");
    assert KeyOf(rows[0], "x") == KeyOf(rows[1], "x");
  }
}
