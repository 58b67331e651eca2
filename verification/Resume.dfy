/** The composition lock of src/aka/core/lock.py: what a resumed run may differ in. */
module Resume {
  import opened Lists

  datatype Value = Text(text: string) | Names(names: seq<string>)

  /** A recorded row: every field but its id. */
  type Fields = map<string, Value>

  datatype Entry = Entry(id: string, fields: Fields)

  datatype Lock = Lock(entries: seq<Entry>, globals: map<string, Value>)

  const GLOBAL_FIELDS := ["core_version", "core_digest", "tokens", "variables_digest"]

  datatype Kind = Added | Removed | Changed | Global

  datatype Difference = Difference(id: string, fields: set<string>, kind: Kind)

  /** {entry["id"]: entry ...}: a later entry replaces an earlier one. */
  function ById(entries: seq<Entry>): (m: map<string, Fields>) {
    if entries == [] then map[]
    else ById(entries[..|entries| - 1])[entries[|entries| - 1].id := entries[|entries| - 1].fields]
  }

  function Get(m: map<string, Value>, key: string): Option<Value> {
    if key in m then Some(m[key]) else None
  }

  /** The keys present on one side only or with different values. */
  function Differing(before: Fields, after: Fields): (s: set<string>)
    ensures forall k :: k in s <==> Get(before, k) != Get(after, k)
  {
    set k | k in before.Keys + after.Keys && Get(before, k) != Get(after, k)
  }

  function FieldsOf(m: map<string, Fields>, id: string): Fields {
    if id in m then m[id] else map[]
  }

  // ---- the records -----------------------------------------------------------------------------------

  /** The record of a row id that is on one side only or differs. */
  ghost predicate RowRecord(a: Lock, b: Lock, d: Difference) {
    var stored, current := ById(a.entries), ById(b.entries);
    && (d.id in stored || d.id in current) && !(d.id in stored && d.id in current && stored[d.id] == current[d.id])
    && d.fields == Differing(FieldsOf(stored, d.id), FieldsOf(current, d.id))
    && d.kind == (if d.id !in stored then Added else if d.id !in current then Removed else Changed)
  }

  ghost predicate GlobalRecord(a: Lock, b: Lock, d: Difference) {
    && d.kind == Global
    && exists f :: f in GLOBAL_FIELDS && d == Difference("", {f}, Global) && Get(a.globals, f) != Get(b.globals, f)
  }

  /** _difference_records. */
  method DifferenceRecords(a: Lock, b: Lock) returns (records: seq<Difference>)
    ensures forall d :: d in records <==> RowRecord(a, b, d) || GlobalRecord(a, b, d)
  {
    var stored, current := ById(a.entries), ById(b.entries);
    records := [];
    var left := stored.Keys + current.Keys;
    while left != {}
      invariant left <= stored.Keys + current.Keys
      invariant forall d :: d in records <==> RowRecord(a, b, d) && d.id !in left
      decreases left
    {
      var id :| id in left;
      left := left - {id};
      if !(id in stored && id in current && stored[id] == current[id]) {
        var kind := if id !in stored then Added else if id !in current then Removed else Changed;
        records := records + [Difference(id, Differing(FieldsOf(stored, id), FieldsOf(current, id)), kind)];
      }
    }
    ghost var rows := records;
    var i := 0;
    while i < |GLOBAL_FIELDS|
      invariant i <= |GLOBAL_FIELDS|
      invariant forall d :: d in records <==>
        RowRecord(a, b, d) || (GlobalRecord(a, b, d) && exists j :: 0 <= j < i && d.fields == {GLOBAL_FIELDS[j]})
    {
      var f := GLOBAL_FIELDS[i];
      if Get(a.globals, f) != Get(b.globals, f) {
        assert GlobalRecord(a, b, Difference("", {f}, Global));
        records := records + [Difference("", {f}, Global)];
      } else {
        forall d | GlobalRecord(a, b, d) ensures d.fields != {f} {
          var g :| g in GLOBAL_FIELDS && d == Difference("", {g}, Global) && Get(a.globals, g) != Get(b.globals, g);
          assert g in {g} && g != f;
        }
      }
      i := i + 1;
    }
    forall d | GlobalRecord(a, b, d) ensures exists j :: 0 <= j < |GLOBAL_FIELDS| && d.fields == {GLOBAL_FIELDS[j]} {
      var g :| g in GLOBAL_FIELDS && d == Difference("", {g}, Global);
      var j :| 0 <= j < |GLOBAL_FIELDS| && GLOBAL_FIELDS[j] == g;
    }
  }

  // ---- acceptance ------------------------------------------------------------------------------------

  predicate Strict(e: Fields) {
    "resume_policy" !in e || e["resume_policy"] == Text("strict")
  }

  function Observational(e: Fields): set<string> {
    if "observational_fields" in e && e["observational_fields"].Names?
    then set n | n in e["observational_fields"].names
    else {}
  }

  /** A record that stops a resume. */
  predicate Sensitive(stored: map<string, Fields>, current: map<string, Fields>, d: Difference) {
    || d.kind != Changed
    || Strict(FieldsOf(stored, d.id)) || Strict(FieldsOf(current, d.id))
    || !(d.fields <= Observational(FieldsOf(stored, d.id)) * Observational(FieldsOf(current, d.id)))
  }

  ghost predicate Accepts(a: Lock, b: Lock) {
    forall d :: RowRecord(a, b, d) || GlobalRecord(a, b, d) ==> !Sensitive(ById(a.entries), ById(b.entries), d)
  }

  /** The resume branch of reconcile. */
  method Reconcile(stored: Option<Lock>, current: Lock) returns (accepted: bool, records: seq<Difference>)
    ensures accepted <==> stored.Some? && Accepts(stored.value, current)
    ensures accepted ==> forall d :: d in records <==>
      RowRecord(stored.value, current, d) || GlobalRecord(stored.value, current, d)
  {
    records := [];
    if stored.None? { return false, records; }
    records := DifferenceRecords(stored.value, current);
    var stored, current := ById(stored.value.entries), ById(current.entries);
    var sensitive: seq<Difference> := [];
    var i := 0;
    while i < |records|
      invariant i <= |records|
      invariant sensitive == [] <==> forall j :: 0 <= j < i ==> !Sensitive(stored, current, records[j])
    {
      if Sensitive(stored, current, records[i]) { sensitive := sensitive + [records[i]]; }
      i := i + 1;
    }
    accepted := sensitive == [];
    assert forall j :: 0 <= j < |records| ==> records[j] in records;
  }

  // ---- the equivalence -------------------------------------------------------------------------------

  /** What declarations enforce: only `group` may be observational. */
  ghost predicate Limited(a: Lock) {
    var rows := ById(a.entries);
    forall id :: id in rows ==> Observational(rows[id]) <= {"group"}
  }

  /** A row whose group may change between runs. */
  predicate GroupFree(e: Fields) {
    !Strict(e) && "group" in Observational(e)
  }

  ghost predicate SameRow(e: Fields, f: Fields) {
    e == f || (GroupFree(e) && GroupFree(f) && e - {"group"} == f - {"group"})
  }

  /** The same row ids, the same globals, and the same fields up to the group of group-free rows. */
  ghost predicate Agree(a: Lock, b: Lock) {
    var x, y := ById(a.entries), ById(b.entries);
    && (forall f :: f in GLOBAL_FIELDS ==> Get(a.globals, f) == Get(b.globals, f))
    && x.Keys == y.Keys && forall id :: id in x ==> SameRow(x[id], y[id])
  }

  lemma {:induction false} DifferOnlyIn(e: Fields, f: Fields, k: string)
    ensures Differing(e, f) <= {k} <==> e - {k} == f - {k}
  {
    var x, y := e - {k}, f - {k};
    if Differing(e, f) <= {k} {
      forall j ensures (j in x <==> j in y) && (j in x ==> x[j] == y[j]) {
        assert j != k ==> j !in Differing(e, f);
      }
      assert x == y;
    }
    if x == y {
      assert forall j :: j != k ==> Get(e, j) == Get(x, j) && Get(f, j) == Get(y, j);
    }
  }

  lemma {:induction false} SameRowIff(e: Fields, f: Fields)
    requires Observational(e) <= {"group"} && Observational(f) <= {"group"} && e != f
    ensures SameRow(e, f) <==> !Strict(e) && !Strict(f) && Differing(e, f) <= Observational(e) * Observational(f)
  {
    DifferOnlyIn(e, f, "group");
    NoDifference(e, f);
  }

  lemma {:induction false} NoDifference(e: Fields, f: Fields)
    ensures Differing(e, f) == {} ==> e == f
  {
    if Differing(e, f) == {} {
      forall k ensures (k in e <==> k in f) && (k in e ==> e[k] == f[k]) { assert k !in Differing(e, f); }
    }
  }

  /** Main result: over locks whose observational fields are limited to `group`, a resume is accepted
      exactly when the snapshots agree. */
  lemma {:induction false} AcceptsIffAgree(a: Lock, b: Lock)
    requires Limited(a) && Limited(b)
    ensures Accepts(a, b) <==> Agree(a, b)
  {
    var x, y := ById(a.entries), ById(b.entries);
    if Accepts(a, b) {
      forall f | f in GLOBAL_FIELDS ensures Get(a.globals, f) == Get(b.globals, f) {
        if Get(a.globals, f) != Get(b.globals, f) { assert GlobalRecord(a, b, Difference("", {f}, Global)); }
      }
      forall id ensures (id in x <==> id in y) && (id in x && id in y ==> SameRow(x[id], y[id])) {
        var kind := if id !in x then Added else if id !in y then Removed else Changed;
        var d := Difference(id, Differing(FieldsOf(x, id), FieldsOf(y, id)), kind);
        if (id in x || id in y) && !(id in x && id in y && x[id] == y[id]) {
          assert RowRecord(a, b, d) && !Sensitive(x, y, d);
          SameRowIff(x[id], y[id]);
        }
      }
    }
    if Agree(a, b) {
      forall d | RowRecord(a, b, d) || GlobalRecord(a, b, d) ensures !Sensitive(x, y, d) {
        if RowRecord(a, b, d) { SameRowIff(x[d.id], y[d.id]); }
      }
    }
  }

  lemma {:induction false} AgreeReflexive(a: Lock)
    ensures Agree(a, a)
  {
  }

  lemma {:induction false} AgreeSymmetric(a: Lock, b: Lock)
    requires Agree(a, b)
    ensures Agree(b, a)
  {
  }

  lemma {:induction false} AgreeTransitive(a: Lock, b: Lock, c: Lock)
    requires Agree(a, b) && Agree(b, c)
    ensures Agree(a, c)
  {
    var x, y, z := ById(a.entries), ById(b.entries), ById(c.entries);
    forall id | id in x ensures SameRow(x[id], z[id]) {
      assert SameRow(x[id], y[id]) && SameRow(y[id], z[id]);
    }
  }

  /** Main result: resume acceptance is an equivalence, so a chain of accepted resumes cannot drift. */
  lemma {:induction false} ResumeIsEquivalence(a: Lock, b: Lock, c: Lock)
    requires Limited(a) && Limited(b) && Limited(c)
    ensures Accepts(a, a)
    ensures Accepts(a, b) ==> Accepts(b, a)
    ensures Accepts(a, b) && Accepts(b, c) ==> Accepts(a, c)
  {
    AcceptsIffAgree(a, a);
    AcceptsIffAgree(a, b);
    AcceptsIffAgree(b, a);
    AcceptsIffAgree(b, c);
    AcceptsIffAgree(a, c);
    AgreeReflexive(a);
    if Agree(a, b) { AgreeSymmetric(a, b); }
    if Agree(a, b) && Agree(b, c) { AgreeTransitive(a, b, c); }
  }

  // ---- why the limit matters ---------------------------------------------------------------------------

  function OneRow(doc: string, observational: seq<string>): Lock {
    var fields := map[
      "resume_policy" := Text("observational"), "doc" := Text(doc), "observational_fields" := Names(observational)];
    Lock([Entry("r", fields)], map[])
  }

  /** Between two such locks, acceptance is a question of the two lists. */
  lemma {:induction false} OneRowAccepts(
    a: Lock, b: Lock, doc: string, names: seq<string>, doc': string, names': seq<string>)
    requires a == OneRow(doc, names) && b == OneRow(doc', names')
    ensures var changed := (if doc != doc' then {"doc"} else {}) +
      (if names != names' then {"observational_fields"} else {});
      Accepts(a, b) <==> forall f :: f in changed ==> f in names && f in names'
  {
    OneRowIs(doc, names);
    OneRowIs(doc', names');
    var x, y := ById(a.entries), ById(b.entries);
    var changed := (if doc != doc' then {"doc"} else {}) + (if names != names' then {"observational_fields"} else {});
    assert Differing(x["r"], y["r"]) == changed;
    hide ById, Differing, OneRow;
    var d := Difference("r", changed, Changed);
    if x["r"] != y["r"] {
      assert RowRecord(a, b, d);
      assert Sensitive(x, y, d) <==> !(changed <= Observational(x["r"]) * Observational(y["r"]));
    }
    forall e | RowRecord(a, b, e) || GlobalRecord(a, b, e) ensures e == d { OneRecord(a, b, e, d); }
  }

  lemma {:induction false} OneRecord(a: Lock, b: Lock, e: Difference, d: Difference)
    requires RowRecord(a, b, e) || GlobalRecord(a, b, e)
    requires a.globals == b.globals && ById(a.entries).Keys == {"r"} && ById(b.entries).Keys == {"r"}
    requires d == Difference("r", Differing(ById(a.entries)["r"], ById(b.entries)["r"]), Changed)
    ensures e == d
  {
  }

  /** Were the list itself observational, two accepted resumes could add up to a refused one. */
  lemma {:induction false} UnlimitedResumeDrifts()
    ensures var wide, narrow := ["observational_fields", "doc"], ["observational_fields"];
      var a, b, c := OneRow("1", wide), OneRow("2", wide), OneRow("2", narrow);
      Accepts(a, b) && Accepts(b, c) && !Accepts(a, c)
  {
    hide Accepts, OneRow;
    var wide, narrow := ["observational_fields", "doc"], ["observational_fields"];
    var a, b, c := OneRow("1", wide), OneRow("2", wide), OneRow("2", narrow);
    assert "1"[0] != "2"[0] && "doc"[0] != "observational_fields"[0];
    assert "doc" !in narrow && |wide| != |narrow|;
    OneRowAccepts(a, b, "1", wide, "2", wide);
    OneRowAccepts(b, c, "2", wide, "2", narrow);
    OneRowAccepts(a, c, "1", wide, "2", narrow);
    assert "doc" in {"doc"} + {"observational_fields"};
  }

  lemma {:induction false} OneRowIs(doc: string, observational: seq<string>)
    ensures var e := ById(OneRow(doc, observational).entries);
      && e.Keys == {"r"} && !Strict(e["r"]) && Observational(e["r"]) == set n | n in observational
      && e["r"].Keys == {"resume_policy", "doc", "observational_fields"}
      && e["r"]["doc"] == Text(doc) && e["r"]["observational_fields"] == Names(observational)
        && e["r"]["resume_policy"] == Text("observational")
  {
    var l := OneRow(doc, observational);
    assert l.entries[..0] == [];
    assert "observational"[0] != "strict"[0];
  }
}
