/** What layers of patches leave of each row, field by field, and exactly when they are accepted. */
module PatchFields {
  import opened Lists
  import opened Patches

  // ---- the fields a patch may give --------------------------------------------------------------------

  function ConfigOf(p: Patch): Field<Config> { p.config }
  function DisabledOf(p: Patch): Field<bool> { p.disabled }
  function RequiredOf(p: Patch): Field<bool> { p.required }
  function InjectOf(p: Patch): Field<seq<string>> { p.inject }
  function IsolateOf(p: Patch): Field<seq<string>> { p.isolate }
  function DocOf(p: Patch): Field<string> { p.doc }

  predicate Inserts(p: Patch) {
    p.insert.Given?
  }

  predicate Drops(p: Patch) {
    p.remove.Given? && p.remove.value
  }

  /** Step k is the last, from `from` on, to give the field. */
  ghost predicate LastAt<T>(h: seq<Step>, from: nat, field: Patch -> Field<T>, k: nat) {
    from <= k < |h| && field(h[k].patch).Given? && forall j :: k < j < |h| ==> !field(h[j].patch).Given?
  }

  /** No step from `from` on gives the field. */
  ghost predicate Never<T>(h: seq<Step>, from: nat, field: Patch -> Field<T>) {
    forall k :: from <= k < |h| ==> !field(h[k].patch).Given?
  }

  /** The value is that of the last patch from `from` on that gives the field, else `base`. */
  ghost predicate LastGiven<T>(h: seq<Step>, from: nat, field: Patch -> Field<T>, base: T, value: T) {
    || (exists k: nat :: LastAt(h, from, field, k) && field(h[k].patch) == Given(value))
    || (value == base && Never(h, from, field))
  }

  lemma {:induction false} LastAtSnoc<T>(h: seq<Step>, from: nat, field: Patch -> Field<T>)
    requires h != [] && from <= |h| - 1
    ensures field(h[|h| - 1].patch).Given? ==> LastAt(h, from, field, |h| - 1)
    ensures !field(h[|h| - 1].patch).Given? ==>
      forall k: nat :: LastAt(h[..|h| - 1], from, field, k) ==> LastAt(h, from, field, k)
    ensures !field(h[|h| - 1].patch).Given? && Never(h[..|h| - 1], from, field) ==> Never(h, from, field)
  {
    assert forall k :: 0 <= k < |h| - 1 ==> h[..|h| - 1][k] == h[k];
  }

  lemma {:induction false} LastGivenSnoc<T>(
    h: seq<Step>, from: nat, field: Patch -> Field<T>, base: T, before: T, value: T)
    requires h != [] && from <= |h| - 1 && LastGiven(h[..|h| - 1], from, field, base, before)
    requires var f := field(h[|h| - 1].patch);
      value == if f.Given? then f.value else before
    ensures LastGiven(h, from, field, base, value)
  {
    var n := |h| - 1;
    LastAtSnoc(h, from, field);
    if !field(h[n].patch).Given? {
      if k: nat :| LastAt(h[..n], from, field, k) && field(h[..n][k].patch) == Given(before) {
        assert h[..n][k] == h[k] && LastAt(h, from, field, k);
      }
    }
  }

  // ---- one row's history --------------------------------------------------------------------------------

  /** From step `from` on nothing inserts or removes the row; `base` is what stands there then: the bundle's
      row, or the one the step before inserts. */
  ghost predicate Born(h: seq<Step>, from: nat, first: Option<Row>, base: Row) {
    && from <= |h|
    && (forall k :: from <= k < |h| ==> !Inserts(h[k].patch) && !Drops(h[k].patch))
    && (from == 0 ==> first == Some(base))
    && (from > 0 ==> Inserts(h[from - 1].patch) && h[from - 1].patch.insert.value.row == Some(base))
  }

  /** Every field of the row as the history since then has it. */
  ghost predicate FieldsAre(h: seq<Step>, from: nat, base: Row, id: string, row: Row)
    requires from <= |h|
  {
    && row.id == id && row.name == base.name && row.group == base.group
    && LastGiven(h, from, ConfigOf, base.config, row.config)
    && LastGiven(h, from, DisabledOf, base.disabled, row.disabled)
    && LastGiven(h, from, RequiredOf, base.required, row.required)
    && LastGiven(h, from, InjectOf, base.inject, row.inject)
    && LastGiven(h, from, IsolateOf, base.isolate, row.isolate)
    && LastGiven(h, from, DocOf, base.doc, row.doc)
    && row.source == (if h == [] then base.source else h[|h| - 1].source)
    && ConfigFrom(h, from, base, row.configSource)
  }

  /** The layer that wrote the config: that of the last patch to give one, else of the insertion, if it
      brought one, else what the bundle says. */
  ghost predicate ConfigFrom(h: seq<Step>, from: nat, base: Row, source: string)
    requires from <= |h|
  {
    || (exists k: nat :: LastAt(h, from, ConfigOf, k) && source == h[k].source)
    || (Never(h, from, ConfigOf)
        && source == if from == 0 then base.configSource else if base.config == map[] then "" else h[from - 1].source)
  }

  lemma {:induction false} ConfigFromSnoc(h: seq<Step>, from: nat, base: Row, before: string, source: string)
    requires h != [] && from <= |h| - 1 && ConfigFrom(h[..|h| - 1], from, base, before)
    requires source == if h[|h| - 1].patch.config.Given? then h[|h| - 1].source else before
    ensures ConfigFrom(h, from, base, source)
  {
    var n := |h| - 1;
    LastAtSnoc(h, from, ConfigOf);
    if !h[n].patch.config.Given? {
      if k: nat :| LastAt(h[..n], from, ConfigOf, k) && before == h[..n][k].source {
        assert h[..n][k] == h[k] && LastAt(h, from, ConfigOf, k);
      } else if from > 0 {
        assert h[..n][from - 1] == h[from - 1];
      }
    }
  }

  lemma {:induction false} EvolvedFields(
    first: Option<Row>, h: seq<Step>, id: string) returns (from: nat, base: Row)
    requires EvolveAll(first, h).Ok? && EvolveAll(first, h).value.Some?
    requires (first.Some? ==> first.value.id == id) && forall k :: 0 <= k < |h| ==> Names(h[k], id)
    ensures Born(h, from, first, base) && FieldsAre(h, from, base, id, EvolveAll(first, h).value.value)
  {
    if h == [] {
      from, base := 0, first.value;
    } else {
      var n := |h| - 1;
      var p := h[n].patch;
      var before := EvolveAll(first, h[..n]).value;
      if before.None? {
        from, base := |h|, p.insert.value.row.value;
      } else {
        from, base := EvolvedFields(first, h[..n], id);
        BornSnoc(h, from, first, base);
        hide Born, FieldsAre;
        FieldsSnoc(h, from, base, id, before.value, EvolveAll(first, h).value.value);
      }
    }
  }

  lemma {:induction false} BornSnoc(h: seq<Step>, from: nat, first: Option<Row>, base: Row)
    requires h != [] && Born(h[..|h| - 1], from, first, base)
    requires !Inserts(h[|h| - 1].patch) && !Drops(h[|h| - 1].patch)
    ensures from <= |h| - 1 && Born(h, from, first, base)
  {
    var n := |h| - 1;
    assert forall k :: 0 <= k < n ==> h[..n][k] == h[k];
  }

  lemma {:induction false} FieldsSnoc(h: seq<Step>, from: nat, base: Row, id: string, before: Row, row: Row)
    requires h != [] && from <= |h| - 1 && FieldsAre(h[..|h| - 1], from, base, id, before)
    requires var last := h[|h| - 1];
      Evolve(last.source, Some(before), last.patch) == Ok(Some(row))
    ensures FieldsAre(h, from, base, id, row)
  {
    hide LastGiven, ConfigFrom;
    LastGivenSnoc(h, from, ConfigOf, base.config, before.config, row.config);
    LastGivenSnoc(h, from, DisabledOf, base.disabled, before.disabled, row.disabled);
    LastGivenSnoc(h, from, RequiredOf, base.required, before.required, row.required);
    LastGivenSnoc(h, from, InjectOf, base.inject, before.inject, row.inject);
    LastGivenSnoc(h, from, IsolateOf, base.isolate, before.isolate, row.isolate);
    LastGivenSnoc(h, from, DocOf, base.doc, before.doc, row.doc);
    ConfigFromSnoc(h, from, base, before.configSource, row.configSource);
  }

  // ---- presence and acceptance ----------------------------------------------------------------------------

  /** The row is there: some step inserted it, or the bundle has it, and no later step removes it. */
  ghost predicate Present(first: Option<Row>, h: seq<Step>) {
    || (exists k :: 0 <= k < |h| && Inserts(h[k].patch) && forall j :: k < j < |h| ==> !Drops(h[j].patch))
    || (first.Some? && forall j :: 0 <= j < |h| ==> !Drops(h[j].patch))
  }

  lemma {:induction false} PresentSnoc(first: Option<Row>, h: seq<Step>)
    requires h != []
    ensures var p := h[|h| - 1].patch;
      Present(first, h) <==> Inserts(p) || (!Drops(p) && Present(first, h[..|h| - 1]))
  {
    var n := |h| - 1;
    assert forall k :: 0 <= k < n ==> h[..n][k] == h[k];
    if Present(first, h[..n]) && !Drops(h[n].patch) {
      if k :| 0 <= k < n && Inserts(h[..n][k].patch) && forall j :: k < j < n ==> !Drops(h[..n][j].patch) {
        assert Inserts(h[k].patch);
      }
    }
    if Present(first, h) && !Inserts(h[n].patch) {
      if k :| 0 <= k < |h| && Inserts(h[k].patch) && forall j :: k < j < |h| ==> !Drops(h[j].patch) {
        assert Inserts(h[..n][k].patch);
      }
    }
  }

  lemma {:induction false} EvolvedPresent(first: Option<Row>, h: seq<Step>)
    requires EvolveAll(first, h).Ok?
    ensures EvolveAll(first, h).value.Some? <==> Present(first, h)
  {
    if h != [] {
      EvolvedPresent(first, h[..|h| - 1]);
      PresentSnoc(first, h);
      hide Present;
    }
  }

  /** What a patch must be like, given whether its row is there. */
  predicate Acceptable(p: Patch, there: bool) {
    && !p.stray && p.id.Given? && p.id.value != "" && !p.insert.Bad? && !p.remove.Bad?
    && (Inserts(p) ==>
      && !there && !p.insert.value.hasId && p.insert.value.row.Some? && p.remove.Absent?
      && p.config.Absent? && p.disabled.Absent? && p.required.Absent? && p.inject.Absent? && p.isolate.Absent?
      && p.doc.Absent?)
    && (Drops(p) ==>
      && p.insert.Absent? && p.config.Absent? && p.disabled.Absent? && p.required.Absent? && p.inject.Absent?
      && p.isolate.Absent? && p.doc.Absent?)
    && (!Inserts(p) && !Drops(p) ==>
      && there && !p.config.Bad? && !p.disabled.Bad? && !p.required.Bad? && !p.inject.Bad? && !p.isolate.Bad?
      && !p.doc.Bad?)
  }

  lemma {:induction false} AcceptableEvolves(source: string, cell: Option<Row>, p: Patch)
    requires p.id.Given?
    ensures Evolve(source, cell, p).Ok? <==> Acceptable(p, cell.Some?)
  {
  }

  /** Step k of the layers is acceptable where it stands. */
  ghost predicate Accepted(rows: seq<Row>, steps: seq<Step>, k: nat)
    requires k < |steps|
  {
    var p := steps[k].patch;
    p.id.Given? && Acceptable(p, Present(Find(rows, p.id.value), About(steps[..k], p.id.value)))
  }

  /** Main result: layers of patches succeed exactly when every patch is well formed for what it does and its
      row is there, or not there, as it takes it to be. */
  lemma {:induction false} LayersAccepted(rows: seq<Row>, steps: seq<Step>)
    requires UniqueIds(rows)
    ensures PatchedAll(rows, steps).Ok? <==> forall k: nat :: k < |steps| ==> Accepted(rows, steps, k)
  {
    if steps != [] {
      hide Accepted, PatchedAll, UniqueIds;
      var n := |steps| - 1;
      LayersAccepted(rows, steps[..n]);
      AcceptedSnoc(rows, steps);
      if PatchedAll(rows, steps[..n]).Ok? { LastAccepted(rows, steps); } else { StuckLayers(rows, steps, n); }
    } else {
      NoLayers(rows);
    }
  }

  lemma {:induction false} AcceptedSnoc(rows: seq<Row>, steps: seq<Step>)
    requires steps != []
    ensures var n := |steps| - 1;
      (forall k: nat :: k < |steps| ==> Accepted(rows, steps, k)) <==>
        Accepted(rows, steps, n) && forall k: nat :: k < n ==> Accepted(rows, steps[..n], k)
  {
    var n := |steps| - 1;
    forall k: nat | k < n ensures Accepted(rows, steps[..n], k) == Accepted(rows, steps, k) {
      assert steps[..n][k] == steps[k] && steps[..n][..k] == steps[..k];
    }
    hide Accepted;
  }

  lemma {:induction false} LastAccepted(rows: seq<Row>, steps: seq<Step>)
    requires UniqueIds(rows) && steps != [] && PatchedAll(rows, steps[..|steps| - 1]).Ok?
    ensures PatchedAll(rows, steps).Ok? <==> Accepted(rows, steps, |steps| - 1)
  {
    var n := |steps| - 1;
    var p := steps[n].patch;
    var mid := PatchedAll(rows, steps[..n]).value;
    LastStep(rows, steps, "");
    LayersAreLocal(rows, steps[..n], "");
    PatchIsLocal(steps[n].source, mid, p);
    if p.id.Given? {
      LayersAreLocal(rows, steps[..n], p.id.value);
      EvolvedPresent(Find(rows, p.id.value), About(steps[..n], p.id.value));
      AcceptableEvolves(steps[n].source, Find(mid, p.id.value), p);
    }
    hide Patched, Evolve, EvolveAll, Present, Acceptable;
  }

  // ---- the rows of the composition -----------------------------------------------------------------------

  lemma {:induction false} AboutNames(steps: seq<Step>, id: string)
    ensures forall k :: 0 <= k < |About(steps, id)| ==> Names(About(steps, id)[k], id)
  {
    if steps != [] { AboutNames(steps[..|steps| - 1], id); }
  }

  /** The row's fields are last-written values since its last insertion. */
  ghost predicate LastWritten(h: seq<Step>, first: Option<Row>, id: string, row: Row) {
    exists from: nat, base :: Born(h, from, first, base) && FieldsAre(h, from, base, id, row)
  }

  /** Main result: after any layers a row is there exactly when the steps naming it leave it there, and then
      each of its fields holds the last value given since its last insertion, else the inserted row's, else
      the bundle's; its source is that of the last patch naming it, and the config's that of the last one to
      write a config. */
  lemma {:induction false} FieldsAreLastWritten(rows: seq<Row>, steps: seq<Step>, id: string)
    requires UniqueIds(rows) && PatchedAll(rows, steps).Ok?
    ensures var final := Find(PatchedAll(rows, steps).value, id);
      && (final.Some? <==> Present(Find(rows, id), About(steps, id)))
      && (final.Some? ==> LastWritten(About(steps, id), Find(rows, id), id, final.value))
  {
    LayersAreLocal(rows, steps, id);
    AboutNames(steps, id);
    var h, first := About(steps, id), Find(rows, id);
    EvolvedPresent(first, h);
    hide Born, FieldsAre, PatchedAll, EvolveAll, About;
    if EvolveAll(first, h).value.Some? {
      var from, base := EvolvedFields(first, h, id);
    }
  }

  // ---- the order of the rows ------------------------------------------------------------------------------

  function Ids(rows: seq<Row>): (ids: seq<string>)
    ensures |ids| == |rows| && forall i :: 0 <= i < |ids| ==> ids[i] == rows[i].id
  {
    seq(|rows|, i requires 0 <= i < |rows| => rows[i].id)
  }

  /** The ids as the layers should leave them: an inserted row comes last, a removed one leaves its place. */
  function IdsAfter(ids: seq<string>, steps: seq<Step>): seq<string> {
    if steps == [] then ids
    else
      var p := steps[|steps| - 1].patch;
      var before := IdsAfter(ids, steps[..|steps| - 1]);
      if !p.id.Given? then before
      else if Drops(p) then Without(before, p.id.value)
      else if Inserts(p) then before + [p.id.value]
      else before
  }

  /** Main result: the layers keep the rows in order, inserted ones last. */
  lemma {:induction false} LayersKeepOrder(rows: seq<Row>, steps: seq<Step>)
    requires UniqueIds(rows) && PatchedAll(rows, steps).Ok?
    ensures Ids(PatchedAll(rows, steps).value) == IdsAfter(Ids(rows), steps)
  {
    if steps != [] {
      var n := |steps| - 1;
      LastStep(rows, steps, "");
      LayersKeepOrder(rows, steps[..n]);
      LayersAreLocal(rows, steps[..n], "");
      PatchKeepsOrder(steps[n].source, PatchedAll(rows, steps[..n]).value, steps[n].patch);
      hide Patched, PatchedAll;
    }
  }

  lemma {:induction false} DropsId(rows: seq<Row>, id: string)
    requires UniqueIds(rows)
    ensures var k := Spot(rows, id);
      Without(Ids(rows), id) == if k < |rows| then Ids(rows[..k] + rows[k + 1..]) else Ids(rows)
  {
    var k, ids := Spot(rows, id), Ids(rows);
    hide Find;
    if k < |rows| {
      assert Ids(rows[..k] + rows[k + 1..]) == ids[..k] + ids[k + 1..];
      WithoutOne(ids, k);
    } else {
      WithoutAbsent(ids, id);
    }
  }

  lemma {:induction false} PatchKeepsOrder(source: string, rows: seq<Row>, p: Patch)
    requires UniqueIds(rows) && Patched(source, rows, p).Ok?
    ensures p.id.Given?
    ensures var ids, r := Ids(rows), Patched(source, rows, p).value;
      Ids(r) == if Drops(p) then Without(ids, p.id.value) else if Inserts(p) then ids + [p.id.value] else ids
  {
    var id := p.id.value;
    var k := Spot(rows, id);
    var cell := if k < |rows| then Some(rows[k]) else None;
    var ids, r := Ids(rows), Patched(source, rows, p).value;
    EvolveKeepsId(source, cell, p);
    PatchedRows(source, rows, p);
    hide Patched, Evolve, Find;
    if Drops(p) {
      DropsId(rows, id);
    } else if k < |rows| {
      assert Ids(r) == ids;
    } else {
      assert Ids(r) == ids + [id];
    }
  }

  /** The three things a patch can do to the list. */
  lemma {:induction false} PatchedRows(source: string, rows: seq<Row>, p: Patch)
    requires p.id.Given? && Patched(source, rows, p).Ok?
    ensures var k := Spot(rows, p.id.value);
      var e := Evolve(source, if k < |rows| then Some(rows[k]) else None, p);
      var r := Patched(source, rows, p).value;
      && e.Ok? && (e.value.None? <==> Drops(p)) && (Inserts(p) <==> !Drops(p) && k == |rows|)
      && r == if Drops(p) then (if k < |rows| then rows[..k] + rows[k + 1..] else rows)
        else if k < |rows| then rows[k := e.value.value] else rows + [e.value.value]
  {
  }

  lemma {:induction false} WithoutOne(ids: seq<string>, k: nat)
    requires k < |ids| && forall i :: 0 <= i < |ids| && i != k ==> ids[i] != ids[k]
    ensures Without(ids, ids[k]) == ids[..k] + ids[k + 1..]
  {
    if k == 0 {
      WithoutAbsent(ids[1..], ids[0]);
    } else {
      WithoutOne(ids[1..], k - 1);
      assert ids[..k] + ids[k + 1..] == [ids[0]] + (ids[1..][..k - 1] + ids[1..][k..]);
    }
  }
}
