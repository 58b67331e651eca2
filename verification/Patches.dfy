/** Composition layers of src/aka/core/composition.py: bundle entries flattened, then patches that
    insert, replace or remove rows by id. */
module Patches {
  import opened Lists

  type Config = map<string, string>

  datatype Row = Row(
    id: string, name: string, config: Config, required: bool, disabled: bool, inject: seq<string>, isolate: seq<string>,
    group: string, doc: string, source: string, configSource: string)

  /** A document field: missing, of the wrong type, or readable. */
  datatype Field<+T> = Absent | Bad | Given(value: T)

  /** An inserted object: whether it carries its own id, and the row _row reads from it, if it is well
      formed. */
  datatype Insert = Insert(hasId: bool, row: Option<Row>)

  /** A patch; `stray` says it has a field no patch may have. A null flag is Given(false). */
  datatype Patch = Patch(
    id: Field<string>, insert: Field<Insert>, remove: Field<bool>, config: Field<Config>, disabled: Field<bool>,
    required: Field<bool>, inject: Field<seq<string>>, isolate: Field<seq<string>>, doc: Field<string>, stray: bool)
  {
    predicate OnlyIdAnd(insertToo: bool, removeToo: bool) {
      && (insertToo || insert.Absent?) && (removeToo || remove.Absent?)
      && config.Absent? && disabled.Absent? && required.Absent? && inject.Absent? && isolate.Absent? && doc.Absent?
    }

    predicate Removes() {
      remove == Given(true)
    }

    /** The checks made before the row list is consulted. */
    predicate Readable() {
      && !stray && id.Given? && id.value != "" && !insert.Bad? && !remove.Bad?
      && (insert.Given? ==> OnlyIdAnd(true, false) && !insert.value.hasId)
      && (Removes() ==> OnlyIdAnd(false, true))
    }

    predicate FieldsReadable() {
      !config.Bad? && !disabled.Bad? && !required.Bad? && !inject.Bad? && !isolate.Bad? && !doc.Bad?
    }
  }

  datatype Result<T> = Ok(value: T) | Err

  function Or<T>(f: Field<T>, unset: T): T {
    if f.Given? then f.value else unset
  }

  // ---- one patch on one row ------------------------------------------------------------------------

  /** What a patch does to the row it names, present or not. */
  function Evolve(source: string, cell: Option<Row>, p: Patch): Result<Option<Row>> {
    if !p.Readable() then Err
    else if cell.None? then
      if p.Removes() then Ok(None)
      else if p.insert.Absent? || p.insert.value.row.None? then Err
      else Ok(Some(p.insert.value.row.value.(id := p.id.value, source := source,
                configSource := if p.insert.value.row.value.config != map[] then source else "")))
    else if p.Removes() then Ok(None)
    else if p.insert.Given? || !p.FieldsReadable() then Err
    else
      var row := cell.value;
      Ok(Some(row.(source := source, config := Or(p.config, row.config),
        configSource := if p.config.Given? then source else row.configSource,
        disabled := Or(p.disabled, row.disabled), required := Or(p.required, row.required),
        inject := Or(p.inject, row.inject), isolate := Or(p.isolate, row.isolate), doc := Or(p.doc, row.doc))))
  }

  // ---- the row list ----------------------------------------------------------------------------------

  /** The row with an id, if any. */
  function Find(rows: seq<Row>, id: string): (r: Option<Row>)
    ensures r.Some? ==> r.value in rows && r.value.id == id
    ensures r.None? <==> forall row :: row in rows ==> row.id != id
  {
    if rows == [] then None
    else
      assert rows == [rows[0]] + rows[1..];
      if rows[0].id == id then Some(rows[0]) else Find(rows[1..], id)
  }

  ghost predicate UniqueIds(rows: seq<Row>) {
    forall i, j :: 0 <= i < j < |rows| ==> rows[i].id != rows[j].id
  }

  /** Position of an id, |rows| when absent. */
  function Spot(rows: seq<Row>, id: string): (k: nat)
    ensures k <= |rows| && (k < |rows| ==> rows[k].id == id && Find(rows, id) == Some(rows[k]))
    ensures k == |rows| ==> Find(rows, id) == None
    ensures forall i :: 0 <= i < k ==> rows[i].id != id
  {
    if rows == [] then 0 else if rows[0].id == id then 0 else 1 + Spot(rows[1..], id)
  }

  /** _apply_patch on values: append, delete in place, or replace in place. */
  function Patched(source: string, rows: seq<Row>, p: Patch): Result<seq<Row>> {
    if !p.Readable() then Err
    else
      var k := Spot(rows, p.id.value);
      match Evolve(source, if k < |rows| then Some(rows[k]) else None, p)
      case Err => Err
      case Ok(None) => Ok(if k < |rows| then rows[..k] + rows[k + 1..] else rows)
      case Ok(Some(row)) => Ok(if k < |rows| then rows[k := row] else rows + [row])
  }

  lemma {:induction false} FindAppend(rows: seq<Row>, row: Row, x: string)
    requires Find(rows, row.id).None?
    ensures Find(rows + [row], x) == if x == row.id then Some(row) else Find(rows, x)
  {
    if rows != [] {
      assert (rows + [row])[1..] == rows[1..] + [row];
      assert rows[0] in rows;
      if rows[0].id != row.id { FindAppend(rows[1..], row, x); }
    } else {
      assert rows + [row] == [row];
      assert [row][1..] == [];
    }
  }

  lemma {:induction false} FindReplace(rows: seq<Row>, k: nat, row: Row, x: string)
    requires UniqueIds(rows) && k < |rows| && row.id == rows[k].id
    ensures Find(rows[k := row], x) == if x == row.id then Some(row) else Find(rows, x)
  {
    if k == 0 {
      assert rows[k := row][1..] == rows[1..];
    } else {
      assert rows[k := row][1..] == rows[1..][k - 1 := row];
      FindReplace(rows[1..], k - 1, row, x);
    }
  }

  lemma {:induction false} FindDelete(rows: seq<Row>, k: nat, x: string)
    requires UniqueIds(rows) && k < |rows|
    ensures Find(rows[..k] + rows[k + 1..], x) == if x == rows[k].id then None else Find(rows, x)
  {
    var r := rows[..k] + rows[k + 1..];
    if k == 0 {
      assert r == rows[1..];
    } else {
      assert r[1..] == rows[1..][..k - 1] + rows[1..][k..];
      FindDelete(rows[1..], k - 1, x);
    }
  }

  /** Main result: a patch acts on the row it names as Evolve says and leaves every other row alone; it
      fails exactly when Evolve does; ids stay unique and the survivors keep their order. */
  lemma {:induction false} PatchIsLocal(source: string, rows: seq<Row>, p: Patch)
    requires UniqueIds(rows)
    ensures Patched(source, rows, p).Err? <==> !p.id.Given? || Evolve(source, Find(rows, p.id.value), p).Err?
    ensures Patched(source, rows, p).Ok? ==> UniqueIds(Patched(source, rows, p).value)
    ensures Patched(source, rows, p).Ok? ==> forall x ::
      Find(Patched(source, rows, p).value, x) == if x == p.id.value then Evolve(source, Find(rows, x), p).value
        else Find(rows, x)
  {
    if p.Readable() {
      var k := Spot(rows, p.id.value);
      var cell := if k < |rows| then Some(rows[k]) else None;
      assert cell == Find(rows, p.id.value);
      var e := Evolve(source, cell, p);
      if e.Ok? {
        EvolveKeepsId(source, cell, p);
        forall x ensures Find(Patched(source, rows, p).value, x) == if x == p.id.value then e.value else Find(rows, x) {
          if k < |rows| {
            if e.value.None? { FindDelete(rows, k, x); } else { FindReplace(rows, k, e.value.value, x); }
          } else if e.value.Some? {
            FindAppend(rows, e.value.value, x);
          }
        }
        PatchedUnique(rows, k, p.id.value, e.value);
      }
    }
  }

  lemma {:induction false} EvolveKeepsId(source: string, cell: Option<Row>, p: Patch)
    requires p.id.Given? && (cell.Some? ==> cell.value.id == p.id.value) && Evolve(source, cell, p).Ok?
    ensures Evolve(source, cell, p).value.Some? ==> Evolve(source, cell, p).value.value.id == p.id.value
  {
  }

  lemma {:induction false} PatchedUnique(rows: seq<Row>, k: nat, id: string, e: Option<Row>)
    requires UniqueIds(rows) && k == Spot(rows, id) && (e.Some? ==> e.value.id == id)
    ensures k < |rows| && e.None? ==> UniqueIds(rows[..k] + rows[k + 1..])
    ensures k < |rows| && e.Some? ==> UniqueIds(rows[k := e.value])
    ensures k == |rows| && e.Some? ==> UniqueIds(rows + [e.value])
  {
    hide UniqueIds;
    if k < |rows| && e.None? {
      RemovedUnique(rows, k);
    } else if k < |rows| {
      ReplacedUnique(rows, k, e.value);
    } else if e.Some? {
      AddedUnique(rows, e.value);
    }
  }

  lemma {:induction false} RemovedUnique(rows: seq<Row>, k: nat)
    requires UniqueIds(rows) && k < |rows|
    ensures UniqueIds(rows[..k] + rows[k + 1..])
  {
    var r := rows[..k] + rows[k + 1..];
    forall i, j | 0 <= i < j < |r| ensures r[i].id != r[j].id {
      assert r[i] == rows[if i < k then i else i + 1] && r[j] == rows[if j < k then j else j + 1];
    }
  }

  lemma {:induction false} ReplacedUnique(rows: seq<Row>, k: nat, row: Row)
    requires UniqueIds(rows) && k < |rows| && rows[k].id == row.id
    ensures UniqueIds(rows[k := row])
  {
  }

  lemma {:induction false} AddedUnique(rows: seq<Row>, row: Row)
    requires UniqueIds(rows) && forall i :: 0 <= i < |rows| ==> rows[i].id != row.id
    ensures UniqueIds(rows + [row])
  {
  }

  // ---- layers of patches -------------------------------------------------------------------------------

  /** A patch with the layer it comes from. */
  datatype Step = Step(source: string, patch: Patch)

  function PatchedAll(rows: seq<Row>, steps: seq<Step>): Result<seq<Row>> {
    if steps == [] then Ok(rows)
    else
      var n := |steps| - 1;
      match PatchedAll(rows, steps[..n])
      case Err => Err
      case Ok(mid) => Patched(steps[n].source, mid, steps[n].patch)
  }

  predicate Names(s: Step, id: string) {
    s.patch.id == Given(id)
  }

  /** The steps that name an id. */
  function About(steps: seq<Step>, id: string): seq<Step> {
    if steps == [] then []
    else
      var n := |steps| - 1;
      About(steps[..n], id) + if Names(steps[n], id) then [steps[n]] else []
  }

  /** One row's own history. */
  function EvolveAll(cell: Option<Row>, steps: seq<Step>): Result<Option<Row>> {
    if steps == [] then Ok(cell)
    else
      var n := |steps| - 1;
      match EvolveAll(cell, steps[..n])
      case Err => Err
      case Ok(mid) => Evolve(steps[n].source, mid, steps[n].patch)
  }

  lemma {:induction false} AboutSnoc(steps: seq<Step>, last: Step, id: string)
    ensures About(steps + [last], id) == About(steps, id) + if Names(last, id) then [last] else []
  {
    assert (steps + [last])[..|steps|] == steps;
  }

  lemma {:induction false} EvolveSnoc(cell: Option<Row>, steps: seq<Step>, last: Step)
    ensures EvolveAll(cell, steps + [last]) ==
      if EvolveAll(cell, steps).Err? then Err else Evolve(last.source, EvolveAll(cell, steps).value, last.patch)
  {
    assert (steps + [last])[..|steps|] == steps;
  }

  lemma {:induction false} PatchedSnoc(rows: seq<Row>, steps: seq<Step>, last: Step)
    ensures PatchedAll(rows, steps + [last]) ==
      if PatchedAll(rows, steps).Err? then Err else Patched(last.source, PatchedAll(rows, steps).value, last.patch)
  {
    assert (steps + [last])[..|steps|] == steps;
  }

  /** Main result: after any layers of patches a row is what its own bundle entry and the patches naming
      its id make of it, whatever the others are. */
  lemma {:induction false} LayersAreLocal(rows: seq<Row>, steps: seq<Step>, id: string)
    requires UniqueIds(rows) && PatchedAll(rows, steps).Ok?
    ensures UniqueIds(PatchedAll(rows, steps).value)
    ensures EvolveAll(Find(rows, id), About(steps, id)) == Ok(Find(PatchedAll(rows, steps).value, id))
  {
    if steps != [] {
      var n := |steps| - 1;
      var last := steps[n];
      LayersAreLocal(rows, steps[..n], id);
      var mid := PatchedAll(rows, steps[..n]).value;
      hide *;
      LastStep(rows, steps, id);
      PatchIsLocal(last.source, mid, last.patch);
      LocalStep(rows, steps, id, mid, last);
    }
  }

  /** The three folds split at the last step. */
  lemma {:induction false} LastStep(rows: seq<Row>, steps: seq<Step>, id: string)
    requires steps != []
    ensures var before, last, cell := steps[..|steps| - 1], steps[|steps| - 1], Find(rows, id);
      && PatchedAll(rows, steps) ==
         (if PatchedAll(rows, before).Err? then Err
          else Patched(last.source, PatchedAll(rows, before).value, last.patch))
      && EvolveAll(cell, About(steps, id)) ==
         if !Names(last, id) then EvolveAll(cell, About(before, id))
         else if EvolveAll(cell, About(before, id)).Err? then Err
         else Evolve(last.source, EvolveAll(cell, About(before, id)).value, last.patch)
  {
    hide Patched, Evolve, Find;
    var n := |steps| - 1;
    assert steps == steps[..n] + [steps[n]];
    PatchedSnoc(rows, steps[..n], steps[n]);
    AboutSnoc(steps[..n], steps[n], id);
    EvolveSnoc(Find(rows, id), About(steps[..n], id), steps[n]);
    assert About(steps[..n], id) + [] == About(steps[..n], id);
  }

  lemma {:induction false} LocalStep(rows: seq<Row>, steps: seq<Step>, id: string, mid: seq<Row>, last: Step)
    requires steps != [] && last == steps[|steps| - 1] && PatchedAll(rows, steps).Ok?
    requires PatchedAll(rows, steps) == Patched(last.source, mid, last.patch)
    requires Patched(last.source, mid, last.patch).Err? <==>
      !last.patch.id.Given? || Evolve(last.source, Find(mid, last.patch.id.value), last.patch).Err?
    requires forall x :: (Find(Patched(last.source, mid, last.patch).value, x) ==
      if x == last.patch.id.value then Evolve(last.source, Find(mid, x), last.patch).value else Find(mid, x))
    requires EvolveAll(Find(rows, id), About(steps, id)) ==
      if Names(last, id) then Evolve(last.source, Find(mid, id), last.patch) else Ok(Find(mid, id))
    ensures EvolveAll(Find(rows, id), About(steps, id)) == Ok(Find(PatchedAll(rows, steps).value, id))
  {
    hide Patched, Evolve, Find, PatchedAll, EvolveAll, About;
  }

  /** A row's own history succeeds. */
  ghost predicate Sound(rows: seq<Row>, steps: seq<Step>, id: string) {
    EvolveAll(Find(rows, id), About(steps, id)).Ok?
  }

  ghost predicate AllNamed(steps: seq<Step>) {
    forall k :: 0 <= k < |steps| ==> steps[k].patch.id.Given?
  }

  /** The layers succeed exactly when every step names an id and every row's own history does. */
  lemma {:induction false} LayersSucceedIff(rows: seq<Row>, steps: seq<Step>)
    requires UniqueIds(rows)
    ensures PatchedAll(rows, steps).Ok? <==> AllNamed(steps) && forall id :: Sound(rows, steps, id)
  {
    if steps != [] {
      var n := |steps| - 1;
      LastStep(rows, steps, "");
      NamedSnoc(steps);
      hide PatchedAll, Patched, EvolveAll, About, UniqueIds, Sound, AllNamed;
      LayersSucceedIff(rows, steps[..n]);
      forall id ensures Sound(rows, steps, id) ==> Sound(rows, steps[..n], id) { SoundBefore(rows, steps, id); }
      if PatchedAll(rows, steps[..n]).Ok? {
        SucceedStep(rows, steps);
      }
    }
  }

  lemma {:induction false} NamedSnoc(steps: seq<Step>)
    requires steps != []
    ensures AllNamed(steps) <==> AllNamed(steps[..|steps| - 1]) && steps[|steps| - 1].patch.id.Given?
  {
  }

  lemma {:induction false} SoundBefore(rows: seq<Row>, steps: seq<Step>, id: string)
    requires steps != []
    ensures Sound(rows, steps, id) ==> Sound(rows, steps[..|steps| - 1], id)
  {
    LastStep(rows, steps, id);
  }

  lemma {:induction false} SucceedStep(rows: seq<Row>, steps: seq<Step>)
    requires UniqueIds(rows) && steps != [] && PatchedAll(rows, steps[..|steps| - 1]).Ok?
    ensures var last := steps[|steps| - 1];
      PatchedAll(rows, steps).Ok? <==> last.patch.id.Given? && Sound(rows, steps, last.patch.id.value)
    ensures var last := steps[|steps| - 1];
      forall id :: !Names(last, id) ==> Sound(rows, steps, id)
  {
    hide Patched, Evolve, Find, PatchedAll, EvolveAll, About, UniqueIds;
    var n := |steps| - 1;
    var last := steps[n];
    var mid := PatchedAll(rows, steps[..n]).value;
    LayersAreLocal(rows, steps[..n], "");
    PatchIsLocal(last.source, mid, last.patch);
    LastStep(rows, steps, "");
    forall id ensures !Names(last, id) ==> Sound(rows, steps, id) {
      LastStep(rows, steps, id);
      LayersAreLocal(rows, steps[..n], id);
    }
    if last.patch.id.Given? {
      LastStep(rows, steps, last.patch.id.value);
      LayersAreLocal(rows, steps[..n], last.patch.id.value);
    }
  }

  /** Main result: patches to different ids commute on contents. Layers that hold, per id, the same
      patches in the same order succeed or fail together, and agree on every row. */
  lemma {:induction false} LayersCommute(rows: seq<Row>, a: seq<Step>, b: seq<Step>)
    requires UniqueIds(rows) && forall id :: About(a, id) == About(b, id)
    requires AllNamed(a) && AllNamed(b)
    ensures PatchedAll(rows, a).Ok? <==> PatchedAll(rows, b).Ok?
    ensures PatchedAll(rows, a).Ok? ==>
      forall id :: Find(PatchedAll(rows, a).value, id) == Find(PatchedAll(rows, b).value, id)
  {
    LayersSucceedIff(rows, a);
    LayersSucceedIff(rows, b);
    forall id ensures Sound(rows, a, id) <==> Sound(rows, b, id) { }
    if PatchedAll(rows, a).Ok? {
      forall id ensures Find(PatchedAll(rows, a).value, id) == Find(PatchedAll(rows, b).value, id) {
        LayersAreLocal(rows, a, id);
        LayersAreLocal(rows, b, id);
      }
    }
  }

  /** The last whole config written since the row was last inserted; `base` if it never was. */
  function LastConfig(base: Option<Config>, steps: seq<Step>): Option<Config> {
    if steps == [] then base
    else
      var p := steps[|steps| - 1].patch;
      if p.Removes() then None
      else if p.insert.Given? then (if p.insert.value.row.Some? then Some(p.insert.value.row.value.config) else None)
      else if p.config.Given? then Some(p.config.value)
      else LastConfig(base, steps[..|steps| - 1])
  }

  /** Main result: configs are replaced whole, never merged. */
  lemma {:induction false} ConfigIsLastWritten(rows: seq<Row>, steps: seq<Step>, id: string)
    requires UniqueIds(rows) && PatchedAll(rows, steps).Ok?
    ensures var final, first := Find(PatchedAll(rows, steps).value, id), Find(rows, id);
      (if final.Some? then Some(final.value.config) else None)
      == LastConfig(if first.Some? then Some(first.value.config) else None, About(steps, id))
  {
    LayersAreLocal(rows, steps, id);
    EvolvedConfig(Find(rows, id), About(steps, id));
  }

  lemma {:induction false} EvolvedConfig(cell: Option<Row>, steps: seq<Step>)
    requires EvolveAll(cell, steps).Ok?
    ensures var final := EvolveAll(cell, steps).value;
      (if final.Some? then Some(final.value.config) else None)
      == LastConfig(if cell.Some? then Some(cell.value.config) else None, steps)
  {
    if steps != [] { EvolvedConfig(cell, steps[..|steps| - 1]); }
  }

  // ---- the list objects ----------------------------------------------------------------------------------

  /** The row list resolve builds up, edited in place. */
  class RowList {
    var rows: seq<Row>

    constructor (rows: seq<Row>)
      ensures this.rows == rows
    {
      this.rows := rows;
    }

    /** _apply_patch: on an error the list is as it was. */
    method ApplyPatch(source: string, p: Patch) returns (ok: bool)
      modifies this
      ensures ok == Patched(source, old(rows), p).Ok?
      ensures rows == if ok then Patched(source, old(rows), p).value else old(rows)
    {
      if !p.Readable() { return false; }
      var k := 0;
      while k < |rows| && rows[k].id != p.id.value
        invariant k <= Spot(rows, p.id.value) && rows == old(rows)
      {
        k := k + 1;
      }
      var e := Evolve(source, if k < |rows| then Some(rows[k]) else None, p);
      if e.Err? { return false; }
      if e.value.None? {
        if k < |rows| { rows := rows[..k] + rows[k + 1..]; }
      } else if k < |rows| {
        rows := rows[k := e.value.value];
      } else {
        rows := rows + [e.value.value];
      }
      ok := true;
    }

    /** The patches of one layer, in order; resolve drops the list when one of them fails. */
    method ApplyLayer(source: string, patches: seq<Patch>) returns (ok: bool)
      modifies this
      ensures ok == PatchedAll(old(rows), Steps(source, patches)).Ok?
      ensures ok ==> rows == PatchedAll(old(rows), Steps(source, patches)).value
    {
      hide Patched, PatchedAll;
      NoLayers(rows);
      ghost var rows0 := rows;
      var i := 0;
      while i < |patches|
        invariant i <= |patches| && PatchedAll(rows0, Steps(source, patches[..i])) == Ok(rows)
      {
        StepsSnoc(source, patches, i);
        PatchedSnoc(rows0, Steps(source, patches[..i]), Step(source, patches[i]));
        ok := ApplyPatch(source, patches[i]);
        if !ok {
          StuckLayers(rows0, Steps(source, patches), i + 1);
          return;
        }
        i := i + 1;
      }
      assert patches[..i] == patches;
      ok := true;
    }

    /** _apply_patch_document: a copy is patched and put in place only when all of it succeeded, so a
        failing file changes nothing. */
    method ApplyDocument(source: string, readable: bool, patches: seq<Patch>) returns (ok: bool)
      modifies this
      ensures ok == (readable && PatchedAll(old(rows), Steps(source, patches)).Ok?)
      ensures rows == if ok then PatchedAll(old(rows), Steps(source, patches)).value else old(rows)
    {
      if !readable { return false; }
      var updated := new RowList(rows);
      ok := updated.ApplyLayer(source, patches);
      if ok { rows := updated.rows; }
    }
  }

  lemma {:induction false} StepsSnoc(source: string, patches: seq<Patch>, i: nat)
    requires i < |patches|
    ensures Steps(source, patches[..i + 1]) == Steps(source, patches[..i]) + [Step(source, patches[i])]
    ensures Steps(source, patches)[..i + 1] == Steps(source, patches[..i + 1])
  {
  }

  function Steps(source: string, patches: seq<Patch>): (s: seq<Step>)
    ensures |s| == |patches| && forall i :: 0 <= i < |s| ==> s[i] == Step(source, patches[i])
  {
    seq(|patches|, i requires 0 <= i < |patches| => Step(source, patches[i]))
  }

  lemma {:induction false} NoLayers(rows: seq<Row>)
    ensures PatchedAll(rows, []) == Ok(rows)
  {
  }

  lemma {:induction false} StuckLayers(rows: seq<Row>, steps: seq<Step>, k: nat)
    requires k <= |steps| && PatchedAll(rows, steps[..k]).Err?
    ensures PatchedAll(rows, steps).Err?
    decreases |steps| - k
  {
    if k < |steps| {
      assert steps[..k + 1][..k] == steps[..k];
      StuckLayers(rows, steps, k + 1);
    } else {
      assert steps[..k] == steps;
    }
  }
}
