/** Bundle layers of src/aka/core/composition.py: nested groups flattened into rows, and the
    duplicate-id check. */
module Bundles {
  import opened Lists
  import opened Patches

  /** What a group hands down to the rows inside it. */
  datatype Group = Group(id: string, isolate: seq<string>, disabled: bool)

  /** An entry as parsed: a row or a malformed one, or a group with its entries or a malformed one. */
  datatype Entry = Leaf(row: Option<Row>) | Nested(group: Option<Group>, entries: seq<Entry>)

  /** replace(child, ...) for one child of a group. */
  function Wrap(g: Group, row: Row): Row {
    row.(group := if row.group != "" then row.group else g.id,
         isolate := Dedup(g.isolate + row.isolate),
         disabled := row.disabled || g.disabled)
  }

  function WrapAll(g: Group, rows: seq<Row>): (r: seq<Row>)
    ensures |r| == |rows| && forall i :: 0 <= i < |r| ==> r[i] == Wrap(g, rows[i])
  {
    seq(|rows|, i requires 0 <= i < |rows| => Wrap(g, rows[i]))
  }

  /** _row for a leaf: its own isolation list without repetitions. */
  function ReadRow(row: Row): Row {
    row.(isolate := Dedup(row.isolate))
  }

  /** _flatten. */
  function Flatten(es: seq<Entry>): Result<seq<Row>> {
    if es == [] then Ok([])
    else
      match FlattenOne(es[0])
      case Err => Err
      case Ok(first) =>
        match Flatten(es[1..])
        case Err => Err
        case Ok(rest) => Ok(first + rest)
  }

  function FlattenOne(e: Entry): Result<seq<Row>> {
    match e
    case Leaf(row) => if row.Some? then Ok([ReadRow(row.value)]) else Err
    case Nested(group, entries) =>
      if group.None? || group.value.id == "" then Err
      else
        match Flatten(entries)
        case Err => Err
        case Ok(rows) => Ok(WrapAll(group.value, rows))
  }

  // ---- when flattening succeeds --------------------------------------------------------------------

  /** A group header or a row, as parsed. */
  datatype Part = Header(group: Option<Group>) | Body(row: Option<Row>)

  /** Every header and every row of the document, however deep. */
  function Parts(es: seq<Entry>): seq<Part> {
    if es == [] then [] else PartsOf(es[0]) + Parts(es[1..])
  }

  function PartsOf(e: Entry): seq<Part> {
    match e
    case Leaf(row) => [Body(row)]
    case Nested(group, entries) => [Header(group)] + Parts(entries)
  }

  /** A row is well formed; a group is, and has an id. */
  predicate Readable(p: Part) {
    match p
    case Header(group) => group.Some? && group.value.id != ""
    case Body(row) => row.Some?
  }

  /** Flattening succeeds exactly when every group header and every row in the document is readable. */
  lemma {:induction false} FlattenSucceedsIff(es: seq<Entry>)
    ensures Flatten(es).Ok? <==> forall p :: p in Parts(es) ==> Readable(p)
    decreases es
  {
    if es != [] {
      FlattenOneSucceedsIff(es[0]);
      FlattenSucceedsIff(es[1..]);
      hide Readable;
      assert forall p :: p in Parts(es) <==> p in PartsOf(es[0]) || p in Parts(es[1..]);
    }
  }

  lemma {:induction false} FlattenOneSucceedsIff(e: Entry)
    ensures FlattenOne(e).Ok? <==> forall p :: p in PartsOf(e) ==> Readable(p)
    decreases e
  {
    match e {
      case Leaf(row) => assert Body(row) in PartsOf(e);
      case Nested(group, entries) =>
        FlattenSucceedsIff(entries);
        assert PartsOf(e) == [Header(group)] + Parts(entries);
        assert Header(group) in PartsOf(e) && forall p :: p in Parts(entries) ==> p in PartsOf(e);
        assert forall p :: p in PartsOf(e) ==> p == Header(group) || p in Parts(entries);
    }
  }

  // ---- the rows, one by one --------------------------------------------------------------------------

  /** A row with the groups around it, outermost first. */
  datatype Placed = Placed(row: Row, groups: seq<Group>)

  /** Every leaf of the document, in order. */
  function Leaves(es: seq<Entry>): seq<Placed> {
    if es == [] then [] else LeavesOf(es[0]) + Leaves(es[1..])
  }

  function LeavesOf(e: Entry): seq<Placed> {
    match e
    case Leaf(row) => if row.Some? then [Placed(row.value, [])] else []
    case Nested(group, entries) => if group.Some? then Inside(group.value, Leaves(entries)) else []
  }

  function Inside(g: Group, ps: seq<Placed>): (r: seq<Placed>)
    ensures |r| == |ps| && forall i :: 0 <= i < |r| ==> r[i] == Placed(ps[i].row, [g] + ps[i].groups)
  {
    seq(|ps|, i requires 0 <= i < |ps| => Placed(ps[i].row, [g] + ps[i].groups))
  }

  function AllIsolated(groups: seq<Group>): seq<string> {
    if groups == [] then [] else groups[0].isolate + AllIsolated(groups[1..])
  }

  /** The effective row: its own group or the innermost one around it, every isolated name from the
      outermost group inwards, once, and disabled if anything around it is. */
  function Effective(p: Placed): Row {
    p.row.(
      group := if p.row.group != "" || p.groups == [] then p.row.group else p.groups[|p.groups| - 1].id,
      isolate := Dedup(AllIsolated(p.groups) + p.row.isolate),
      disabled := p.row.disabled || exists g :: g in p.groups && g.disabled)
  }

  lemma {:induction false} WithoutAppend(a: seq<string>, b: seq<string>, x: string)
    ensures Without(a + b, x) == Without(a, x) + Without(b, x)
  {
    if a == [] {
      assert a + b == b;
    } else {
      assert (a + b)[1..] == a[1..] + b;
      WithoutAppend(a[1..], b, x);
    }
  }

  lemma {:induction false} WithoutTwice(s: seq<string>, x: string, y: string)
    ensures Without(Without(s, x), y) == Without(Without(s, y), x)
    ensures Without(Without(s, x), x) == Without(s, x)
  {
    if s != [] { WithoutTwice(s[1..], x, y); }
  }

  lemma {:induction false} DedupWithout(s: seq<string>, x: string)
    ensures Without(Dedup(s), x) == Dedup(Without(s, x))
    decreases |s|
  {
    if s != [] {
      var y := s[0];
      var tail := Without(s[1..], y);
      assert Dedup(s) == [y] + Dedup(tail);
      DedupWithout(tail, x);
      WithoutTwice(s[1..], y, x);
      if x != y {
        assert Without(s, x) == [y] + Without(s[1..], x);
        assert ([y] + Without(s[1..], x))[1..] == Without(s[1..], x);
      } else {
        assert ([y] + Dedup(tail))[1..] == Dedup(tail);
      }
    }
  }

  /** Removing repetitions early makes no difference. */
  lemma {:induction false} DedupNested(a: seq<string>, b: seq<string>)
    ensures Dedup(a + Dedup(b)) == Dedup(a + b)
    decreases |a| + |b|
  {
    if a == [] {
      assert a + Dedup(b) == Dedup(b) && a + b == b;
      DedupTwice(b);
    } else {
      var x := a[0];
      assert (a + Dedup(b))[1..] == a[1..] + Dedup(b) && (a + b)[1..] == a[1..] + b;
      WithoutAppend(a[1..], Dedup(b), x);
      WithoutAppend(a[1..], b, x);
      DedupWithout(b, x);
      DedupNested(Without(a[1..], x), Without(b, x));
    }
  }

  lemma {:induction false} DedupTwice(b: seq<string>)
    ensures Dedup(Dedup(b)) == Dedup(b)
  {
    NoDupDedup(b);
    DedupIsIdentity(Dedup(b));
  }

  lemma {:induction false} WrapIsEffective(g: Group, p: Placed)
    requires g.id != "" && forall h :: h in p.groups ==> h.id != ""
    ensures Wrap(g, Effective(p)) == Effective(Placed(p.row, [g] + p.groups))
  {
    hide Dedup;
    WrapIsolates(g, p);
    WrapDisables(g, p);
    if p.groups != [] {
      assert p.groups[|p.groups| - 1] in p.groups;
    }
  }

  lemma {:induction false} WrapIsolates(g: Group, p: Placed)
    ensures Dedup(g.isolate + Dedup(AllIsolated(p.groups) + p.row.isolate)) ==
      Dedup(AllIsolated([g] + p.groups) + p.row.isolate)
  {
    hide Dedup;
    assert ([g] + p.groups)[1..] == p.groups;
    assert AllIsolated([g] + p.groups) + p.row.isolate == g.isolate + (AllIsolated(p.groups) + p.row.isolate);
    DedupNested(g.isolate, AllIsolated(p.groups) + p.row.isolate);
  }

  lemma {:induction false} WrapDisables(g: Group, p: Placed)
    ensures (exists h :: h in [g] + p.groups && h.disabled) <==> g.disabled || exists h :: h in p.groups && h.disabled
  {
    assert g in [g] + p.groups;
  }

  function EffectiveAll(ps: seq<Placed>): (r: seq<Row>)
    ensures |r| == |ps| && forall i :: 0 <= i < |r| ==> r[i] == Effective(ps[i])
  {
    seq(|ps|, i requires 0 <= i < |ps| => Effective(ps[i]))
  }

  predicate GroupsNamed(ps: seq<Placed>) {
    forall i :: 0 <= i < |ps| ==> forall h :: h in ps[i].groups ==> h.id != ""
  }

  /** Main result: when it succeeds, flattening yields every leaf in document order, each as its
      surroundings make it. */
  lemma {:induction false} FlattenIsLeafwise(es: seq<Entry>)
    requires Flatten(es).Ok?
    ensures Flatten(es).value == EffectiveAll(Leaves(es)) && GroupsNamed(Leaves(es))
    decreases es
  {
    if es != [] {
      FlattenIsLeafwise(es[1..]);
      FlattenOneIsLeafwise(es[0]);
      hide Effective;
      assert EffectiveAll(LeavesOf(es[0]) + Leaves(es[1..])) ==
        EffectiveAll(LeavesOf(es[0])) + EffectiveAll(Leaves(es[1..]));
    }
  }

  lemma {:induction false} FlattenOneIsLeafwise(e: Entry)
    requires FlattenOne(e).Ok?
    ensures FlattenOne(e).value == EffectiveAll(LeavesOf(e)) && GroupsNamed(LeavesOf(e))
    decreases e
  {
    match e {
      case Leaf(row) =>
        assert AllIsolated([]) + row.value.isolate == row.value.isolate;
      case Nested(group, entries) =>
        FlattenIsLeafwise(entries);
        var ps := Leaves(entries);
        forall i | 0 <= i < |ps| ensures Wrap(group.value, Effective(ps[i])) == Effective(Inside(group.value, ps)[i]) {
          WrapIsEffective(group.value, ps[i]);
        }
    }
  }

  // ---- bundles stacked ---------------------------------------------------------------------------------

  /** The bundle layer of resolve: rows are appended one by one, and a repeated id is refused. */
  method Stack(bundles: seq<seq<Entry>>) returns (r: Result<seq<Row>>)
    ensures r.Ok? ==> UniqueIds(r.value) && r == AllRows(bundles)
    ensures r.Err? ==> AllRows(bundles).Err? || !UniqueIds(AllRows(bundles).value)
  {
    var rows: seq<Row> := [];
    var b := 0;
    assert bundles[..0] == [];
    while b < |bundles|
      invariant b <= |bundles| && UniqueIds(rows) && AllRows(bundles[..b]) == Ok(rows)
    {
      assert bundles[..b + 1][..b] == bundles[..b];
      var flat := Flatten(bundles[b]);
      if flat.Err? {
        RowsPrefix(bundles, b + 1);
        return Err;
      }
      var ok;
      ok, rows := Append(rows, flat.value);
      if !ok {
        RowsPrefix(bundles, b + 1);
        return Err;
      }
      b := b + 1;
    }
    assert bundles[..b] == bundles;
    r := Ok(rows);
  }

  /** One bundle's rows behind those of the earlier ones. */
  method Append(rows0: seq<Row>, more: seq<Row>) returns (ok: bool, rows: seq<Row>)
    requires UniqueIds(rows0)
    ensures ok ==> rows == rows0 + more && UniqueIds(rows)
    ensures !ok ==> forall longer: seq<Row> :: rows0 + more <= longer ==> !UniqueIds(longer)
  {
    rows := rows0;
    var i := 0;
    while i < |more|
      invariant i <= |more| && rows == rows0 + more[..i] && UniqueIds(rows)
    {
      var twin := Find(rows, more[i].id);
      if twin.Some? {
        assert (rows0 + more)[..|rows0| + i] == rows;
        Repeated(rows0 + more, |rows0| + i, twin.value);
        return false, rows;
      }
      assert forall k :: 0 <= k < |rows| ==> rows[k] in rows;
      rows := rows + [more[i]];
      i := i + 1;
    }
    assert more[..i] == more;
    ok := true;
  }

  /** The rows of all bundles in order. */
  function AllRows(bundles: seq<seq<Entry>>): Result<seq<Row>> {
    if bundles == [] then Ok([])
    else
      var n := |bundles| - 1;
      match AllRows(bundles[..n])
      case Err => Err
      case Ok(before) =>
        match Flatten(bundles[n])
        case Err => Err
        case Ok(rows) => Ok(before + rows)
  }

  /** A failure or a repetition in the first bundles stays one. */
  lemma {:induction false} RowsPrefix(bundles: seq<seq<Entry>>, b: nat)
    requires b <= |bundles|
    ensures AllRows(bundles[..b]).Err? ==> AllRows(bundles).Err?
    ensures AllRows(bundles).Ok? ==> AllRows(bundles[..b]).value <= AllRows(bundles).value
    decreases |bundles| - b
  {
    if b < |bundles| {
      assert bundles[..b + 1][..b] == bundles[..b];
      RowsPrefix(bundles, b + 1);
    } else {
      assert bundles[..b] == bundles;
    }
  }

  lemma {:induction false} Repeated(rows: seq<Row>, k: nat, twin: Row)
    requires k < |rows| && twin in rows[..k] && twin.id == rows[k].id
    ensures forall longer: seq<Row> :: rows <= longer ==> !UniqueIds(longer)
  {
    var j :| 0 <= j < |rows[..k]| && rows[..k][j] == twin;
    forall longer: seq<Row> | rows <= longer ensures !UniqueIds(longer) {
      assert longer[j].id == longer[k].id;
    }
  }
}
