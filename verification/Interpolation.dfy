/** apply_interpolation of src/aka/core/composition.py: references are substituted in allowlisted
    fields only, on copies of the dictionaries along the way. */
module Interpolation {
  import opened Lists

  /** What a field can hold besides a dictionary of its own; objects inside arrays belong to the field. */
  datatype Value = Text(s: string) | Scalar(n: int) | Array(items: seq<Value>) | Object(fields: map<string, Value>)

  /** A config as a tree: dictionaries down to fields. */
  datatype Tree = Leaf(v: Value) | Node(fields: map<string, Tree>)

  type Path = seq<string>

  predicate HasMark(s: string) {
    exists i :: 0 <= i < |s| - 1 && s[i] == '$' && s[i + 1] == '{'
  }

  const MARK := "${"

  /** A string is marked when the opening of a reference is part of it, anywhere. */
  lemma {:induction false} HasMarkIff(s: string)
    ensures HasMark(s) <==> exists before, after :: s == before + MARK + after
  {
    if HasMark(s) {
      var i :| 0 <= i < |s| - 1 && s[i] == '$' && s[i + 1] == '{';
      assert s == s[..i] + MARK + s[i + 2..];
    }
    if before, after :| s == before + MARK + after {
      assert s[|before|] == '$' && s[|before| + 1] == '{';
    }
  }

  /** _contains_reference. */
  predicate ContainsReference(v: Value) {
    match v
    case Text(s) => HasMark(s)
    case Scalar(_) => false
    case Array(items) => exists i :: 0 <= i < |items| && ContainsReference(items[i])
    case Object(fields) => exists k :: k in fields && ContainsReference(fields[k])
  }

  /** _substitute_value; `sub` is substitute on one string, None its error. */
  function Substitute(v: Value, sub: string -> Option<string>): Option<Value> {
    match v
    case Text(s) => if sub(s).Some? then Some(Text(sub(s).value)) else None
    case Scalar(_) => Some(v)
    case Array(items) =>
      if forall i :: 0 <= i < |items| ==> Substitute(items[i], sub).Some?
      then Some(Array(seq(|items|,
        i requires 0 <= i < |items| && Substitute(items[i], sub).Some? => Substitute(items[i], sub).value)))
      else None
    case Object(fields) =>
      if forall k :: k in fields ==> Substitute(fields[k], sub).Some?
      then Some(Object(map k | k in fields && Substitute(fields[k], sub).Some? :: Substitute(fields[k], sub).value))
      else None
  }

  // ---- the strings in a value --------------------------------------------------------------------------

  /** One step into an array or an object. */
  datatype Hop = Nth(i: nat) | Named(key: string)

  /** What a value holds at the end of some hops. */
  function Within(v: Value, hops: seq<Hop>): Option<Value>
    decreases |hops|
  {
    if hops == [] then Some(v)
    else if v.Array? && hops[0].Nth? && hops[0].i < |v.items| then Within(v.items[hops[0].i], hops[1..])
    else if v.Object? && hops[0].Named? && hops[0].key in v.fields then Within(v.fields[hops[0].key], hops[1..])
    else None
  }

  ghost predicate HasString(v: Value, hops: seq<Hop>, s: string) {
    Within(v, hops) == Some(Text(s))
  }

  /** A string of an element is a string of the whole, one hop further. */
  lemma {:induction false} OneHop(v: Value, h: Hop, hops: seq<Hop>)
    ensures v.Array? && h.Nth? && h.i < |v.items| ==> Within(v, [h] + hops) == Within(v.items[h.i], hops)
    ensures v.Object? && h.Named? && h.key in v.fields ==> Within(v, [h] + hops) == Within(v.fields[h.key], hops)
  {
    assert ([h] + hops)[1..] == hops;
  }

  /** Main result: a value contains a reference exactly when some string in it, however deep in arrays and
      objects, has the mark. */
  lemma {:induction false} ContainsIff(v: Value)
    ensures ContainsReference(v) <==> exists hops, s :: HasString(v, hops, s) && HasMark(s)
    decreases v
  {
    hide HasMark;
    if ContainsReference(v) {
      match v {
        case Text(s) => assert HasString(v, [], s);
        case Array(items) =>
          var i :| 0 <= i < |items| && ContainsReference(items[i]);
          ContainsIff(items[i]);
          var hops, s :| HasString(items[i], hops, s) && HasMark(s);
          OneHop(v, Nth(i), hops);
          assert HasString(v, [Nth(i)] + hops, s);
        case Object(fields) =>
          var k :| k in fields && ContainsReference(fields[k]);
          ContainsIff(fields[k]);
          var hops, s :| HasString(fields[k], hops, s) && HasMark(s);
          OneHop(v, Named(k), hops);
          assert HasString(v, [Named(k)] + hops, s);
      }
    }
    if hops: seq<Hop>, s: string :| HasString(v, hops, s) && HasMark(s) {
      if v.Array? {
        ContainsIff(v.items[hops[0].i]);
        assert HasString(v.items[hops[0].i], hops[1..], s);
      } else if v.Object? {
        ContainsIff(v.fields[hops[0].key]);
        assert HasString(v.fields[hops[0].key], hops[1..], s);
      }
    }
  }

  ghost predicate AllSubstitutable(v: Value, sub: string -> Option<string>) {
    forall hops, s :: HasString(v, hops, s) ==> sub(s).Some?
  }

  /** Substitution succeeds exactly when it does on every string. */
  lemma {:induction false} SubstituteIff(v: Value, sub: string -> Option<string>)
    ensures Substitute(v, sub).Some? <==> AllSubstitutable(v, sub)
    decreases v
  {
    if Substitute(v, sub).Some? {
      forall hops, s | HasString(v, hops, s) ensures sub(s).Some? { SubstituteMaps(v, sub, hops); }
    } else {
      match v {
        case Text(s) => assert HasString(v, [], s);
        case Array(items) =>
          var i :| 0 <= i < |items| && Substitute(items[i], sub).None?;
          SubstituteIff(items[i], sub);
          var hops, s :| HasString(items[i], hops, s) && sub(s).None?;
          OneHop(v, Nth(i), hops);
          assert HasString(v, [Nth(i)] + hops, s);
        case Object(fields) =>
          var k :| k in fields && Substitute(fields[k], sub).None?;
          SubstituteIff(fields[k], sub);
          var hops, s :| HasString(fields[k], hops, s) && sub(s).None?;
          OneHop(v, Named(k), hops);
          assert HasString(v, [Named(k)] + hops, s);
      }
    }
  }

  /** The same place after substitution: each string replaced, everything else as it was. */
  ghost predicate Mapped(before: Option<Value>, after: Option<Value>, sub: string -> Option<string>) {
    match before
    case None => after.None?
    case Some(Text(s)) => sub(s).Some? && after == Some(Text(sub(s).value))
    case Some(Scalar(_)) => after == before
    case Some(Array(items)) => after.Some? && after.value.Array? && |after.value.items| == |items|
    case Some(Object(fields)) => after.Some? && after.value.Object? && after.value.fields.Keys == fields.Keys
  }

  /** Main result: substitution replaces every string of the value and changes nothing else. */
  lemma {:induction false} SubstituteMaps(v: Value, sub: string -> Option<string>, hops: seq<Hop>)
    requires Substitute(v, sub).Some?
    ensures Mapped(Within(v, hops), Within(Substitute(v, sub).value, hops), sub)
    decreases |hops|
  {
    if hops != [] {
      var h := hops[0];
      if v.Array? && h.Nth? && h.i < |v.items| {
        SubstituteMaps(v.items[h.i], sub, hops[1..]);
      } else if v.Object? && h.Named? && h.key in v.fields {
        SubstituteMaps(v.fields[h.key], sub, hops[1..]);
      }
    }
  }

  // ---- paths -----------------------------------------------------------------------------------------

  /** The paths _walk yields: dictionary keys down to something that is not a dictionary. */
  function Paths(t: Tree): set<Path> {
    match t
    case Leaf(_) => {[]}
    case Node(fields) => set k, p | k in fields && p in Paths(fields[k]) :: [k] + p
  }

  /** The value at a path. */
  function At(t: Tree, p: Path): Option<Value> {
    match t
    case Leaf(v) => if p == [] then Some(v) else None
    case Node(fields) => if p != [] && p[0] in fields then At(fields[p[0]], p[1..]) else None
  }

  function Put(t: Tree, p: Path, v: Value): Tree {
    if p == [] || t.Leaf? then Leaf(v)
    else if p[0] !in t.fields then t
    else Node(t.fields[p[0] := Put(t.fields[p[0]], p[1..], v)])
  }

  lemma {:induction false} PathsAreDefined(t: Tree, p: Path)
    ensures p in Paths(t) <==> At(t, p).Some?
    decreases t
  {
    if t.Node? && p != [] && p[0] in t.fields {
      PathsAreDefined(t.fields[p[0]], p[1..]);
      assert p == [p[0]] + p[1..];
    }
  }

  lemma {:induction false} PutAt(t: Tree, p: Path, v: Value, q: Path)
    requires p in Paths(t)
    ensures At(Put(t, p, v), q) == if q == p then Some(v) else At(t, q)
    decreases t
  {
    PathsAreDefined(t, p);
    if t.Node? && q != [] && q[0] == p[0] {
      PathsAreDefined(t.fields[p[0]], p[1..]);
      PutAt(t.fields[p[0]], p[1..], v, q[1..]);
      assert q == [q[0]] + q[1..] && p == [p[0]] + p[1..];
    }
  }

  // ---- the allowlist ---------------------------------------------------------------------------------

  /** str.split("."). */
  function Split(s: string): (p: Path)
    ensures p != []
  {
    if s == "" then [""]
    else
      var rest := Split(s[1..]);
      if s[0] == '.' then [""] + rest else [[s[0]] + rest[0]] + rest[1..]
  }

  function Join(p: Path): string {
    if p == [] then "" else if |p| == 1 then p[0] else p[0] + "." + Join(p[1..])
  }

  predicate Dotted(segment: string) {
    exists i :: 0 <= i < |segment| && segment[i] == '.'
  }

  predicate DotFree(p: Path) {
    forall i :: 0 <= i < |p| ==> !Dotted(p[i])
  }

  lemma {:induction false} JoinDot(p: Path)
    requires p != []
    ensures Join([""] + p) == "." + Join(p)
  {
    assert ([""] + p)[1..] == p;
    assert "" + "." == ".";
  }

  lemma {:induction false} JoinCons(c: char, p: Path)
    requires p != []
    ensures Join([[c] + p[0]] + p[1..]) == [c] + Join(p)
  {
    var q := [[c] + p[0]] + p[1..];
    assert q[1..] == p[1..];
    if |p| > 1 { assert ([c] + p[0]) + "." + Join(p[1..]) == [c] + (p[0] + "." + Join(p[1..])); }
  }

  lemma {:induction false} SplitJoins(s: string)
    ensures DotFree(Split(s)) && Join(Split(s)) == s
  {
    if s != "" {
      SplitJoins(s[1..]);
      var rest := Split(s[1..]);
      assert s == [s[0]] + s[1..];
      if s[0] == '.' {
        JoinDot(rest);
      } else {
        JoinCons(s[0], rest);
        DotFreeCons(s[0], rest[0]);
      }
    }
  }

  lemma {:induction false} DotFreeCons(c: char, segment: string)
    requires c != '.' && !Dotted(segment)
    ensures !Dotted([c] + segment)
  {
    forall i | 0 <= i < |[c] + segment| ensures ([c] + segment)[i] != '.' {
      if i > 0 { assert segment[i - 1] != '.'; }
    }
  }

  lemma {:induction false} JoinSplits(p: Path)
    requires p != [] && DotFree(p)
    ensures Split(Join(p)) == p
    decreases |p|, |p[0]|
  {
    var s := Join(p);
    if p[0] == "" {
      if |p| > 1 {
        assert s[0] == '.' && s[1..] == Join(p[1..]);
        JoinSplits(p[1..]);
      }
    } else {
      var shorter := [p[0][1..]] + p[1..];
      assert !Dotted(p[0]);
      assert DotFree(shorter) by {
        forall i | 0 <= i < |shorter| ensures !Dotted(shorter[i]) {
          if i == 0 {
            forall j | 0 <= j < |p[0][1..]| ensures p[0][1..][j] != '.' { assert p[0][j + 1] != '.'; }
          } else {
            assert shorter[i] == p[i];
          }
        }
      }
      assert shorter[1..] == p[1..];
      JoinSplits(shorter);
      assert s[0] == p[0][0] && s[1..] == Join(shorter);
      assert p[0][0] != '.';
      assert [p[0][0]] + p[0][1..] == p[0];
      assert [p[0]] + p[1..] == p;
    }
  }

  /** {tuple(entry.split(".")) for entry in allowlist}. */
  function Allowed(allowlist: seq<string>): set<Path> {
    set e | e in allowlist :: Split(e)
  }

  /** Main result: a path is allowed exactly when its dotted spelling is listed and no key in it contains
      a dot, so a dotted key never passes for a nested path. */
  lemma {:induction false} AllowedIff(allowlist: seq<string>, p: Path)
    requires p != []
    ensures p in Allowed(allowlist) <==> DotFree(p) && Join(p) in allowlist
  {
    if p in Allowed(allowlist) {
      var e :| e in allowlist && Split(e) == p;
      SplitJoins(e);
    }
    if DotFree(p) && Join(p) in allowlist { JoinSplits(p); }
  }

  // ---- the dictionaries ------------------------------------------------------------------------------

  datatype Item = Field(v: Value) | Sub(d: Dict)

  class Dict {
    var items: map<string, Item>
    ghost var repr: set<Dict>

    /** A tree of dictionaries; sharing between branches is allowed. */
    ghost predicate Valid()
      reads this, repr
      decreases repr
    {
      && this in repr
      && forall k :: k in items && items[k].Sub? ==>
           items[k].d in repr && items[k].d.repr <= repr && this !in items[k].d.repr && items[k].d.Valid()
    }

    function View(): (t: Tree)
      requires Valid()
      reads this, repr
      ensures t.Node? && t.fields.Keys == items.Keys
      decreases repr
    {
      Node(map k | k in items :: if items[k].Field? then Leaf(items[k].v) else items[k].d.View())
    }

    /** dict(d). */
    constructor Copy(d: Dict)
      requires d.Valid()
      ensures Valid() && fresh(this) && repr == {this} + d.repr && items == d.items && View() == d.View()
    {
      items := d.items;
      repr := {this} + d.repr;
      new;
      assert View().fields == d.View().fields;
    }
  }

  function ItemView(i: Item): Tree
    requires i.Sub? ==> i.d.Valid()
    reads if i.Sub? then {i.d} + i.d.repr else {}
  {
    if i.Field? then Leaf(i.v) else i.d.View()
  }

  lemma {:induction false} PathHead(t: Tree, p: Path, v: Value)
    requires t.Node? && p in Paths(t)
    ensures p != [] && p[0] in t.fields && p[1..] in Paths(t.fields[p[0]])
    ensures |p| == 1 <==> t.fields[p[0]].Leaf?
    ensures Put(t, p, v) == Node(t.fields[p[0] := if |p| == 1 then Leaf(v) else Put(t.fields[p[0]], p[1..], v)])
  {
    PathsAreDefined(t, p);
    PathsAreDefined(t.fields[p[0]], p[1..]);
  }

  lemma {:induction false} ItemAt(c: Dict, key: string)
    requires c.Valid() && key in c.items
    ensures c in c.repr
    ensures c.items[key].Sub? ==> c.items[key].d.Valid() && c.items[key].d.repr <= c.repr && c !in c.items[key].d.repr
    ensures c.View().fields[key] == ItemView(c.items[key])
  {
  }

  /** d[key] = item. */
  method SetItem(c: Dict, key: string, item: Item)
    requires c.Valid() && (item.Sub? ==> item.d.Valid() && c !in item.d.repr)
    modifies c
    ensures c.Valid() && c.repr == old(c.repr) + if item.Sub? then old(item.d.repr) else {}
    ensures c.View() == Node(old(c.View()).fields[key := old(ItemView(item))])
  {
    ghost var fields := c.View().fields;
    ghost var view := ItemView(item);
    c.items := c.items[key := item];
    c.repr := c.repr + if item.Sub? then item.d.repr else {};
    assert c.Valid();
    hide Dict.View;
    forall k | k in c.items ensures k in c.View().fields && c.View().fields[k] == fields[key := view][k] {
      ItemAt(c, k);
    }
  }

  /** _assign: every dictionary below the top one is copied before it is written, so only the top one
      changes. The loop down the path is written as its tail recursion. */
  method Assign(c: Dict, p: Path, v: Value)
    requires c.Valid() && p in Paths(c.View())
    modifies c
    ensures c.Valid() && fresh(c.repr - old(c.repr)) && old(c.repr) <= c.repr
    ensures c.View() == Put(old(c.View()), p, v)
    decreases |p|
  {
    hide Paths, At, Put, Dict.Valid, Dict.View;
    PathHead(c.View(), p, v);
    var key := p[0];
    ItemAt(c, key);
    if |p| == 1 {
      SetItem(c, key, Field(v));
      return;
    }
    var child := new Dict.Copy(c.items[key].d);
    ghost var t := c.View();
    assert p[1..] in Paths(child.View());
    Assign(child, p[1..], v);
    assert c.Valid() && c.View() == t;
    assert c !in child.repr;
    SetItem(c, key, Sub(child));
  }

  /** What the field at a path becomes: its substitution if it holds a reference. */
  function Settled(v: Value, sub: string -> Option<string>): Option<Value> {
    if ContainsReference(v) then Substitute(v, sub) else Some(v)
  }

  /** Every reference sits in an allowed field and can be substituted. */
  ghost predicate Admissible(t: Tree, allowed: set<Path>, sub: string -> Option<string>) {
    forall p :: p in Paths(t) && At(t, p).Some? && ContainsReference(At(t, p).value) ==>
      p in allowed && Substitute(At(t, p).value, sub).Some?
  }

  /** The interpolated tree: the same paths, each value settled. */
  ghost predicate Interpolated(t: Tree, r: Tree, sub: string -> Option<string>) {
    && Paths(r) == Paths(t)
    && forall p :: p in Paths(t) ==> At(t, p).Some? && At(r, p) == Settled(At(t, p).value, sub)
  }

  /** Midway: the fields not in `left` are settled, and all references among them were admissible. */
  ghost predicate Midway(t: Tree, r: Tree, left: set<Path>, allowed: set<Path>, sub: string -> Option<string>) {
    && left <= Paths(t)
    && (forall q ::
      At(r, q) == (if q in Paths(t) && q !in left && At(t, q).Some? then Settled(At(t, q).value, sub) else At(t, q)))
    && (forall p :: p in Paths(t) && p !in left && At(t, p).Some? && ContainsReference(At(t, p).value) ==>
         p in allowed && Substitute(At(t, p).value, sub).Some?)
  }

  lemma {:induction false} MidwayStep(
    t: Tree, r: Tree, left: set<Path>, allowed: set<Path>, sub: string -> Option<string>, p: Path)
    requires p in left && Midway(t, r, left, allowed, sub) && At(t, p).Some?
    ensures p in Paths(r)
    ensures var v := At(t, p).value;
      && (!ContainsReference(v) ==> Midway(t, r, left - {p}, allowed, sub))
      && (ContainsReference(v) && p in allowed && Substitute(v, sub).Some? ==>
           Midway(t, Put(r, p, Substitute(v, sub).value), left - {p}, allowed, sub))
      && (ContainsReference(v) && !(p in allowed && Substitute(v, sub).Some?) ==> !Admissible(t, allowed, sub))
  {
    var v := At(t, p).value;
    assert At(r, p) == At(t, p);
    PathsAreDefined(r, p);
    if ContainsReference(v) && p in allowed && Substitute(v, sub).Some? {
      var w := Substitute(v, sub).value;
      forall q ensures At(Put(r, p, w), q) == if q == p then Some(w) else At(r, q) { PutAt(r, p, w, q); }
    }
  }

  lemma {:induction false} MidwayEnds(t: Tree, r: Tree, allowed: set<Path>, sub: string -> Option<string>)
    requires Midway(t, r, {}, allowed, sub)
    ensures Admissible(t, allowed, sub) && Interpolated(t, r, sub)
  {
    forall p ensures (p in Paths(r) <==> p in Paths(t)) && (p in Paths(t) ==> At(t, p).Some?) {
      PathsAreDefined(r, p);
      PathsAreDefined(t, p);
      if p in Paths(t) && ContainsReference(At(t, p).value) {
        assert Substitute(At(t, p).value, sub).Some?;
      }
    }
  }

  lemma {:induction false} MidwayStarts(t: Tree, allowed: set<Path>, sub: string -> Option<string>)
    ensures Midway(t, t, Paths(t), allowed, sub)
  {
  }

  /** apply_interpolation. Without a modifies clause it changes no object that existed before, so nothing
      reachable from the input. */
  method ApplyInterpolation(
    config: Dict, allowlist: seq<string>, sub: string -> Option<string>) returns (r: Option<Dict>)
    requires config.Valid()
    ensures r.Some? <==> Admissible(config.View(), Allowed(allowlist), sub)
    ensures r.Some? ==> fresh(r.value) && r.value.Valid() && Interpolated(config.View(), r.value.View(), sub)
  {
    hide Midway, Admissible, Interpolated, Put, ContainsReference, Substitute, Allowed, Dict.Valid, Dict.View;
    var t := config.View();
    var allowed := Allowed(allowlist);
    var result := new Dict.Copy(config);
    var left := Paths(t);
    MidwayStarts(t, allowed, sub);
    while left != {}
      invariant left <= Paths(t) && fresh(result) && result.Valid()
      invariant Midway(t, result.View(), left, allowed, sub)
      decreases left
    {
      var p :| p in left;
      PathsAreDefined(t, p);
      MidwayStep(t, result.View(), left, allowed, sub, p);
      left := left - {p};
      var v := At(t, p).value;
      if ContainsReference(v) {
        var s := Substitute(v, sub);
        if p !in allowed || s.None? { return None; }
        Assign(result, p, s.value);
      }
    }
    MidwayEnds(t, result.View(), allowed, sub);
    r := Some(result);
  }

  // ---- the result, string by string ----------------------------------------------------------------------

  /** Some string of the field at p has the mark. */
  ghost predicate Marked(t: Tree, p: Path) {
    At(t, p).Some? && exists hops, s :: HasString(At(t, p).value, hops, s) && HasMark(s)
  }

  /** Main result: interpolation is admissible exactly when every field with a marked string is allowed and
      each of its strings can be substituted. */
  lemma {:induction false} AdmissibleIff(t: Tree, allowed: set<Path>, sub: string -> Option<string>)
    ensures Admissible(t, allowed, sub) <==>
      forall p :: p in Paths(t) && Marked(t, p) ==> p in allowed && AllSubstitutable(At(t, p).value, sub)
  {
    hide Substitute, ContainsReference, AllSubstitutable, HasString, HasMark;
    forall p | p in Paths(t) && At(t, p).Some?
      ensures ContainsReference(At(t, p).value) <==> Marked(t, p)
      ensures Substitute(At(t, p).value, sub).Some? <==> AllSubstitutable(At(t, p).value, sub)
    {
      ContainsIff(At(t, p).value);
      SubstituteIff(At(t, p).value, sub);
    }
  }

  /** Main result: and then it maps every string of just these fields, and leaves all other fields alone. */
  lemma {:induction false} InterpolatedStrings(
    t: Tree, r: Tree, allowed: set<Path>, sub: string -> Option<string>, p: Path)
    requires Admissible(t, allowed, sub) && Interpolated(t, r, sub) && p in Paths(t)
    ensures At(t, p).Some? && At(r, p).Some? && (!Marked(t, p) ==> At(r, p) == At(t, p))
    ensures Marked(t, p) ==> forall hops :: Mapped(Within(At(t, p).value, hops), Within(At(r, p).value, hops), sub)
  {
    hide Substitute, ContainsReference, Within, Mapped, HasString, HasMark;
    ContainsIff(At(t, p).value);
    if Marked(t, p) {
      forall hops ensures Mapped(Within(At(t, p).value, hops), Within(At(r, p).value, hops), sub) {
        SubstituteMaps(At(t, p).value, sub, hops);
      }
    }
  }
}
