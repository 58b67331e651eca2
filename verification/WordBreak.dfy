/** The decoration matcher of gpu-wiki/tools/operator_scope.py: which compact spellings are one
    vocabulary key wrapped in known decorations. */
module WordBreak {
  import opened Lists

  const MIN_TOKEN_LENGTH := 3

  function Concat(parts: seq<string>): string {
    if parts == [] then "" else Concat(parts[..|parts| - 1]) + parts[|parts| - 1]
  }

  /** v is a concatenation of zero or more decorations. */
  ghost predicate Decorated(decorations: seq<string>, v: string) {
    exists parts: seq<string> :: (forall p :: p in parts ==> p in decorations) && Concat(parts) == v
  }

  predicate StartsWith(v: string, d: string, start: nat) {
    start + |d| <= |v| && v[start..start + |d|] == d
  }

  lemma {:induction false} Extended(decorations: seq<string>, v: string, start: nat, d: string)
    requires d in decorations && StartsWith(v, d, start) && Decorated(decorations, v[..start])
    ensures Decorated(decorations, v[..start + |d|])
  {
    var parts: seq<string> :| (forall p :: p in parts ==> p in decorations) && Concat(parts) == v[..start];
    var more := parts + [d];
    assert more[..|parts|] == parts;
    assert v[..start + |d|] == v[..start] + d;
    assert Concat(more) == v[..start + |d|];
  }

  /** Positions closed under appending a decoration include the end of every decorated prefix. */
  lemma {:induction false} ClosedReaches(decorations: seq<string>, v: string, reachable: set<nat>, parts: seq<string>)
    requires 0 in reachable && (forall p :: p in parts ==> p in decorations)
    requires forall s, d :: s in reachable && d in decorations && StartsWith(v, d, s) ==> s + |d| in reachable
    requires Concat(parts) <= v
    ensures |Concat(parts)| in reachable
    decreases |parts|
  {
    if parts != [] {
      var n := |parts| - 1;
      var before := Concat(parts[..n]);
      assert parts[n] in parts && forall p :: p in parts[..n] ==> p in parts;
      assert before <= v;
      ClosedReaches(decorations, v, reachable, parts[..n]);
      assert StartsWith(v, parts[n], |before|) by {
        assert v[..|Concat(parts)|] == before + parts[n];
        assert v[|before|..|before| + |parts[n]|] == v[..|Concat(parts)|][|before|..];
      }
    }
  }

  /** Every reachable position ends a decorated prefix. */
  ghost predicate Sound(decorations: seq<string>, value: string, reachable: set<nat>) {
    0 in reachable && forall s :: s in reachable ==> s <= |value| && Decorated(decorations, value[..s])
  }

  /** Positions before `start` are closed under appending a decoration. */
  ghost predicate ClosedBelow(decorations: seq<string>, value: string, reachable: set<nat>, start: nat) {
    forall s, d :: s in reachable && s < start && d in decorations && StartsWith(value, d, s) ==> s + |d| in reachable
  }

  /** One turn of the outer loop: follow every decoration from `start`. */
  method Extend(decorations: seq<string>, value: string, start: nat, before: set<nat>) returns (reachable: set<nat>)
    requires Sound(decorations, value, before) && ClosedBelow(decorations, value, before, start) && start in before
    ensures Sound(decorations, value, reachable) && ClosedBelow(decorations, value, reachable, start + 1)
  {
    hide Decorated, StartsWith, Sound, ClosedBelow;
    reachable := before;
    var i := 0;
    while i < |decorations|
      invariant i <= |decorations| && before <= reachable && Sound(decorations, value, reachable)
      invariant forall s :: s in reachable && s !in before ==> s >= start
      invariant forall j :: 0 <= j < i && StartsWith(value, decorations[j], start) ==>
        start + |decorations[j]| in reachable
    {
      if StartsWith(value, decorations[i], start) {
        SoundStep(decorations, value, reachable, start, decorations[i]);
        reachable := reachable + {start + |decorations[i]|};
      }
      i := i + 1;
    }
    ClosedStep(decorations, value, before, reachable, start);
  }

  lemma {:induction false} SoundStep(
    decorations: seq<string>, value: string, reachable: set<nat>, start: nat, d: string)
    requires Sound(decorations, value, reachable) && start in reachable && d in decorations
    requires StartsWith(value, d, start)
    ensures Sound(decorations, value, reachable + {start + |d|})
  {
    hide Decorated;
    Extended(decorations, value, start, d);
  }

  lemma {:induction false} ClosedStep(
    decorations: seq<string>, value: string, before: set<nat>, reachable: set<nat>, start: nat)
    requires ClosedBelow(decorations, value, before, start) && before <= reachable
    requires forall s :: s in reachable && s !in before ==> s >= start
    requires forall j :: 0 <= j < |decorations| && StartsWith(value, decorations[j], start) ==>
      start + |decorations[j]| in reachable
    ensures ClosedBelow(decorations, value, reachable, start + 1)
  {
    hide StartsWith;
    forall s, d | s in reachable && s < start + 1 && d in decorations && StartsWith(value, d, s)
      ensures s + |d| in reachable
    {
      if s < start { assert s in before; }
    }
  }

  /** _is_noise_sequence. */
  method IsNoiseSequence(decorations: seq<string>, value: string) returns (r: bool)
    ensures r <==> Decorated(decorations, value)
  {
    NothingDecorated(decorations);
    if value == "" { return true; }
    var reachable: set<nat> := {0};
    var start := 0;
    assert value[..0] == "";
    while start <= |value|
      invariant start <= |value| + 1
      invariant Sound(decorations, value, reachable) && ClosedBelow(decorations, value, reachable, start)
    {
      if start in reachable {
        reachable := Extend(decorations, value, start, reachable);
      }
      start := start + 1;
    }
    assert value[..|value|] == value;
    if Decorated(decorations, value) {
      var parts: seq<string> :| (forall p :: p in parts ==> p in decorations) && Concat(parts) == value;
      ClosedReaches(decorations, value, reachable, parts);
    }
    r := |value| in reachable;
  }

  lemma {:induction false} NothingDecorated(decorations: seq<string>)
    ensures Decorated(decorations, "")
  {
    assert Concat([]) == "";
  }

  // ---- embedded vocabulary keys ----------------------------------------------------------------------

  datatype Axis = Operator | Family

  datatype Match = Match(key: string, axis: Axis, value: string)

  predicate At(whole: string, key: string, i: nat) {
    i + |key| <= |whole| && whole[i..i + |key|] == key
  }

  /** The whole spelling is decorations, the key, decorations, split at i. */
  ghost predicate SplitsAt(decorations: seq<string>, whole: string, key: string, i: nat) {
    At(whole, key, i) && Decorated(decorations, whole[..i]) && Decorated(decorations, whole[i + |key|..])
  }

  ghost predicate Embeds(decorations: seq<string>, whole: string, key: string) {
    |key| >= MIN_TOKEN_LENGTH && exists i: nat :: SplitsAt(decorations, whole, key, i)
  }

  /** The spelling is decorations, the key, decorations. */
  ghost predicate Wrapped(decorations: seq<string>, whole: string, key: string, before: string, after: string) {
    whole == before + key + after && Decorated(decorations, before) && Decorated(decorations, after)
  }

  /** A key of three letters or more is embedded exactly when decorations around it make up the spelling. */
  lemma {:induction false} EmbedsIff(decorations: seq<string>, whole: string, key: string)
    ensures Embeds(decorations, whole, key) <==>
      |key| >= MIN_TOKEN_LENGTH && exists before, after :: Wrapped(decorations, whole, key, before, after)
  {
    if i: nat :| SplitsAt(decorations, whole, key, i) {
      assert whole == whole[..i] + key + whole[i + |key|..];
      assert Wrapped(decorations, whole, key, whole[..i], whole[i + |key|..]);
    }
    if before, after :| Wrapped(decorations, whole, key, before, after) {
      assert whole[..|before|] == before && whole[|before| + |key|..] == after;
      assert SplitsAt(decorations, whole, key, |before|);
    }
  }

  /** m is an entry of its axis' vocabulary table. */
  ghost predicate Listed(operators: seq<(string, string)>, families: seq<(string, string)>, m: Match) {
    (m.key, m.value) in (if m.axis.Operator? then operators else families)
  }

  /** The key of the only longest embedded entry. */
  ghost predicate Unrivalled(
    decorations: seq<string>, whole: string, operators: seq<(string, string)>, families: seq<(string, string)>,
    key: string) {
    && (exists m: Match :: m.key == key && Listed(operators, families, m) && Embeds(decorations, whole, key))
    && forall m: Match :: Listed(operators, families, m) && Embeds(decorations, whole, m.key) ==>
      |m.key| <= |key| && (|m.key| == |key| ==> m.key == key)
  }

  /** str.find: the first occurrence from `start` on. */
  method Find(whole: string, key: string, start: nat) returns (i: int)
    ensures i == -1 ==> forall j: nat :: j >= start ==> !At(whole, key, j)
    ensures i != -1 ==> i >= start && At(whole, key, i) && forall j: nat :: start <= j < i ==> !At(whole, key, j)
  {
    var k := start;
    while k + |key| <= |whole|
      invariant start <= k && forall j: nat :: start <= j < k ==> !At(whole, key, j)
      decreases |whole| - k
    {
      if whole[k..k + |key|] == key { return k; }
      k := k + 1;
    }
    return -1;
  }

  /** The occurrences of one key, overlapping ones included; one match per good split. */
  method Occurrences(decorations: seq<string>, whole: string, m: Match) returns (found: seq<Match>)
    ensures forall x :: x in found ==> x == m
    ensures found != [] <==> exists i: nat :: SplitsAt(decorations, whole, m.key, i)
  {
    found := [];
    var start := Find(whole, m.key, 0);
    while start >= 0
      invariant start >= -1 && (start >= 0 ==> At(whole, m.key, start))
      invariant forall x :: x in found ==> x == m
      invariant found != [] <==> exists i: nat :: (start == -1 || i < start) && SplitsAt(decorations, whole, m.key, i)
      decreases if start >= 0 then |whole| + 1 - start else 0
    {
      var end := start + |m.key|;
      var before := IsNoiseSequence(decorations, whole[..start]);
      var after := false;
      if before { after := IsNoiseSequence(decorations, whole[end..]); }
      ghost var was := found;
      if before && after {
        assert SplitsAt(decorations, whole, m.key, start);
        found := found + [m];
      } else {
        assert !SplitsAt(decorations, whole, m.key, start);
      }
      var next := Find(whole, m.key, start + 1);
      assert forall i: nat :: start < i && (next == -1 || i < next) ==> !SplitsAt(decorations, whole, m.key, i);
      start := next;
    }
  }

  /** All matches of one table, in its order. */
  method Collect(
    decorations: seq<string>, whole: string, axis: Axis, table: seq<(string, string)>) returns (found: seq<Match>)
    ensures forall m :: m in found <==> m.axis == axis && (m.key, m.value) in table && Embeds(decorations, whole, m.key)
  {
    found := [];
    var i := 0;
    while i < |table|
      invariant i <= |table|
      invariant forall m :: m in found <==>
        m.axis == axis && (m.key, m.value) in table[..i] && Embeds(decorations, whole, m.key)
    {
      var m := Match(table[i].0, axis, table[i].1);
      if |m.key| >= MIN_TOKEN_LENGTH {
        var more := Occurrences(decorations, whole, m);
        assert more != [] ==> more[0] in more;
        found := found + more;
      }
      assert table[..i + 1] == table[..i] + [table[i]];
      i := i + 1;
    }
    assert table[..i] == table;
  }

  method Longest(matches: seq<Match>) returns (n: nat)
    requires matches != []
    ensures (exists m :: m in matches && |m.key| == n) && forall m :: m in matches ==> |m.key| <= n
  {
    n := |matches[0].key|;
    assert matches[0] in matches;
    var i := 1;
    while i < |matches|
      invariant 1 <= i <= |matches|
      invariant exists m :: m in matches && |m.key| == n
      invariant forall j :: 0 <= j < i ==> |matches[j].key| <= n
    {
      if |matches[i].key| > n {
        n := |matches[i].key|;
        assert matches[i] in matches;
      }
      i := i + 1;
    }
  }

  /** The matches whose key has length n, in order. */
  function OfLength(matches: seq<Match>, n: nat): (r: seq<Match>)
    ensures forall m :: m in r <==> m in matches && |m.key| == n
  {
    if matches == [] then []
    else
      assert matches == [matches[0]] + matches[1..];
      (if |matches[0].key| == n then [matches[0]] else []) + OfLength(matches[1..], n)
  }

  /** m has the only longest key among the matches, and is an operator if a match of that key is. */
  ghost predicate Chosen(matches: seq<Match>, m: Match) {
    && m in matches
    && (forall x :: x in matches ==> |x.key| <= |m.key| && (|x.key| == |m.key| ==> x.key == m.key))
    && (m.axis.Operator? <==> exists x :: x in matches && x.key == m.key && x.axis.Operator?)
  }

  /** The end of _resolve_decorated: one longest key or nothing, operators first. */
  method Pick(matches: seq<Match>) returns (r: Option<Match>)
    ensures r.Some? ==> Chosen(matches, r.value)
    ensures r.None? ==> forall m :: !Chosen(matches, m)
  {
    if matches == [] { return None; }
    var longest := Longest(matches);
    var rows := OfLength(matches, longest);
    assert rows != [] && rows[0] in rows;
    var i := 0;
    while i < |rows| && rows[i].key == rows[0].key
      invariant i <= |rows| && forall j :: 0 <= j < i ==> rows[j].key == rows[0].key
    {
      i := i + 1;
    }
    if i < |rows| {
      assert rows[i] in rows;
      return None;
    }
    var k := 0;
    while k < |rows| && rows[k].axis != Operator
      invariant k <= |rows| && forall j :: 0 <= j < k ==> rows[j].axis != Operator
    {
      k := k + 1;
    }
    if k == |rows| { return Some(rows[0]); }
    assert rows[k] in rows;
    r := Some(rows[k]);
  }

  /** _resolve_decorated: an answer exactly when one key of maximal length is embedded, and then that key,
      as an operator if it is one. */
  method ResolveDecorated(
    decorations: seq<string>, whole: string, operators: seq<(string, string)>, families: seq<(string, string)>)
    returns (r: Option<Match>)
    ensures r.Some? <==> exists key :: Unrivalled(decorations, whole, operators, families, key)
    ensures r.Some? ==>
      && Unrivalled(decorations, whole, operators, families, r.value.key) && Listed(operators, families, r.value)
      && (r.value.axis.Operator? <==> exists v :: (r.value.key, v) in operators)
  {
    hide Embeds, Chosen, Unrivalled;
    var a := Collect(decorations, whole, Operator, operators);
    var b := Collect(decorations, whole, Family, families);
    var matches := a + b;
    assert forall m :: m in matches <==> Listed(operators, families, m) && Embeds(decorations, whole, m.key);
    r := Pick(matches);
    forall m | Chosen(matches, m)
      ensures Unrivalled(decorations, whole, operators, families, m.key)
      ensures Listed(operators, families, m) && (m.axis.Operator? <==> exists v :: (m.key, v) in operators)
    {
      ChosenMeans(decorations, whole, operators, families, matches, m);
    }
    if key :| Unrivalled(decorations, whole, operators, families, key) {
      UnrivalledIsChosen(decorations, whole, operators, families, matches, key);
    }
  }

  lemma {:induction false} ChosenMeans(
    decorations: seq<string>, whole: string, operators: seq<(string, string)>, families: seq<(string, string)>,
    matches: seq<Match>, m: Match)
    requires forall x :: x in matches <==> Listed(operators, families, x) && Embeds(decorations, whole, x.key)
    requires Chosen(matches, m)
    ensures Unrivalled(decorations, whole, operators, families, m.key)
    ensures Listed(operators, families, m) && (m.axis.Operator? <==> exists v :: (m.key, v) in operators)
  {
    hide Embeds;
    forall v | (m.key, v) in operators ensures m.axis.Operator? {
      assert Listed(operators, families, Match(m.key, Operator, v));
      assert Match(m.key, Operator, v) in matches;
    }
  }

  lemma {:induction false} UnrivalledIsChosen(
    decorations: seq<string>, whole: string, operators: seq<(string, string)>, families: seq<(string, string)>,
    matches: seq<Match>, key: string)
    requires forall x :: x in matches <==> Listed(operators, families, x) && Embeds(decorations, whole, x.key)
    requires Unrivalled(decorations, whole, operators, families, key)
    ensures exists m :: Chosen(matches, m)
  {
    hide Embeds;
    var m: Match :| m.key == key && Listed(operators, families, m) && Embeds(decorations, whole, key);
    assert m in matches;
    if x :| x in matches && x.key == key && x.axis.Operator? {
      assert Chosen(matches, x);
    } else {
      assert Chosen(matches, m);
    }
  }
}
