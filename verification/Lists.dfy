/** Duplicate-free sequences: the ordered dictionaries, child lists, queues and activation lists of
    the runtime, with the order-preserving removals and the queue's de-duplication. */
module Lists {

  datatype Option<+T> = None | Some(value: T)

  ghost predicate NoDup<T>(s: seq<T>) {
    forall i, j :: 0 <= i < j < |s| ==> s[i] != s[j]
  }

  /** Removal of a value; on a duplicate-free list this is Python's list.remove. */
  function Without<T(==,!new)>(s: seq<T>, x: T): (r: seq<T>)
    ensures forall y :: y in r <==> y in s && y != x
    ensures |r| <= |s|
  {
    if s == [] then [] else if s[0] == x then Without(s[1..], x) else [s[0]] + Without(s[1..], x)
  }

  /** First occurrences in order, as dict.fromkeys keeps them. */
  function Dedup<T(==,!new)>(s: seq<T>): (r: seq<T>)
    ensures forall y :: y in r <==> y in s
    decreases |s|
  {
    if s == [] then [] else [s[0]] + Dedup(Without(s[1..], s[0]))
  }

  /** Index of the first occurrence, |s| when there is none. */
  function Pos<T(==,!new)>(s: seq<T>, x: T): (p: nat)
    ensures p <= |s|
    ensures x in s <==> p < |s|
    ensures p < |s| ==> s[p] == x
  {
    if s == [] then 0 else if s[0] == x then 0 else 1 + Pos(s[1..], x)
  }

  lemma {:induction false} NoDupTail<T(!new)>(s: seq<T>)
    requires NoDup(s) && s != []
    ensures NoDup(s[1..]) && s[0] !in s[1..]
  {
  }

  lemma {:induction false} NoDupCons<T(!new)>(x: T, s: seq<T>)
    requires NoDup(s) && x !in s
    ensures NoDup([x] + s)
  {
    var r := [x] + s;
    forall i, j | 0 <= i < j < |r| ensures r[i] != r[j] {
      assert r[j] == s[j - 1];
      if i == 0 { } else { assert r[i] == s[i - 1]; }
    }
  }

  lemma {:induction false} NoDupSnoc<T(!new)>(s: seq<T>, x: T)
    requires NoDup(s) && x !in s
    ensures NoDup(s + [x])
  {
  }

  lemma {:induction false} NoDupWithout<T(!new)>(s: seq<T>, x: T)
    requires NoDup(s)
    ensures NoDup(Without(s, x))
  {
    if s != [] {
      NoDupTail(s);
      NoDupWithout(s[1..], x);
      if s[0] != x {
        NoDupCons(s[0], Without(s[1..], x));
      }
    }
  }

  lemma {:induction false} NoDupDedup<T(!new)>(s: seq<T>)
    ensures NoDup(Dedup(s))
    decreases |s|
  {
    if s != [] {
      NoDupDedup(Without(s[1..], s[0]));
      NoDupCons(s[0], Dedup(Without(s[1..], s[0])));
    }
  }

  lemma {:induction false} DedupIsIdentity<T(!new)>(s: seq<T>)
    requires NoDup(s)
    ensures Dedup(s) == s
    decreases |s|
  {
    if s != [] {
      NoDupTail(s);
      WithoutAbsent(s[1..], s[0]);
      DedupIsIdentity(s[1..]);
    }
  }

  lemma {:induction false} WithoutAbsent<T(!new)>(s: seq<T>, x: T)
    requires x !in s
    ensures Without(s, x) == s
  {
    if s != [] {
      WithoutAbsent(s[1..], x);
    }
  }

  /** Removing one element keeps the relative order of the others. */
  lemma {:induction false} WithoutKeepsOrder<T(!new)>(s: seq<T>, x: T, a: T, b: T)
    requires a != x && b != x && a in s && b in s
    ensures Pos(Without(s, x), a) < Pos(Without(s, x), b) <==> Pos(s, a) < Pos(s, b)
  {
    if s[0] == x {
      WithoutKeepsOrder(s[1..], x, a, b);
    } else if s[0] != a && s[0] != b {
      WithoutKeepsOrder(s[1..], x, a, b);
    }
  }

  /** Appending keeps every position, and the appended element comes last. */
  lemma {:induction false} PosAppend<T(!new)>(s: seq<T>, x: T, a: T)
    requires a in s
    ensures Pos(s + [x], a) == Pos(s, a)
  {
    if s[0] != a {
      assert (s + [x])[1..] == s[1..] + [x];
      PosAppend(s[1..], x, a);
    }
  }

  lemma {:induction false} PosLast<T(!new)>(s: seq<T>, x: T)
    requires x !in s
    ensures Pos(s + [x], x) == |s|
  {
    if s != [] {
      assert (s + [x])[1..] == s[1..] + [x];
      PosLast(s[1..], x);
    }
  }

  lemma {:induction false} MemberOrEmpty<T(!new)>(s: seq<T>)
    ensures s == [] || s[0] in s
  {
  }

  lemma {:induction false} EmptyIfNone<T(!new)>(s: seq<T>)
    requires forall x :: x !in s
    ensures s == []
  {
    MemberOrEmpty(s);
  }
}
