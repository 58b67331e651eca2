/** Lane budgets of gpu-wiki/tools/query_nl.py: the quota is handed out exactly. */
module Quotas {

  /** Weights are 2 for a primary scope, 1 for any other. */
  function Weights(primary: seq<bool>): (w: seq<nat>)
    ensures |w| == |primary| && forall i :: 0 <= i < |w| ==> w[i] == if primary[i] then 2 else 1
  {
    seq(|primary|, i requires 0 <= i < |primary| => if primary[i] then 2 else 1)
  }

  function Sum(s: seq<nat>): nat {
    if s == [] then 0 else s[0] + Sum(s[1..])
  }

  function Share(total: nat, weight: nat, whole: nat): nat
    requires whole > 0
  {
    var q := total * weight / whole;
    if q < 1 then 1 else q
  }

  /** max(1, total * weight // total_weight) per lane. */
  function Shares(primary: seq<bool>, total: nat): (s: seq<nat>)
    requires primary != []
    ensures |s| == |primary|
  {
    WeightsPositive(primary);
    var whole := Sum(Weights(primary));
    seq(|primary|, i requires 0 <= i < |primary| => Share(total, Weights(primary)[i], whole))
  }

  // ---- sums ----------------------------------------------------------------------------------------

  lemma {:induction false} SumUpdate(s: seq<nat>, i: nat, v: nat)
    requires i < |s|
    ensures Sum(s[i := v]) == Sum(s) - s[i] + v
  {
    if i == 0 {
      assert s[i := v][1..] == s[1..];
    } else {
      assert s[i := v][1..] == s[1..][i - 1 := v];
      SumUpdate(s[1..], i - 1, v);
    }
  }

  lemma {:induction false} SumOnes(s: seq<nat>)
    requires forall i :: 0 <= i < |s| ==> s[i] == 1
    ensures Sum(s) == |s|
  {
    if s != [] { SumOnes(s[1..]); }
  }

  lemma {:induction false} SumLess(a: seq<nat>, b: seq<nat>)
    requires |a| == |b| && forall i :: 0 <= i < |a| ==> a[i] <= b[i]
    ensures Sum(a) <= Sum(b)
    ensures a != [] && (forall i :: 0 <= i < |a| ==> a[i] < b[i]) ==> Sum(a) < Sum(b)
  {
    if a != [] { SumLess(a[1..], b[1..]); }
  }

  /** Every element times k. */
  function Scaled(s: seq<nat>, k: nat): (r: seq<nat>)
    ensures |r| == |s| && forall i :: 0 <= i < |s| ==> r[i] == s[i] * k
  {
    seq(|s|, i requires 0 <= i < |s| => s[i] * k)
  }

  lemma {:induction false} SumScaled(s: seq<nat>, k: nat)
    ensures Sum(Scaled(s, k)) == Sum(s) * k
  {
    if s != [] {
      assert Scaled(s, k)[1..] == Scaled(s[1..], k);
      SumScaled(s[1..], k);
      Distribute(s[0], Sum(s[1..]), k);
    }
  }

  lemma {:induction false} Distribute(a: nat, b: nat, k: nat)
    ensures (a + b) * k == a * k + b * k
  {
  }

  lemma {:induction false} Cancel(a: nat, b: nat, k: nat)
    requires k > 0
    ensures a * k <= b * k <==> a <= b
  {
    if a <= b {
      Distribute(a, b - a, k);
    } else {
      Distribute(b, a - b, k);
      assert (a - b) * k >= 1;
    }
  }

  lemma {:induction false} Floor(x: nat, k: nat)
    requires k > 0
    ensures var q := x / k; q >= 0 && q * k <= x < q * k + k
  {
  }

  lemma {:induction false} WeightsPositive(primary: seq<bool>)
    requires primary != []
    ensures |primary| <= Sum(Weights(primary)) <= 2 * |primary|
  {
    var ones := seq<nat>(|primary|, i => 1);
    SumOnes(ones);
    SumLess(ones, Weights(primary));
    SumScaled(ones, 2);
    SumLess(Weights(primary), Scaled(ones, 2));
  }

  /** Floors of parts of total, in proportion to w: together they miss less than one per part. */
  lemma {:induction false} FloorSum(w: seq<nat>, q: seq<nat>, total: nat)
    requires |q| == |w| && w != [] && Sum(w) > 0
    requires forall i :: 0 <= i < |w| ==> q[i] * Sum(w) <= w[i] * total < q[i] * Sum(w) + Sum(w)
    ensures Sum(q) <= total < Sum(q) + |w|
  {
    var whole := Sum(w);
    var up := seq<nat>(|q|, i requires 0 <= i < |q| => q[i] + 1);
    var parts := Scaled(w, total);
    SumScaled(w, total);
    SumScaled(q, whole);
    SumScaled(up, whole);
    forall i | 0 <= i < |q| ensures Scaled(q, whole)[i] <= parts[i] < Scaled(up, whole)[i] {
      Distribute(q[i], 1, whole);
    }
    SumLess(Scaled(q, whole), parts);
    SumLess(parts, Scaled(up, whole));
    SumUp(q, up);
    Cancel(Sum(q), total, whole);
    Cancel(Sum(up), total, whole);
  }

  lemma {:induction false} SumUp(q: seq<nat>, up: seq<nat>)
    requires |up| == |q| && forall i :: 0 <= i < |q| ==> up[i] == q[i] + 1
    ensures Sum(up) == Sum(q) + |q|
  {
    if q != [] { SumUp(q[1..], up[1..]); }
  }

  /** Below the total weight a lane's share is 1; from there on it is not raised. */
  lemma {:induction false} ShareRegime(total: nat, weight: nat, whole: nat)
    requires 1 <= weight <= 2 && whole > 0
    ensures total < whole ==> Share(total, weight, whole) == 1
    ensures total >= whole ==> Share(total, weight, whole) == total * weight / whole
  {
    var q := total * weight / whole;
    Floor(total * weight, whole);
    if total < whole {
      assert total * weight < 2 * whole;
      Cancel(2, q, whole);
    } else {
      assert total * weight >= whole;
    }
  }

  lemma {:induction false} ShareRegimes(primary: seq<bool>, total: nat)
    requires primary != []
    ensures var whole, s := Sum(Weights(primary)), Shares(primary, total);
      && whole > 0
      && (total < whole ==> forall i :: 0 <= i < |s| ==> s[i] == 1)
      && (total >= whole ==> forall i :: 0 <= i < |s| ==> s[i] == total * Weights(primary)[i] / whole)
  {
    WeightsPositive(primary);
    var whole, w, s := Sum(Weights(primary)), Weights(primary), Shares(primary, total);
    forall i | 0 <= i < |s|
      ensures total < whole ==> s[i] == 1
      ensures total >= whole ==> s[i] == total * w[i] / whole
    {
      ShareRegime(total, w[i], whole);
    }
  }

  /** The shares never overdraw a quota of at least one per lane, and miss it by less than one per lane. */
  lemma {:induction false} SharesFit(primary: seq<bool>, total: nat)
    requires primary != []
    ensures |primary| <= total ==> Sum(Shares(primary, total)) <= total < Sum(Shares(primary, total)) + |primary|
    ensures |primary| > total ==> forall i :: 0 <= i < |primary| ==> Shares(primary, total)[i] == 1
  {
    WeightsPositive(primary);
    ShareRegimes(primary, total);
    var whole, w, s := Sum(Weights(primary)), Weights(primary), Shares(primary, total);
    if total < whole {
      SumOnes(s);
    } else {
      forall i | 0 <= i < |w| ensures s[i] * whole <= w[i] * total < s[i] * whole + whole {
        Floor(total * w[i], whole);
      }
      FloorSum(w, s, total);
    }
  }

  /** _lane_budgets. A quota of at least one per lane is handed out exactly: the shares, and one more to
      each of the first lanes. The loop that takes quota back has a false guard for every input, so only
      its guard appears here. */
  method LaneBudgets(primary: seq<bool>, total: nat) returns (budgets: seq<nat>)
    ensures |budgets| == |primary|
    ensures primary != [] && |primary| <= total ==> Sum(budgets) == total
    ensures primary != [] ==> var s := Shares(primary, total);
      forall i :: 0 <= i < |budgets| ==> budgets[i] == s[i] + if i < total - Sum(s) then 1 else 0
  {
    if primary == [] { return []; }
    var shares := Shares(primary, total);
    SharesFit(primary, total);
    if |primary| > total { SumOnes(shares); }
    budgets := shares;
    assert !(Sum(budgets) > total && exists i :: 0 <= i < |budgets| && budgets[i] > 1);
    var index := 0;
    while Sum(budgets) < total
      invariant |budgets| == |primary| && Sum(budgets) == Sum(shares) + index
      invariant index > 0 ==> Sum(shares) + index <= total
      invariant forall i :: 0 <= i < |budgets| ==> budgets[i] == shares[i] + if i < index then 1 else 0
      decreases total - Sum(budgets)
    {
      assert index < |budgets|;
      SmallMod(index, |budgets|);
      SumUpdate(budgets, index % |budgets|, budgets[index % |budgets|] + 1);
      budgets := budgets[index % |budgets| := budgets[index % |budgets|] + 1];
      index := index + 1;
    }
  }

  // ---- who gets more -----------------------------------------------------------------------------------

  /** What LaneBudgets returns. */
  function Budget(primary: seq<bool>, total: nat, i: nat): nat
    requires i < |primary|
  {
    var s := Shares(primary, total);
    s[i] + if i < total - Sum(s) then 1 else 0
  }

  /** A primary lane can get less than a related one: six results over primary, related, primary,
      primary. */
  lemma {:induction false} PrimaryCanGetLess()
    ensures var p := [true, false, true, true];
      Budget(p, 6, 0) == 2 && Budget(p, 6, 1) == 2 && Budget(p, 6, 2) == 1 && Budget(p, 6, 3) == 1
  {
    var p := [true, false, true, true];
    var w: seq<nat> := [2, 1, 2, 2];
    assert Weights(p) == w;
    assert w[1..] == [1, 2, 2] && w[1..][1..] == [2, 2] && w[1..][1..][1..] == [2];
    assert Sum(w) == 7;
    var s: seq<nat> := [1, 1, 1, 1];
    ShareRegimes(p, 6);
    assert Shares(p, 6) == s;
    SumOnes(s);
  }

  /** Main result: no related lane gets more than a primary one exactly when the quota reaches the total
      weight, or no related lane is among the first total - |lanes| with a primary one behind them. */
  lemma {:induction false} PrimaryFirstIff(primary: seq<bool>, total: nat)
    requires primary != [] && |primary| <= total
    ensures (forall i, j :: 0 <= i < |primary| && 0 <= j < |primary| && primary[i] && !primary[j] ==>
      Budget(primary, total, i) >= Budget(primary, total, j))
      <==> (total >= Sum(Weights(primary))
            || forall i, j :: 0 <= j < total - |primary| <= i < |primary| ==> primary[j] || !primary[i])
  {
    hide Budget, Sum, Weights;
    if total >= Sum(Weights(primary)) {
      forall i, j | 0 <= i < |primary| && 0 <= j < |primary| && primary[i] && !primary[j]
        ensures Budget(primary, total, i) >= Budget(primary, total, j)
      {
        AmpleBudgets(primary, total, i, j);
      }
    } else {
      forall i | 0 <= i < |primary|
        ensures Budget(primary, total, i) == 1 + if i < total - |primary| then 1 else 0
      {
        ScarceBudget(primary, total, i);
      }
    }
  }

  /** With a quota of at least the total weight, a primary share exceeds a related one. */
  lemma {:induction false} AmpleBudgets(primary: seq<bool>, total: nat, i: nat, j: nat)
    requires primary != [] && |primary| <= total && total >= Sum(Weights(primary))
    requires i < |primary| && j < |primary| && primary[i] && !primary[j]
    ensures Budget(primary, total, i) >= Budget(primary, total, j)
  {
    var whole, s := Sum(Weights(primary)), Shares(primary, total);
    WeightsPositive(primary);
    ShareRegimes(primary, total);
    SharesFit(primary, total);
    DoubleFloor(total, whole);
    assert s[i] == total * 2 / whole && s[j] == total * 1 / whole;
  }

  /** With a smaller one every share is one, and the first lanes get one more. */
  lemma {:induction false} ScarceBudget(primary: seq<bool>, total: nat, i: nat)
    requires primary != [] && |primary| <= total < Sum(Weights(primary)) && i < |primary|
    ensures Budget(primary, total, i) == 1 + if i < total - |primary| then 1 else 0
  {
    WeightsPositive(primary);
    ShareRegimes(primary, total);
    SumOnes(Shares(primary, total));
  }

  lemma {:induction false} SmallMod(i: nat, n: nat)
    requires i < n
    ensures i % n == i
  {
  }

  lemma {:induction false} DoubleFloor(total: nat, whole: nat)
    requires 0 < whole <= total
    ensures total * 2 / whole > total * 1 / whole
  {
    var q, p := total * 1 / whole, total * 2 / whole;
    Floor(total * 1, whole);
    Floor(total * 2, whole);
    Distribute(p, 1, whole);
    Distribute(q, 1, whole);
    assert q * whole >= whole || q == 0;
    assert (q + 1) * whole <= total * 2;
    Cancel(p + 1, q + 1, whole);
  }
}
