/** Sums over the values of a finite map. */
module Sums {
  import opened Jobs

  ghost function Pick(m: map<Uuid, nat>): (k: Uuid)
    requires m != map[]
    ensures k in m
  {
    var k :| k in m; k
  }

  ghost function Sum(m: map<Uuid, nat>): nat
    decreases |m|
  {
    if m == map[] then 0 else RemoveShrinks(m, Pick(m)); m[Pick(m)] + Sum(m - {Pick(m)})
  }

  lemma RemoveShrinks(m: map<Uuid, nat>, k: Uuid)
    requires k in m
    ensures |m - {k}| < |m|
  {
    assert (m - {k}).Keys == m.Keys - {k};
  }

  /** The sum does not depend on the order in which keys are taken. */
  lemma {:induction false} SumPick(m: map<Uuid, nat>, k: Uuid)
    requires k in m
    ensures Sum(m) == m[k] + Sum(m - {k})
    decreases |m|
  {
    var p := Pick(m);
    if p != k {
      RemoveShrinks(m, p);
      RemoveShrinks(m, k);
      SumPick(m - {p}, k);
      SumPick(m - {k}, p);
      assert m - {p} - {k} == m - {k} - {p};
    }
  }

  /** If no value grows and the value at each of the distinct keys drops, the sum drops by their number. */
  lemma {:induction false} SumDrops(m: map<Uuid, nat>, m': map<Uuid, nat>, drops: seq<Uuid>)
    requires m'.Keys == m.Keys && Distinct(drops)
    requires forall k <- m :: m'[k] <= m[k]
    requires forall k <- drops :: k in m && m'[k] < m[k]
    ensures Sum(m') + |drops| <= Sum(m)
    decreases |m|
  {
    if drops != [] || m != map[] {
      var rest, k := drops, if drops != [] then drops[|drops| - 1] else Pick(m);
      if drops != [] { rest := drops[..|drops| - 1]; }
      SumPick(m, k);
      SumPick(m', k);
      RemoveShrinks(m, k);
      SumDrops(m - {k}, m' - {k}, rest);
    } else {
      assert m' == map[];
    }
  }

  lemma SumInserts(m: map<Uuid, nat>, k: Uuid, v: nat)
    requires k !in m
    ensures Sum(m[k := v]) == Sum(m) + v
  {
    SumPick(m[k := v], k);
    assert m[k := v] - {k} == m;
  }
}
