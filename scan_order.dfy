/**
 * The visiting order of the overlap scan in `run_resorce_inits`
 * (server_builder/src/server_builder.rs): `for i in 0..n` and, inside it,
 * `for u in i + 1..n`. Each unordered pair of indices is visited once.
 */
module ScanOrder {

  /** The pairs `(i, u)` for `u in i + 1..n`, in the order the inner loop visits them. */
  function RowPairs(i: nat, n: nat): (ps: seq<(nat, nat)>)
    ensures forall k :: 0 <= k < |ps| ==> ps[k].0 == i && i < ps[k].1 < n
    decreases n
  {
    if n <= i + 1 then [] else RowPairs(i, n - 1) + [(i, n - 1)]
  }

  /** The pairs the two loops visit for the rows `0..i`. */
  function ScanPairs(i: nat, n: nat): (ps: seq<(nat, nat)>)
    ensures forall k :: 0 <= k < |ps| ==> ps[k].0 < i && ps[k].0 < ps[k].1 < n
  {
    if i == 0 then [] else ScanPairs(i - 1, n) + RowPairs(i - 1, n)
  }

  /** How often the pair `p` occurs in `ps`. */
  function Visits(ps: seq<(nat, nat)>, p: (nat, nat)): nat
  {
    if ps == [] then 0 else Visits(ps[..|ps| - 1], p) + (if ps[|ps| - 1] == p then 1 else 0)
  }

  lemma {:induction false} VisitsAppend(ps: seq<(nat, nat)>, qs: seq<(nat, nat)>, p: (nat, nat))
    ensures Visits(ps + qs, p) == Visits(ps, p) + Visits(qs, p)
    decreases |qs|
  {
    if qs != [] {
      var n := |qs| - 1;
      assert (ps + qs)[..|ps + qs| - 1] == ps + qs[..n];
      VisitsAppend(ps, qs[..n], p);
    } else {
      assert ps + qs == ps;
    }
  }

  lemma {:induction false} VisitsMember(ps: seq<(nat, nat)>, p: (nat, nat))
    ensures Visits(ps, p) > 0 <==> p in ps
    decreases |ps|
  {
    if ps != [] {
      var front := ps[..|ps| - 1];
      VisitsMember(front, p);
      assert ps == front + [ps[|ps| - 1]];
    }
  }

  /** How often the pair `(j, u)` is visited in the row `i`. */
  lemma {:induction false} RowPairsCount(i: nat, n: nat, j: nat, u: nat)
    ensures Visits(RowPairs(i, n), (j, u)) == if j == i && i < u < n then 1 else 0
    decreases n
  {
    if n > i + 1 {
      var ps, front := RowPairs(i, n), RowPairs(i, n - 1);
      assert ps == front + [(i, n - 1)];
      assert ps[..|ps| - 1] == front && ps[|ps| - 1] == (i, n - 1);
      RowPairsCount(i, n - 1, j, u);
      assert Visits(ps, (j, u)) == Visits(front, (j, u)) + (if (i, n - 1) == (j, u) then 1 else 0);
    }
  }

  /** How often the pair `(j, u)` is visited in the rows `0..i`. */
  lemma {:induction false} ScanPairsCount(i: nat, n: nat, j: nat, u: nat)
    ensures Visits(ScanPairs(i, n), (j, u)) == if j < i && j < u < n then 1 else 0
  {
    if i > 0 {
      ScanPairsCount(i - 1, n, j, u);
      RowPairsCount(i - 1, n, j, u);
      VisitsAppend(ScanPairs(i - 1, n), RowPairs(i - 1, n), (j, u));
    }
  }

  /** The scan visits every pair `i < u` of `n` initializers exactly once, and nothing else. */
  lemma ScanVisitsEachPairOnce(n: nat)
    ensures forall j: nat, u: nat :: Visits(ScanPairs(n, n), (j, u)) == if j < u < n then 1 else 0
  {
    forall j: nat, u: nat
      ensures Visits(ScanPairs(n, n), (j, u)) == if j < u < n then 1 else 0
    {
      ScanPairsCount(n, n, j, u);
    }
  }

  /** Both indices of every pair are below `n`. */
  predicate PairsIn(n: nat, ps: seq<(nat, nat)>)
  {
    forall k :: 0 <= k < |ps| ==> ps[k].0 < n && ps[k].1 < n
  }
}
