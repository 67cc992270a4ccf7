/** The enumeration of unordered host pairs that the mesh schedules. */
module Pairs {

  /** How many pairs `n` hosts make. */
  function Total(n: nat): (t: nat)
    ensures 2 * t == n * (n - 1)
  {
    if n == 0 then 0 else Total(n - 1) + n - 1
  }

  /** The position of the pair (i, j) among the pairs of `n` hosts: twice
      `i * n - i * (i + 1) / 2 + (j - i - 1)`, halved. */
  function Rank(n: nat, i: nat, j: nat): (r: int)
    requires i < j < n
    ensures 2 * r == 2 * i * n - i * (i + 1) + 2 * (j - i - 1)
  {
    RowStart(n, i) + j - i - 1
  }

  /** The position of the first pair whose lower index is `i`. */
  function RowStart(n: nat, i: nat): (r: int)
    requires i <= n
    ensures 2 * r == 2 * i * n - i * (i + 1)
  {
    if i == 0 then 0 else RowStart(n, i - 1) + n - i
  }

  lemma {:induction false} RowStartIncreases(n: nat, i: nat, k: nat)
    requires i <= k <= n
    ensures RowStart(n, i) <= RowStart(n, k)
    decreases k - i
  {
    if i < k {
      RowStartIncreases(n, i, k - 1);
    }
  }

  lemma RowStartEnd(n: nat)
    ensures RowStart(n, n) == Total(n)
  {
  }

  lemma RankInRange(n: nat, i: nat, j: nat)
    requires i < j < n
    ensures 0 <= RowStart(n, i) <= Rank(n, i, j) < RowStart(n, i + 1) <= Total(n)
  {
    RowStartIncreases(n, 0, i);
    RowStartIncreases(n, i + 1, n);
    RowStartEnd(n);
  }

  /** No two pairs share a position. */
  lemma RankInjective(n: nat, i: nat, j: nat, i': nat, j': nat)
    requires i < j < n && i' < j' < n && Rank(n, i, j) == Rank(n, i', j')
    ensures i == i' && j == j'
  {
    RankInRange(n, i, j);
    RankInRange(n, i', j');
    if i < i' {
      RowStartIncreases(n, i + 1, i');
    } else if i' < i {
      RowStartIncreases(n, i' + 1, i);
    }
  }

  /** Every position below the total belongs to some pair. */
  lemma {:induction false} RankOnto(n: nat, k: nat, rows: nat) returns (i: nat, j: nat)
    requires rows <= n && k < RowStart(n, rows)
    ensures i < j < n && i < rows && Rank(n, i, j) == k
  {
    if k >= RowStart(n, rows - 1) {
      i, j := rows - 1, k - RowStart(n, rows - 1) + rows;
    } else {
      i, j := RankOnto(n, k, rows - 1);
    }
  }

  /** `pairs` lists each pair i < j of `machines` at its rank, and nothing else. */
  ghost predicate ListsPairs<T>(machines: seq<T>, pairs: seq<(T, T)>) {
    && |pairs| == Total(|machines|)
    && forall i, j {:trigger Rank(|machines|, i, j)} | 0 <= i < j < |machines| ::
         0 <= Rank(|machines|, i, j) < |pairs| && pairs[Rank(|machines|, i, j)] == (machines[i], machines[j])
  }

  /** The layout leaves no freedom: two listings of the same hosts are equal. */
  lemma ListsPairsUnique<T>(machines: seq<T>, p: seq<(T, T)>, q: seq<(T, T)>)
    requires ListsPairs(machines, p) && ListsPairs(machines, q)
    ensures p == q
  {
    RowStartEnd(|machines|);
    forall k | 0 <= k < |p| ensures p[k] == q[k] {
      var i, j := RankOnto(|machines|, k, |machines|);
      assert Rank(|machines|, i, j) == k;
    }
  }

  /** The pairs in scheduling order, row by row. */
  function PairsOf<T>(machines: seq<T>): seq<(T, T)> {
    Rows(machines, |machines|)
  }

  /** The pairs whose lower index is below `rows`. */
  function Rows<T>(machines: seq<T>, rows: nat): (pairs: seq<(T, T)>)
    requires rows <= |machines|
  {
    if rows == 0 then []
    else
      Rows(machines, rows - 1) +
      seq(|machines| - rows, d requires 0 <= d < |machines| - rows => (machines[rows - 1], machines[rows + d]))
  }

  lemma {:induction false} RowsListed<T>(machines: seq<T>, rows: nat)
    requires rows <= |machines|
    ensures |Rows(machines, rows)| == RowStart(|machines|, rows)
    ensures forall i, j {:trigger Rank(|machines|, i, j)} | 0 <= i < rows && i < j < |machines| ::
              && 0 <= Rank(|machines|, i, j) < RowStart(|machines|, rows)
              && Rows(machines, rows)[Rank(|machines|, i, j)] == (machines[i], machines[j])
  {
    if rows > 0 {
      RowsListed(machines, rows - 1);
    }
  }

  lemma PairsOfListed<T>(machines: seq<T>)
    ensures ListsPairs(machines, PairsOf(machines))
  {
    RowsListed(machines, |machines|);
    RowStartEnd(|machines|);
  }

  method Pairs<T>(machines: seq<T>) returns (pairs: seq<(T, T)>)
    ensures ListsPairs(machines, pairs)
    ensures pairs == PairsOf(machines)
  {
    var n := |machines|;
    pairs := [];
    for i := 0 to n
      invariant |pairs| == RowStart(n, i)
      invariant forall a, b {:trigger Rank(n, a, b)} | 0 <= a < i && a < b < n ::
                  0 <= Rank(n, a, b) < |pairs| && pairs[Rank(n, a, b)] == (machines[a], machines[b])
    {
      for j := i + 1 to n
        invariant |pairs| == RowStart(n, i) + j - i - 1
        invariant forall a, b {:trigger Rank(n, a, b)} | 0 <= a < n && a < b < n && (a < i || (a == i && b < j)) ::
                    0 <= Rank(n, a, b) < |pairs| && pairs[Rank(n, a, b)] == (machines[a], machines[b])
      {
        pairs := pairs + [(machines[i], machines[j])];
      }
    }
    RowStartEnd(n);
    PairsOfListed(machines);
    ListsPairsUnique(machines, pairs, PairsOf(machines));
  }
}
