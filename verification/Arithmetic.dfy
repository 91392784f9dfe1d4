/** Minimum, maximum, and the total of a sequence of counts. */
module Arithmetic {
  function Min(a: int, b: int): (m: int)
    ensures m <= a && m <= b && (m == a || m == b)
  {
    if a < b then a else b
  }

  function Max(a: int, b: int): (m: int)
    ensures m >= a && m >= b && (m == a || m == b)
  {
    if a > b then a else b
  }

  function Total(counts: seq<int>): int
  {
    if counts == [] then 0 else Total(counts[..|counts| - 1]) + counts[|counts| - 1]
  }

  lemma {:induction false} TotalOfUpdate(counts: seq<int>, i: nat, v: int)
    requires i < |counts|
    ensures Total(counts[i := v]) == Total(counts) - counts[i] + v
  {
    var n := |counts| - 1;
    if i == n {
      assert counts[i := v][..n] == counts[..n];
    } else {
      assert counts[i := v][..n] == counts[..n][i := v];
      TotalOfUpdate(counts[..n], i, v);
    }
  }

  lemma {:induction false} TotalOfZeros(counts: seq<int>)
    requires forall i | 0 <= i < |counts| :: counts[i] == 0
    ensures Total(counts) == 0
  {
    if counts != [] { TotalOfZeros(counts[..|counts| - 1]); }
  }

  lemma {:induction false} TotalOfNaturals(counts: seq<int>)
    requires forall i | 0 <= i < |counts| :: counts[i] >= 0
    ensures Total(counts) >= 0
    ensures Total(counts) == 0 ==> forall i | 0 <= i < |counts| :: counts[i] == 0
  {
    if counts != [] { TotalOfNaturals(counts[..|counts| - 1]); }
  }
}
