/** Counting arguments: positions in a box, and the pigeonhole principle for sequences. */
module Counting {

  lemma PositionBound(v: nat, o: nat, n: nat, vs: nat, os: nat, ns: nat)
    requires v < vs && o < os && n < ns
    ensures 0 <= Position(v, o, n, os, ns) < vs * os * ns
  {
    RowBound(v, o, vs, os);
    RowBound(v * os + o, n, vs * os, ns);
  }

  /** Place `b` of row `a` lies within `m` rows of `n` places. */
  lemma RowBound(a: nat, b: nat, m: nat, n: nat)
    requires a < m && b < n
    ensures 0 <= a * n + b < m * n
  {
    TimesKeepsOrder(a + 1, m, n);
  }

  lemma TimesKeepsOrder(a: nat, b: nat, c: nat)
    requires a <= b
    ensures a * c <= b * c
  {
  }

  lemma PositionInjective(a: nat, b: nat, c: nat, d: nat, n: nat)
    requires b < n && d < n && a * n + b == c * n + d
    ensures a == c && b == d
  {
    if a < c {
      TimesKeepsOrder(a + 1, c, n);
    } else if c < a {
      TimesKeepsOrder(c + 1, a, n);
    }
  }

  function Position(v: int, o: int, n: int, os: int, ns: int): int {
    (v * os + o) * ns + n
  }

  lemma BoxInjective(v: nat, o: nat, n: nat, v': nat, o': nat, n': nat, os: nat, ns: nat)
    requires o < os && o' < os && n < ns && n' < ns
    requires Position(v, o, n, os, ns) == Position(v', o', n', os, ns)
    ensures v == v' && o == o' && n == n'
  {
    PositionInjective(v * os + o, n, v' * os + o', n', ns);
    PositionInjective(v, o, v', o', os);
  }

  /** Distinct numbers below `n` number at most `n`. */
  lemma {:induction false} Pigeonhole(xs: seq<int>, n: nat)
    requires forall i | 0 <= i < |xs| :: 0 <= xs[i] < n
    requires forall i, j | 0 <= i < j < |xs| :: xs[i] != xs[j]
    ensures |xs| <= n
    decreases n
  {
    if xs != [] {
      assert 0 <= xs[0] < n;
      if p :| 0 <= p < |xs| && xs[p] == n - 1 {
        Pigeonhole(xs[..p] + xs[p + 1..], n - 1);
      } else {
        Pigeonhole(xs, n - 1);
      }
    }
  }

  /** `n` distinct numbers below `n` are all of them. */
  lemma Covers(xs: seq<int>, n: nat, x: nat)
    requires forall i | 0 <= i < |xs| :: 0 <= xs[i] < n
    requires forall i, j | 0 <= i < j < |xs| :: xs[i] != xs[j]
    requires |xs| == n && x < n
    ensures x in xs
  {
    if x !in xs {
      Pigeonhole(xs + [x], n);
    }
  }
}
