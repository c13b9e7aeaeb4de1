/// Modular index advance shared by both round-robin selectors: the next index
/// is the old one plus one, modulo the number of backends.
module Cyclic {

  /** The index after `i` among `n` positions. Indices never go negative, so
      the truncating remainder of the source and Dafny's `%` agree here. */
  function Next(i: int, n: int): (j: int)
    requires 0 <= i && 0 < n
    ensures 0 <= j < n
  {
    (i + 1) % n
  }

  /** The indices produced by `k` successive advances starting from `i`. */
  function Rounds(i: int, n: int, k: nat): (r: seq<int>)
    requires 0 <= i && 0 < n
    ensures |r| == k
    ensures forall j :: 0 <= j < k ==> 0 <= r[j] < n
    decreases k
  {
    if k == 0 then [] else [Next(i, n)] + Rounds(Next(i, n), n, k - 1)
  }

  lemma MulAtLeast(t: int, n: int)
    requires 1 <= t && 0 < n
    ensures t * n >= n
  {
    assert t * n == (t - 1) * n + n;
  }

  /** The remainder is determined by any quotient-remainder decomposition. */
  lemma ModUnique(x: int, q: int, r: int, n: int)
    requires 0 < n && 0 <= r < n && x == q * n + r
    ensures x % n == r
  {
    var q', r' := x / n, x % n;
    var t := q - q';
    assert x == q' * n + r';
    assert t * n == q * n - q' * n;
    if t >= 1 {
      MulAtLeast(t, n);
      assert false;
    } else if t <= -1 {
      MulAtLeast(-t, n);
      assert false;
    }
  }

  lemma ModAddLeft(a: int, b: int, n: int)
    requires 0 < n
    ensures (a % n + b) % n == (a + b) % n
  {
    var s := a % n + b;
    ModUnique(a + b, a / n + s / n, s % n, n);
  }

  /** The `j`-th index produced from `i` is `i + j + 1` modulo `n`. */
  lemma {:induction false} RoundsAt(i: int, n: int, k: nat, j: nat)
    requires 0 <= i && 0 < n && j < k
    ensures Rounds(i, n, k)[j] == (i + j + 1) % n
    decreases j
  {
    if j > 0 {
      RoundsAt(Next(i, n), n, k - 1, j - 1);
      ModAddLeft(i + 1, j, n);
    }
  }

  lemma DistinctResidues(x: int, y: int, n: int)
    requires 0 < n && x < y < x + n
    ensures x % n != y % n
  {
    var q, r := x / n, x % n;
    assert x == q * n + r;
    if r + (y - x) < n {
      ModUnique(y, q, r + (y - x), n);
    } else {
      assert y == (q + 1) * n + (r + (y - x) - n);
      ModUnique(y, q + 1, r + (y - x) - n, n);
    }
  }

  /** Starting anywhere, `n` advances visit each of the `n` positions exactly
      once: they are pairwise distinct and every position appears. */
  lemma RoundsVisitEachOnce(i: int, n: int)
    requires 0 <= i && 0 < n
    ensures forall a, b :: 0 <= a < b < n ==> Rounds(i, n, n)[a] != Rounds(i, n, n)[b]
    ensures forall p :: 0 <= p < n ==> p in Rounds(i, n, n)
  {
    var r := Rounds(i, n, n);
    forall a, b | 0 <= a < b < n ensures r[a] != r[b] {
      RoundsAt(i, n, n, a);
      RoundsAt(i, n, n, b);
      DistinctResidues(i + a + 1, i + b + 1, n);
    }
    forall p | 0 <= p < n ensures p in r {
      RoundsReach(i, n, p);
    }
  }

  lemma RoundsReach(i: int, n: int, p: int)
    requires 0 <= i && 0 < n && 0 <= p < n
    ensures p in Rounds(i, n, n)
  {
    var t := AdvancesCover(i, n, p);
    RoundsAt(i, n, n, t - 1);
  }

  /** The position reached from `i` after `t` advances among `n` positions. */
  function Advanced(i: int, t: int, n: int): (j: int)
    requires 0 < n
    ensures 0 <= j < n
  {
    (i + t) % n
  }

  /** `n` advances from `i` reach every position: position `p` is reached
      after `t` advances for some `1 <= t <= n`. */
  lemma AdvancesCover(i: int, n: int, p: int) returns (t: int)
    requires 0 <= i && 0 < n && 0 <= p < n
    ensures 1 <= t <= n && Advanced(i, t, n) == p
  {
    var d := p - i - 1;
    var j := d % n;
    ModUnique(i + j + 1, -(d / n), p, n);
    t := j + 1;
  }
}
