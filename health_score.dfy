/**
 * The health score calculate_health_score derives from the recorded verdicts:
 * the percentage of counted verdicts (Passed or Failed) that did not fail,
 * truncated to an integer, and 0 when nothing was counted. Not-implemented
 * verdicts are left out of the denominator.
 */
module HealthScores {
  import opened Verdicts

  /** Number of verdicts that are Passed or Failed. */
  function CountedCount(vs: seq<Verdict>): (n: nat)
    ensures n <= |vs|
  {
    if vs == [] then 0
    else CountedCount(vs[..|vs| - 1]) + (if vs[|vs| - 1].outcome != NotImplemented then 1 else 0)
  }

  /** Number of Failed verdicts, never more than the counted ones. */
  function FailedCount(vs: seq<Verdict>): (n: nat)
    ensures n <= CountedCount(vs)
  {
    if vs == [] then 0
    else FailedCount(vs[..|vs| - 1]) + (if vs[|vs| - 1].outcome == Failed then 1 else 0)
  }

  lemma QuotientBounds(a: int, b: int, k: int)
    requires b > 0 && 0 <= a <= k * b
    ensures 0 <= a / b <= k
  {
  }

  /** The score formula on the two counts: the truncated percentage of counted checks that did not fail. */
  function Score(total: nat, failed: nat): (score: int)
    requires failed <= total
    ensures 0 <= score <= 100
    ensures total == 0 ==> score == 0
  {
    if total > 0 then
      QuotientBounds(100 * (total - failed), total, 100);
      100 * (total - failed) / total
    else 0
  }

  /** The health score of a list of recorded verdicts. */
  function HealthScore(vs: seq<Verdict>): (score: int)
    ensures 0 <= score <= 100
    ensures CountedCount(vs) == 0 ==> score == 0
  {
    Score(CountedCount(vs), FailedCount(vs))
  }

  /** Python's int() on a float: truncation toward zero. */
  function Trunc(x: real): (r: int)
    ensures x >= 0.0 ==> r as real <= x < r as real + 1.0
    ensures x < 0.0 ==> r as real - 1.0 < x <= r as real
  {
    if x >= 0.0 then x.Floor else -((-x).Floor)
  }

  lemma FloorOfQuotient(a: int, b: int)
    requires a >= 0 && b > 0
    ensures ((a as real) / (b as real)).Floor == a / b
  {
    var q := a / b;
    var x := (a as real) / (b as real);
    assert q * b <= a < (q + 1) * b;
    assert x * (b as real) == a as real;
    assert (q as real) * (b as real) <= a as real < ((q + 1) as real) * (b as real);
    RealCancel(q as real, x, (q + 1) as real, b as real);
  }

  lemma RealCancel(lo: real, x: real, hi: real, b: real)
    requires b > 0.0 && lo * b <= x * b < hi * b
    ensures lo <= x < hi
  {
  }

  lemma FailedShareAsQuotient(total: int, failed: int)
    requires total > 0
    ensures 100.0 - (failed as real / total as real) * 100.0 == ((100 * (total - failed)) as real) / (total as real)
  {
    var t, f := total as real, failed as real;
    var p := f / t;
    assert p * t == f;
    assert (100.0 - p * 100.0) * t == 100.0 * t - 100.0 * (p * t);
    RealQuotientUnique(100.0 - p * 100.0, ((100 * (total - failed)) as real), t);
  }

  lemma QuotientNonNegative(n: real, t: real)
    requires n >= 0.0 && t > 0.0
    ensures n / t >= 0.0
  {
  }

  lemma RealQuotientUnique(z: real, w: real, t: real)
    requires t > 0.0 && z * t == w
    ensures z == w / t
  {
  }

  /** The source's expression `int(100 - (failed / total) * 100) if total > 0 else 0`, over exact reals. */
  function SourceScore(total: nat, failed: nat): (r: real)
    requires failed <= total
    ensures 0.0 <= r <= 100.0
  {
    if total > 0 then
      FailedShareBounds(total, failed);
      100.0 - (failed as real / total as real) * 100.0
    else 0.0
  }

  lemma FailedShareBounds(total: nat, failed: nat)
    requires 0 < total && failed <= total
    ensures 0.0 <= failed as real / total as real <= 1.0
  {
    var p := failed as real / total as real;
    assert p * (total as real) == failed as real;
  }

  /** Truncating the source's expression gives the integer score formula. */
  lemma SourceExpressionIsScore(total: nat, failed: nat)
    requires failed <= total
    ensures Trunc(SourceScore(total, failed)) == Score(total, failed)
  {
    if total > 0 {
      var n := 100 * (total - failed);
      FailedShareAsQuotient(total, failed);
      QuotientNonNegative(n as real, total as real);
      FloorOfQuotient(n, total);
    }
  }

  lemma {:induction false} CountsAppend(a: seq<Verdict>, b: seq<Verdict>)
    ensures CountedCount(a + b) == CountedCount(a) + CountedCount(b)
    ensures FailedCount(a + b) == FailedCount(a) + FailedCount(b)
  {
    if b == [] {
      assert a + b == a;
    } else {
      var b' := b[..|b| - 1];
      assert (a + b)[..|a + b| - 1] == a + b';
      assert (a + b)[|a + b| - 1] == b[|b| - 1];
      CountsAppend(a, b');
    }
  }

  lemma {:induction false} NoFailedVerdicts(vs: seq<Verdict>)
    requires forall i :: 0 <= i < |vs| ==> vs[i].outcome != Failed
    ensures FailedCount(vs) == 0
  {
    if vs != [] {
      NoFailedVerdicts(vs[..|vs| - 1]);
    }
  }

  lemma {:induction false} NoPassedVerdicts(vs: seq<Verdict>)
    requires forall i :: 0 <= i < |vs| ==> vs[i].outcome != Passed
    ensures FailedCount(vs) == CountedCount(vs)
  {
    if vs != [] {
      NoPassedVerdicts(vs[..|vs| - 1]);
    }
  }

  lemma {:induction false} CountedWitness(vs: seq<Verdict>, i: nat)
    requires i < |vs| && vs[i].outcome != NotImplemented
    ensures CountedCount(vs) > 0
  {
    if i < |vs| - 1 {
      CountedWitness(vs[..|vs| - 1], i);
    }
  }

  /** When no counted check fails and at least one passes, the score is 100. */
  lemma AllPassedScore(vs: seq<Verdict>)
    requires forall i :: 0 <= i < |vs| ==> vs[i].outcome != Failed
    requires exists i :: 0 <= i < |vs| && vs[i].outcome == Passed
    ensures HealthScore(vs) == 100
  {
    var i :| 0 <= i < |vs| && vs[i].outcome == Passed;
    CountedWitness(vs, i);
    NoFailedVerdicts(vs);
    DivUnique(100 * CountedCount(vs), CountedCount(vs), 100, 0);
  }

  /** When no check passes, the score is 0. */
  lemma NonePassedScore(vs: seq<Verdict>)
    requires forall i :: 0 <= i < |vs| ==> vs[i].outcome != Passed
    ensures HealthScore(vs) == 0
  {
    NoPassedVerdicts(vs);
  }

  lemma DivUnique(n: int, d: int, q: int, r: int)
    requires d > 0 && n == q * d + r && 0 <= r < d
    ensures n / d == q
  {
    var q', r' := n / d, n % d;
    assert q' * d + r' == q * d + r;
    assert (q' - q) * d == r - r';
    if q' > q {
      MulAtLeast(q' - q, d);
    } else if q' < q {
      MulAtLeast(q - q', d);
    }
  }

  lemma MulAtLeast(k: int, d: int)
    requires k >= 1 && d >= 0
    ensures k * d >= d
  {
  }

  /** When exactly half of the counted checks fail, the score is 50. */
  lemma HalfFailedScore(vs: seq<Verdict>)
    requires CountedCount(vs) > 0 && CountedCount(vs) == 2 * FailedCount(vs)
    ensures HealthScore(vs) == 50
  {
    var f := FailedCount(vs);
    DivUnique(100 * f, 2 * f, 50, 0);
  }

  /** A not-implemented verdict, wherever it stands, leaves the score unchanged. */
  lemma NotImplementedIgnored(a: seq<Verdict>, v: Verdict, b: seq<Verdict>)
    requires v.outcome == NotImplemented
    ensures HealthScore(a + [v] + b) == HealthScore(a + b)
  {
    CountsAppend(a, [v]);
    CountsAppend(a + [v], b);
    CountsAppend(a, b);
    assert CountedCount([v]) == 0 && FailedCount([v]) == 0 by {
      assert [v][..0] == [];
    }
  }

  /** Both counts depend only on the multiset of recorded verdicts. */
  lemma {:induction false} CountsOfPermutation(a: seq<Verdict>, b: seq<Verdict>)
    requires multiset(a) == multiset(b)
    ensures CountedCount(a) == CountedCount(b) && FailedCount(a) == FailedCount(b)
    decreases |a|
  {
    if a == [] {
      assert |b| == |multiset(b)| == 0;
    } else {
      var x, a' := a[|a| - 1], a[..|a| - 1];
      assert a == a' + [x];
      assert x in multiset(b);
      var j :| 0 <= j < |b| && b[j] == x;
      var front, back := b[..j], b[j + 1..];
      assert b == front + [x] + back;
      RemoveFromBoth(a', x, front, back);
      CountsOfPermutation(a', front + back);
      CountsAround(a', [], x);
      CountsAround(front, back, x);
    }
  }

  lemma RemoveFromBoth(a: seq<Verdict>, x: Verdict, front: seq<Verdict>, back: seq<Verdict>)
    requires multiset(a + [x]) == multiset(front + [x] + back)
    ensures multiset(a) == multiset(front + back)
  {
    calc {
      multiset(a);
      multiset(a + [x]) - multiset{x};
      multiset(front + [x] + back) - multiset{x};
      multiset(front) + multiset(back);
      multiset(front + back);
    }
  }

  /** An element inserted between two parts adds its own share to each count. */
  lemma CountsAround(front: seq<Verdict>, back: seq<Verdict>, x: Verdict)
    ensures CountedCount(front + [x] + back) == CountedCount(front + back) + CountedCount([x])
    ensures FailedCount(front + [x] + back) == FailedCount(front + back) + FailedCount([x])
  {
    CountsAppend(front, [x]);
    CountsAppend(front + [x], back);
    CountsAppend(front, back);
  }

  /** The score depends on which verdicts were recorded, not on their order. */
  lemma ScoreOrderIndependent(a: seq<Verdict>, b: seq<Verdict>)
    requires multiset(a) == multiset(b)
    ensures HealthScore(a) == HealthScore(b)
  {
    CountsOfPermutation(a, b);
  }

  lemma DoubledQuotient(n: int, t: int)
    requires n >= 0 && t > 0
    ensures (2 * n) / (2 * t) == n / t
  {
    var q, r := n / t, n % t;
    assert n == q * t + r;
    assert q * (2 * t) == 2 * (q * t);
    DivUnique(2 * n, 2 * t, q, 2 * r);
  }

  /** Recording the same verdicts a second time leaves the score unchanged. */
  lemma RepeatedVerdictsKeepScore(vs: seq<Verdict>)
    ensures HealthScore(vs + vs) == HealthScore(vs)
  {
    CountsAppend(vs, vs);
    var t, f := CountedCount(vs), FailedCount(vs);
    if t > 0 {
      DoubledQuotient(100 * (t - f), t);
      assert 100 * (2 * t - 2 * f) == 2 * (100 * (t - f));
    }
  }
}
