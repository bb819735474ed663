/** The two JavaScript built-ins the metrics lean on: `Math.round` of a ratio and `String.prototype.toLowerCase`. */
module JsMath {

  /**
   `Math.round(a / b)` for a non-negative numerator and a positive denominator:
   the integer nearest to a/b, halves rounding up.
   */
  function RoundRatio(a: nat, b: nat): (r: nat)
    requires b > 0
    ensures 2 * a - b < 2 * b * r <= 2 * a + b
  {
    (2 * a + b) / (2 * b)
  }

  /** The rounding is determined: only one integer lies within a half of a/b (halves going up). */
  lemma RoundRatioUnique(a: nat, b: nat, r: int)
    requires b > 0
    requires 2 * a - b < 2 * b * r <= 2 * a + b
    ensures r == RoundRatio(a, b)
  {
    var q := RoundRatio(a, b);
    var m := 2 * b;
    assert m * q <= 2 * a + b < m * (q + 1) by {
      assert q == (2 * a + b) / m;
    }
    if r < q {
      MulMonotone(m, r, q - 1);
    } else if r > q {
      MulMonotone(m, q + 1, r);
    }
  }

  lemma MulMonotone(m: nat, x: int, y: int)
    requires x <= y
    ensures m * x <= m * y
  {
    assert m * y - m * x == m * (y - x);
  }

  /** A whole ratio rounds to itself. */
  lemma RoundRatioExact(q: nat, b: nat)
    requires b > 0
    ensures RoundRatio(q * b, b) == q
  {
    RoundRatioUnique(q * b, b, q);
  }

  /** A rounded percentage of m out of n reaches 100 once m reaches n, and passes it once m/n reaches 1.005. */
  lemma PercentPastHundred(m: nat, n: nat)
    requires n > 0
    ensures n <= m ==> RoundRatio(100 * m, n) >= 100
    ensures 200 * m >= 201 * n ==> RoundRatio(100 * m, n) > 100
  {
    var c := RoundRatio(100 * m, n);
    assert 200 * m - n < 2 * n * c;
    if c < 100 {
      MulMonotone(2 * n, c, 99);
    } else if c == 100 {
      assert 2 * n * c == 200 * n;
    }
  }

  predicate IsUpper(c: char) {
    'A' <= c <= 'Z'
  }

  function LowerChar(c: char): char {
    if IsUpper(c) then (c as int + 32) as char else c
  }

  /** `s.toLowerCase()`, restricted to the ASCII letters. */
  function Lower(s: string): (r: string)
    ensures |r| == |s|
    ensures forall i :: 0 <= i < |r| ==> !IsUpper(r[i])
    ensures forall i :: 0 <= i < |s| && !IsUpper(s[i]) ==> r[i] == s[i]
    ensures forall i :: 0 <= i < |s| && IsUpper(s[i]) ==> r[i] == (s[i] as int + 32) as char
  {
    seq(|s|, i requires 0 <= i < |s| => LowerChar(s[i]))
  }
}
