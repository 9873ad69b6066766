/** Residues modulo a variable. */
module ModArith {
  lemma MulMono(x: int, y: int, m: nat)
    requires x <= y
    ensures x * m <= y * m
  {
  }

  lemma ModUnique(a: int, m: nat, q: int, r: nat)
    requires m > 0 && a == q * m + r && r < m
    ensures a / m == q && a % m == r
  {
    var q' := a / m;
    var r' := a % m;
    assert a == q' * m + r' && 0 <= r' < m;
    if q' < q {
      MulMono(q' + 1, q, m);
    } else if q < q' {
      MulMono(q + 1, q', m);
    }
  }

  /** Counting on from a residue is counting on from the number it stands for. */
  lemma BumpMod(i: nat, m: nat)
    requires m > 0
    ensures (i % m + 1) % m == (i + 1) % m
  {
    var q, r := i / m, i % m;
    assert i == q * m + r;
    if r + 1 < m {
      ModUnique(i + 1, m, q, r + 1);
      ModUnique(r + 1, m, 0, r + 1);
    } else {
      assert (q + 1) * m == q * m + m;
      ModUnique(i + 1, m, q + 1, 0);
      ModUnique(m, m, 1, 0);
    }
  }

  /** Two numbers less than `m` apart with the same residue are equal. */
  lemma ModInjective(i: nat, j: nat, m: nat)
    requires m > 0 && i <= j < i + m && i % m == j % m
    ensures i == j
  {
    var q, q' := i / m, j / m;
    assert i == q * m + i % m && j == q' * m + j % m;
    if q < q' {
      MulMono(q + 1, q', m);
    } else if q' < q {
      MulMono(q' + 1, q, m);
    }
  }

  /** Adding without a wrap. */
  lemma AddMod(i: nat, d: nat, m: nat)
    requires m > 0 && i % m + d < m
    ensures (i + d) % m == i % m + d
  {
    ModUnique(i + d, m, i / m, i % m + d);
  }

  /** Adding up to the wrap. */
  lemma WrapMod(i: nat, m: nat)
    requires m > 0
    ensures (i + (m - i % m)) % m == 0
  {
    var q := i / m;
    assert i == q * m + i % m;
    assert (q + 1) * m == q * m + m;
    ModUnique(i + (m - i % m), m, q + 1, 0);
  }

  /** A whole turn changes nothing. */
  lemma TurnMod(i: nat, m: nat)
    requires m > 0
    ensures (i + m) % m == i % m
  {
    var q := i / m;
    assert i == q * m + i % m;
    assert (q + 1) * m == q * m + m;
    ModUnique(i + m, m, q + 1, i % m);
  }

  /** A multiple of `b` is, around a ring of `k * b`, at least `b` before the end. */
  lemma MultipleFits(w: nat, b: nat, k: nat)
    requires b > 0 && k > 0 && w % b == 0
    ensures k * b > 0 && w % (k * b) + b <= k * b
  {
    MulMono(1, k, b);
    var m := k * b;
    var x, q, h := w / b, w / m, w % m;
    assert w == x * b && w == q * m + h;
    var y := x - q * k;
    assert h == y * b by {
      assert q * m == (q * k) * b;
      assert (x - q * k) * b == x * b - (q * k) * b;
    }
    if y >= k {
      MulMono(k, y, b);
    } else {
      MulMono(y, k - 1, b);
      assert (k - 1) * b == k * b - b;
    }
  }

  lemma AddMultiple(w: nat, b: nat)
    requires b > 0 && w % b == 0
    ensures (w + b) % b == 0
  {
    TurnMod(w, b);
  }

  /** Adding with one wrap. */
  lemma OverMod(i: nat, d: nat, m: nat)
    requires m > 0 && d < m && i % m + d >= m
    ensures (i + d) % m == i % m + d - m
  {
    var q := i / m;
    assert i + d == q * m + i % m + d;
    assert (q + 1) * m == q * m + m;
    ModUnique(i + d, m, q + 1, i % m + d - m);
  }
}
