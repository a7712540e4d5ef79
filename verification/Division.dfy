// Quotients and remainders by a variable divisor.

module Division {

  lemma NotNegative(a: int, b: int)
    requires a >= 0 && b >= 0
    ensures a * b >= 0
  {
  }

  lemma Spread(a: int, b: int, m: int)
    ensures (b - a) * m == b * m - a * m
  {
  }

  lemma Grows(a: int, b: int, m: int)
    requires a <= b && m >= 0
    ensures a * m <= b * m
  {
    NotNegative(b - a, m);
    Spread(a, b, m);
  }

  lemma TimesNext(q: int, m: int)
    ensures (q + 1) * m == q * m + m
  {
  }

  lemma Stretch(q: int, p: int, m: int)
    requires q < p && m > 0
    ensures q * m + m <= p * m
  {
    Grows(q + 1, p, m);
    TimesNext(q, m);
  }

  /** A number has one quotient and one remainder. */
  lemma SameQuotient(q: int, r: int, p: int, s: int, m: int)
    requires 0 <= r < m && 0 <= s < m && q * m + r == p * m + s
    ensures q == p && r == s
  {
    if q < p {
      Stretch(q, p, m);
    } else if p < q {
      Stretch(p, q, m);
    }
  }

  lemma DivMod(q: int, r: int, m: int)
    requires 0 <= r < m
    ensures (q * m + r) / m == q && (q * m + r) % m == r
  {
    var x := q * m + r;
    SameQuotient(q, r, x / m, x % m, m);
  }

  lemma ModStep(a: int, m: int)
    requires m > 1
    ensures (a + 1) % m == if a % m == m - 1 then 0 else a % m + 1
  {
    var q := a / m;
    assert a == q * m + a % m;
    if a % m == m - 1 {
      assert a + 1 == (q + 1) * m + 0;
      DivMod(q + 1, 0, m);
    } else {
      DivMod(q, a % m + 1, m);
    }
  }

  /** An item within so many full rows is in one of those rows. */
  lemma RowOf(n: nat, rows: nat, width: nat)
    requires width > 0 && n < rows * width
    ensures n / width < rows
  {
    var q := n / width;
    assert n == q * width + n % width;
    if rows <= q {
      Grows(rows, q, width);
    }
  }

  lemma ModAgain(i: int, n: int)
    requires n > 0
    ensures (i + n) % n == i % n
    ensures 0 <= i < n ==> i % n == i
  {
    DivMod(i / n + 1, i % n, n);
    TimesNext(i / n, n);
    if 0 <= i < n {
      DivMod(0, i, n);
    }
  }
}
