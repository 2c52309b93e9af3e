/** Facts about integer division that the other modules need. */
module Arithmetic {

  lemma MultipleIsFar(d: int, n: int)
    requires n > 0
    ensures d >= 1 ==> d * n >= n
    ensures d <= -1 ==> d * n <= -n
  {
    if d >= 1 {
      assert (d - 1) * n >= 0;
    } else if d <= -1 {
      assert (-1 - d) * n >= 0;
    }
  }

  lemma ModUnique(a: int, q: int, n: int, x: int)
    requires a == q * n + x && 0 <= x < n
    ensures a % n == x
  {
    var d := a / n - q;
    assert d * n == (a / n) * n - q * n;
    MultipleIsFar(d, n);
  }

  lemma DivMonotone(a: nat, b: nat, n: nat)
    requires 0 < n && a <= b
    ensures a / n <= b / n
  {
    var d := a / n - b / n;
    assert d * n == (a / n) * n - (b / n) * n;
    MultipleIsFar(d, n);
  }

  lemma DivStep(a: int, n: nat)
    requires 0 < n <= a
    ensures a / n == (a - n) / n + 1
  {
    var d := a / n - ((a - n) / n + 1);
    assert d * n == (a / n) * n - ((a - n) / n) * n - n;
    MultipleIsFar(d, n);
  }
}
