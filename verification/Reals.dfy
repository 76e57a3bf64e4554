/** Real arithmetic shared by the geometric modules.

    Square roots enter as a function `root` that meets its defining property:
    Dafny's reals cannot construct one, and every statement below holds for any
    function that has it.
 */
module Reals {

  /** The square of x, that is x * x; it has a name so that inequalities never speak of a bare monomial. */
  function Sq(x: real): (s: real)
    ensures s >= 0.0
    ensures s == 0.0 <==> x == 0.0
  {
    if x >= 0.0 then Product(x, x) else Product(-x, -x)
  }

  lemma SqIs(x: real)
    ensures Sq(x) == x * x
  {
  }

  function Product(x: real, y: real): (p: real)
    requires x >= 0.0 && y >= 0.0
    ensures p >= 0.0
    ensures p == 0.0 <==> x == 0.0 || y == 0.0
  {
    x * y
  }

  /** The defining property of the square root. */
  ghost predicate IsRoot(root: real -> real) {
    forall x: real | x >= 0.0 :: root(x) >= 0.0 && Sq(root(x)) == x
  }

  function Max(x: real, y: real): real { if x < y then y else x }

  function Min(x: real, y: real): real { if x < y then x else y }

  /** `numpy.clip`: values outside [lo, hi] are moved to the nearest end. */
  function Clip(x: real, lo: real, hi: real): real { Min(Max(x, lo), hi) }

  lemma ProductNonNegative(x: real, y: real)
    requires x >= 0.0 && y >= 0.0
    ensures x * y >= 0.0
  {
    var p := Product(x, y);
  }

  lemma ProductPositive(x: real, y: real)
    requires x > 0.0 && y > 0.0
    ensures x * y > 0.0
  {
    var p := Product(x, y);
  }

  lemma CompareSquares(x: real, y: real)
    requires x >= 0.0 && y >= 0.0
    ensures x <= y <==> Sq(x) <= Sq(y)
    ensures x == y <==> Sq(x) == Sq(y)
  {
    assert (y - x) * (y + x) == Sq(y) - Sq(x);
    if x < y {
      ProductPositive(y - x, y + x);
    } else if y < x {
      ProductPositive(x - y, y + x);
      assert (x - y) * (y + x) == Sq(x) - Sq(y);
    }
  }

  /** Two non-negative numbers with one square are one number, so roots are unique. */
  lemma RootOfSquare(root: real -> real, x: real)
    requires IsRoot(root)
    ensures root(Sq(x)) == if x >= 0.0 then x else -x
  {
    var r := root(Sq(x));
    assert r >= 0.0 && Sq(r) == Sq(x);
    assert Sq(-x) == Sq(x);
    CompareSquares(r, if x >= 0.0 then x else -x);
  }

  lemma CancelFactor(k: real, x: real, y: real)
    requires k != 0.0 && k * x == k * y
    ensures x == y
  {
    assert k * (x - y) == 0.0;
  }
}
