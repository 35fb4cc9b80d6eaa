/** Square grids stored row-major: grid point (x, y) of a d-wide grid lives in slot y*d + x.
    The heightmap samples, the renderer's vertex grid, the chunk vertex template, the noise
    image and the chunk draw order all use this layout. */
module Grids {

  /** The slot row-major layout gives to grid point (x, y) of a d-wide grid. */
  function Slot(d: nat, x: nat, y: nat): nat
  {
    y * d + x
  }

  /** Euclidean division has exactly one quotient and remainder. */
  lemma DivModUnique(a: int, d: int, q: int, r: int)
    requires 0 < d && 0 <= r < d && a == q * d + r
    ensures a / d == q && a % d == r
  {
    var q0, r0 := a / d, a % d;
    assert a == q0 * d + r0 && 0 <= r0 < d;
    if q0 > q {
      MulAtLeast(q0 - q, d);
    } else if q0 < q {
      MulAtLeast(q - q0, d);
    }
  }

  lemma MulAtLeast(k: int, d: int)
    requires k >= 1 && d >= 0
    ensures k * d >= d
  {
  }

  /** An in-range point's slot lies in [0, d*d) and gives back the point by division and remainder. */
  lemma SlotCoordinates(d: nat, x: nat, y: nat)
    requires x < d && y < d
    ensures Slot(d, x, y) < d * d
    ensures Slot(d, x, y) % d == x && Slot(d, x, y) / d == y
  {
    DivModUnique(Slot(d, x, y), d, y, x);
    assert Slot(d, x, y) < (y + 1) * d;
    assert (y + 1) * d <= d * d by { MulLeft(y + 1, d, d); }
  }

  lemma MulLeft(a: nat, b: nat, d: nat)
    requires a <= b
    ensures a * d <= b * d
  {
  }

  /** Every slot in [0, d*d) is the slot of the in-range point (k % d, k / d). */
  lemma SlotOnto(d: nat, k: nat)
    requires k < d * d
    ensures d > 0 && k % d < d && k / d < d && Slot(d, k % d, k / d) == k
  {
    assert d > 0;
    if k / d >= d {
      MulLeft(d, k / d, d);
    }
  }

  /** Distinct in-range points have distinct slots: each slot is written by one point only. */
  lemma SlotInjective(d: nat, x1: nat, y1: nat, x2: nat, y2: nat)
    requires x1 < d && y1 < d && x2 < d && y2 < d
    requires Slot(d, x1, y1) == Slot(d, x2, y2)
    ensures x1 == x2 && y1 == y2
  {
    SlotCoordinates(d, x1, y1);
    SlotCoordinates(d, x2, y2);
  }

  /** The grid whose slot y*d + x holds f(x, y), for every point of the d×d grid. */
  function RowMajor<T>(d: nat, f: (nat, nat) --> T): (s: seq<T>)
    requires forall x: nat, y: nat :: x < d && y < d ==> f.requires(x, y)
    ensures |s| == d * d
  {
    seq(d * d, k requires 0 <= k < d * d => SlotOnto(d, k); f(k % d, k / d))
  }

  /** The element a row-major grid holds for point (x, y) is f(x, y). */
  lemma RowMajorAt<T>(d: nat, f: (nat, nat) --> T, x: nat, y: nat)
    requires forall x: nat, y: nat :: x < d && y < d ==> f.requires(x, y)
    requires x < d && y < d
    ensures Slot(d, x, y) < |RowMajor(d, f)|
    ensures RowMajor(d, f)[Slot(d, x, y)] == f(x, y)
  {
    SlotCoordinates(d, x, y);
  }

  /** Advancing the column: the slot after (x, y) is (x + 1, y), and the end of a row starts the next. */
  lemma SlotStep(d: nat, x: nat, y: nat)
    ensures Slot(d, x, y) + 1 == Slot(d, x + 1, y)
    ensures Slot(d, d, y) == Slot(d, 0, y + 1)
  {
  }
}
