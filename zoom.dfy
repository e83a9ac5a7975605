/**
 * The zoom arithmetic of wheelEvent, in C++ int arithmetic: `/` truncates
 * toward zero, unlike Dafny's Euclidean division.
 */
module WheelZoom {
  type Int32 = x: int | -0x8000_0000 <= x < 0x8000_0000

  /** C++ integer division by a positive divisor: the quotient is truncated toward zero. */
  function TruncDiv(a: int, b: int): (q: int)
    requires b > 0
    ensures a >= 0 ==> 0 <= q && q * b <= a < q * b + b
    ensures a < 0 ==> q <= 0 && q * b >= a > q * b - b
  {
    if a >= 0 then a / b else -((-a) / b)
  }

  /** numSteps: the wheel delta in eighths of a degree, turned into 15-degree steps. */
  function WheelSteps(delta: Int32): (r: int)
    ensures delta >= 0 ==> 0 <= r && r * 120 <= delta < r * 120 + 120
    ensures delta < 0 ==> r <= 0 && r * 120 >= delta > r * 120 - 120
  {
    var degrees := TruncDiv(delta, 8);
    var steps := TruncDiv(degrees, 15);
    assert steps * 120 == (steps * 15) * 8;
    steps
  }

  /** The map control's setZoom bounds the level to [lo, hi]. */
  function Clamp(z: int, lo: int, hi: int): (r: int)
    requires lo <= hi
    ensures lo <= r <= hi
    ensures lo <= z <= hi ==> r == z
    ensures z < lo ==> r == lo
    ensures z > hi ==> r == hi
  {
    if z < lo then lo else if z > hi then hi else z
  }

  /** detailZoom = qAbs(qMin(0, current - requested)). */
  function DetailZoom(requested: int, current: int): (d: nat)
    ensures current < requested ==> d == requested - current
    ensures current >= requested ==> d == 0
  {
    var m := if 0 < current - requested then 0 else current - requested;
    if m < 0 then -m else m
  }

  /** For a non-negative dividend, nested truncating divisions by 8 and 15 divide by 120. */
  lemma NestedDivision(a: nat)
    ensures (a / 8) / 15 == a / 120
  {
    var q1, r1 := a / 8, a % 8;
    var q2, r2 := q1 / 15, q1 % 15;
    assert a == 120 * q2 + (8 * r2 + r1);
    assert 0 <= 8 * r2 + r1 < 120;
  }

  /**
   * One zoom step per full 120 units of wheel delta, rounded toward zero in
   * both directions: a wheel turn of less than 120 units zooms nowhere.
   */
  lemma WheelStepsDivideBy120(delta: Int32)
    ensures WheelSteps(delta) == TruncDiv(delta, 120)
    ensures -120 < delta < 120 ==> WheelSteps(delta) == 0
  {
    if delta >= 0 {
      NestedDivision(delta);
    } else {
      NestedDivision(-(delta as int));
    }
  }

  /**
   * The detail zoom counts the steps asked for beyond the upper zoom bound;
   * zooming out past the lower bound leaves it 0.
   */
  lemma DetailZoomCountsStepsPastMax(requested: int, lo: int, hi: int)
    requires lo <= hi
    ensures DetailZoom(requested, Clamp(requested, lo, hi)) == if requested > hi then requested - hi else 0
  {
  }
}
