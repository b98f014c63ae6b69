/** Arithmetic helpers shared by both snapshots of the engine. */
module Numbers {

  /** One draw of `Random.nextDouble()`: a real in [0, 1). */
  type Unit = r: real | 0.0 <= r < 1.0

  /** `(int) Math.ceil(x)`, on unbounded integers. */
  function Ceil(x: real): (r: int)
    ensures x <= r as real < x + 1.0
  {
    if x.Floor as real == x then x.Floor else x.Floor + 1
  }

  function Min(a: int, b: int): (r: int)
    ensures r <= a && r <= b && (r == a || r == b)
  {
    if a <= b then a else b
  }

  /** `Math.max(-5, Math.min(5, x))`: the stat-stage window. */
  function ClampStage(x: int): (r: int)
    ensures -5 <= r <= 5
    ensures -5 <= x <= 5 ==> r == x
    ensures x < -5 ==> r == -5
    ensures x > 5 ==> r == 5
  {
    if x < -5 then -5 else if x > 5 then 5 else x
  }

  /** `Math.max(1.0, x)` */
  function AtLeastOne(x: real): (r: real)
    ensures r >= 1.0 && r >= x && (r == 1.0 || r == x)
  {
    if x < 1.0 then 1.0 else x
  }
}
