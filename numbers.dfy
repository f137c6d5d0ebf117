/** Kotlin's `coerceIn(0f, 1f)` on the exact numbers that stand for `Float`. */
module Numbers {
  /** `coerceIn(0f, 1f)`: the nearest value in [0, 1]. */
  function Clamp(x: real): (r: real)
    ensures 0.0 <= r <= 1.0
    ensures 0.0 <= x <= 1.0 ==> r == x
    ensures x < 0.0 ==> r == 0.0
    ensures x > 1.0 ==> r == 1.0
  {
    if x < 0.0 then 0.0 else if x > 1.0 then 1.0 else x
  }
}
