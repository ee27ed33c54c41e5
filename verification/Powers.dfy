/** Powers of two, shared by the unit conversion and the bit masks. */
module Powers {
  function Pow2(n: nat): (p: nat)
    ensures p >= 1
  {
    if n == 0 then 1 else 2 * Pow2(n - 1)
  }
}
