/** Signed 64-bit words. */
module Words {

  const TWO_63 := 0x8000_0000_0000_0000
  const TWO_64 := 0x1_0000_0000_0000_0000

  // The value a signed 64-bit word is left with.
  function Wrap64(x: int): (w: int)
    ensures -0x8000_0000_0000_0000 <= w < 0x8000_0000_0000_0000
    ensures (x - w) % 0x1_0000_0000_0000_0000 == 0
  {
    (x + TWO_63) % TWO_64 - TWO_63
  }

  lemma WrapIsIdentity(x: int)
    ensures -TWO_63 <= x < TWO_63 ==> Wrap64(x) == x
  {
  }
}
