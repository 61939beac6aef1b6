/** The unsigned machine words of the original, as ranges of integers. */
module Words {
  const TWO32: nat := 0x1_0000_0000
  const TWO64: nat := 0x1_0000_0000_0000_0000

  type uint32 = x: nat | x < TWO32
  type uint64 = x: nat | x < TWO64

  lemma WordSizes()
    ensures TWO32 == 4_294_967_296 && TWO64 == 18_446_744_073_709_551_616
  {
  }
}
