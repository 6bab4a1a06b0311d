/** Text as the source holds it: UTF-16 units. */
module TextUnits {
  type Unit = n: int | 0 <= n < 0x1_0000
}
