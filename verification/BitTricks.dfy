/**
 Why the varint code can be read arithmetically: what its masks, shifts and ors do to machine words.
 */
module BitTricks {

  /** Setting the continuation bit adds 0x80 to the low seven bits. */
  lemma SetTopBit(b: bv8)
    ensures b | 0x80 == (b & 0x7f) + 0x80
    ensures b < 0x80 ==> b & 0x7f == b
    ensures b >= 0x80 ==> b & 0x7f == b - 0x80
  {
  }

  /** Or-ing a group into bits that are still clear adds it. */
  lemma OrDisjoint(value: bv64, group: bv64, shift: bv8)
    requires shift < 64 && value < (1 as bv64 << shift)
    ensures value | (group << shift) == value + (group << shift)
  {
    assert value & (group << shift) == 0;
  }
}
