/** Where the two tools meet: the destinations the translator writes are
    the ones the assembler reads back. */
module Toolchain {
  import opened Addressing
  import opened Registers
  import opened MachineCode

  /** The low three bits of a translator destination, as the assembler's
      destination field. */
  function Field(destination: Destination): bv3 {
    (destination & 7) as bv3
  }

  /** The translator and the assembler print the registers of a destination
      the same way. */
  lemma SameLetters(destination: Destination)
    ensures DestinationString(destination) == DestinationLetters(Field(destination))
  {
    var f := Field(destination);
    assert (destination & kA != 0) == (f & 4 != 0);
    assert (destination & kD != 0) == (f & 2 != 0);
    assert (destination & kM != 0) == (f & 1 != 0);
  }

  /** The assembler reads a destination the translator writes as the same
      three register bits. */
  lemma DestinationReadBack(destination: Destination)
    ensures DestinationBits(DestinationString(destination)) == Field(destination)
  {
    SameLetters(destination);
    DestinationLettersBits(Field(destination));
  }
}
