/** The value of a bit set of client ids: how many 64-bit words it holds and which bits are one. */
module ClientBits {
  /** Client ids are 32-bit unsigned. */
  type ClientId = x: int | 0 <= x < 0x1_0000_0000

  /** The id used when no client is responsible. */
  const NO_CLIENT: ClientId := 0xFFFF_FFFF

  datatype Bits = Bits(words: nat, members: set<nat>) {
    ghost predicate Valid() {
      forall i :: i in members ==> i / 64 < words
    }

    predicate IsEmpty() {
      members == {}
    }

    predicate Contains(bit: nat) {
      bit in members
    }

    /** A bit more than one word past the end is silently dropped. */
    function Set(bit: nat): Bits {
      if bit / 64 > words then this
      else Bits(if bit / 64 == words then words + 1 else words, members + {bit})
    }

    function Clear(bit: nat): Bits {
      if bit / 64 > words then this
      else Bits(if bit / 64 == words then words + 1 else words, members - {bit})
    }

    function ClearAll(): Bits {
      Bits(words, {})
    }
  }

  const EMPTY_BITS := Bits(0, {})
}
