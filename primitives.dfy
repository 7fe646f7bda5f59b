/** Machine integers and byte strings shared by the runtime pallet, the contract and the circuits. */
module Primitives {

  type byte = x: int | 0 <= x < 0x100
  type uint32 = x: int | 0 <= x < 0x1_0000_0000
  type uint64 = x: int | 0 <= x < 0x1_0000_0000_0000_0000

  /** `Vec<u8>` */
  type Bytes = seq<byte>

  /** The host chain's account identifier. Both hosts only compare and hash it. */
  type AccountId = nat
}
