/** Bytes, the Option and Result types every other module uses, and numbers as bytes. */
module Basics {

  newtype byte = x: int | 0 <= x < 256

  type Bytes = seq<byte>

  datatype MessageId = MessageId(bytes: Bytes)

  /** A transport's name for a neighbor. */
  type NeighborId = string

  datatype Option<+T> = None | Some(value: T) {
    function GetOr(default: T): T {
      match this
      case Some(v) => v
      case None => default
    }
  }

  datatype Result<+T, +E> = Ok(value: T) | Err(error: E)

  /** The two ends of a handshake and of the session it starts. */
  datatype Role = Initiator | Responder

  function Peer(role: Role): Role {
    if role == Initiator then Responder else Initiator
  }

  const TWO_TO_THE_32: nat := 0x1_0000_0000
  const TWO_TO_THE_64: nat := 0x1_0000_0000_0000_0000

  /** The k low bytes of a number, lowest first; what is above them is lost. */
  function LittleEndian(n: int, k: nat): (b: Bytes)
    ensures |b| == k
    decreases k
  {
    if k == 0 then [] else [(n % 256) as byte] + LittleEndian(n / 256, k - 1)
  }

  /** u64le() of src/util.ts. */
  function U64(n: int): Bytes { LittleEndian(n, 8) }
}
