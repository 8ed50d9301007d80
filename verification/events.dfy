/** The vocabulary by which the background tasks of the node report progress
    to the service: the `Event` enum, the `ChainHeadUpdate` classification and
    the fixed-width values they carry. */
module Events {

  /** Bound of Rust's `u64`. The service copies these numbers around and never
      does arithmetic on them, so only the range matters. */
  const U64_LIMIT: int := 0x1_0000_0000_0000_0000

  type U64 = x: int | 0 <= x < U64_LIMIT

  /** `[u8; 32]`: the representation the service stores block hashes in. */
  type Bytes32 = s: seq<bv8> | |s| == 32 witness seq(32, _ => 0 as bv8)

  /** `primitive_types::H256`, the hash type events carry; only its 32 bytes
      are modelled. */
  datatype H256 = H256(bytes: Bytes32) {

    /** The `.into()` conversion to `[u8; 32]`: a byte-for-byte copy, so
        nothing of the hash is lost. */
    function Into(): (b: Bytes32)
      ensures H256(b) == this
      ensures forall i :: 0 <= i < 32 ==> b[i] == bytes[i]
    {
      bytes
    }
  }

  /** `network::Multiaddr`, a foreign type carried as an opaque payload. */
  datatype Multiaddr = Multiaddr(raw: seq<bv8>)

  /** How a new candidate head relates to the previous one. */
  datatype ChainHeadUpdate = NoUpdate | FastForward | Reorg

  /** Something that happened on the service. */
  datatype Event =
    | NewChainHead(number: U64, hash: H256, headUpdate: ChainHeadUpdate)
    | NewFinalized(number: U64, hash: H256)
    | BlockAnnounceReceived(number: U64, hash: H256)
    | NewNetworkExternalAddress(address: Multiaddr)

  datatype Option<+T> = None | Some(value: T) {
    function GetOr(default: T): T {
      match this
      case Some(v) => v
      case None => default
    }
  }

  /** The fatal condition the source signals by panicking: the event channel
      is closed because every background task has terminated. */
  datatype Fatal = BackgroundTasksTerminated

  datatype Result<+T> = Success(value: T) | Failure(error: Fatal)
}
