/** Blocks as they are proposed, agreed on, stored and exchanged. */
module Blocks {
  import opened Common

  type Byte = b: nat | b < 256
  type Hash = seq<Byte>
  type Uint64 = n: nat | n <= MAX_UINT64

  /** Nodes of the network, identified by their peer id. */
  type Peer = nat

  datatype Transaction = Transaction(hash: Hash, data: seq<Byte>)
  datatype Header = Header(timestamp: int, height: Uint64, hash: Hash, lastHash: Hash, proposer: Peer, proposerEth: Address)
  datatype Block = Block(header: Header, data: seq<Transaction>)
}
