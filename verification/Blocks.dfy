/**
  The data model shared by every protocol variant: blocks, quorum certificates, messages, and the
  preimage of a block's hash.
 */
module Blocks {

  type NodeId = nat

  datatype Option<+T> = None | Some(value: T)

  /** HEIGHT_1 and HEIGHT_2: the two blocks a node may propose in one view. */
  datatype Height = H1 | H2

  function Rank(h: Height): nat {
    if h.H1? then 0 else 1
  }

  /** The layer of the DAG a position belongs to: (0,H1), (0,H2), (1,H1), ... */
  function Layer(view: nat, height: Height): nat {
    2 * view + Rank(height)
  }

  /** SHA-256 is taken to be injective, so a digest is represented by its preimage.  The zero digest
      of an unset field is the empty string, which no block hashes to. */
  type Digest = string

  const ZERO: Digest := ""

  datatype BlockQc = BlockQc(view: nat, height: Height, proposer: NodeId, hash: Digest)

  /** A batch is represented by its identifier, -1 standing for the empty batch: it is the only part
      of a batch that the protocol looks at. */
  datatype Block = Block(author: NodeId, view: nat, height: Height, batchId: int,
                         qc: Option<BlockQc>, references: seq<BlockQc>)

  function LayerOf(b: Block): nat {
    Layer(b.view, b.height)
  }

  datatype VoteMsg = VoteMsg(author: NodeId, proposer: NodeId, hash: Digest, view: nat, height: Height)

  /** The certificate level a node reports for a leader: both heights, height 1 only, or none. */
  datatype Level = Level2 | Level1 | Level0

  datatype SpeedVoteMsg = SpeedVoteMsg(author: NodeId, proposer: NodeId, hash: Digest, view: nat)

  /** Base-2 digits of a natural number. */
  function Digits(k: nat): (s: string)
    ensures |s| >= 1
    ensures forall i :: 0 <= i < |s| ==> s[i] == '0' || s[i] == '1'
  {
    if k < 2 then [Bit(k)] else Digits(k / 2) + [Bit(k % 2)]
  }

  function Bit(k: nat): char {
    if k == 0 then '0' else '1'
  }

  /** strconv.AppendInt(nil, k, 2) */
  function Binary(k: int): string {
    if k < 0 then "-" + Digits(-k) else Digits(k)
  }

  /** The hasher concatenates the four encodings without separators. */
  function Hash(b: Block): (d: Digest)
    ensures d != ZERO
  {
    Binary(b.author) + Binary(b.view) + Binary(Rank(b.height)) + Binary(b.batchId)
  }

  function VoteFor(author: NodeId, b: Block): VoteMsg {
    VoteMsg(author, b.author, Hash(b), b.view, b.height)
  }

  function SpeedVoteFor(author: NodeId, qc: BlockQc): SpeedVoteMsg {
    SpeedVoteMsg(author, qc.proposer, qc.hash, qc.view)
  }
}
