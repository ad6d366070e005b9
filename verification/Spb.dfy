/**
  One broadcast instance (BigSPB and DAGBigSPB) as a transition system.  A goroutine is a pending
  task; a task runs one mutex-protected section or one atomic operation and leaves its continuation
  behind, so every interleaving of sections and replays is a run of this system.
 */
module Spb {
  import opened Blocks

  datatype Variant = Big | Dag

  /** What an instance keeps for one height: index `h` of its two-element arrays, the goroutines
      pending for that height, and a history of what was delivered and done. */
  datatype Slot = Slot(
    // fields of the instance
    hash: Digest,
    qc: Option<BlockQc>,
    unHandleVote: seq<VoteMsg>,
    voteNums: nat,
    // pending goroutines
    onPropose: multiset<Block>,     // processProposeMsg, hash section
    replay: multiset<Block>,        // processProposeMsg, replay section
    sendVote: multiset<Block>,      // processProposeMsg, vote
    onVote: multiset<VoteMsg>,      // processVoteMsg, hash section
    countVote: multiset<VoteMsg>,   // processVoteMsg, atomic counter
    storeQc: multiset<BlockQc>,     // processVoteMsg, certificate section
    announce: multiset<BlockQc>,    // processVoteMsg, callback or speed vote
    // history
    proposal: Option<Block>,
    votes: multiset<VoteMsg>,
    counted: multiset<VoteMsg>,
    voted: bool,
    announced: bool)

  const EMPTY_SLOT := Slot(ZERO, None, [], 0, multiset{}, multiset{}, multiset{}, multiset{}, multiset{}, multiset{},
                           multiset{}, None, multiset{}, multiset{}, false, false)

  /** The same for the speed votes of an instance. */
  datatype Fast = Fast(
    unHandleSpeedVote: seq<SpeedVoteMsg>,
    speedVoteNums: nat,
    isSpeedCert: bool,
    replaySpeed: nat,                   // processVoteMsg, replay section
    onSpeed: multiset<SpeedVoteMsg>,    // processSpeedVoteMsg, certificate section
    countSpeed: multiset<SpeedVoteMsg>, // processSpeedVoteMsg, atomic counter
    storeCert: nat,                     // processSpeedVoteMsg, flag
    speedVotes: multiset<SpeedVoteMsg>,
    counted: multiset<SpeedVoteMsg>)

  const EMPTY_FAST := Fast([], 0, false, 0, multiset{}, multiset{}, 0, multiset{}, multiset{})

  datatype Instance = Instance(
    variant: Variant, proposer: NodeId, view: nat,
    preQc: Option<BlockQc>, unHandlePropose: seq<Block>,
    lo: Slot, hi: Slot, fast: Fast)
  {
    function At(h: Height): Slot {
      if h.H1? then lo else hi
    }

    function With(h: Height, s: Slot): Instance {
      if h.H1? then this.(lo := s) else this.(hi := s)
    }
  }

  function Init(variant: Variant, proposer: NodeId, view: nat): Instance {
    Instance(variant, proposer, view, None, [], EMPTY_SLOT, EMPTY_SLOT, EMPTY_FAST)
  }

  function ParentHash(b: Block): Digest {
    if b.qc.Some? then b.qc.value.hash else ZERO
  }

  // ----- Sections, one height at a time -----

  /** What was received stays recorded; a vote or a certificate is never taken back. */
  predicate Keeps(s: Slot, y: Slot) {
    && y.proposal == s.proposal && y.votes == s.votes
    && (s.voted ==> y.voted) && (s.announced ==> y.announced)
  }

  function Accept(s: Slot, b: Block): (y: Slot)
    ensures Keeps(s, y) && y.qc == s.qc
  {
    s.(onPropose := s.onPropose - multiset{b}, hash := Hash(b), replay := s.replay + multiset{b})
  }

  function ReplayVotes(s: Slot, b: Block): (y: Slot)
    ensures Keeps(s, y) && y.qc == s.qc
  {
    s.(replay := s.replay - multiset{b}, onVote := s.onVote + multiset(s.unHandleVote),
       sendVote := s.sendVote + multiset{b})
  }

  function FinishVote(s: Slot, b: Block): (y: Slot)
    ensures Keeps(s, y) && y.qc == s.qc
  {
    s.(sendVote := s.sendVote - multiset{b}, voted := true)
  }

  function CheckVote(s: Slot, v: VoteMsg): (y: Slot)
    ensures Keeps(s, y) && y.qc == s.qc
  {
    if s.hash != v.hash then
      s.(onVote := s.onVote - multiset{v}, unHandleVote := s.unHandleVote + [v])
    else
      s.(onVote := s.onVote - multiset{v}, countVote := s.countVote + multiset{v})
  }

  function AddVote(s: Slot, v: VoteMsg, view: nat, high: nat): (y: Slot)
    ensures Keeps(s, y) && y.qc == s.qc
  {
    var qc := BlockQc(view, v.height, v.proposer, v.hash);
    s.(countVote := s.countVote - multiset{v}, voteNums := s.voteNums + 1,
       storeQc := if s.voteNums + 1 == high then s.storeQc + multiset{qc} else s.storeQc,
       counted := s.counted + multiset{v})
  }

  function SetQc(s: Slot, qc: BlockQc): (y: Slot)
    ensures Keeps(s, y)
  {
    s.(storeQc := s.storeQc - multiset{qc}, qc := Some(qc), announce := s.announce + multiset{qc})
  }

  function FinishQc(s: Slot, qc: BlockQc): (y: Slot)
    ensures Keeps(s, y) && y.qc == s.qc
  {
    s.(announce := s.announce - multiset{qc}, announced := true)
  }

  // ----- Sections on speed votes -----

  function CheckSpeed(f: Fast, sv: SpeedVoteMsg, forUs: bool, certified: bool): (g: Fast)
    ensures g.speedVotes == f.speedVotes && (f.isSpeedCert ==> g.isSpeedCert)
  {
    var r := f.(onSpeed := f.onSpeed - multiset{sv});
    if !forUs then r
    else if !certified then r.(unHandleSpeedVote := f.unHandleSpeedVote + [sv])
    else r.(countSpeed := f.countSpeed + multiset{sv})
  }

  function ReplaySpeedVotes(f: Fast): (g: Fast)
    requires f.replaySpeed > 0
    ensures g.speedVotes == f.speedVotes && (f.isSpeedCert ==> g.isSpeedCert)
  {
    f.(replaySpeed := f.replaySpeed - 1, onSpeed := f.onSpeed + multiset(f.unHandleSpeedVote))
  }

  function AddSpeed(f: Fast, sv: SpeedVoteMsg, high: nat): (g: Fast)
    ensures g.speedVotes == f.speedVotes && (f.isSpeedCert ==> g.isSpeedCert)
  {
    f.(countSpeed := f.countSpeed - multiset{sv}, speedVoteNums := f.speedVoteNums + 1,
       storeCert := if f.speedVoteNums + 1 == high then f.storeCert + 1 else f.storeCert,
       counted := f.counted + multiset{sv})
  }

  function SetCert(f: Fast): (g: Fast)
    requires f.storeCert > 0
    ensures g.speedVotes == f.speedVotes && (f.isSpeedCert ==> g.isSpeedCert)
  {
    f.(storeCert := f.storeCert - 1, isSpeedCert := true)
  }

  // ----- The instance -----

  datatype Task =
    | OnPropose(b: Block) | Replay(b: Block) | SendVote(b: Block)
    | OnVote(v: VoteMsg) | CountVote(v: VoteMsg) | StoreQc(qc: BlockQc) | Announce(qc: BlockQc)
    | ReplaySpeed | OnSpeed(sv: SpeedVoteMsg) | CountSpeed(sv: SpeedVoteMsg) | StoreCert

  predicate Pending(x: Instance, t: Task) {
    match t
    case OnPropose(b) => b in x.At(b.height).onPropose
    case Replay(b) => b in x.At(b.height).replay
    case SendVote(b) => b in x.At(b.height).sendVote
    case OnVote(v) => v in x.At(v.height).onVote
    case CountVote(v) => v in x.At(v.height).countVote
    case StoreQc(qc) => qc in x.At(qc.height).storeQc
    case Announce(qc) => qc in x.At(qc.height).announce
    case ReplaySpeed => x.fast.replaySpeed > 0
    case OnSpeed(sv) => sv in x.fast.onSpeed
    case CountSpeed(sv) => sv in x.fast.countSpeed
    case StoreCert => x.fast.storeCert > 0
  }

  predicate ForUs(x: Instance, sv: SpeedVoteMsg) {
    sv.proposer == x.proposer && sv.view == x.view
  }

  /** BigSPB looks at the parent hash of a height-2 proposal; DAGBigSPB does not. */
  predicate Parks(x: Instance, b: Block) {
    b.height.H2? && x.variant.Big? && x.lo.hash != ParentHash(b)
  }

  /** Runs one pending task with quorum size `high`. */
  function Run(x: Instance, high: nat, t: Task): Instance
    requires Pending(x, t)
  {
    match t
    case OnPropose(b) =>
      if Parks(x, b) then
        x.(unHandlePropose := x.unHandlePropose + [b], hi := x.hi.(onPropose := x.hi.onPropose - multiset{b}))
      else if b.height.H1? then x.(preQc := b.qc, lo := Accept(x.lo, b))
      else x.(hi := Accept(x.hi, b))
    case Replay(b) =>
      if b.height.H1? then
        x.(lo := ReplayVotes(x.lo, b), hi := x.hi.(onPropose := x.hi.onPropose + multiset(x.unHandlePropose)))
      else x.(hi := ReplayVotes(x.hi, b))
    case SendVote(b) => x.With(b.height, FinishVote(x.At(b.height), b))
    case OnVote(v) => x.With(v.height, CheckVote(x.At(v.height), v))
    case CountVote(v) => x.With(v.height, AddVote(x.At(v.height), v, x.view, high))
    case StoreQc(qc) => x.With(qc.height, SetQc(x.At(qc.height), qc))
    case Announce(qc) =>
      if qc.height.H1? then x.(lo := FinishQc(x.lo, qc))
      else x.(hi := FinishQc(x.hi, qc), fast := x.fast.(replaySpeed := x.fast.replaySpeed + 1))
    case ReplaySpeed => x.(fast := ReplaySpeedVotes(x.fast))
    case OnSpeed(sv) => x.(fast := CheckSpeed(x.fast, sv, ForUs(x, sv), x.hi.qc.Some?))
    case CountSpeed(sv) => x.(fast := AddSpeed(x.fast, sv, high))
    case StoreCert => x.(fast := SetCert(x.fast))
  }

  /** What a task hands to the core: a vote or speed vote to broadcast, or the height-1 callback. */
  datatype Out = VoteOut(b: Block) | CertOut(qc: BlockQc) | SpeedOut(qc: BlockQc)

  function Emits(t: Task): Option<Out> {
    match t
    case SendVote(b) => Some(VoteOut(b))
    case Announce(qc) => if qc.height.H1? then Some(CertOut(qc)) else Some(SpeedOut(qc))
    case _ => None
  }

  datatype Delivery = Proposal(b: Block) | Vote(v: VoteMsg) | SpeedVote(sv: SpeedVoteMsg)

  /** What the core routes to this instance: at most one proposal per height, by its proposer. */
  predicate Deliverable(x: Instance, d: Delivery) {
    match d
    case Proposal(b) =>
      && x.At(b.height).proposal.None?
      && b.author == x.proposer && b.view == x.view
      && (x.variant.Big? && b.height.H2? ==> ParentHash(b) != ZERO)
    case Vote(v) => v.proposer == x.proposer && v.view == x.view && v.hash != ZERO
    case SpeedVote(sv) => true
  }

  function Deliver(x: Instance, d: Delivery): Instance {
    match d
    case Proposal(b) =>
      var s := x.At(b.height);
      x.With(b.height, s.(onPropose := s.onPropose + multiset{b}, proposal := Some(b)))
    case Vote(v) =>
      var s := x.At(v.height);
      x.With(v.height, s.(onVote := s.onVote + multiset{v}, votes := s.votes + multiset{v}))
    case SpeedVote(sv) =>
      x.(fast := x.fast.(onSpeed := x.fast.onSpeed + multiset{sv}, speedVotes := x.fast.speedVotes + multiset{sv}))
  }
}
