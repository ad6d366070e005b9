/**
  One broadcast instance of the lean protocol (SPB) as a transition system: as in `Spb`, a goroutine is a
  pending task, and a task runs one mutex-protected section or one atomic operation.
 */
module LeanSpb {
  import opened Blocks

  datatype FinVote = FinVote(author: NodeId, view: nat, qc: BlockQc)

  /** What an instance keeps for one height: index `h` of its two-element arrays, the goroutines
      pending for that height, and a history of what was delivered and done. */
  datatype Slot = Slot(
    // fields of the instance
    hash: Digest,
    qc: Option<BlockQc>,
    voteNums: nat,
    // pending goroutines
    onPropose: multiset<Block>,     // processProposeMsg, hash section
    replay: multiset<Block>,        // processProposeMsg, replay section
    sendVote: multiset<Block>,      // processProposeMsg, vote
    countVote: multiset<VoteMsg>,   // processVoteMsg, atomic counter
    certify: multiset<BlockQc>,     // processVoteMsg, height-2 proposal or final vote
    // history
    proposal: Option<Block>,
    voted: bool,
    votes: multiset<VoteMsg>,
    counted: multiset<VoteMsg>,
    certified: bool)

  const EMPTY_SLOT := Slot(ZERO, None, 0, multiset{}, multiset{}, multiset{}, multiset{}, multiset{},
                           None, false, multiset{}, multiset{}, false)

  /** The same for the final vote of the proposer. */
  datatype Ending = Ending(
    unHandleFinVote: seq<FinVote>,
    onFin: multiset<FinVote>,       // processFinVoteMsg, filter and hash section
    sendSpeed: multiset<FinVote>,   // processFinVoteMsg, speed vote
    fin: Option<FinVote>,
    sped: bool)

  const EMPTY_ENDING := Ending([], multiset{}, multiset{}, None, false)

  /** The same for the speed votes. */
  datatype Fast = Fast(
    speedVoteNums: nat,
    isSpeedCert: bool,
    countSpeed: multiset<SpeedVoteMsg>, // processSpeedVoteMsg, filter and atomic counter
    storeCert: nat,                     // processSpeedVoteMsg, flag
    speedVotes: multiset<SpeedVoteMsg>,
    counted: multiset<SpeedVoteMsg>)

  const EMPTY_FAST := Fast(0, false, multiset{}, 0, multiset{}, multiset{})

  datatype Instance = Instance(
    proposer: NodeId, view: nat,
    preQc: Option<BlockQc>, unHandlePropose: seq<Block>,
    lo: Slot, hi: Slot, end: Ending, fast: Fast)
  {
    function At(h: Height): Slot {
      if h.H1? then lo else hi
    }

    function With(h: Height, s: Slot): Instance {
      if h.H1? then this.(lo := s) else this.(hi := s)
    }
  }

  function Init(proposer: NodeId, view: nat): Instance {
    Instance(proposer, view, None, [], EMPTY_SLOT, EMPTY_SLOT, EMPTY_ENDING, EMPTY_FAST)
  }

  function ParentHash(b: Block): Digest {
    if b.qc.Some? then b.qc.value.hash else ZERO
  }

  // ----- Sections, one height at a time -----

  function Accept(s: Slot, b: Block): Slot {
    s.(onPropose := s.onPropose - multiset{b}, hash := Hash(b), replay := s.replay + multiset{b})
  }

  function PassReplay(s: Slot, b: Block): Slot {
    s.(replay := s.replay - multiset{b}, sendVote := s.sendVote + multiset{b})
  }

  function FinishVote(s: Slot, b: Block): Slot {
    s.(sendVote := s.sendVote - multiset{b}, voted := true)
  }

  function AddVote(s: Slot, v: VoteMsg, view: nat, high: nat): Slot {
    var qc := BlockQc(view, v.height, v.proposer, v.hash);
    s.(countVote := s.countVote - multiset{v}, voteNums := s.voteNums + 1,
       certify := if s.voteNums + 1 == high then s.certify + multiset{qc} else s.certify,
       counted := s.counted + multiset{v})
  }

  function FinishQc(s: Slot, qc: BlockQc): Slot {
    s.(certify := s.certify - multiset{qc}, certified := true)
  }

  // ----- Sections on final votes and speed votes -----

  function PutAside(e: Ending, fv: FinVote): Ending {
    e.(onFin := e.onFin - multiset{fv}, unHandleFinVote := e.unHandleFinVote + [fv])
  }

  function Follow(e: Ending, fv: FinVote): Ending {
    e.(onFin := e.onFin - multiset{fv}, sendSpeed := e.sendSpeed + multiset{fv})
  }

  function FinishSpeed(e: Ending, fv: FinVote): Ending {
    e.(sendSpeed := e.sendSpeed - multiset{fv}, sped := true)
  }

  function AddSpeed(f: Fast, sv: SpeedVoteMsg, forUs: bool, high: nat): Fast {
    var r := f.(countSpeed := f.countSpeed - multiset{sv});
    if !forUs then r
    else
      r.(speedVoteNums := f.speedVoteNums + 1,
         storeCert := if f.speedVoteNums + 1 == high then f.storeCert + 1 else f.storeCert,
         counted := f.counted + multiset{sv})
  }

  function SetCert(f: Fast): Fast
    requires f.storeCert > 0
  {
    f.(storeCert := f.storeCert - 1, isSpeedCert := true)
  }

  // ----- The instance -----

  datatype Task =
    | OnPropose(b: Block) | Replay(b: Block) | SendVote(b: Block)
    | OnFin(fv: FinVote) | SendSpeed(fv: FinVote)
    | CountVote(v: VoteMsg) | Certify(qc: BlockQc)
    | CountSpeed(sv: SpeedVoteMsg) | StoreCert

  predicate Pending(x: Instance, t: Task) {
    match t
    case OnPropose(b) => b in x.At(b.height).onPropose
    case Replay(b) => b in x.At(b.height).replay
    case SendVote(b) => b in x.At(b.height).sendVote
    case OnFin(fv) => fv in x.end.onFin
    case SendSpeed(fv) => fv in x.end.sendSpeed
    case CountVote(v) => v in x.At(v.height).countVote
    case Certify(qc) => qc in x.At(qc.height).certify
    case CountSpeed(sv) => sv in x.fast.countSpeed
    case StoreCert => x.fast.storeCert > 0
  }

  predicate ForUs(x: Instance, sv: SpeedVoteMsg) {
    sv.proposer == x.proposer && sv.view == x.view
  }

  function RunProposal(x: Instance, b: Block): Instance {
    if b.height.H1? then x.(preQc := b.qc, lo := Accept(x.lo, b))
    else if x.lo.hash != ParentHash(b) then
      x.(unHandlePropose := x.unHandlePropose + [b], hi := x.hi.(onPropose := x.hi.onPropose - multiset{b}))
    else x.(lo := x.lo.(qc := b.qc), hi := Accept(x.hi, b))
  }

  function RunReplay(x: Instance, b: Block): Instance {
    if b.height.H1? then
      x.(lo := PassReplay(x.lo, b), hi := x.hi.(onPropose := x.hi.onPropose + multiset(x.unHandlePropose)))
    else
      x.(hi := PassReplay(x.hi, b), end := x.end.(onFin := x.end.onFin + multiset(x.end.unHandleFinVote)))
  }

  function RunFin(x: Instance, fv: FinVote): Instance {
    if fv.author != x.proposer || fv.view != x.view then x.(end := x.end.(onFin := x.end.onFin - multiset{fv}))
    else if x.hi.hash != fv.qc.hash then x.(end := PutAside(x.end, fv))
    else x.(hi := x.hi.(qc := Some(fv.qc)), end := Follow(x.end, fv))
  }

  /** Runs one pending task with quorum size `high`. */
  function Run(x: Instance, high: nat, t: Task): Instance
    requires Pending(x, t)
  {
    match t
    case OnPropose(b) => RunProposal(x, b)
    case Replay(b) => RunReplay(x, b)
    case SendVote(b) => x.With(b.height, FinishVote(x.At(b.height), b))
    case OnFin(fv) => RunFin(x, fv)
    case SendSpeed(fv) => x.(end := FinishSpeed(x.end, fv))
    case CountVote(v) => x.With(v.height, AddVote(x.At(v.height), v, x.view, high))
    case Certify(qc) => x.With(qc.height, FinishQc(x.At(qc.height), qc))
    case CountSpeed(sv) => x.(fast := AddSpeed(x.fast, sv, ForUs(x, sv), high))
    case StoreCert => x.(fast := SetCert(x.fast))
  }

  datatype Delivery = Proposal(b: Block) | Vote(v: VoteMsg) | Fin(fv: FinVote) | SpeedVote(sv: SpeedVoteMsg)

  /** What the core routes to this instance: at most one proposal per height and one final vote, by its
      proposer, and votes that agree on the block they are for. */
  ghost predicate Deliverable(x: Instance, d: Delivery) {
    match d
    case Proposal(b) =>
      && x.At(b.height).proposal.None?
      && b.author == x.proposer && b.view == x.view
      && (b.height.H2? ==> b.qc.Some? && b.qc.value.hash != ZERO)
    case Vote(v) =>
      && v.proposer == x.proposer && v.view == x.view
      && forall u :: u in x.At(v.height).votes ==> u.hash == v.hash
    case Fin(fv) => x.end.fin.None? && fv.author == x.proposer && fv.view == x.view && fv.qc.hash != ZERO
    case SpeedVote(sv) => true
  }

  function Deliver(x: Instance, d: Delivery): Instance {
    match d
    case Proposal(b) =>
      var s := x.At(b.height);
      x.With(b.height, s.(onPropose := s.onPropose + multiset{b}, proposal := Some(b)))
    case Vote(v) =>
      var s := x.At(v.height);
      x.With(v.height, s.(countVote := s.countVote + multiset{v}, votes := s.votes + multiset{v}))
    case Fin(fv) => x.(end := x.end.(onFin := x.end.onFin + multiset{fv}, fin := Some(fv)))
    case SpeedVote(sv) =>
      x.(fast := x.fast.(countSpeed := x.fast.countSpeed + multiset{sv},
                         speedVotes := x.fast.speedVotes + multiset{sv}))
  }

  // ----- QCLEvel -----

  /** DecCert */
  predicate DecCert(x: Instance) {
    x.lo.qc.Some? && x.hi.qc.Some?
  }

  function LevelOf(x: Instance): Level {
    if DecCert(x) then Level2 else if x.lo.qc.Some? then Level1 else Level0
  }

  function LevelQc(x: Instance): Option<BlockQc> {
    match LevelOf(x)
    case Level2 => x.hi.qc
    case Level1 => x.lo.qc
    case Level0 => x.preQc
  }
}
