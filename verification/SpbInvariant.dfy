/** What every interleaving of an instance's tasks keeps. */
module SpbInvariant {
  import opened Blocks
  import opened Spb

  /** What is buffered behind the proposal of this height still has to be replayed. */
  predicate Unreplayed(s: Slot) {
    s.hash == ZERO || (s.proposal.Some? && s.proposal.value in s.replay)
  }

  /** A delivered proposal is in exactly one place: waiting to be looked at, parked, or accepted and
      then being replayed, about to be voted for, or voted for. */
  ghost predicate ProposalOk(s: Slot, proposer: NodeId, view: nat, h: Height) {
    && (forall b :: b in s.onPropose ==> s.proposal == Some(b))
    && (forall b :: b in s.replay ==> s.proposal == Some(b))
    && (forall b :: b in s.sendVote ==> s.proposal == Some(b))
    && match s.proposal
       case None => s.hash == ZERO && !s.voted
       case Some(b) =>
         && b.height == h && b.author == proposer && b.view == view
         && s.onPropose[b] <= 1
         && if s.hash == ZERO then
              s.replay[b] == 0 && s.sendVote[b] == 0 && !s.voted
            else
              s.hash == Hash(b) && s.onPropose[b] == 0 && s.replay[b] + s.sendVote[b] + (if s.voted then 1 else 0) == 1
  }

  /** How many copies of a vote are counted or on their way to be counted. */
  ghost function Copies(s: Slot, v: VoteMsg): nat {
    s.counted[v] + s.onVote[v] + s.countVote[v] + (if Unreplayed(s) then multiset(s.unHandleVote)[v] else 0)
  }

  /** Conservation: a vote that is, or may still be, for the accepted block is never lost and never
      doubled; any other vote is never counted. */
  ghost predicate VotesConserved(s: Slot) {
    && (forall v: VoteMsg :: s.hash == ZERO || s.hash == v.hash ==> s.votes[v] == Copies(s, v))
    && (forall v: VoteMsg :: s.hash == ZERO || s.hash != v.hash ==> s.counted[v] == 0 && s.countVote[v] == 0)
  }

  ghost predicate VotesKnown(s: Slot, proposer: NodeId, view: nat, h: Height) {
    && (forall v :: v in s.unHandleVote ==> v in s.votes)
    && (forall v :: v in s.onVote ==> v in s.votes)
    && (forall v :: v in s.countVote ==> v in s.votes)
    && (forall v :: v in s.votes ==> v.proposer == proposer && v.view == view && v.height == h && v.hash != ZERO)
    && s.voteNums == |s.counted|
    && (s.voteNums > 0 ==> s.hash != ZERO)
  }

  /** The certificate of a height is formed once, when the quorum-th vote is counted, and announced
      once. */
  ghost predicate QcOk(s: Slot, proposer: NodeId, view: nat, h: Height, high: nat) {
    var qc := BlockQc(view, h, proposer, s.hash);
    && (forall q :: q in s.storeQc ==> q == qc)
    && (forall q :: q in s.announce ==> q == qc)
    && (s.qc.Some? ==> s.qc.value == qc)
    && s.storeQc[qc] + (if s.qc.Some? then 1 else 0) == (if s.voteNums >= high then 1 else 0)
    && s.announce[qc] + (if s.announced then 1 else 0) == (if s.qc.Some? then 1 else 0)
  }

  ghost predicate SlotOk(s: Slot, proposer: NodeId, view: nat, h: Height, high: nat) {
    ProposalOk(s, proposer, view, h) && VotesConserved(s) && VotesKnown(s, proposer, view, h) &&
      QcOk(s, proposer, view, h, high)
  }

  ghost function SpeedCopies(f: Fast, sv: SpeedVoteMsg, announced: bool): nat {
    f.counted[sv] + f.onSpeed[sv] + f.countSpeed[sv]
    + (if !announced || f.replaySpeed > 0 then multiset(f.unHandleSpeedVote)[sv] else 0)
  }

  /** Conservation for the speed votes meant for this instance; the flag is raised once, by the
      quorum-th of them, and none is counted before the height-2 certificate exists. */
  ghost predicate FastOk(f: Fast, proposer: NodeId, view: nat, certified: bool, announced: bool, high: nat) {
    && (forall sv: SpeedVoteMsg :: sv.proposer == proposer && sv.view == view ==>
          f.speedVotes[sv] == SpeedCopies(f, sv, announced))
    && (forall sv: SpeedVoteMsg :: !(sv.proposer == proposer && sv.view == view) ==>
          f.counted[sv] == 0 && f.countSpeed[sv] == 0)
    && (forall sv :: sv in f.unHandleSpeedVote ==> sv.proposer == proposer && sv.view == view)
    && (!certified ==> f.counted == multiset{} && f.countSpeed == multiset{})
    && f.replaySpeed <= 1
    && (f.replaySpeed > 0 ==> announced)
    && f.speedVoteNums == |f.counted|
    && f.storeCert + (if f.isSpeedCert then 1 else 0) == (if f.speedVoteNums >= high then 1 else 0)
  }

  /** The height-2 proposal stays parked exactly while its parent hash is not the accepted one. */
  ghost predicate ParkedOk(x: Instance) {
    && (forall b :: b in x.unHandlePropose ==> x.hi.proposal == Some(b))
    && (x.variant.Dag? ==> x.unHandlePropose == [])
    && (x.lo.proposal.Some? && x.lo.hash == ZERO ==> x.lo.onPropose[x.lo.proposal.value] == 1)
    && x.preQc == (if x.lo.hash != ZERO && x.lo.proposal.Some? then x.lo.proposal.value.qc else None)
    && (x.hi.proposal.Some? ==>
          var b := x.hi.proposal.value;
          && (Unreplayed(x.lo) ==>
                x.hi.onPropose[b] + multiset(x.unHandlePropose)[b] + (if x.hi.hash == ZERO then 0 else 1) == 1)
          && (!Unreplayed(x.lo) && x.hi.hash == ZERO && x.hi.onPropose[b] == 0 ==>
                x.variant.Big? && x.lo.hash != ParentHash(b))
          && (x.variant.Big? && x.hi.hash != ZERO ==> x.lo.hash == ParentHash(b))
          && (x.variant.Big? ==> ParentHash(b) != ZERO))
  }

  ghost predicate Inv(x: Instance, high: nat) {
    && high >= 1
    && SlotOk(x.lo, x.proposer, x.view, H1, high)
    && SlotOk(x.hi, x.proposer, x.view, H2, high)
    && FastOk(x.fast, x.proposer, x.view, x.hi.qc.Some?, x.hi.announced, high)
    && ParkedOk(x)
  }

  lemma InitKeeps(variant: Variant, proposer: NodeId, view: nat, high: nat)
    requires high >= 1
    ensures Inv(Init(variant, proposer, view), high)
  {
  }

  // ----- One height: what a section does not touch -----

  lemma ProposalFrame(s: Slot, y: Slot, proposer: NodeId, view: nat, h: Height)
    requires ProposalOk(s, proposer, view, h)
    requires y.hash == s.hash && y.proposal == s.proposal && y.voted == s.voted
    requires y.onPropose == s.onPropose && y.replay == s.replay && y.sendVote == s.sendVote
    ensures ProposalOk(y, proposer, view, h)
  {
  }

  lemma VotesFrame(s: Slot, y: Slot, proposer: NodeId, view: nat, h: Height)
    requires VotesConserved(s) && VotesKnown(s, proposer, view, h)
    requires y.hash == s.hash && y.unHandleVote == s.unHandleVote && y.voteNums == s.voteNums
    requires Unreplayed(y) == Unreplayed(s)
    requires y.votes == s.votes && y.counted == s.counted && y.onVote == s.onVote && y.countVote == s.countVote
    ensures VotesConserved(y) && VotesKnown(y, proposer, view, h)
  {
    forall v: VoteMsg ensures Copies(y, v) == Copies(s, v) { }
  }

  lemma QcFrame(s: Slot, y: Slot, proposer: NodeId, view: nat, h: Height, high: nat)
    requires QcOk(s, proposer, view, h, high)
    requires y.hash == s.hash && y.qc == s.qc && y.voteNums == s.voteNums
    requires y.storeQc == s.storeQc && y.announce == s.announce && y.announced == s.announced
    ensures QcOk(y, proposer, view, h, high)
  {
  }

  // ----- One height: what a section does to each part -----

  lemma AcceptProposal(s: Slot, y: Slot, b: Block, proposer: NodeId, view: nat, h: Height)
    requires ProposalOk(s, proposer, view, h) && b in s.onPropose && y == Accept(s, b)
    ensures s.hash == ZERO && s.proposal == Some(b) && ProposalOk(y, proposer, view, h) && Unreplayed(y)
  {
  }

  lemma AcceptVotes(s: Slot, y: Slot, b: Block, proposer: NodeId, view: nat, h: Height)
    requires VotesConserved(s) && VotesKnown(s, proposer, view, h) && s.hash == ZERO
    requires y == Accept(s, b) && Unreplayed(y)
    ensures VotesConserved(y) && VotesKnown(y, proposer, view, h)
  {
    forall v: VoteMsg ensures Copies(y, v) == Copies(s, v) { }
  }

  lemma AcceptQc(s: Slot, y: Slot, b: Block, proposer: NodeId, view: nat, h: Height, high: nat)
    requires QcOk(s, proposer, view, h, high) && y == Accept(s, b) && s.voteNums == 0 && high >= 1
    ensures QcOk(y, proposer, view, h, high)
  {
  }

  lemma ReplayProposal(s: Slot, y: Slot, b: Block, proposer: NodeId, view: nat, h: Height)
    requires ProposalOk(s, proposer, view, h) && b in s.replay && y == ReplayVotes(s, b)
    ensures ProposalOk(y, proposer, view, h) && Unreplayed(s) && !Unreplayed(y)
  {
  }

  lemma ReplayConserves(s: Slot, y: Slot, b: Block)
    requires VotesConserved(s) && y == ReplayVotes(s, b) && Unreplayed(s) && !Unreplayed(y)
    ensures VotesConserved(y)
  {
    forall v: VoteMsg ensures Copies(y, v) == Copies(s, v) { }
  }

  lemma ReplayKnown(s: Slot, y: Slot, b: Block, proposer: NodeId, view: nat, h: Height)
    requires VotesKnown(s, proposer, view, h) && y == ReplayVotes(s, b)
    ensures VotesKnown(y, proposer, view, h)
  {
  }

  lemma FinishVoteProposal(s: Slot, y: Slot, b: Block, proposer: NodeId, view: nat, h: Height)
    requires ProposalOk(s, proposer, view, h) && b in s.sendVote && y == FinishVote(s, b)
    ensures ProposalOk(y, proposer, view, h) && !s.voted && s.proposal == Some(b)
  {
  }

  lemma BufferVoteConserves(s: Slot, y: Slot, v: VoteMsg)
    requires VotesConserved(s) && v in s.onVote && s.hash != v.hash
    requires y == s.(onVote := s.onVote - multiset{v}, unHandleVote := s.unHandleVote + [v])
    ensures VotesConserved(y)
  {
    assert multiset(y.unHandleVote) == multiset(s.unHandleVote) + multiset{v};
    forall u: VoteMsg | s.hash == ZERO || s.hash == u.hash ensures Copies(y, u) == Copies(s, u) { }
  }

  lemma PassVoteConserves(s: Slot, y: Slot, v: VoteMsg)
    requires VotesConserved(s) && v in s.onVote && s.hash == v.hash != ZERO
    requires y == s.(onVote := s.onVote - multiset{v}, countVote := s.countVote + multiset{v})
    ensures VotesConserved(y)
  {
    forall u: VoteMsg | s.hash == u.hash ensures Copies(y, u) == Copies(s, u) { }
  }

  lemma CheckVoteKnown(s: Slot, y: Slot, v: VoteMsg, proposer: NodeId, view: nat, h: Height)
    requires VotesKnown(s, proposer, view, h) && v in s.onVote && y == CheckVote(s, v)
    ensures VotesKnown(y, proposer, view, h) && v.hash != ZERO
  {
  }

  lemma AddVoteConserves(s: Slot, y: Slot, v: VoteMsg, view: nat, high: nat)
    requires VotesConserved(s) && v in s.countVote && y == AddVote(s, v, view, high)
    ensures VotesConserved(y) && v.hash == s.hash != ZERO
  {
    forall u: VoteMsg | s.hash == u.hash ensures Copies(y, u) == Copies(s, u) { }
  }

  lemma AddVoteKnown(s: Slot, y: Slot, v: VoteMsg, proposer: NodeId, view: nat, h: Height, high: nat)
    requires VotesKnown(s, proposer, view, h) && v in s.countVote && v.hash == s.hash != ZERO
    requires y == AddVote(s, v, view, high)
    ensures VotesKnown(y, proposer, view, h) && v.proposer == proposer && v.height == h
  {
  }

  lemma AddVoteQc(s: Slot, y: Slot, v: VoteMsg, proposer: NodeId, view: nat, h: Height, high: nat)
    requires QcOk(s, proposer, view, h, high) && y == AddVote(s, v, view, high)
    requires v.hash == s.hash && v.proposer == proposer && v.height == h
    ensures QcOk(y, proposer, view, h, high)
  {
  }

  lemma DeliverVoteConserves(s: Slot, y: Slot, v: VoteMsg)
    requires VotesConserved(s) && y == s.(onVote := s.onVote + multiset{v}, votes := s.votes + multiset{v})
    ensures VotesConserved(y)
  {
    forall u: VoteMsg ensures Copies(y, u) == Copies(s, u) + (if u == v then 1 else 0) { }
  }

  lemma DeliverVoteKnown(s: Slot, y: Slot, v: VoteMsg, proposer: NodeId, view: nat, h: Height)
    requires VotesKnown(s, proposer, view, h)
    requires v.proposer == proposer && v.view == view && v.height == h && v.hash != ZERO
    requires y == s.(onVote := s.onVote + multiset{v}, votes := s.votes + multiset{v})
    ensures VotesKnown(y, proposer, view, h)
  {
  }

  // ----- One height: every section keeps everything -----

  lemma AcceptKeeps(s: Slot, y: Slot, b: Block, proposer: NodeId, view: nat, h: Height, high: nat)
    requires SlotOk(s, proposer, view, h, high) && b in s.onPropose && high >= 1 && y == Accept(s, b)
    ensures SlotOk(y, proposer, view, h, high)
  {
    AcceptProposal(s, y, b, proposer, view, h);
    assert s.voteNums == 0;
    hide ProposalOk; hide VotesConserved; hide VotesKnown; hide QcOk;
    AcceptVotes(s, y, b, proposer, view, h);
    AcceptQc(s, y, b, proposer, view, h, high);
  }

  lemma ReplayVotesKeeps(s: Slot, y: Slot, b: Block, proposer: NodeId, view: nat, h: Height, high: nat)
    requires SlotOk(s, proposer, view, h, high) && b in s.replay && y == ReplayVotes(s, b)
    ensures SlotOk(y, proposer, view, h, high)
  {
    hide ProposalOk; hide VotesConserved; hide VotesKnown; hide QcOk;
    ReplayProposal(s, y, b, proposer, view, h);
    ReplayConserves(s, y, b);
    ReplayKnown(s, y, b, proposer, view, h);
    QcFrame(s, y, proposer, view, h, high);
  }

  lemma FinishVoteKeeps(s: Slot, y: Slot, b: Block, proposer: NodeId, view: nat, h: Height, high: nat)
    requires SlotOk(s, proposer, view, h, high) && b in s.sendVote && y == FinishVote(s, b)
    ensures SlotOk(y, proposer, view, h, high)
  {
    hide ProposalOk; hide VotesConserved; hide VotesKnown; hide QcOk;
    FinishVoteProposal(s, y, b, proposer, view, h);
    VotesFrame(s, y, proposer, view, h);
    QcFrame(s, y, proposer, view, h, high);
  }

  lemma CheckVoteKeeps(s: Slot, y: Slot, v: VoteMsg, proposer: NodeId, view: nat, h: Height, high: nat)
    requires SlotOk(s, proposer, view, h, high) && v in s.onVote && y == CheckVote(s, v)
    ensures SlotOk(y, proposer, view, h, high)
  {
    hide ProposalOk; hide VotesConserved; hide VotesKnown; hide QcOk;
    CheckVoteKnown(s, y, v, proposer, view, h);
    if s.hash != v.hash {
      BufferVoteConserves(s, y, v);
    } else {
      PassVoteConserves(s, y, v);
    }
    ProposalFrame(s, y, proposer, view, h);
    QcFrame(s, y, proposer, view, h, high);
  }

  lemma AddVoteKeeps(s: Slot, y: Slot, v: VoteMsg, proposer: NodeId, view: nat, h: Height, high: nat)
    requires SlotOk(s, proposer, view, h, high) && v in s.countVote && y == AddVote(s, v, view, high)
    ensures SlotOk(y, proposer, view, h, high)
  {
    hide ProposalOk; hide VotesConserved; hide VotesKnown; hide QcOk;
    AddVoteConserves(s, y, v, view, high);
    AddVoteKnown(s, y, v, proposer, view, h, high);
    AddVoteQc(s, y, v, proposer, view, h, high);
    ProposalFrame(s, y, proposer, view, h);
  }

  lemma SetQcKeeps(s: Slot, y: Slot, qc: BlockQc, proposer: NodeId, view: nat, h: Height, high: nat)
    requires SlotOk(s, proposer, view, h, high) && qc in s.storeQc && y == SetQc(s, qc)
    ensures SlotOk(y, proposer, view, h, high) && s.qc.None? && !s.announced
  {
    hide ProposalOk; hide VotesConserved; hide VotesKnown;
    ProposalFrame(s, y, proposer, view, h);
    VotesFrame(s, y, proposer, view, h);
  }

  lemma FinishQcKeeps(s: Slot, y: Slot, qc: BlockQc, proposer: NodeId, view: nat, h: Height, high: nat)
    requires SlotOk(s, proposer, view, h, high) && qc in s.announce && y == FinishQc(s, qc)
    ensures SlotOk(y, proposer, view, h, high) && s.qc.Some? && !s.announced
  {
    hide ProposalOk; hide VotesConserved; hide VotesKnown;
    ProposalFrame(s, y, proposer, view, h);
    VotesFrame(s, y, proposer, view, h);
  }

  lemma DeliverProposalKeeps(s: Slot, y: Slot, b: Block, proposer: NodeId, view: nat, h: Height, high: nat)
    requires SlotOk(s, proposer, view, h, high) && s.proposal.None?
    requires b.author == proposer && b.view == view && b.height == h
    requires y == s.(onPropose := s.onPropose + multiset{b}, proposal := Some(b))
    ensures SlotOk(y, proposer, view, h, high)
  {
    hide VotesConserved; hide VotesKnown; hide QcOk;
    VotesFrame(s, y, proposer, view, h);
    QcFrame(s, y, proposer, view, h, high);
  }

  lemma DeliverVoteKeeps(s: Slot, y: Slot, v: VoteMsg, proposer: NodeId, view: nat, h: Height, high: nat)
    requires SlotOk(s, proposer, view, h, high)
    requires v.proposer == proposer && v.view == view && v.height == h && v.hash != ZERO
    requires y == s.(onVote := s.onVote + multiset{v}, votes := s.votes + multiset{v})
    ensures SlotOk(y, proposer, view, h, high)
  {
    hide ProposalOk; hide VotesConserved; hide VotesKnown; hide QcOk;
    DeliverVoteConserves(s, y, v);
    DeliverVoteKnown(s, y, v, proposer, view, h);
    ProposalFrame(s, y, proposer, view, h);
    QcFrame(s, y, proposer, view, h, high);
  }

  // ----- Speed votes -----

  lemma BufferSpeedKeeps(f: Fast, g: Fast, sv: SpeedVoteMsg, proposer: NodeId, view: nat, high: nat)
    requires FastOk(f, proposer, view, false, false, high) && sv in f.onSpeed && sv.proposer == proposer
    requires sv.view == view
    requires g == f.(onSpeed := f.onSpeed - multiset{sv}, unHandleSpeedVote := f.unHandleSpeedVote + [sv])
    ensures FastOk(g, proposer, view, false, false, high)
  {
    forall u: SpeedVoteMsg ensures SpeedCopies(g, u, false) == SpeedCopies(f, u, false) { }
  }

  lemma PassSpeedKeeps(f: Fast, g: Fast, sv: SpeedVoteMsg, proposer: NodeId, view: nat, announced: bool, high: nat)
    requires FastOk(f, proposer, view, true, announced, high) && sv in f.onSpeed && sv.proposer == proposer
    requires sv.view == view
    requires g == f.(onSpeed := f.onSpeed - multiset{sv}, countSpeed := f.countSpeed + multiset{sv})
    ensures FastOk(g, proposer, view, true, announced, high)
  {
    forall u: SpeedVoteMsg ensures SpeedCopies(g, u, announced) == SpeedCopies(f, u, announced) { }
  }

  lemma DropSpeedKeeps(f: Fast, g: Fast, sv: SpeedVoteMsg, proposer: NodeId, view: nat, certified: bool,
                       announced: bool, high: nat)
    requires FastOk(f, proposer, view, certified, announced, high) && sv in f.onSpeed
    requires !(sv.proposer == proposer && sv.view == view)
    requires g == f.(onSpeed := f.onSpeed - multiset{sv})
    ensures FastOk(g, proposer, view, certified, announced, high)
  {
    forall u: SpeedVoteMsg | u != sv ensures SpeedCopies(g, u, announced) == SpeedCopies(f, u, announced) { }
  }

  lemma CheckSpeedKeeps(f: Fast, g: Fast, sv: SpeedVoteMsg, proposer: NodeId, view: nat, certified: bool,
                        announced: bool, high: nat)
    requires FastOk(f, proposer, view, certified, announced, high) && sv in f.onSpeed && (announced ==> certified)
    requires g == CheckSpeed(f, sv, sv.proposer == proposer && sv.view == view, certified)
    ensures FastOk(g, proposer, view, certified, announced, high)
  {
    hide FastOk;
    if !(sv.proposer == proposer && sv.view == view) {
      DropSpeedKeeps(f, g, sv, proposer, view, certified, announced, high);
    } else if certified {
      PassSpeedKeeps(f, g, sv, proposer, view, announced, high);
    } else {
      BufferSpeedKeeps(f, g, sv, proposer, view, high);
    }
  }

  lemma ReplaySpeedVotesKeeps(f: Fast, g: Fast, proposer: NodeId, view: nat, certified: bool, announced: bool,
                              high: nat)
    requires FastOk(f, proposer, view, certified, announced, high) && f.replaySpeed > 0 && g == ReplaySpeedVotes(f)
    ensures FastOk(g, proposer, view, certified, announced, high)
  {
    forall u: SpeedVoteMsg ensures SpeedCopies(g, u, announced) == SpeedCopies(f, u, announced) { }
  }

  lemma AddSpeedKeeps(f: Fast, g: Fast, sv: SpeedVoteMsg, proposer: NodeId, view: nat, certified: bool, announced: bool,
                      high: nat)
    requires FastOk(f, proposer, view, certified, announced, high) && sv in f.countSpeed && g == AddSpeed(f, sv, high)
    ensures FastOk(g, proposer, view, certified, announced, high)
  {
    forall u: SpeedVoteMsg ensures SpeedCopies(g, u, announced) == SpeedCopies(f, u, announced) { }
  }

  lemma SetCertKeeps(f: Fast, g: Fast, proposer: NodeId, view: nat, certified: bool, announced: bool, high: nat)
    requires FastOk(f, proposer, view, certified, announced, high) && f.storeCert > 0 && g == SetCert(f)
    ensures FastOk(g, proposer, view, certified, announced, high)
  {
    forall u: SpeedVoteMsg ensures SpeedCopies(g, u, announced) == SpeedCopies(f, u, announced) { }
  }

  lemma CertifyKeepsFast(f: Fast, proposer: NodeId, view: nat, high: nat)
    requires FastOk(f, proposer, view, false, false, high)
    ensures FastOk(f, proposer, view, true, false, high)
  {
  }

  lemma AnnounceKeepsFast(f: Fast, g: Fast, proposer: NodeId, view: nat, high: nat)
    requires FastOk(f, proposer, view, true, false, high) && g == f.(replaySpeed := f.replaySpeed + 1)
    ensures FastOk(g, proposer, view, true, true, high)
  {
    forall u: SpeedVoteMsg ensures SpeedCopies(g, u, true) == SpeedCopies(f, u, false) { }
  }

  lemma DeliverSpeedKeeps(f: Fast, g: Fast, sv: SpeedVoteMsg, proposer: NodeId, view: nat, certified: bool,
                          announced: bool, high: nat)
    requires FastOk(f, proposer, view, certified, announced, high)
    requires g == f.(onSpeed := f.onSpeed + multiset{sv}, speedVotes := f.speedVotes + multiset{sv})
    ensures FastOk(g, proposer, view, certified, announced, high)
  {
    forall u: SpeedVoteMsg
      ensures SpeedCopies(g, u, announced) == SpeedCopies(f, u, announced) + (if u == sv then 1 else 0)
    { }
  }

  // ----- Parking behind the height-1 proposal -----

  lemma ParkedFrame(x: Instance, y: Instance)
    requires ParkedOk(x)
    requires y.variant == x.variant && y.preQc == x.preQc && y.unHandlePropose == x.unHandlePropose
    requires y.lo.hash == x.lo.hash && y.lo.proposal == x.lo.proposal && y.lo.replay == x.lo.replay
    requires y.lo.onPropose == x.lo.onPropose
    requires y.hi.hash == x.hi.hash && y.hi.proposal == x.hi.proposal && y.hi.onPropose == x.hi.onPropose
    ensures ParkedOk(y)
  {
  }

  lemma DeliverLoKeepsParked(x: Instance, y: Instance, b: Block)
    requires ParkedOk(x) && ProposalOk(x.lo, x.proposer, x.view, H1) && x.lo.proposal.None?
    requires y == x.(lo := x.lo.(onPropose := x.lo.onPropose + multiset{b}, proposal := Some(b)))
    ensures ParkedOk(y)
  {
    assert b !in x.lo.onPropose;
  }

  lemma DeliverHiKeepsParked(x: Instance, y: Instance, b: Block)
    requires ParkedOk(x) && ProposalOk(x.hi, x.proposer, x.view, H2) && x.hi.proposal.None?
    requires (x.variant.Big? ==> ParentHash(b) != ZERO)
    requires y == x.(hi := x.hi.(onPropose := x.hi.onPropose + multiset{b}, proposal := Some(b)))
    ensures ParkedOk(y)
  {
    assert b !in x.hi.onPropose && b !in x.unHandlePropose;
  }

  lemma AcceptLoKeepsParked(x: Instance, y: Instance, b: Block)
    requires ParkedOk(x) && ProposalOk(x.lo, x.proposer, x.view, H1) && b in x.lo.onPropose
    requires y == x.(preQc := b.qc, lo := Accept(x.lo, b))
    ensures ParkedOk(y)
  {
    assert x.lo.hash == ZERO && x.lo.proposal == Some(b);
    assert x.variant.Big? && x.hi.proposal.Some? ==> x.hi.hash == ZERO;
  }

  lemma AcceptHiKeepsParked(x: Instance, y: Instance, b: Block)
    requires ParkedOk(x) && ProposalOk(x.hi, x.proposer, x.view, H2) && b in x.hi.onPropose && b.height == H2
    requires !Parks(x, b)
    requires y == x.(hi := Accept(x.hi, b))
    ensures ParkedOk(y)
  {
  }

  lemma ParkKeepsParked(x: Instance, y: Instance, b: Block)
    requires ParkedOk(x) && ProposalOk(x.hi, x.proposer, x.view, H2) && b in x.hi.onPropose && Parks(x, b)
    requires y == x.(unHandlePropose := x.unHandlePropose + [b], hi := x.hi.(onPropose := x.hi.onPropose - multiset{b}))
    ensures ParkedOk(y)
  {
    assert multiset(y.unHandlePropose) == multiset(x.unHandlePropose) + multiset{b};
  }

  lemma ReplayLoKeepsParked(x: Instance, y: Instance, b: Block)
    requires ParkedOk(x) && ProposalOk(x.lo, x.proposer, x.view, H1) && b in x.lo.replay
    requires y == x.(lo := ReplayVotes(x.lo, b), hi := x.hi.(onPropose := x.hi.onPropose + multiset(x.unHandlePropose)))
    ensures ParkedOk(y)
  {
  }

  // ----- The instance -----

  /** Replacing one height by a slot that differs only in its votes keeps the rest. */
  lemma VotesUpdateKeeps(x: Instance, y: Instance, h: Height, s: Slot, high: nat)
    requires Inv(x, high) && SlotOk(s, x.proposer, x.view, h, high) && y == x.With(h, s)
    requires s.hash == x.At(h).hash && s.proposal == x.At(h).proposal && s.replay == x.At(h).replay
    requires s.onPropose == x.At(h).onPropose && s.qc == x.At(h).qc && s.announced == x.At(h).announced
    ensures Inv(y, high)
  {
    hide SlotOk; hide FastOk; hide ParkedOk;
    ParkedFrame(x, y);
  }

  lemma DeliverProposalKeepsInv(x: Instance, y: Instance, high: nat, b: Block)
    requires Inv(x, high) && Deliverable(x, Proposal(b)) && y == Deliver(x, Proposal(b))
    ensures Inv(y, high)
  {
    SlotParts(x, high);
    hide SlotOk; hide FastOk; hide ParkedOk; hide ProposalOk;
    if b.height.H1? {
      DeliverProposalKeeps(x.lo, y.lo, b, x.proposer, x.view, H1, high);
      DeliverLoKeepsParked(x, y, b);
    } else {
      DeliverProposalKeeps(x.hi, y.hi, b, x.proposer, x.view, H2, high);
      DeliverHiKeepsParked(x, y, b);
    }
  }

  lemma DeliverKeeps(x: Instance, y: Instance, high: nat, d: Delivery)
    requires Inv(x, high) && Deliverable(x, d) && y == Deliver(x, d)
    ensures Inv(y, high)
  {
    hide SlotOk; hide FastOk; hide ParkedOk;
    match d
    case Proposal(b) => DeliverProposalKeepsInv(x, y, high, b);
    case Vote(v) =>
      DeliverVoteKeeps(x.At(v.height), y.At(v.height), v, x.proposer, x.view, v.height, high);
      VotesUpdateKeeps(x, y, v.height, y.At(v.height), high);
    case SpeedVote(sv) =>
      DeliverSpeedKeeps(x.fast, y.fast, sv, x.proposer, x.view, x.hi.qc.Some?, x.hi.announced, high);
      ParkedFrame(x, y);
  }

  lemma SlotParts(x: Instance, high: nat)
    requires Inv(x, high)
    ensures ProposalOk(x.lo, x.proposer, x.view, H1) && ProposalOk(x.hi, x.proposer, x.view, H2)
    ensures x.hi.announced ==> x.hi.qc.Some?
  {
  }

  lemma ParkSlotKeeps(s: Slot, y: Slot, b: Block, proposer: NodeId, view: nat, h: Height, high: nat)
    requires SlotOk(s, proposer, view, h, high) && b in s.onPropose
    requires y == s.(onPropose := s.onPropose - multiset{b})
    ensures SlotOk(y, proposer, view, h, high)
  {
    hide VotesConserved; hide VotesKnown; hide QcOk;
    VotesFrame(s, y, proposer, view, h);
    QcFrame(s, y, proposer, view, h, high);
  }

  lemma UnparkProposal(s: Slot, y: Slot, parked: seq<Block>, proposer: NodeId, view: nat, h: Height)
    requires ProposalOk(s, proposer, view, h)
    requires forall b :: b in parked ==> s.proposal == Some(b)
    requires s.proposal.Some? ==>
      s.onPropose[s.proposal.value] + multiset(parked)[s.proposal.value] + (if s.hash == ZERO then 0 else 1) == 1
    requires y == s.(onPropose := s.onPropose + multiset(parked))
    ensures ProposalOk(y, proposer, view, h)
  {
  }

  lemma UnparkSlotKeeps(x: Instance, y: Slot, high: nat)
    requires SlotOk(x.hi, x.proposer, x.view, H2, high) && ParkedOk(x) && Unreplayed(x.lo)
    requires y == x.hi.(onPropose := x.hi.onPropose + multiset(x.unHandlePropose))
    ensures SlotOk(y, x.proposer, x.view, H2, high)
  {
    hide VotesConserved; hide VotesKnown; hide QcOk; hide ProposalOk;
    UnparkProposal(x.hi, y, x.unHandlePropose, x.proposer, x.view, H2);
    VotesFrame(x.hi, y, x.proposer, x.view, H2);
    QcFrame(x.hi, y, x.proposer, x.view, H2, high);
  }

  lemma ProposeKeeps(x: Instance, y: Instance, high: nat, b: Block)
    requires Inv(x, high) && Pending(x, OnPropose(b)) && y == Run(x, high, OnPropose(b))
    ensures Inv(y, high)
  {
    SlotParts(x, high);
    hide SlotOk; hide FastOk; hide ParkedOk; hide ProposalOk;
    if Parks(x, b) {
      ParkSlotKeeps(x.hi, y.hi, b, x.proposer, x.view, H2, high);
      ParkKeepsParked(x, y, b);
    } else {
      AcceptKeeps(x.At(b.height), y.At(b.height), b, x.proposer, x.view, b.height, high);
      if b.height.H1? {
        AcceptLoKeepsParked(x, y, b);
      } else {
        AcceptHiKeepsParked(x, y, b);
      }
    }
  }

  lemma ReplayKeeps(x: Instance, y: Instance, high: nat, b: Block)
    requires Inv(x, high) && Pending(x, Replay(b)) && y == Run(x, high, Replay(b))
    ensures Inv(y, high)
  {
    SlotParts(x, high);
    hide SlotOk; hide FastOk; hide ParkedOk; hide ProposalOk;
    ReplayVotesKeeps(x.At(b.height), ReplayVotes(x.At(b.height), b), b, x.proposer, x.view, b.height, high);
    ReplayProposal(x.At(b.height), ReplayVotes(x.At(b.height), b), b, x.proposer, x.view, b.height);
    if b.height.H1? {
      UnparkSlotKeeps(x, y.hi, high);
      ReplayLoKeepsParked(x, y, b);
    } else {
      ParkedFrame(x, y);
    }
  }

  lemma QcTaskKeeps(x: Instance, y: Instance, high: nat, t: Task)
    requires Inv(x, high) && Pending(x, t) && (t.StoreQc? || t.Announce?) && y == Run(x, high, t)
    ensures Inv(y, high)
  {
    hide SlotOk; hide FastOk; hide ParkedOk;
    if t.StoreQc? {
      SetQcKeeps(x.At(t.qc.height), y.At(t.qc.height), t.qc, x.proposer, x.view, t.qc.height, high);
      if t.qc.height.H2? {
        CertifyKeepsFast(x.fast, x.proposer, x.view, high);
      }
    } else {
      FinishQcKeeps(x.At(t.qc.height), y.At(t.qc.height), t.qc, x.proposer, x.view, t.qc.height, high);
      if t.qc.height.H2? {
        AnnounceKeepsFast(x.fast, y.fast, x.proposer, x.view, high);
      }
    }
    ParkedFrame(x, y);
  }

  lemma VoteTaskKeeps(x: Instance, y: Instance, high: nat, t: Task)
    requires Inv(x, high) && Pending(x, t) && (t.SendVote? || t.OnVote? || t.CountVote?) && y == Run(x, high, t)
    ensures Inv(y, high)
  {
    hide SlotOk; hide FastOk; hide ParkedOk;
    match t {
      case SendVote(b) =>
        var s := FinishVote(x.At(b.height), b);
        FinishVoteKeeps(x.At(b.height), s, b, x.proposer, x.view, b.height, high);
        VotesUpdateKeeps(x, y, b.height, s, high);
      case OnVote(v) =>
        var s := CheckVote(x.At(v.height), v);
        CheckVoteKeeps(x.At(v.height), s, v, x.proposer, x.view, v.height, high);
        VotesUpdateKeeps(x, y, v.height, s, high);
      case CountVote(v) =>
        var s := AddVote(x.At(v.height), v, x.view, high);
        AddVoteKeeps(x.At(v.height), s, v, x.proposer, x.view, v.height, high);
        VotesUpdateKeeps(x, y, v.height, s, high);
    }
  }

  lemma AnnouncedHasQc(x: Instance, high: nat)
    requires Inv(x, high)
    ensures x.hi.announced ==> x.hi.qc.Some?
  {
    hide ProposalOk; hide VotesConserved; hide VotesKnown; hide FastOk; hide ParkedOk;
  }

  lemma SpeedTaskKeeps(x: Instance, y: Instance, high: nat, t: Task)
    requires Inv(x, high) && Pending(x, t) && (t.ReplaySpeed? || t.OnSpeed? || t.CountSpeed? || t.StoreCert?)
    requires y == Run(x, high, t)
    ensures Inv(y, high)
  {
    hide SlotOk; hide FastOk; hide ParkedOk; hide ReplaySpeedVotes; hide CheckSpeed; hide AddSpeed; hide SetCert;
    AnnouncedHasQc(x, high);
    var f, g := x.fast, y.fast;
    match t {
      case ReplaySpeed => ReplaySpeedVotesKeeps(f, g, x.proposer, x.view, x.hi.qc.Some?, x.hi.announced, high);
      case OnSpeed(sv) => CheckSpeedKeeps(f, g, sv, x.proposer, x.view, x.hi.qc.Some?, x.hi.announced, high);
      case CountSpeed(sv) => AddSpeedKeeps(f, g, sv, x.proposer, x.view, x.hi.qc.Some?, x.hi.announced, high);
      case StoreCert => SetCertKeeps(f, g, x.proposer, x.view, x.hi.qc.Some?, x.hi.announced, high);
    }
    ParkedFrame(x, y);
  }

  lemma RunKeeps(x: Instance, y: Instance, high: nat, t: Task)
    requires Inv(x, high) && Pending(x, t) && y == Run(x, high, t)
    ensures Inv(y, high)
  {
    hide Inv; hide Run;
    match t
    case OnPropose(b) => ProposeKeeps(x, y, high, b);
    case Replay(b) => ReplayKeeps(x, y, high, b);
    case SendVote(_) => VoteTaskKeeps(x, y, high, t);
    case OnVote(_) => VoteTaskKeeps(x, y, high, t);
    case CountVote(_) => VoteTaskKeeps(x, y, high, t);
    case StoreQc(_) => QcTaskKeeps(x, y, high, t);
    case Announce(_) => QcTaskKeeps(x, y, high, t);
    case _ => SpeedTaskKeeps(x, y, high, t);
  }
}
