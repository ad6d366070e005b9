/** What every interleaving of the tasks of a lean instance keeps. */
module LeanConservation {
  import opened Blocks
  import opened LeanSpb

  /** What is put aside until the proposal of this height is accepted still has to be replayed. */
  predicate Unreplayed(s: Slot) {
    s.hash == ZERO || (s.proposal.Some? && s.proposal.value in s.replay)
  }

  /** A delivered proposal is in exactly one place: waiting to be looked at, put aside, or accepted and then
      being replayed, about to be voted for, or voted for. */
  ghost predicate ProposalOk(s: Slot, proposer: NodeId, view: nat, h: Height) {
    && (forall b :: b in s.onPropose ==> s.proposal == Some(b))
    && (forall b :: b in s.replay ==> s.proposal == Some(b))
    && (forall b :: b in s.sendVote ==> s.proposal == Some(b))
    && match s.proposal
       case None => s.hash == ZERO && !s.voted
       case Some(b) =>
         && b.height == h && b.author == proposer && b.view == view
         && s.onPropose[b] <= 1
         && if s.hash == ZERO then
              s.replay[b] == 0 && s.sendVote[b] == 0 && !s.voted
            else
              s.hash == Hash(b) && s.onPropose[b] == 0 && s.replay[b] + s.sendVote[b] + (if s.voted then 1 else 0) == 1
  }

  /** Every vote is counted once; the quorum-th one forms the certificate, which is used once. */
  ghost predicate TallyOk(s: Slot, proposer: NodeId, view: nat, h: Height, high: nat) {
    && (forall v: VoteMsg :: s.votes[v] == s.counted[v] + s.countVote[v])
    && (forall v :: v in s.votes ==> v.proposer == proposer && v.view == view && v.height == h)
    && (forall u, v :: u in s.votes && v in s.votes ==> u.hash == v.hash)
    && s.voteNums == |s.counted|
    && (forall q, v :: q in s.certify && v in s.votes ==> q == BlockQc(view, h, proposer, v.hash))
    && |s.certify| + (if s.certified then 1 else 0) == (if s.voteNums >= high then 1 else 0)
  }

  ghost predicate SlotOk(s: Slot, proposer: NodeId, view: nat, h: Height, high: nat) {
    ProposalOk(s, proposer, view, h) && TallyOk(s, proposer, view, h, high)
  }

  /** The height-2 proposal stays put aside exactly while its parent hash is not the accepted one; the
      certificate it carries is kept when it is accepted. */
  ghost predicate ParkedOk(x: Instance) {
    && (forall b :: b in x.unHandlePropose ==> x.hi.proposal == Some(b))
    && (x.lo.proposal.Some? && x.lo.hash == ZERO ==> x.lo.onPropose[x.lo.proposal.value] == 1)
    && x.preQc == (if x.lo.hash != ZERO && x.lo.proposal.Some? then x.lo.proposal.value.qc else None)
    && x.lo.qc == (if x.hi.hash != ZERO && x.hi.proposal.Some? then x.hi.proposal.value.qc else None)
    && (x.hi.proposal.Some? ==>
          var b := x.hi.proposal.value;
          && (Unreplayed(x.lo) ==>
                x.hi.onPropose[b] + multiset(x.unHandlePropose)[b] + (if x.hi.hash == ZERO then 0 else 1) == 1)
          && (!Unreplayed(x.lo) && x.hi.hash == ZERO && x.hi.onPropose[b] == 0 ==> x.lo.hash != ParentHash(b))
          && (x.hi.hash != ZERO ==> x.lo.hash == ParentHash(b))
          && b.qc.Some? && ParentHash(b) != ZERO)
  }

  /** The final vote is in exactly one place too, and stays put aside exactly while its hash is not the accepted
      one. */
  ghost predicate EndingOk(e: Ending, hi: Slot, proposer: NodeId, view: nat) {
    && (forall f :: f in e.onFin ==> e.fin == Some(f))
    && (forall f :: f in e.unHandleFinVote ==> e.fin == Some(f))
    && (forall f :: f in e.sendSpeed ==> e.fin == Some(f))
    && match e.fin
       case None => hi.qc.None? && !e.sped
       case Some(f) =>
         && f.author == proposer && f.view == view && f.qc.hash != ZERO
         && e.onFin[f] <= 1
         && if hi.qc.None? then
              && e.sendSpeed[f] == 0 && !e.sped
              && (Unreplayed(hi) ==> e.onFin[f] + multiset(e.unHandleFinVote)[f] == 1)
              && (!Unreplayed(hi) && e.onFin[f] == 0 ==> hi.hash != f.qc.hash)
            else
              && hi.qc == Some(f.qc) && hi.hash == f.qc.hash && e.onFin[f] == 0
              && (Unreplayed(hi) ==> multiset(e.unHandleFinVote)[f] == 0)
              && e.sendSpeed[f] + (if e.sped then 1 else 0) == 1
  }

  /** Every speed vote meant for this instance is counted once; the flag is raised once, by the quorum-th. */
  ghost predicate FastOk(f: Fast, proposer: NodeId, view: nat, high: nat) {
    && (forall sv: SpeedVoteMsg :: sv.proposer == proposer && sv.view == view ==>
          f.speedVotes[sv] == f.counted[sv] + f.countSpeed[sv])
    && (forall sv: SpeedVoteMsg :: !(sv.proposer == proposer && sv.view == view) ==> f.counted[sv] == 0)
    && f.speedVoteNums == |f.counted|
    && f.storeCert + (if f.isSpeedCert then 1 else 0) == (if f.speedVoteNums >= high then 1 else 0)
  }

  ghost predicate Inv(x: Instance, high: nat) {
    && high >= 1
    && SlotOk(x.lo, x.proposer, x.view, H1, high)
    && SlotOk(x.hi, x.proposer, x.view, H2, high)
    && ParkedOk(x)
    && EndingOk(x.end, x.hi, x.proposer, x.view)
    && FastOk(x.fast, x.proposer, x.view, high)
  }

  lemma InitKeeps(proposer: NodeId, view: nat, high: nat)
    requires high >= 1
    ensures Inv(Init(proposer, view), high)
  {
  }

  // ----- What a part of the invariant does not look at -----

  predicate SameProposal(s: Slot, y: Slot) {
    && y.hash == s.hash && y.proposal == s.proposal && y.voted == s.voted
    && y.onPropose == s.onPropose && y.replay == s.replay && y.sendVote == s.sendVote
  }

  predicate SameTally(s: Slot, y: Slot) {
    && y.votes == s.votes && y.counted == s.counted && y.countVote == s.countVote
    && y.voteNums == s.voteNums && y.certify == s.certify && y.certified == s.certified
  }

  lemma ProposalFrame(s: Slot, y: Slot, proposer: NodeId, view: nat, h: Height)
    requires ProposalOk(s, proposer, view, h) && SameProposal(s, y)
    ensures ProposalOk(y, proposer, view, h)
  {
    hide Hash;
  }

  lemma TallyFrame(s: Slot, y: Slot, proposer: NodeId, view: nat, h: Height, high: nat)
    requires TallyOk(s, proposer, view, h, high) && SameTally(s, y)
    ensures TallyOk(y, proposer, view, h, high)
  {
  }

  lemma ParkedFrame(x: Instance, y: Instance)
    requires ParkedOk(x) && SameProposal(x.lo, y.lo) && SameProposal(x.hi, y.hi)
    requires y.lo.qc == x.lo.qc && y.preQc == x.preQc && y.unHandlePropose == x.unHandlePropose
    ensures ParkedOk(y)
  {
    hide Hash;
  }

  lemma EndingFrame(e: Ending, s: Slot, y: Slot, proposer: NodeId, view: nat)
    requires EndingOk(e, s, proposer, view) && SameProposal(s, y) && y.qc == s.qc
    ensures EndingOk(e, y, proposer, view)
  {
    hide Hash;
  }

  lemma InvParts(x: Instance, high: nat)
    requires Inv(x, high)
    ensures high >= 1 && ProposalOk(x.lo, x.proposer, x.view, H1) && ProposalOk(x.hi, x.proposer, x.view, H2)
    ensures TallyOk(x.lo, x.proposer, x.view, H1, high) && TallyOk(x.hi, x.proposer, x.view, H2, high)
    ensures ParkedOk(x) && EndingOk(x.end, x.hi, x.proposer, x.view) && FastOk(x.fast, x.proposer, x.view, high)
  {
    hide ProposalOk; hide TallyOk; hide ParkedOk; hide EndingOk; hide FastOk;
  }

  // ----- Proposals -----

  lemma AcceptProposal(s: Slot, y: Slot, b: Block, proposer: NodeId, view: nat, h: Height)
    requires ProposalOk(s, proposer, view, h) && b in s.onPropose && y == Accept(s, b)
    ensures s.hash == ZERO && s.proposal == Some(b) && b.height == h && ProposalOk(y, proposer, view, h)
    ensures Unreplayed(s) && Unreplayed(y)
  {
  }

  lemma AcceptFirst(x: Instance, y: Instance, b: Block)
    requires ParkedOk(x) && ProposalOk(x.lo, x.proposer, x.view, H1) && ProposalOk(x.hi, x.proposer, x.view, H2)
    requires b in x.lo.onPropose && y == x.(preQc := b.qc, lo := Accept(x.lo, b))
    ensures ParkedOk(y)
  {
    AcceptProposal(x.lo, y.lo, b, x.proposer, x.view, H1);
    hide ProposalOk;
    if x.hi.proposal.Some? {
      assert x.lo.hash == ZERO && ParentHash(x.hi.proposal.value) != ZERO;
      assert x.hi.hash == ZERO;
    }
  }

  lemma ParkSecond(x: Instance, y: Instance, b: Block)
    requires ParkedOk(x) && ProposalOk(x.hi, x.proposer, x.view, H2) && b in x.hi.onPropose
    requires x.lo.hash != ParentHash(b)
    requires y == x.(unHandlePropose := x.unHandlePropose + [b], hi := x.hi.(onPropose := x.hi.onPropose - multiset{b}))
    ensures ParkedOk(y) && ProposalOk(y.hi, x.proposer, x.view, H2)
    ensures Unreplayed(y.hi) == Unreplayed(x.hi) && y.hi.hash == x.hi.hash
  {
    hide Hash;
    assert multiset(y.unHandlePropose) == multiset(x.unHandlePropose) + multiset{b};
  }

  lemma AcceptSecond(x: Instance, y: Instance, b: Block)
    requires ParkedOk(x) && ProposalOk(x.hi, x.proposer, x.view, H2) && b in x.hi.onPropose
    requires x.lo.hash == ParentHash(b)
    requires y == x.(lo := x.lo.(qc := b.qc), hi := Accept(x.hi, b))
    ensures ParkedOk(y)
  {
    AcceptProposal(x.hi, y.hi, b, x.proposer, x.view, H2);
    hide ProposalOk;
    assert Unreplayed(y.lo) == Unreplayed(x.lo);
  }

  /** Accepting a proposal keeps the final vote where it is. */
  lemma AcceptEnding(e: Ending, s: Slot, y: Slot, b: Block, proposer: NodeId, view: nat)
    requires EndingOk(e, s, proposer, view) && s.hash == ZERO && Unreplayed(y) && y.qc == s.qc && y.hash != ZERO
    ensures EndingOk(e, y, proposer, view)
  {
  }

  lemma PassedReplay(s: Slot, y: Slot, b: Block, proposer: NodeId, view: nat, h: Height)
    requires ProposalOk(s, proposer, view, h) && b in s.replay && y == PassReplay(s, b)
    ensures ProposalOk(y, proposer, view, h) && Unreplayed(s) && !Unreplayed(y) && y.hash == s.hash
    ensures s.proposal == Some(b)
  {
    hide Hash;
  }

  lemma ReplayFirst(x: Instance, y: Instance, b: Block)
    requires ParkedOk(x) && ProposalOk(x.lo, x.proposer, x.view, H1)
    requires b in x.lo.replay && b.height.H1? && y == RunReplay(x, b)
    ensures ParkedOk(y)
  {
    PassedReplay(x.lo, y.lo, b, x.proposer, x.view, H1);
    hide Hash; hide ProposalOk; hide Unreplayed;
  }

  /** A proposal that was put aside is looked at again. */
  lemma ReplayProposal(x: Instance, s: Slot)
    requires ParkedOk(x) && ProposalOk(x.hi, x.proposer, x.view, H2) && Unreplayed(x.lo)
    requires s == x.hi.(onPropose := x.hi.onPropose + multiset(x.unHandlePropose))
    ensures ProposalOk(s, x.proposer, x.view, H2) && Unreplayed(s) == Unreplayed(x.hi) && s.hash == x.hi.hash
  {
    hide Hash; hide ParentHash;
    if x.hi.proposal.Some? {
      var c := x.hi.proposal.value;
      assert s.onPropose[c] == x.hi.onPropose[c] + multiset(x.unHandlePropose)[c];
    }
  }

  lemma ReplaySecond(x: Instance, y: Instance, b: Block)
    requires ParkedOk(x) && ProposalOk(x.hi, x.proposer, x.view, H2)
    requires b in x.hi.replay && b.height.H2? && y == RunReplay(x, b)
    ensures ParkedOk(y)
  {
    PassedReplay(x.hi, y.hi, b, x.proposer, x.view, H2);
    hide ProposalOk; hide Hash;
    assert Unreplayed(y.lo) == Unreplayed(x.lo);
  }

  lemma ReplayEnding(e: Ending, e': Ending, s: Slot, y: Slot, proposer: NodeId, view: nat)
    requires EndingOk(e, s, proposer, view) && Unreplayed(s) && !Unreplayed(y) && y.qc == s.qc && y.hash == s.hash
    requires e' == e.(onFin := e.onFin + multiset(e.unHandleFinVote))
    ensures EndingOk(e', y, proposer, view)
  {
  }

  lemma FinishVoteProposal(s: Slot, y: Slot, b: Block, proposer: NodeId, view: nat, h: Height)
    requires ProposalOk(s, proposer, view, h) && b in s.sendVote && y == FinishVote(s, b)
    ensures ProposalOk(y, proposer, view, h) && !s.voted && s.proposal == Some(b) && s.hash == Hash(b)
    ensures Unreplayed(y) == Unreplayed(s)
  {
  }

  // ----- Votes -----

  lemma CountOne(s: Slot, y: Slot, v: VoteMsg, proposer: NodeId, view: nat, h: Height, high: nat)
    requires TallyOk(s, proposer, view, h, high) && v in s.countVote && y == AddVote(s, v, view, high)
    ensures TallyOk(y, proposer, view, h, high) && SameProposal(s, y) && y.qc == s.qc
  {
    assert v in s.votes;
    assert |y.counted| == |s.counted| + 1;
    if s.voteNums + 1 == high {
      assert |s.certify| == 0;
      assert s.certify == multiset{};
      assert y.certify == multiset{BlockQc(view, v.height, v.proposer, v.hash)};
    }
  }

  lemma UseQc(s: Slot, y: Slot, q: BlockQc, proposer: NodeId, view: nat, h: Height, high: nat)
    requires TallyOk(s, proposer, view, h, high) && q in s.certify && y == FinishQc(s, q)
    ensures TallyOk(y, proposer, view, h, high) && SameProposal(s, y) && y.qc == s.qc && !s.certified
  {
    assert s.certify == (s.certify - multiset{q}) + multiset{q};
    assert |s.certify| >= 1;
  }

  // ----- Final votes -----

  lemma DropFin(e: Ending, s: Slot, fv: FinVote, proposer: NodeId, view: nat)
    requires EndingOk(e, s, proposer, view) && fv in e.onFin
    ensures e.fin == Some(fv) && fv.author == proposer && fv.view == view
  {
  }

  lemma SetFinAside(e: Ending, y: Ending, s: Slot, fv: FinVote, proposer: NodeId, view: nat)
    requires EndingOk(e, s, proposer, view) && fv in e.onFin && s.hash != fv.qc.hash && y == PutAside(e, fv)
    ensures EndingOk(y, s, proposer, view)
  {
    assert multiset(y.unHandleFinVote) == multiset(e.unHandleFinVote) + multiset{fv};
  }

  lemma FollowFin(e: Ending, y: Ending, s: Slot, s': Slot, fv: FinVote, proposer: NodeId, view: nat)
    requires EndingOk(e, s, proposer, view) && fv in e.onFin && s.hash == fv.qc.hash
    requires y == Follow(e, fv) && s' == s.(qc := Some(fv.qc))
    ensures EndingOk(y, s', proposer, view) && SameProposal(s, s')
  {
    assert Unreplayed(s') == Unreplayed(s);
  }

  lemma SpeedSent(e: Ending, y: Ending, s: Slot, fv: FinVote, proposer: NodeId, view: nat)
    requires EndingOk(e, s, proposer, view) && fv in e.sendSpeed && y == FinishSpeed(e, fv)
    ensures EndingOk(y, s, proposer, view) && e.fin == Some(fv) && !e.sped && s.qc == Some(fv.qc)
  {
  }

  // ----- Speed votes -----

  lemma AddSpeedKeeps(f: Fast, g: Fast, sv: SpeedVoteMsg, proposer: NodeId, view: nat, high: nat)
    requires FastOk(f, proposer, view, high) && sv in f.countSpeed
    requires g == AddSpeed(f, sv, sv.proposer == proposer && sv.view == view, high)
    ensures FastOk(g, proposer, view, high)
  {
    if sv.proposer == proposer && sv.view == view {
      assert |g.counted| == |f.counted| + 1;
    }
  }

  // ----- One task -----

  lemma SlotTask(x: Instance, y: Instance, h: Height, s: Slot, high: nat)
    requires Inv(x, high) && y == x.With(h, s) && SlotOk(s, x.proposer, x.view, h, high)
    requires SameProposal(x.At(h), s) && s.qc == x.At(h).qc
    ensures Inv(y, high)
  {
    hide SlotOk; hide ParkedOk; hide EndingOk; hide FastOk;
    ParkedFrame(x, y);
    if h.H2? {
      EndingFrame(x.end, x.hi, s, x.proposer, x.view);
    }
  }

  lemma FirstTask(x: Instance, y: Instance, b: Block, high: nat)
    requires Inv(x, high) && b in x.lo.onPropose && y == x.(preQc := b.qc, lo := Accept(x.lo, b))
    ensures Inv(y, high)
  {
    InvParts(x, high);
    AcceptFirst(x, y, b);
    AcceptProposal(x.lo, y.lo, b, x.proposer, x.view, H1);
    hide ProposalOk; hide TallyOk; hide ParkedOk; hide EndingOk; hide FastOk;
    TallyFrame(x.lo, y.lo, x.proposer, x.view, H1, high);
  }

  lemma ParkTask(x: Instance, y: Instance, b: Block, high: nat)
    requires Inv(x, high) && b in x.hi.onPropose && x.lo.hash != ParentHash(b)
    requires y == x.(unHandlePropose := x.unHandlePropose + [b], hi := x.hi.(onPropose := x.hi.onPropose - multiset{b}))
    ensures Inv(y, high)
  {
    hide ProposalOk; hide TallyOk; hide ParkedOk; hide EndingOk; hide FastOk; hide ParentHash; hide Unreplayed;
    InvParts(x, high);
    ParkSecond(x, y, b);
    TallyFrame(x.hi, y.hi, x.proposer, x.view, H2, high);
    EndingSame(x.end, x.hi, y.hi, x.proposer, x.view);
  }

  lemma EndingSame(e: Ending, s: Slot, y: Slot, proposer: NodeId, view: nat)
    requires EndingOk(e, s, proposer, view) && Unreplayed(y) == Unreplayed(s) && y.hash == s.hash && y.qc == s.qc
    ensures EndingOk(e, y, proposer, view)
  {
  }

  lemma SecondTask(x: Instance, y: Instance, b: Block, high: nat)
    requires Inv(x, high) && b in x.hi.onPropose && x.lo.hash == ParentHash(b)
    requires y == x.(lo := x.lo.(qc := b.qc), hi := Accept(x.hi, b))
    ensures Inv(y, high)
  {
    hide ProposalOk; hide TallyOk; hide ParkedOk; hide EndingOk; hide FastOk; hide ParentHash; hide Unreplayed;
    InvParts(x, high);
    AcceptSecond(x, y, b);
    AcceptProposal(x.hi, y.hi, b, x.proposer, x.view, H2);
    ProposalFrame(x.lo, y.lo, x.proposer, x.view, H1);
    TallyFrame(x.lo, y.lo, x.proposer, x.view, H1, high);
    TallyFrame(x.hi, y.hi, x.proposer, x.view, H2, high);
    AcceptEnding(x.end, x.hi, y.hi, b, x.proposer, x.view);
  }

  lemma ProposeTask(x: Instance, y: Instance, b: Block, high: nat)
    requires Inv(x, high) && Pending(x, OnPropose(b)) && y == RunProposal(x, b)
    ensures Inv(y, high)
  {
    hide Inv; hide ParentHash; hide Accept;
    if b.height.H1? {
      FirstTask(x, y, b, high);
    } else if x.lo.hash != ParentHash(b) {
      ParkTask(x, y, b, high);
    } else {
      SecondTask(x, y, b, high);
    }
  }

  lemma ReplayTask(x: Instance, y: Instance, b: Block, high: nat)
    requires Inv(x, high) && Pending(x, Replay(b)) && y == RunReplay(x, b)
    ensures Inv(y, high)
  {
    hide ProposalOk; hide TallyOk; hide ParkedOk; hide EndingOk; hide FastOk; hide Unreplayed;
    InvParts(x, high);
    if b.height.H1? {
      ReplayFirst(x, y, b);
      PassedReplay(x.lo, y.lo, b, x.proposer, x.view, H1);
      ReplayProposal(x, y.hi);
      TallyFrame(x.lo, y.lo, x.proposer, x.view, H1, high);
      TallyFrame(x.hi, y.hi, x.proposer, x.view, H2, high);
      EndingSame(x.end, x.hi, y.hi, x.proposer, x.view);
    } else {
      ReplaySecond(x, y, b);
      PassedReplay(x.hi, y.hi, b, x.proposer, x.view, H2);
      TallyFrame(x.hi, y.hi, x.proposer, x.view, H2, high);
      ReplayEnding(x.end, y.end, x.hi, y.hi, x.proposer, x.view);
    }
  }

  lemma FinishVoteTask(x: Instance, y: Instance, b: Block, high: nat)
    requires Inv(x, high) && Pending(x, SendVote(b)) && y == x.With(b.height, FinishVote(x.At(b.height), b))
    ensures Inv(y, high)
  {
    hide ProposalOk; hide TallyOk; hide EndingOk; hide FastOk; hide ParkedOk;
    InvParts(x, high);
    FinishVoteProposal(x.At(b.height), y.At(b.height), b, x.proposer, x.view, b.height);
    TallyFrame(x.At(b.height), y.At(b.height), x.proposer, x.view, b.height, high);
    VoteParked(x, y, b);
    if b.height.H2? {
      hide Unreplayed;
      EndingSame(x.end, x.hi, y.hi, x.proposer, x.view);
    }
  }

  lemma VoteParked(x: Instance, y: Instance, b: Block)
    requires ParkedOk(x) && y == x.With(b.height, FinishVote(x.At(b.height), b))
    ensures ParkedOk(y)
  {
    hide Hash;
    assert Unreplayed(y.lo) == Unreplayed(x.lo);
  }

  lemma FinTask(x: Instance, y: Instance, fv: FinVote, high: nat)
    requires Inv(x, high) && fv in x.end.onFin && y == RunFin(x, fv)
    ensures Inv(y, high)
  {
    hide ProposalOk; hide TallyOk; hide ParkedOk; hide EndingOk; hide FastOk; hide Unreplayed;
    InvParts(x, high);
    DropFin(x.end, x.hi, fv, x.proposer, x.view);
    if x.hi.hash != fv.qc.hash {
      SetFinAside(x.end, y.end, x.hi, fv, x.proposer, x.view);
      ParkedFrame(x, y);
    } else {
      FollowFin(x.end, y.end, x.hi, y.hi, fv, x.proposer, x.view);
      ProposalFrame(x.hi, y.hi, x.proposer, x.view, H2);
      TallyFrame(x.hi, y.hi, x.proposer, x.view, H2, high);
      ParkedFrame(x, y);
    }
  }

  lemma SpeedTask(x: Instance, y: Instance, fv: FinVote, high: nat)
    requires Inv(x, high) && fv in x.end.sendSpeed && y == x.(end := FinishSpeed(x.end, fv))
    ensures Inv(y, high)
  {
    hide SlotOk; hide ParkedOk; hide EndingOk; hide FastOk;
    SpeedSent(x.end, y.end, x.hi, fv, x.proposer, x.view);
    ParkedFrame(x, y);
  }

  lemma CountTask(x: Instance, y: Instance, v: VoteMsg, high: nat)
    requires Inv(x, high) && Pending(x, CountVote(v)) && y == x.With(v.height, AddVote(x.At(v.height), v, x.view, high))
    ensures Inv(y, high)
  {
    hide Inv; hide ProposalOk; hide TallyOk; hide AddVote; hide SameProposal;
    InvParts(x, high);
    var s, s' := x.At(v.height), AddVote(x.At(v.height), v, x.view, high);
    CountOne(s, s', v, x.proposer, x.view, v.height, high);
    ProposalFrame(s, s', x.proposer, x.view, v.height);
    SlotTask(x, y, v.height, s', high);
  }

  lemma CertifyTask(x: Instance, y: Instance, q: BlockQc, high: nat)
    requires Inv(x, high) && Pending(x, Certify(q)) && y == x.With(q.height, FinishQc(x.At(q.height), q))
    ensures Inv(y, high)
  {
    hide Inv; hide ProposalOk; hide TallyOk; hide FinishQc; hide SameProposal;
    InvParts(x, high);
    var s, s' := x.At(q.height), FinishQc(x.At(q.height), q);
    UseQc(s, s', q, x.proposer, x.view, q.height, high);
    ProposalFrame(s, s', x.proposer, x.view, q.height);
    SlotTask(x, y, q.height, s', high);
  }

  lemma FastTask(x: Instance, y: Instance, high: nat)
    requires Inv(x, high) && y == x.(fast := y.fast) && FastOk(y.fast, x.proposer, x.view, high)
    ensures Inv(y, high)
  {
    hide SlotOk; hide ParkedOk; hide EndingOk; hide FastOk;
    ParkedFrame(x, y);
  }

  /** Every section keeps the invariant, whatever runs in between. */
  lemma RunKeeps(x: Instance, y: Instance, high: nat, t: Task)
    requires Inv(x, high) && Pending(x, t) && y == Run(x, high, t)
    ensures Inv(y, high) && y.proposer == x.proposer && y.view == x.view
  {
    hide Inv; hide RunProposal; hide RunReplay; hide RunFin; hide FinishVote; hide AddVote; hide FinishQc;
    hide FinishSpeed;
    hide AddSpeed; hide SetCert; hide FastOk;
    RunSame(x, y, high, t);
    match t {
      case OnPropose(b) => ProposeTask(x, y, b, high);
      case Replay(b) => ReplayTask(x, y, b, high);
      case SendVote(b) => FinishVoteTask(x, y, b, high);
      case OnFin(fv) => FinTask(x, y, fv, high);
      case SendSpeed(fv) => SpeedTask(x, y, fv, high);
      case CountVote(v) => CountTask(x, y, v, high);
      case Certify(q) => CertifyTask(x, y, q, high);
      case CountSpeed(sv) =>
        InvParts(x, high);
        AddSpeedKeeps(x.fast, y.fast, sv, x.proposer, x.view, high);
        FastTask(x, y, high);
      case StoreCert =>
        InvParts(x, high);
        SetCertKeeps(x.fast, y.fast, x.proposer, x.view, high);
        FastTask(x, y, high);
    }
  }

  lemma SetCertKeeps(f: Fast, g: Fast, proposer: NodeId, view: nat, high: nat)
    requires FastOk(f, proposer, view, high) && f.storeCert > 0 && g == SetCert(f)
    ensures FastOk(g, proposer, view, high)
  {
  }

  lemma RunSame(x: Instance, y: Instance, high: nat, t: Task)
    requires Pending(x, t) && y == Run(x, high, t)
    ensures y.proposer == x.proposer && y.view == x.view
  {
    hide FinishVote; hide AddVote; hide FinishQc; hide FinishSpeed; hide AddSpeed; hide SetCert; hide Accept;
    hide ParentHash;
    hide PassReplay; hide PutAside; hide Follow;
  }

  // ----- One delivery -----

  lemma DeliverProposal(x: Instance, y: Instance, high: nat, b: Block)
    requires Inv(x, high) && Deliverable(x, Proposal(b)) && y == Deliver(x, Proposal(b))
    ensures Inv(y, high)
  {
    hide ProposalOk; hide ParkedOk; hide TallyOk; hide EndingOk; hide FastOk; hide Hash; hide Unreplayed;
    InvParts(x, high);
    TallyFrame(x.At(b.height), y.At(b.height), x.proposer, x.view, b.height, high);
    ProposalArrives(x.At(b.height), y.At(b.height), b, x.proposer, x.view);
    if b.height.H1? {
      FirstArrives(x, y, b);
    } else {
      SecondArrives(x, y, b);
      EndingSame(x.end, x.hi, y.hi, x.proposer, x.view);
    }
  }

  lemma ProposalArrives(s: Slot, y: Slot, b: Block, proposer: NodeId, view: nat)
    requires ProposalOk(s, proposer, view, b.height) && s.proposal.None? && b.author == proposer && b.view == view
    requires y == s.(onPropose := s.onPropose + multiset{b}, proposal := Some(b))
    ensures ProposalOk(y, proposer, view, b.height) && Unreplayed(s) && Unreplayed(y) && s.hash == ZERO
  {
    hide Hash;
    assert s.onPropose[b] == 0;
  }

  lemma FirstArrives(x: Instance, y: Instance, b: Block)
    requires ParkedOk(x) && ProposalOk(x.lo, x.proposer, x.view, H1) && x.lo.proposal.None? && b.height.H1?
    requires y == Deliver(x, Proposal(b))
    ensures ParkedOk(y)
  {
    hide Hash;
  }

  lemma SecondArrives(x: Instance, y: Instance, b: Block)
    requires ParkedOk(x) && ProposalOk(x.hi, x.proposer, x.view, H2) && x.hi.proposal.None? && b.height.H2?
    requires b.qc.Some? && b.qc.value.hash != ZERO && y == Deliver(x, Proposal(b))
    ensures ParkedOk(y)
  {
    hide Hash;
    if x.unHandlePropose != [] { HasOne(x.unHandlePropose); }
    assert x.hi.onPropose[b] == 0 && Unreplayed(y.lo) == Unreplayed(x.lo);
  }

  lemma HasOne(s: seq<Block>)
    requires s != []
    ensures exists b :: b in s
  {
    assert s[0] in s;
  }

  lemma DeliverVote(x: Instance, y: Instance, high: nat, v: VoteMsg)
    requires Inv(x, high) && Deliverable(x, Vote(v)) && y == Deliver(x, Vote(v))
    ensures Inv(y, high)
  {
    hide Inv; hide TallyOk; hide ProposalOk; hide ParkedOk; hide EndingOk; hide FastOk;
    var s, s' := x.At(v.height), y.At(v.height);
    InvParts(x, high);
    VoteTally(s, s', v, x.proposer, x.view, high);
    ProposalFrame(s, s', x.proposer, x.view, v.height);
    SlotTask(x, y, v.height, s', high);
  }

  lemma VoteTally(s: Slot, y: Slot, v: VoteMsg, proposer: NodeId, view: nat, high: nat)
    requires TallyOk(s, proposer, view, v.height, high) && v.proposer == proposer && v.view == view && high >= 1
    requires forall u :: u in s.votes ==> u.hash == v.hash
    requires y == s.(countVote := s.countVote + multiset{v}, votes := s.votes + multiset{v})
    ensures TallyOk(y, proposer, view, v.height, high)
  {
    if |s.certify| > 0 {
      assert |s.counted| >= 1;
      var u :| u in s.counted;
      assert u in s.votes;
    }
  }

  lemma DeliverFin(x: Instance, y: Instance, high: nat, fv: FinVote)
    requires Inv(x, high) && Deliverable(x, Fin(fv)) && y == Deliver(x, Fin(fv))
    ensures Inv(y, high)
  {
    hide SlotOk; hide ParkedOk; hide FastOk;
    ParkedFrame(x, y);
  }

  lemma DeliverSpeed(x: Instance, y: Instance, high: nat, sv: SpeedVoteMsg)
    requires Inv(x, high) && y == Deliver(x, SpeedVote(sv))
    ensures Inv(y, high)
  {
    hide Inv; hide ProposalOk; hide TallyOk; hide ParkedOk; hide EndingOk;
    InvParts(x, high);
    FastTask(x, y, high);
  }

  lemma DeliverKeeps(x: Instance, y: Instance, high: nat, d: Delivery)
    requires Inv(x, high) && Deliverable(x, d) && y == Deliver(x, d)
    ensures Inv(y, high) && y.proposer == x.proposer && y.view == x.view
  {
    hide Inv; hide Deliverable;
    match d {
      case Proposal(b) => DeliverProposal(x, y, high, b);
      case Vote(v) => DeliverVote(x, y, high, v);
      case Fin(fv) => DeliverFin(x, y, high, fv);
      case SpeedVote(sv) => DeliverSpeed(x, y, high, sv);
    }
  }

  // ----- What is never taken back -----

  predicate SlotGrows(s: Slot, y: Slot) {
    && (s.proposal.Some? ==> y.proposal == s.proposal)
    && (s.hash != ZERO ==> y.hash == s.hash)
    && (s.qc.Some? ==> y.qc == s.qc)
    && (s.voted ==> y.voted) && (s.certified ==> y.certified)
  }

  predicate Grows(x: Instance, y: Instance) {
    && SlotGrows(x.lo, y.lo) && SlotGrows(x.hi, y.hi)
    && y.proposer == x.proposer && y.view == x.view
    && (x.end.fin.Some? ==> y.end.fin == x.end.fin) && (x.end.sped ==> y.end.sped)
    && (x.fast.isSpeedCert ==> y.fast.isSpeedCert)
  }

  lemma DeliverGrows(x: Instance, y: Instance, d: Delivery)
    requires Deliverable(x, d) && y == Deliver(x, d)
    ensures Grows(x, y)
  {
  }

  lemma ProposeGrows(x: Instance, y: Instance, b: Block, high: nat)
    requires Inv(x, high) && Pending(x, OnPropose(b)) && y == RunProposal(x, b)
    ensures Grows(x, y)
  {
    hide Inv; hide ProposalOk; hide TallyOk; hide EndingOk; hide FastOk; hide Hash; hide ParkedOk;
    AcceptProposalAt(x, b, high);
    if b.height.H2? {
      NoQcYet(x, high);
    }
  }

  lemma NoQcYet(x: Instance, high: nat)
    requires Inv(x, high) && x.hi.hash == ZERO
    ensures x.lo.qc.None?
  {
    hide ProposalOk; hide TallyOk; hide EndingOk; hide FastOk; hide Hash;
  }

  lemma AcceptProposalAt(x: Instance, b: Block, high: nat)
    requires Inv(x, high) && Pending(x, OnPropose(b))
    ensures x.At(b.height).hash == ZERO && x.At(b.height).proposal == Some(b)
  {
    InvParts(x, high);
    hide TallyOk; hide EndingOk; hide FastOk; hide ParkedOk; hide Hash;
  }

  lemma FinGrows(x: Instance, y: Instance, fv: FinVote, high: nat)
    requires Inv(x, high) && fv in x.end.onFin && y == RunFin(x, fv)
    ensures Grows(x, y)
  {
    hide Inv; hide ProposalOk; hide TallyOk; hide ParkedOk; hide FastOk; hide EndingOk; hide Hash;
    InvParts(x, high);
    PendingFin(x.end, x.hi, fv, x.proposer, x.view);
  }

  lemma PendingFin(e: Ending, s: Slot, fv: FinVote, proposer: NodeId, view: nat)
    requires EndingOk(e, s, proposer, view) && fv in e.onFin
    ensures s.qc.None?
  {
  }

  lemma OtherGrows(x: Instance, y: Instance, high: nat, t: Task)
    requires Pending(x, t) && !t.OnPropose? && !t.OnFin? && y == Run(x, high, t)
    ensures Grows(x, y)
  {
    hide Hash;
  }

  lemma RunGrows(x: Instance, y: Instance, high: nat, t: Task)
    requires Inv(x, high) && Pending(x, t) && y == Run(x, high, t)
    ensures Grows(x, y)
  {
    hide Inv; hide RunProposal; hide RunReplay; hide RunFin; hide FinishVote; hide AddVote; hide FinishQc;
    hide FinishSpeed;
    hide AddSpeed; hide SetCert; hide Grows;
    match t {
      case OnPropose(b) => ProposeGrows(x, y, b, high);
      case OnFin(fv) => FinGrows(x, y, fv, high);
      case _ => OtherGrows(x, y, high, t);
    }
  }
}
