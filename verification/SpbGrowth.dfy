/** What an instance never takes back, and what its certificates stand for. */
module SpbGrowth {
  import opened Blocks
  import opened Spb
  import opened SpbInvariant

  predicate SlotGrows(s: Slot, y: Slot) {
    && (s.proposal.Some? ==> y.proposal == s.proposal)
    && (s.qc.Some? ==> y.qc == s.qc)
    && (s.voted ==> y.voted)
    && (s.announced ==> y.announced)
  }

  predicate Grows(x: Instance, y: Instance) {
    && SlotGrows(x.lo, y.lo) && SlotGrows(x.hi, y.hi)
    && y.variant == x.variant && y.proposer == x.proposer && y.view == x.view
    && (x.fast.isSpeedCert ==> y.fast.isSpeedCert)
  }

  lemma DeliverGrows(x: Instance, y: Instance, d: Delivery)
    requires Deliverable(x, d) && y == Deliver(x, d)
    ensures Grows(x, y)
  {
  }

  lemma SetQcGrows(s: Slot, y: Slot, qc: BlockQc, proposer: NodeId, view: nat, h: Height, high: nat)
    requires QcOk(s, proposer, view, h, high) && qc in s.storeQc && y == SetQc(s, qc)
    ensures SlotGrows(s, y)
  {
  }

  lemma QcOfInv(x: Instance, h: Height, high: nat)
    requires Inv(x, high)
    ensures QcOk(x.At(h), x.proposer, x.view, h, high)
  {
    hide ProposalOk; hide VotesConserved; hide VotesKnown; hide FastOk; hide ParkedOk; hide QcOk;
  }

  lemma StoreTaskGrows(x: Instance, y: Instance, s: Slot, h: Height)
    requires y == x.With(h, s) && SlotGrows(x.At(h), s)
    ensures Grows(x, y)
  {
  }

  lemma RunGrows(x: Instance, y: Instance, high: nat, t: Task)
    requires Inv(x, high) && Pending(x, t) && y == Run(x, high, t)
    ensures Grows(x, y)
  {
    hide Inv; hide Run; hide Pending; hide Grows;
    if t.StoreQc? {
      StoreQcGrows(x, y, high, t.qc);
    } else {
      RunGrowsSimply(x, y, high, t);
    }
  }

  lemma StoreQcGrows(x: Instance, y: Instance, high: nat, qc: BlockQc)
    requires Inv(x, high) && Pending(x, StoreQc(qc)) && y == Run(x, high, StoreQc(qc))
    ensures Grows(x, y)
  {
    hide Inv; hide SetQc; hide Grows; hide SlotGrows; hide QcOk;
    QcOfInv(x, qc.height, high);
    SetQcGrows(x.At(qc.height), SetQc(x.At(qc.height), qc), qc, x.proposer, x.view, qc.height, high);
    StoreTaskGrows(x, y, SetQc(x.At(qc.height), qc), qc.height);
  }

  lemma SlotTaskGrows(x: Instance, y: Instance, s: Slot, h: Height)
    requires y == x.With(h, s) && Keeps(x.At(h), s) && s.qc == x.At(h).qc
    ensures Grows(x, y)
  {
  }

  lemma ProposalTaskGrows(x: Instance, y: Instance, high: nat, t: Task)
    requires Pending(x, t) && (t.OnPropose? || t.Replay? || t.Announce?) && y == Run(x, high, t)
    ensures Grows(x, y)
  {
    hide Parks; hide Accept; hide ReplayVotes; hide FinishQc;
  }

  lemma FastTaskGrows(x: Instance, y: Instance)
    requires y == x.(fast := y.fast) && (x.fast.isSpeedCert ==> y.fast.isSpeedCert)
    ensures Grows(x, y)
  {
  }

  lemma RunGrowsSimply(x: Instance, y: Instance, high: nat, t: Task)
    requires Pending(x, t) && !t.StoreQc? && y == Run(x, high, t)
    ensures Grows(x, y)
  {
    hide Parks; hide ForUs; hide Accept; hide ReplayVotes; hide FinishVote; hide CheckVote; hide AddVote; hide SetQc;
    hide FinishQc;
    hide CheckSpeed; hide ReplaySpeedVotes; hide AddSpeed; hide SetCert; hide Grows; hide Keeps;
    match t {
      case OnPropose(b) => ProposalTaskGrows(x, y, high, t);
      case Replay(b) => ProposalTaskGrows(x, y, high, t);
      case Announce(qc) => ProposalTaskGrows(x, y, high, t);
      case SendVote(b) => SlotTaskGrows(x, y, FinishVote(x.At(b.height), b), b.height);
      case OnVote(v) => SlotTaskGrows(x, y, CheckVote(x.At(v.height), v), v.height);
      case CountVote(v) => SlotTaskGrows(x, y, AddVote(x.At(v.height), v, x.view, high), v.height);
      case _ => FastTaskGrows(x, y);
    }
  }

  // ----- What a certificate stands for -----

  /** Some votes of the slot, `high` of them, all for the block the slot has accepted. */
  lemma QcMeans(x: Instance, s: Slot, h: Height, high: nat)
    requires Inv(x, high) && s == x.At(h) && s.qc.Some?
    ensures s.proposal.Some? && s.proposal.value.height == h && s.hash == Hash(s.proposal.value)
    ensures s.proposal.value.author == x.proposer && s.proposal.value.view == x.view
    ensures s.qc.value == BlockQc(x.view, h, x.proposer, s.hash)
    ensures |s.counted| >= high
    ensures forall v :: v in s.counted ==> v == VoteFor(v.author, s.proposal.value)
    ensures forall v :: s.counted[v] <= s.votes[v]
  {
    assert SlotOk(s, x.proposer, x.view, h, high);
    hide Inv;
    SlotQcMeans(s, x.proposer, x.view, h, high);
  }

  lemma SlotQcMeans(s: Slot, proposer: NodeId, view: nat, h: Height, high: nat)
    requires SlotOk(s, proposer, view, h, high) && s.qc.Some? && high >= 1
    ensures s.proposal.Some? && s.proposal.value.height == h && s.hash == Hash(s.proposal.value)
    ensures s.proposal.value.author == proposer && s.proposal.value.view == view
    ensures s.qc.value == BlockQc(view, h, proposer, s.hash)
    ensures |s.counted| >= high
    ensures forall v :: v in s.counted ==> v == VoteFor(v.author, s.proposal.value)
    ensures forall v :: s.counted[v] <= s.votes[v]
  {
    assert s.voteNums >= high && s.hash != ZERO;
    CountedMeans(s, proposer, view, h);
    hide VotesConserved; hide VotesKnown;
  }

  lemma CountedMeans(s: Slot, proposer: NodeId, view: nat, h: Height)
    requires VotesConserved(s) && VotesKnown(s, proposer, view, h) && s.hash != ZERO
    ensures forall v :: v in s.counted ==> v.hash == s.hash && v.proposer == proposer && v.view == view && v.height == h
    ensures forall v :: s.counted[v] <= s.votes[v]
    ensures |s.counted| == s.voteNums
  {
    forall v ensures s.counted[v] <= s.votes[v] {
      if v.hash == s.hash { assert s.votes[v] == Copies(s, v); }
    }
  }

  /** Only speed votes received for this instance are counted. */
  lemma SpeedCounted(x: Instance, high: nat)
    requires Inv(x, high)
    ensures forall sv :: sv in x.fast.counted ==> sv.proposer == x.proposer && sv.view == x.view
    ensures forall sv :: x.fast.counted[sv] <= x.fast.speedVotes[sv]
  {
    hide SlotOk; hide ParkedOk;
    forall sv ensures x.fast.counted[sv] <= x.fast.speedVotes[sv] {
      if sv.proposer == x.proposer && sv.view == x.view {
        assert x.fast.speedVotes[sv] == SpeedCopies(x.fast, sv, x.hi.announced);
      }
    }
  }

  /** The speed certificate is raised by `high` speed votes, after the height-2 certificate. */
  lemma SpeedCertMeans(x: Instance, high: nat)
    requires Inv(x, high) && x.fast.isSpeedCert
    ensures x.hi.qc.Some? && |x.fast.counted| >= high
    ensures forall sv :: sv in x.fast.counted ==> sv.proposer == x.proposer && sv.view == x.view
    ensures forall sv :: x.fast.counted[sv] <= x.fast.speedVotes[sv]
  {
    hide SlotOk; hide ParkedOk;
    SpeedCounted(x, high);
  }
}
