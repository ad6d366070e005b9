/**
  Order independence of a broadcast instance: whatever order messages arrive in and however the
  pending sections interleave, once nothing is pending the outcome is a function of the messages.
 */
module SpbOrder {
  import opened Blocks
  import opened Spb
  import opened SpbInvariant

  datatype Action = Receive(d: Delivery) | Execute(t: Task)

  predicate Enabled(x: Instance, a: Action) {
    match a
    case Receive(d) => Deliverable(x, d)
    case Execute(t) => Pending(x, t)
  }

  function Apply(x: Instance, high: nat, a: Action): Instance
    requires Enabled(x, a)
  {
    match a
    case Receive(d) => Deliver(x, d)
    case Execute(t) => Run(x, high, t)
  }

  /** The actions lead from `x` to `y`. */
  ghost predicate Leads(x: Instance, high: nat, actions: seq<Action>, y: Instance) {
    if actions == [] then x == y
    else
      var k := |actions| - 1;
      exists z :: Leads(x, high, actions[..k], z) && Enabled(z, actions[k]) && y == Apply(z, high, actions[k])
  }

  /** The messages received along a run, in whatever order. */
  datatype Inbox = Inbox(proposals: multiset<Block>, votes: multiset<VoteMsg>, speedVotes: multiset<SpeedVoteMsg>)

  ghost function Put(i: Inbox, d: Delivery): Inbox {
    match d
    case Proposal(b) => i.(proposals := i.proposals + multiset{b})
    case Vote(v) => i.(votes := i.votes + multiset{v})
    case SpeedVote(sv) => i.(speedVotes := i.speedVotes + multiset{sv})
  }

  ghost function Received(actions: seq<Action>): Inbox {
    if actions == [] then Inbox(multiset{}, multiset{}, multiset{})
    else
      var k := |actions| - 1;
      if actions[k].Receive? then Put(Received(actions[..k]), actions[k].d) else Received(actions[..k])
  }

  /** No task is left to run. */
  ghost predicate Quiet(x: Instance) {
    forall t: Task :: !Pending(x, t)
  }

  // ----- The history of an instance is what its run received -----

  function Single(b: Option<Block>): multiset<Block> {
    if b.Some? then multiset{b.value} else multiset{}
  }

  ghost function History(x: Instance): Inbox {
    Inbox(Single(x.lo.proposal) + Single(x.hi.proposal), x.lo.votes + x.hi.votes, x.fast.speedVotes)
  }

  lemma ProposalRecords(x: Instance, y: Instance, b: Block)
    requires x.At(b.height).proposal.None? && y == Deliver(x, Proposal(b))
    ensures History(y) == Put(History(x), Proposal(b))
  {
    var c := y.At(b.height).proposal;
    assert c == Some(b);
    assert Single(c) == multiset{b};
    assert Single(x.At(b.height).proposal) == multiset{};
    hide Single;
    if b.height.H1? {
      assert y.hi == x.hi;
      assert Single(y.lo.proposal) + Single(y.hi.proposal) ==
        Single(x.lo.proposal) + Single(x.hi.proposal) + multiset{b};
    } else {
      assert y.lo == x.lo;
      assert Single(y.lo.proposal) + Single(y.hi.proposal) ==
        Single(x.lo.proposal) + Single(x.hi.proposal) + multiset{b};
    }
  }

  lemma VoteRecords(x: Instance, y: Instance, v: VoteMsg)
    requires y == Deliver(x, Vote(v))
    ensures History(y) == Put(History(x), Vote(v))
  {
    hide Single;
    if v.height.H1? {
      assert y.lo.votes + y.hi.votes == (x.lo.votes + x.hi.votes) + multiset{v};
    } else {
      assert y.lo.votes + y.hi.votes == (x.lo.votes + x.hi.votes) + multiset{v};
    }
  }

  lemma DeliverRecords(x: Instance, y: Instance, d: Delivery)
    requires Deliverable(x, d) && y == Deliver(x, d)
    ensures History(y) == Put(History(x), d)
    ensures y.variant == x.variant && y.proposer == x.proposer && y.view == x.view
  {
    match d
    case Proposal(b) => ProposalRecords(x, y, b); hide History;
    case Vote(v) => VoteRecords(x, y, v); hide History;
    case SpeedVote(sv) =>
  }

  /** What stays the same in a step. */
  predicate SameRecords(x: Instance, y: Instance) {
    && y.lo.proposal == x.lo.proposal && y.hi.proposal == x.hi.proposal
    && y.lo.votes == x.lo.votes && y.hi.votes == x.hi.votes && y.fast.speedVotes == x.fast.speedVotes
    && y.variant == x.variant && y.proposer == x.proposer && y.view == x.view
  }

  lemma ProposalRunFrame(x: Instance, y: Instance, high: nat, t: Task)
    requires Pending(x, t) && y == Run(x, high, t) && (t.OnPropose? || t.Replay?)
    ensures SameRecords(x, y)
  {
    hide Parks; hide Accept; hide ReplayVotes;
  }

  lemma SlotRunFrame(x: Instance, y: Instance, s: Slot, h: Height)
    requires y == x.With(h, s) && s.proposal == x.At(h).proposal && s.votes == x.At(h).votes
    ensures SameRecords(x, y)
  {
  }

  lemma RunFrame(x: Instance, y: Instance, high: nat, t: Task)
    requires Pending(x, t) && y == Run(x, high, t)
    ensures SameRecords(x, y)
  {
    hide Parks; hide ForUs; hide Accept; hide ReplayVotes; hide FinishVote; hide CheckVote; hide AddVote; hide SetQc;
    hide FinishQc;
    hide CheckSpeed; hide ReplaySpeedVotes; hide AddSpeed; hide SetCert; hide SameRecords;
    match t {
      case OnPropose(b) => ProposalRunFrame(x, y, high, t);
      case Replay(b) => ProposalRunFrame(x, y, high, t);
      case SendVote(b) => SlotRunFrame(x, y, FinishVote(x.At(b.height), b), b.height);
      case OnVote(v) => SlotRunFrame(x, y, CheckVote(x.At(v.height), v), v.height);
      case CountVote(v) => SlotRunFrame(x, y, AddVote(x.At(v.height), v, x.view, high), v.height);
      case StoreQc(qc) => SlotRunFrame(x, y, SetQc(x.At(qc.height), qc), qc.height);
      case Announce(qc) => AnnounceFrame(x, y, high, qc);
      case _ => FastRunFrame(x, y);
    }
  }

  lemma AnnounceFrame(x: Instance, y: Instance, high: nat, qc: BlockQc)
    requires Pending(x, Announce(qc)) && y == Run(x, high, Announce(qc))
    ensures SameRecords(x, y)
  {
    hide FinishQc;
  }

  lemma FastRunFrame(x: Instance, y: Instance)
    requires y == x.(fast := y.fast) && y.fast.speedVotes == x.fast.speedVotes
    ensures SameRecords(x, y)
  {
  }

  lemma RunRecords(x: Instance, y: Instance, high: nat, t: Task)
    requires Pending(x, t) && y == Run(x, high, t)
    ensures History(y) == History(x)
    ensures y.variant == x.variant && y.proposer == x.proposer && y.view == x.view
  {
    hide Run; hide Pending;
    RunFrame(x, y, high, t);
  }

  lemma {:induction false} RunInvariant(variant: Variant, proposer: NodeId, view: nat, high: nat, actions: seq<Action>,
                                        y: Instance)
    requires high >= 1 && Leads(Init(variant, proposer, view), high, actions, y)
    ensures Inv(y, high) && History(y) == Received(actions)
    ensures y.variant == variant && y.proposer == proposer && y.view == view
  {
    if actions == [] {
      InitKeeps(variant, proposer, view, high);
    } else {
      hide Inv; hide Deliver; hide Run; hide History; hide Pending; hide Deliverable; hide Init;
      var k := |actions| - 1;
      var x0 := Init(variant, proposer, view);
      var z :| Leads(x0, high, actions[..k], z) && Enabled(z, actions[k]) && y == Apply(z, high, actions[k]);
      RunInvariant(variant, proposer, view, high, actions[..k], z);
      match actions[k]
      case Receive(d) => DeliverKeeps(z, y, high, d); DeliverRecords(z, y, d);
      case Execute(t) => RunKeeps(z, y, high, t); RunRecords(z, y, high, t);
    }
  }

  // ----- The outcome -----

  /** The hash an instance ends with at each height, from the proposals alone. */
  function FinalHash(variant: Variant, lo: Option<Block>, hi: Option<Block>, h: Height): Digest {
    if h.H1? then
      if lo.Some? then Hash(lo.value) else ZERO
    else if hi.Some? && (variant.Dag? || (lo.Some? && Hash(lo.value) == ParentHash(hi.value))) then Hash(hi.value)
    else ZERO
  }

  /** One height has run to completion: the proposal was voted for once, exactly the votes for it
      were counted, each as often as it was received, and the certificate exists exactly when they
      are a quorum. */
  ghost predicate SlotDone(s: Slot, proposer: NodeId, view: nat, h: Height, high: nat, hash: Digest) {
    && s.hash == hash
    && (s.voted <==> hash != ZERO)
    && (forall v :: s.counted[v] == if hash != ZERO && v.hash == hash then s.votes[v] else 0)
    && s.voteNums == |s.counted|
    && s.qc == (if s.voteNums >= high then Some(BlockQc(view, h, proposer, hash)) else None)
    && (s.announced <==> s.qc.Some?)
  }

  ghost predicate FastDone(f: Fast, proposer: NodeId, view: nat, certified: bool, high: nat) {
    && (forall sv: SpeedVoteMsg ::
          f.counted[sv] == if certified && sv.proposer == proposer && sv.view == view then f.speedVotes[sv] else 0)
    && f.speedVoteNums == |f.counted|
    && (f.isSpeedCert <==> f.speedVoteNums >= high)
  }

  lemma QuietVotes(s: Slot, proposer: NodeId, view: nat, h: Height)
    requires VotesConserved(s) && VotesKnown(s, proposer, view, h) && s.onVote == multiset{}
    requires s.countVote == multiset{}
    requires s.hash != ZERO ==> !Unreplayed(s)
    ensures forall v :: s.counted[v] == if s.hash != ZERO && v.hash == s.hash then s.votes[v] else 0
  {
  }

  lemma QuietProposal(x: Instance, b: Block)
    requires Quiet(x)
    ensures b !in x.At(b.height).onPropose && b !in x.At(b.height).replay && b !in x.At(b.height).sendVote
  {
    assert !Pending(x, OnPropose(b)) && !Pending(x, Replay(b)) && !Pending(x, SendVote(b));
  }

  lemma QuietVote(x: Instance, v: VoteMsg)
    requires Quiet(x)
    ensures v !in x.At(v.height).onVote && v !in x.At(v.height).countVote
  {
    assert !Pending(x, OnVote(v)) && !Pending(x, CountVote(v));
  }

  lemma QuietQc(x: Instance, qc: BlockQc)
    requires Quiet(x)
    ensures qc !in x.At(qc.height).storeQc && qc !in x.At(qc.height).announce
  {
    assert !Pending(x, StoreQc(qc)) && !Pending(x, Announce(qc));
  }

  lemma NoVoteTasks(x: Instance, s: Slot, h: Height)
    requires Quiet(x) && s == x.At(h) && VotesKnown(s, x.proposer, x.view, h)
    ensures s.onVote == multiset{} && s.countVote == multiset{}
  {
    hide Quiet;
    forall v ensures v !in s.onVote && v !in s.countVote {
      QuietVote(x, v);
    }
  }

  lemma QuietVoted(x: Instance, s: Slot, h: Height)
    requires ProposalOk(s, x.proposer, x.view, h) && Quiet(x) && x.At(h) == s
    ensures (s.voted <==> s.hash != ZERO) && (s.hash != ZERO ==> !Unreplayed(s))
  {
    hide Quiet;
    if s.proposal.Some? {
      QuietProposal(x, s.proposal.value);
    }
  }

  lemma QuietCert(x: Instance, s: Slot, h: Height, high: nat)
    requires QcOk(s, x.proposer, x.view, h, high) && Quiet(x) && x.At(h) == s
    ensures s.qc == (if s.voteNums >= high then Some(BlockQc(x.view, h, x.proposer, s.hash)) else None)
    ensures s.announced <==> s.qc.Some?
  {
    hide Quiet;
    QuietQc(x, BlockQc(x.view, h, x.proposer, s.hash));
  }

  lemma QuietSlot(x: Instance, s: Slot, h: Height, high: nat)
    requires SlotOk(s, x.proposer, x.view, h, high) && Quiet(x) && x.At(h) == s
    ensures SlotDone(s, x.proposer, x.view, h, high, s.hash)
  {
    hide ProposalOk; hide VotesConserved; hide Quiet; hide VotesKnown; hide QcOk;
    NoVoteTasks(x, s, h);
    QuietVoted(x, s, h);
    QuietVotes(s, x.proposer, x.view, h);
    QuietCert(x, s, h, high);
    KnownNums(s, x.proposer, x.view, h);
  }

  lemma KnownNums(s: Slot, proposer: NodeId, view: nat, h: Height)
    requires VotesKnown(s, proposer, view, h)
    ensures s.voteNums == |s.counted|
  {
  }

  lemma QuietFast(x: Instance, high: nat)
    requires Inv(x, high) && Quiet(x) && (x.hi.announced <==> x.hi.qc.Some?)
    ensures FastDone(x.fast, x.proposer, x.view, x.hi.qc.Some?, high)
  {
    hide SlotOk; hide ParkedOk;
    var f := x.fast;
    assert !Pending(x, ReplaySpeed) && !Pending(x, StoreCert);
    forall sv: SpeedVoteMsg
      ensures f.counted[sv] == if x.hi.qc.Some? && sv.proposer == x.proposer && sv.view == x.view then f.speedVotes[sv]
        else 0
    {
      assert !Pending(x, OnSpeed(sv)) && !Pending(x, CountSpeed(sv));
    }
  }

  lemma QuietLo(x: Instance)
    requires ProposalOk(x.lo, x.proposer, x.view, H1) && ParkedOk(x) && Quiet(x)
    ensures x.lo.hash == (if x.lo.proposal.Some? then Hash(x.lo.proposal.value) else ZERO)
    ensures x.lo.hash != ZERO ==> !Unreplayed(x.lo)
  {
    hide Quiet;
    if x.lo.proposal.Some? { QuietProposal(x, x.lo.proposal.value); }
  }

  lemma QuietHi(x: Instance)
    requires ProposalOk(x.hi, x.proposer, x.view, H2) && ParkedOk(x) && Quiet(x)
    requires x.lo.hash != ZERO ==> !Unreplayed(x.lo)
    ensures x.hi.hash == if x.hi.proposal.Some? && (x.variant.Dag? || x.lo.hash == ParentHash(x.hi.proposal.value))
                         then Hash(x.hi.proposal.value) else ZERO
  {
    hide Quiet;
    if x.hi.proposal.Some? { QuietProposal(x, x.hi.proposal.value); }
  }

  lemma QuietHash(x: Instance, high: nat, h: Height)
    requires Inv(x, high) && Quiet(x)
    ensures x.At(h).hash == FinalHash(x.variant, x.lo.proposal, x.hi.proposal, h)
  {
    SlotParts(x, high);
    hide Quiet; hide SlotOk; hide FastOk; hide ProposalOk;
    QuietLo(x);
    QuietHi(x);
  }

  /** Every quiet state an instance can reach is the completed one, whatever the interleaving. */
  lemma QuietIsDone(variant: Variant, proposer: NodeId, view: nat, high: nat, actions: seq<Action>, x: Instance)
    requires high >= 1 && Leads(Init(variant, proposer, view), high, actions, x) && Quiet(x)
    ensures SlotDone(x.lo, proposer, view, H1, high, FinalHash(variant, x.lo.proposal, x.hi.proposal, H1))
    ensures SlotDone(x.hi, proposer, view, H2, high, FinalHash(variant, x.lo.proposal, x.hi.proposal, H2))
    ensures FastDone(x.fast, proposer, view, x.hi.qc.Some?, high)
    ensures x.preQc == if x.lo.proposal.Some? then x.lo.proposal.value.qc else None
  {
    RunInvariant(variant, proposer, view, high, actions, x);
    QuietHash(x, high, H1);
    QuietHash(x, high, H2);
    hide SlotOk; hide FastOk;
    QuietSlot(x, x.lo, H1, high);
    QuietSlot(x, x.hi, H2, high);
    QuietFast(x, high);
  }

  /** What the core can observe of an instance. */
  predicate SameOutcome(x: Instance, y: Instance) {
    && x.lo.hash == y.lo.hash && x.hi.hash == y.hi.hash
    && x.lo.qc == y.lo.qc && x.hi.qc == y.hi.qc
    && x.lo.voteNums == y.lo.voteNums && x.hi.voteNums == y.hi.voteNums
    && x.lo.voted == y.lo.voted && x.hi.voted == y.hi.voted
    && x.lo.announced == y.lo.announced && x.hi.announced == y.hi.announced
    && x.fast.speedVoteNums == y.fast.speedVoteNums && x.fast.isSpeedCert == y.fast.isSpeedCert
    && x.preQc == y.preQc
  }

  lemma SameHistory(x: Instance, y: Instance, high: nat)
    requires History(x) == History(y) && Inv(x, high) && Inv(y, high)
    ensures x.lo.proposal == y.lo.proposal && x.hi.proposal == y.hi.proposal
    ensures x.lo.votes == y.lo.votes && x.hi.votes == y.hi.votes && x.fast.speedVotes == y.fast.speedVotes
  {
    KnownHeights(x, high);
    KnownHeights(y, high);
    hide Inv;
    SameVotes(x.lo.votes, x.hi.votes, y.lo.votes, y.hi.votes);
    SameProposals(x.lo.proposal, x.hi.proposal, y.lo.proposal, y.hi.proposal);
  }

  lemma KnownHeights(x: Instance, high: nat)
    requires Inv(x, high)
    ensures forall v :: v in x.lo.votes ==> v.height == H1
    ensures forall v :: v in x.hi.votes ==> v.height == H2
    ensures x.lo.proposal.Some? ==> x.lo.proposal.value.height == H1
    ensures x.hi.proposal.Some? ==> x.hi.proposal.value.height == H2
  {
    hide VotesConserved; hide QcOk; hide FastOk; hide ParkedOk;
  }

  lemma SameVotes(a: multiset<VoteMsg>, b: multiset<VoteMsg>, c: multiset<VoteMsg>, d: multiset<VoteMsg>)
    requires a + b == c + d
    requires forall v :: v in a || v in c ==> v.height == H1
    requires forall v :: v in b || v in d ==> v.height == H2
    ensures a == c && b == d
  {
    forall v ensures a[v] == c[v] && b[v] == d[v] {
      assert (a + b)[v] == (c + d)[v];
    }
  }

  lemma SameProposals(a: Option<Block>, b: Option<Block>, c: Option<Block>, d: Option<Block>)
    requires Single(a) + Single(b) == Single(c) + Single(d)
    requires a.Some? ==> a.value.height == H1
    requires c.Some? ==> c.value.height == H1
    requires b.Some? ==> b.value.height == H2
    requires d.Some? ==> d.value.height == H2
    ensures a == c && b == d
  {
    forall x: Option<Block> | x.Some? ensures x.value in Single(x) { }
    assert a.Some? ==> a.value in Single(c) + Single(d);
    assert b.Some? ==> b.value in Single(c) + Single(d);
    assert c.Some? ==> c.value in Single(a) + Single(b);
    assert d.Some? ==> d.value in Single(a) + Single(b);
  }

  lemma SameCounts(s: Slot, t: Slot, proposer: NodeId, view: nat, h: Height, high: nat, hash: Digest)
    requires SlotDone(s, proposer, view, h, high, hash) && SlotDone(t, proposer, view, h, high, hash)
    requires s.votes == t.votes
    ensures s.hash == t.hash && s.qc == t.qc && s.voteNums == t.voteNums && s.voted == t.voted
    ensures s.announced == t.announced
  {
    assert s.counted == t.counted;
  }

  lemma SameFast(f: Fast, g: Fast, proposer: NodeId, view: nat, certified: bool, high: nat)
    requires FastDone(f, proposer, view, certified, high) && FastDone(g, proposer, view, certified, high)
    requires f.speedVotes == g.speedVotes
    ensures f.speedVoteNums == g.speedVoteNums && f.isSpeedCert == g.isSpeedCert
  {
    assert f.counted == g.counted;
  }

  /** Order independence: two runs that received the same messages, in any order and under any
      interleaving of sections and replays, end with the same outcome. */
  lemma OrderIndependence(variant: Variant, proposer: NodeId, view: nat, high: nat,
                          xs: seq<Action>, ys: seq<Action>, x: Instance, y: Instance)
    requires high >= 1 && Received(xs) == Received(ys)
    requires Leads(Init(variant, proposer, view), high, xs, x) && Quiet(x)
    requires Leads(Init(variant, proposer, view), high, ys, y) && Quiet(y)
    ensures SameOutcome(x, y)
  {
    hide Inv; hide History; hide Quiet; hide Leads; hide SlotDone; hide FastDone;
    RunInvariant(variant, proposer, view, high, xs, x);
    RunInvariant(variant, proposer, view, high, ys, y);
    SameHistory(x, y, high);
    QuietIsDone(variant, proposer, view, high, xs, x);
    QuietIsDone(variant, proposer, view, high, ys, y);
    SameCounts(x.lo, y.lo, proposer, view, H1, high, FinalHash(variant, x.lo.proposal, x.hi.proposal, H1));
    SameCounts(x.hi, y.hi, proposer, view, H2, high, FinalHash(variant, x.lo.proposal, x.hi.proposal, H2));
    SameFast(x.fast, y.fast, proposer, view, x.hi.qc.Some?, high);
  }
}
