/**
  Order independence of a lean instance: whatever order proposals, votes, the final vote and speed votes arrive
  in and however the pending sections interleave, once nothing is pending the outcome is a function of the
  messages.
 */
module LeanConfluence {
  import opened Blocks
  import opened LeanSpb
  import opened LeanConservation

  datatype Action = Receive(d: Delivery) | Execute(t: Task)

  ghost predicate Enabled(x: Instance, a: Action) {
    match a
    case Receive(d) => Deliverable(x, d)
    case Execute(t) => Pending(x, t)
  }

  ghost function Apply(x: Instance, high: nat, a: Action): Instance
    requires Enabled(x, a)
  {
    match a
    case Receive(d) => Deliver(x, d)
    case Execute(t) => Run(x, high, t)
  }

  /** The actions lead from `x` to `y`. */
  ghost predicate Leads(x: Instance, high: nat, actions: seq<Action>, y: Instance) {
    if actions == [] then x == y
    else
      var k := |actions| - 1;
      exists z :: Leads(x, high, actions[..k], z) && Enabled(z, actions[k]) && y == Apply(z, high, actions[k])
  }

  /** The messages received along a run, in whatever order. */
  datatype Inbox = Inbox(first: multiset<Block>, second: multiset<Block>, firstVotes: multiset<VoteMsg>,
                         secondVotes: multiset<VoteMsg>, fins: multiset<FinVote>, speedVotes: multiset<SpeedVoteMsg>)

  ghost function Put(i: Inbox, d: Delivery): Inbox {
    match d
    case Proposal(b) =>
      if b.height.H1? then i.(first := i.first + multiset{b}) else i.(second := i.second + multiset{b})
    case Vote(v) =>
      if v.height.H1? then i.(firstVotes := i.firstVotes + multiset{v})
      else i.(secondVotes := i.secondVotes + multiset{v})
    case Fin(fv) => i.(fins := i.fins + multiset{fv})
    case SpeedVote(sv) => i.(speedVotes := i.speedVotes + multiset{sv})
  }

  ghost function Received(actions: seq<Action>): Inbox {
    if actions == [] then Inbox(multiset{}, multiset{}, multiset{}, multiset{}, multiset{}, multiset{})
    else
      var k := |actions| - 1;
      if actions[k].Receive? then Put(Received(actions[..k]), actions[k].d) else Received(actions[..k])
  }

  /** No task is left to run. */
  ghost predicate Quiet(x: Instance) {
    forall t: Task :: !Pending(x, t)
  }

  // ----- The history of an instance is what its run received -----

  function Single<T>(b: Option<T>): multiset<T> {
    if b.Some? then multiset{b.value} else multiset{}
  }

  lemma SameSingle<T>(a: Option<T>, b: Option<T>)
    requires Single(a) == Single(b)
    ensures a == b
  {
    assert |Single(a)| == |Single(b)|;
    if a.Some? {
      assert a.value in Single(b);
    }
  }

  ghost function History(x: Instance): Inbox {
    Inbox(Single(x.lo.proposal), Single(x.hi.proposal), x.lo.votes, x.hi.votes, Single(x.end.fin), x.fast.speedVotes)
  }

  lemma DeliverRecords(x: Instance, y: Instance, d: Delivery)
    requires Deliverable(x, d) && y == Deliver(x, d)
    ensures History(y) == Put(History(x), d)
  {
    hide Single;
    match d {
      case Proposal(b) => SingleAdd(x.At(b.height).proposal, b);
      case Vote(v) =>
      case Fin(fv) => SingleAdd(x.end.fin, fv);
      case SpeedVote(sv) =>
    }
  }

  lemma SingleAdd<T>(a: Option<T>, t: T)
    requires a.None?
    ensures Single(Some(t)) == Single(a) + multiset{t}
  {
  }

  /** What a section leaves alone. */
  predicate SameRecords(x: Instance, y: Instance) {
    && y.lo.proposal == x.lo.proposal && y.hi.proposal == x.hi.proposal
    && y.lo.votes == x.lo.votes && y.hi.votes == x.hi.votes
    && y.end.fin == x.end.fin && y.fast.speedVotes == x.fast.speedVotes
  }

  lemma RunFrame(x: Instance, y: Instance, high: nat, t: Task)
    requires Pending(x, t) && y == Run(x, high, t)
    ensures SameRecords(x, y)
  {
    hide RunProposal; hide RunReplay; hide RunFin;
    match t {
      case OnPropose(b) => ProposalRecords(x, b);
      case Replay(b) => ReplayRecords(x, b);
      case OnFin(fv) => FinRecords(x, fv);
      case _ =>
    }
  }

  lemma ProposalRecords(x: Instance, b: Block)
    ensures SameRecords(x, RunProposal(x, b))
  {
    hide Hash; hide ParentHash;
  }

  lemma ReplayRecords(x: Instance, b: Block)
    ensures SameRecords(x, RunReplay(x, b))
  {
  }

  lemma FinRecords(x: Instance, fv: FinVote)
    ensures SameRecords(x, RunFin(x, fv))
  {
  }

  lemma {:induction false} RunInvariant(proposer: NodeId, view: nat, high: nat, actions: seq<Action>, y: Instance)
    requires high >= 1 && Leads(Init(proposer, view), high, actions, y)
    ensures Inv(y, high) && History(y) == Received(actions) && y.proposer == proposer && y.view == view
  {
    if actions == [] {
      InitKeeps(proposer, view, high);
    } else {
      hide Inv; hide Deliver; hide Run; hide Pending; hide Deliverable; hide Init; hide Single;
      var k := |actions| - 1;
      var x0 := Init(proposer, view);
      var z :| Leads(x0, high, actions[..k], z) && Enabled(z, actions[k]) && y == Apply(z, high, actions[k]);
      RunInvariant(proposer, view, high, actions[..k], z);
      match actions[k]
      case Receive(d) => DeliverKeeps(z, y, high, d); DeliverRecords(z, y, d);
      case Execute(t) => RunKeeps(z, y, high, t); RunFrame(z, y, high, t);
    }
  }

  /** In every reachable state of an instance the height-2 hash is set if and only if the height-1 certificate is,
      and a height-2 certificate comes with a height-1 certificate. */
  lemma HashAndCertificate(proposer: NodeId, view: nat, high: nat, actions: seq<Action>, y: Instance)
    requires high >= 1 && Leads(Init(proposer, view), high, actions, y)
    ensures y.hi.hash != ZERO <==> y.lo.qc.Some?
    ensures y.hi.qc.Some? ==> y.lo.qc.Some?
  {
    RunInvariant(proposer, view, high, actions, y);
    hide Leads; hide Hash;
  }

  // ----- The outcome -----

  /** The height-2 proposal is accepted if it builds on the accepted height-1 proposal. */
  function FinalHash(lo: Option<Block>, hi: Option<Block>, h: Height): Digest {
    if h.H1? then
      if lo.Some? then Hash(lo.value) else ZERO
    else if hi.Some? && lo.Some? && Hash(lo.value) == ParentHash(hi.value) then Hash(hi.value)
    else ZERO
  }

  /** One height has run to completion: the proposal was voted for once, every vote was counted once, and the
      certificate was used exactly when the votes are a quorum. */
  ghost predicate SlotDone(s: Slot, high: nat, hash: Digest) {
    && s.hash == hash && (s.voted <==> hash != ZERO)
    && s.counted == s.votes && s.voteNums == |s.votes| && (s.certified <==> |s.votes| >= high)
  }

  /** The certificates an instance ends with come from the accepted height-2 proposal and from a final vote for
      it, which is answered by one speed vote. */
  ghost predicate CertsDone(x: Instance) {
    && x.preQc == (if x.lo.proposal.Some? then x.lo.proposal.value.qc else None)
    && x.lo.qc == (if x.hi.hash != ZERO && x.hi.proposal.Some? then x.hi.proposal.value.qc else None)
    && x.hi.qc == (if x.end.fin.Some? && x.end.fin.value.qc.hash == x.hi.hash then Some(x.end.fin.value.qc) else None)
    && (x.end.sped <==> x.hi.qc.Some?)
  }

  ghost predicate FastDone(f: Fast, proposer: NodeId, view: nat, high: nat) {
    && (forall sv: SpeedVoteMsg ::
          f.counted[sv] == if sv.proposer == proposer && sv.view == view then f.speedVotes[sv] else 0)
    && f.speedVoteNums == |f.counted|
    && (f.isSpeedCert <==> f.speedVoteNums >= high)
  }

  lemma QuietProposal(x: Instance, b: Block)
    requires Quiet(x)
    ensures b !in x.At(b.height).onPropose && b !in x.At(b.height).replay && b !in x.At(b.height).sendVote
  {
    assert !Pending(x, OnPropose(b)) && !Pending(x, Replay(b)) && !Pending(x, SendVote(b));
  }

  lemma QuietSlot(x: Instance, s: Slot, h: Height)
    requires ProposalOk(s, x.proposer, x.view, h) && Quiet(x) && x.At(h) == s
    ensures (s.voted <==> s.hash != ZERO) && (s.hash != ZERO ==> !Unreplayed(s))
    ensures s.proposal.Some? ==> s.onPropose[s.proposal.value] == 0
  {
    hide Quiet; hide Hash;
    if s.proposal.Some? {
      QuietProposal(x, s.proposal.value);
    }
  }

  lemma QuietTally(x: Instance, s: Slot, h: Height, high: nat)
    requires TallyOk(s, x.proposer, x.view, h, high) && Quiet(x) && x.At(h) == s && high >= 1
    ensures s.counted == s.votes && s.voteNums == |s.votes| && (s.certified <==> |s.votes| >= high)
  {
    forall v ensures s.countVote[v] == 0 {
      assert !Pending(x, CountVote(v));
      assert v in s.countVote ==> v in s.votes;
    }
    assert s.counted == s.votes;
    hide Quiet;
    if |s.certify| > 0 {
      assert |s.votes| > 0;
      var v :| v in s.votes;
      var q :| q in s.certify;
      assert q.height == h;
      NoCertify(x, q);
    }
  }

  lemma NoCertify(x: Instance, q: BlockQc)
    requires Quiet(x)
    ensures q !in x.At(q.height).certify
  {
    assert !Pending(x, Certify(q));
  }

  lemma QuietHashes(x: Instance, high: nat)
    requires Inv(x, high) && Quiet(x)
    ensures x.lo.hash == FinalHash(x.lo.proposal, x.hi.proposal, H1)
    ensures x.hi.hash == FinalHash(x.lo.proposal, x.hi.proposal, H2)
    ensures x.preQc == (if x.lo.proposal.Some? then x.lo.proposal.value.qc else None)
  {
    InvParts(x, high);
    QuietSlot(x, x.lo, H1);
    QuietSlot(x, x.hi, H2);
    hide Inv; hide Quiet; hide TallyOk; hide EndingOk; hide FastOk;
  }

  lemma QuietEnding(x: Instance, high: nat)
    requires Inv(x, high) && Quiet(x) && (x.hi.hash != ZERO ==> !Unreplayed(x.hi))
    ensures x.hi.qc == (if x.end.fin.Some? && x.end.fin.value.qc.hash == x.hi.hash then Some(x.end.fin.value.qc)
      else None)
    ensures x.end.sped <==> x.hi.qc.Some?
  {
    hide Inv; hide TallyOk; hide ParkedOk; hide ProposalOk; hide FastOk; hide EndingOk; hide Unreplayed;
    InvParts(x, high);
    if x.end.fin.Some? {
      var f := x.end.fin.value;
      assert !Pending(x, OnFin(f)) && !Pending(x, SendSpeed(f));
    }
    EndingDone(x.end, x.hi, x.proposer, x.view);
  }

  lemma EndingDone(e: Ending, s: Slot, proposer: NodeId, view: nat)
    requires EndingOk(e, s, proposer, view) && (s.hash != ZERO ==> !Unreplayed(s))
    requires e.fin.Some? ==> e.fin.value !in e.onFin && e.fin.value !in e.sendSpeed
    ensures s.qc == (if e.fin.Some? && e.fin.value.qc.hash == s.hash then Some(e.fin.value.qc) else None)
    ensures e.sped <==> s.qc.Some?
  {
  }

  lemma QuietFast(x: Instance, high: nat)
    requires Inv(x, high) && Quiet(x)
    ensures FastDone(x.fast, x.proposer, x.view, high)
  {
    hide Inv; hide TallyOk; hide ParkedOk; hide ProposalOk; hide EndingOk; hide FastOk; hide FastDone;
    InvParts(x, high);
    assert !Pending(x, StoreCert);
    forall sv ensures sv !in x.fast.countSpeed {
      assert !Pending(x, CountSpeed(sv));
    }
    NothingToCount(x.fast, x.proposer, x.view, high);
  }

  lemma NothingToCount(f: Fast, proposer: NodeId, view: nat, high: nat)
    requires FastOk(f, proposer, view, high) && f.storeCert == 0 && forall sv :: sv !in f.countSpeed
    ensures FastDone(f, proposer, view, high)
  {
  }

  /** Every quiet state an instance can reach is the completed one, whatever the interleaving. */
  lemma QuietIsDone(proposer: NodeId, view: nat, high: nat, actions: seq<Action>, x: Instance)
    requires high >= 1 && Leads(Init(proposer, view), high, actions, x) && Quiet(x)
    ensures SlotDone(x.lo, high, FinalHash(x.lo.proposal, x.hi.proposal, H1))
    ensures SlotDone(x.hi, high, FinalHash(x.lo.proposal, x.hi.proposal, H2))
    ensures CertsDone(x) && FastDone(x.fast, proposer, view, high)
  {
    RunInvariant(proposer, view, high, actions, x);
    InvParts(x, high);
    hide Inv; hide Quiet; hide Leads; hide TallyOk; hide ProposalOk; hide EndingOk; hide FastOk; hide FinalHash;
    hide Unreplayed;
    QuietHashes(x, high);
    QuietSlot(x, x.lo, H1);
    QuietSlot(x, x.hi, H2);
    QuietTally(x, x.lo, H1, high);
    QuietTally(x, x.hi, H2, high);
    QuietEnding(x, high);
    QuietFast(x, high);
  }

  /** What the core can observe of an instance. */
  predicate SameOutcome(x: Instance, y: Instance) {
    && x.lo.hash == y.lo.hash && x.hi.hash == y.hi.hash
    && x.preQc == y.preQc && x.lo.qc == y.lo.qc && x.hi.qc == y.hi.qc
    && x.lo.voteNums == y.lo.voteNums && x.hi.voteNums == y.hi.voteNums
    && x.lo.voted == y.lo.voted && x.hi.voted == y.hi.voted
    && x.lo.certified == y.lo.certified && x.hi.certified == y.hi.certified
    && x.end.sped == y.end.sped
    && x.fast.speedVoteNums == y.fast.speedVoteNums && x.fast.isSpeedCert == y.fast.isSpeedCert
  }

  lemma SameHistory(x: Instance, y: Instance)
    requires History(x) == History(y)
    ensures x.lo.proposal == y.lo.proposal && x.hi.proposal == y.hi.proposal && x.end.fin == y.end.fin
    ensures x.lo.votes == y.lo.votes && x.hi.votes == y.hi.votes && x.fast.speedVotes == y.fast.speedVotes
  {
    hide Single;
    SameSingle(x.lo.proposal, y.lo.proposal);
    SameSingle(x.hi.proposal, y.hi.proposal);
    SameSingle(x.end.fin, y.end.fin);
  }

  lemma SameFast(f: Fast, g: Fast, proposer: NodeId, view: nat, high: nat)
    requires FastDone(f, proposer, view, high) && FastDone(g, proposer, view, high) && f.speedVotes == g.speedVotes
    ensures f.speedVoteNums == g.speedVoteNums && f.isSpeedCert == g.isSpeedCert
  {
    assert f.counted == g.counted;
  }

  /** Order independence: two runs that received the same messages, in any order and under any
      interleaving of sections and replays, end with the same outcome. */
  lemma Confluence(proposer: NodeId, view: nat, high: nat, xs: seq<Action>, ys: seq<Action>, x: Instance, y: Instance)
    requires high >= 1 && Received(xs) == Received(ys)
    requires Leads(Init(proposer, view), high, xs, x) && Quiet(x)
    requires Leads(Init(proposer, view), high, ys, y) && Quiet(y)
    ensures SameOutcome(x, y)
  {
    hide Inv; hide History; hide Quiet; hide Leads; hide FastDone;
    RunInvariant(proposer, view, high, xs, x);
    RunInvariant(proposer, view, high, ys, y);
    SameHistory(x, y);
    QuietIsDone(proposer, view, high, xs, x);
    QuietIsDone(proposer, view, high, ys, y);
    SameFast(x.fast, y.fast, proposer, view, high);
  }

  // ----- What a certificate stands for -----

  /** A certificate in use stands for a quorum of votes for one block. */
  lemma CertifyMeans(x: Instance, q: BlockQc, high: nat)
    requires Inv(x, high) && Pending(x, Certify(q))
    ensures var s := x.At(q.height);
      |s.counted| >= high && !s.certified && VotesFor(s, x.proposer, x.view, q)
  {
    hide Inv; hide ProposalOk; hide TallyOk; hide ParkedOk; hide EndingOk; hide FastOk; hide VotesFor;
    InvParts(x, high);
    TallyMeans(x.At(q.height), x.proposer, x.view, q, high);
  }

  /** Every vote counted was received, and all of them are for the block of certificate `q`. */
  ghost predicate VotesFor(s: Slot, proposer: NodeId, view: nat, q: BlockQc) {
    && q.view == view && q.proposer == proposer
    && (forall v :: s.counted[v] <= s.votes[v])
    && (forall v :: v in s.counted ==>
      v.proposer == proposer && v.view == view && v.height == q.height && v.hash == q.hash)
  }

  lemma TallyMeans(s: Slot, proposer: NodeId, view: nat, q: BlockQc, high: nat)
    requires TallyOk(s, proposer, view, q.height, high) && q in s.certify && high >= 1
    ensures |s.counted| >= high && !s.certified && VotesFor(s, proposer, view, q)
  {
    assert s.certify == (s.certify - multiset{q}) + multiset{q};
    assert |s.certify| >= 1;
    var u :| u in s.counted;
    assert u in s.votes;
    forall v | v in s.counted ensures v in s.votes { }
  }

  /** The speed certificate is raised by a quorum of speed votes for this instance. */
  lemma SpeedCertMeans(x: Instance, high: nat)
    requires Inv(x, high) && x.fast.isSpeedCert
    ensures |x.fast.counted| >= high
    ensures forall sv :: sv in x.fast.counted ==> sv.proposer == x.proposer && sv.view == x.view
    ensures forall sv :: x.fast.counted[sv] <= x.fast.speedVotes[sv]
  {
    hide SlotOk; hide ParkedOk; hide EndingOk;
  }
}
