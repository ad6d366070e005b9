/** Each event of a node, taken in a state that satisfies the invariant. */
module DagEvents {
  import opened Blocks
  import opened Quorum
  import opened CommitLog
  import opened DagNode
  import opened DagInvariant
  import opened DagFrame
  import opened DagSteps
  import opened DagCounters
  import Spb
  import SpbInvariant
  import opened SpbGrowth
  import Elector

  /** What a step must establish for its own node and the messages sent. */
  ghost predicate StepOk(cfg: Config, id: NodeId, nd': Node, sent: set<Msg>, out: Option<Msg>) {
    match out
    case None => NodeOk(cfg, id, nd', sent)
    case Some(m) =>
      && Sender(m) == id
      && (!m.ElectMsg? ==> m !in sent)
      && SentOk(cfg, sent + {m})
      && NodeOk(cfg, id, nd', sent + {m})
  }

  lemma BlockFacts(cfg: Config, sent: set<Msg>, b: Block)
    requires SentOk(cfg, sent) && ProposeMsg(b) in sent
    ensures RefsOk(cfg, sent, b) && b.author < cfg.n && OnePerPosition(sent)
  {
    hide RefsOk;
    assert Sender(ProposeMsg(b)) < cfg.n;
  }

  lemma VoteFacts(cfg: Config, sent: set<Msg>, v: VoteMsg)
    requires SentOk(cfg, sent) && Voting(v) in sent
    ensures v.author < cfg.n && v.hash != ZERO
  {
    hide RefsOk; hide OnePerPosition;
    assert Sender(Voting(v)) < cfg.n;
    var b :| ProposeMsg(b) in sent && v == VoteFor(v.author, b);
  }

  // ----- Handling a proposal -----

  /** The slot of a new proposal is empty, because positions are used once. */
  lemma SlotIsEmpty(cfg: Config, nd: Node, sent: set<Msg>, b: Block)
    requires InstancesOk(cfg, nd) && HistoryOk(nd) && OnePerPosition(sent) && nd.got <= sent
    requires ProposeMsg(b) in sent && ProposeMsg(b) !in nd.got
    ensures InstanceAt(nd, Key(b.view, b.author)).At(b.height).proposal.None?
    ensures forall c :: ProposeMsg(c) in nd.got ==> !SamePosition(b, c)
  {
    hide InstancesOk; hide HistoryOk; hide VoteHistory; hide SpeedHistory; hide SpbInvariant.Inv; hide InstanceAt;
    var k := Key(b.view, b.author);
    var x := InstanceAt(nd, k);
    KeyParts(cfg, nd, k);
    SlotHeld(cfg, k, x, b.height);
    var p := x.At(b.height).proposal;
    assert p.Some? ==> ProposeMsg(p.value) in nd.got && SamePosition(b, p.value);
  }

  lemma KeyParts(cfg: Config, nd: Node, k: Key)
    requires InstancesOk(cfg, nd) && HistoryOk(nd)
    ensures InstanceOk(cfg, k, InstanceAt(nd, k)) && KeyHistory(k, InstanceAt(nd, k), nd.got)
  {
    hide InstanceOk; hide KeyHistory; hide InstanceAt;
  }

  lemma SlotHeld(cfg: Config, k: Key, x: Spb.Instance, h: Height)
    requires InstanceOk(cfg, k, x)
    ensures var p := x.At(h).proposal;
      p.Some? ==> p.value.author == k.node && p.value.view == k.view && p.value.height == h
  {
    SpbInvariant.SlotParts(x, High(cfg.n));
    hide SpbInvariant.Inv;
  }

  lemma StoreProposal(nd: Node, nd': Node, b: Block)
    requires StoreOk(nd) && nd'.store == nd.store[Hash(b) := b] && nd'.gate == nd.gate
    requires nd'.got == nd.got + {ProposeMsg(b)}
    ensures StoreOk(nd')
  {
    hide Hash;
  }

  lemma StoreFrame(nd: Node, nd': Node)
    requires StoreOk(nd) && nd'.store == nd.store && nd'.gate == nd.gate && nd.got <= nd'.got
    requires forall b :: ProposeMsg(b) in nd'.got ==> ProposeMsg(b) in nd.got
    ensures StoreOk(nd')
  {
    hide Hash;
  }

  lemma ElectorFrame(cfg: Config, nd: Node, nd': Node)
    requires ElectorOk(cfg, nd) && nd'.elector == nd.elector && nd.got <= nd'.got
    ensures ElectorOk(cfg, nd')
  {
  }

  lemma NoCoin(cfg: Config, nd: Node)
    requires nd.coin.None?
    ensures CoinOk(cfg, nd)
  {
  }

  lemma CoinGrows(cfg: Config, nd: Node, nd': Node)
    requires CoinOk(cfg, nd) && NodeGrows(nd, nd') && nd'.coin == nd.coin && nd'.scan == nd.scan
    requires nd'.weakVotes == nd.weakVotes
    ensures CoinOk(cfg, nd')
  {
    hide Elector.LeaderOf;
    if nd.coin.Some? {
      var k := Key(nd.coin.value.view, nd.coin.value.leader);
      assert Grows(InstanceAt(nd, k), InstanceAt(nd', k));
    }
  }

  lemma HandleProposal(cfg: Config, id: NodeId, nd: Node, nd': Node, sent: set<Msg>, b: Block)
    requires NodeOk(cfg, id, nd, sent) && SentOk(cfg, sent) && nd.coin.None?
    requires ProposeMsg(b) in sent && ProposeMsg(b) !in nd.got && nd' == OnPropose(nd, b)
    ensures NodeOk(cfg, id, nd', sent)
  {
    hide InstancesOk; hide HistoryOk; hide VotesSentOk; hide ElectsSentOk; hide BlocksSentOk; hide ScanOk;
    hide WeakVotesOk; hide SpeedNumsOk; hide ElectorOk; hide StoreOk; hide CoinOk; hide KeyHistory;
    hide SpbInvariant.Inv;
    hide SentOk; hide RefsOk; hide Hash; hide Spb.Deliver; hide NodeGrows; hide InstanceAt;
    BlockFacts(cfg, sent, b);
    SlotIsEmpty(cfg, nd, sent, b);
    var k := Key(b.view, b.author);
    var x := InstanceAt(nd, k);
    var y := nd'.instances[k];
    KeyParts(cfg, nd, k);
    DeliverOk(cfg, k, x, y, Spb.Proposal(b));
    DeliverProposalHistory(k, x, y, nd.got, b);
    UpdateInstance(cfg, nd, nd', k, y);
    UpdateHistory(nd, nd', k, y, ProposeMsg(b));
    GrowthKeepsSent(cfg, id, nd, nd', sent);
    GrowthKeepsScan(cfg, nd, nd');
    WeakVotesStep(cfg, nd, nd', sent, b);
    SpeedNumsFrame(cfg, nd, nd', ProposeMsg(b));
    ElectorFrame(cfg, nd, nd');
    StoreProposal(nd, nd', b);
    NoCoin(cfg, nd');
  }

  // ----- Handling a vote -----

  lemma HandleVote(cfg: Config, id: NodeId, nd: Node, nd': Node, sent: set<Msg>, v: VoteMsg)
    requires NodeOk(cfg, id, nd, sent) && SentOk(cfg, sent) && nd.coin.None?
    requires Voting(v) in sent && Voting(v) !in nd.got && nd' == OnVote(nd, v)
    ensures NodeOk(cfg, id, nd', sent)
  {
    hide InstancesOk; hide HistoryOk; hide VotesSentOk; hide ElectsSentOk; hide BlocksSentOk; hide ScanOk;
    hide WeakVotesOk; hide SpeedNumsOk; hide ElectorOk; hide StoreOk; hide CoinOk; hide KeyHistory;
    hide SpbInvariant.Inv;
    hide SentOk; hide RefsOk; hide Hash; hide Spb.Deliver; hide NodeGrows; hide InstanceAt;
    VoteFacts(cfg, sent, v);
    var k := Key(v.view, v.proposer);
    var x := InstanceAt(nd, k);
    var y := nd'.instances[k];
    KeyParts(cfg, nd, k);
    DeliverOk(cfg, k, x, y, Spb.Vote(v));
    DeliverVoteHistory(k, x, y, nd.got, v);
    UpdateInstance(cfg, nd, nd', k, y);
    UpdateHistory(nd, nd', k, y, Voting(v));
    GrowthKeepsSent(cfg, id, nd, nd', sent);
    GrowthKeepsScan(cfg, nd, nd');
    WeakVotesFrame(cfg, nd, nd', Voting(v));
    SpeedNumsFrame(cfg, nd, nd', Voting(v));
    ElectorFrame(cfg, nd, nd');
    StoreFrame(nd, nd');
    NoCoin(cfg, nd');
  }

  // ----- Handling a speed vote -----

  /** Speed votes of one author in one view are for different proposers. */
  ghost predicate NewTarget(got: set<Msg>, sv: SpeedVoteMsg) {
    forall u :: SpeedVoting(u) in got ==> !(u.author == sv.author && u.view == sv.view && u.proposer == sv.proposer)
  }

  lemma HandleSpeedNode(cfg: Config, id: NodeId, nd: Node, nd': Node, sent: set<Msg>, sv: SpeedVoteMsg)
    requires NodeOk(cfg, id, nd, sent) && SentOk(cfg, sent) && nd.coin.None?
    requires SpeedVoting(sv) in sent && SpeedVoting(sv) !in nd.got && sv.proposer < cfg.n && NewTarget(nd.got, sv)
    requires nd' == OnSpeedVote(cfg, id, nd, sv).0
    ensures NodeOk(cfg, id, nd', sent)
  {
    hide InstancesOk; hide HistoryOk; hide VotesSentOk; hide ElectsSentOk; hide BlocksSentOk; hide ScanOk;
    hide WeakVotesOk; hide SpeedNumsOk; hide ElectorOk; hide StoreOk; hide CoinOk; hide KeyHistory;
    hide SpbInvariant.Inv;
    hide SentOk; hide RefsOk; hide Hash; hide Spb.Deliver; hide NodeGrows; hide InstanceAt;
    var k := Key(sv.view, sv.proposer);
    var x := InstanceAt(nd, k);
    var y := nd'.instances[k];
    KeyParts(cfg, nd, k);
    DeliverOk(cfg, k, x, y, Spb.SpeedVote(sv));
    DeliverSpeedHistory(k, x, y, nd.got, sv);
    UpdateInstance(cfg, nd, nd', k, y);
    UpdateHistory(nd, nd', k, y, SpeedVoting(sv));
    GrowthKeepsSent(cfg, id, nd, nd', sent);
    GrowthKeepsScan(cfg, nd, nd');
    WeakVotesFrame(cfg, nd, nd', SpeedVoting(sv));
    SpeedNumsStep(cfg, nd, nd', sv);
    ElectorFrame(cfg, nd, nd');
    StoreFrame(nd, nd');
    NoCoin(cfg, nd');
  }

  /** A node that has received `High` of its own speed votes holds as many certificates. */
  lemma OwnSpeedVotesCertify(cfg: Config, id: NodeId, nd: Node, sent: set<Msg>, view: nat)
    requires SpeedNumsOk(cfg, nd) && VotesSentOk(id, nd, sent) && nd.got <= sent
    requires Count(nd.speedVoteNums, Key(view, id)) == High(cfg.n)
    ensures |CertifiedProposers(cfg.n, nd, view)| >= High(cfg.n)
  {
    var k := Key(view, id);
    assert Count(nd.speedVoteNums, k) == |SpeedTargets(cfg.n, nd.got, k.view, k.node)|;
    hide Count;
    forall p | p in SpeedTargets(cfg.n, nd.got, view, id) ensures p in CertifiedProposers(cfg.n, nd, view) {
      var u :| SpeedVoting(u) in nd.got && u.author == id && u.view == view && u.proposer == p;
      assert SpeedVoting(u) in sent;
    }
    SubsetSize(SpeedTargets(cfg.n, nd.got, view, id), CertifiedProposers(cfg.n, nd, view));
  }

  lemma SendElect(cfg: Config, id: NodeId, nd: Node, sent: set<Msg>, view: nat)
    requires NodeOk(cfg, id, nd, sent) && SentOk(cfg, sent) && id < cfg.n
    requires Count(nd.speedVoteNums, Key(view, id)) == High(cfg.n)
    ensures StepOk(cfg, id, nd, sent, Some(ElectMsg(id, view)))
  {
    hide InstancesOk; hide HistoryOk; hide VotesSentOk; hide BlocksSentOk; hide ScanOk;
    hide WeakVotesOk; hide SpeedNumsOk; hide ElectorOk; hide StoreOk; hide CoinOk; hide SentOk;
    var m := ElectMsg(id, view);
    OwnSpeedVotesCertify(cfg, id, nd, sent, view);
    SendOtherKeeps(cfg, sent, m);
    VotesSentFrame(id, nd, sent, sent + {m});
    BlocksSentFrame(id, nd, sent, sent + {m});
  }

  lemma BlocksSentFrame(id: NodeId, nd: Node, sent: set<Msg>, sent': set<Msg>)
    requires BlocksSentOk(id, nd, sent) && sent <= sent'
    requires forall b :: ProposeMsg(b) in sent' && b.author == id ==> ProposeMsg(b) in sent
    ensures BlocksSentOk(id, nd, sent')
  {
  }

  lemma ElectsSentFrame(cfg: Config, id: NodeId, nd: Node, sent: set<Msg>, sent': set<Msg>)
    requires ElectsSentOk(cfg, id, nd, sent) && sent <= sent'
    requires forall v :: ElectMsg(id, v) in sent' ==> ElectMsg(id, v) in sent
    ensures ElectsSentOk(cfg, id, nd, sent')
  {
  }

  lemma HandleSpeed(cfg: Config, id: NodeId, nd: Node, sent: set<Msg>, sv: SpeedVoteMsg)
    requires NodeOk(cfg, id, nd, sent) && SentOk(cfg, sent) && id < cfg.n && nd.coin.None?
    requires SpeedVoting(sv) in sent && SpeedVoting(sv) !in nd.got && sv.proposer < cfg.n && NewTarget(nd.got, sv)
    ensures StepOk(cfg, id, OnSpeedVote(cfg, id, nd, sv).0, sent, OnSpeedVote(cfg, id, nd, sv).1)
  {
    hide NodeOk; hide SentOk; hide Spb.Deliver; hide InstanceAt;
    var nd' := OnSpeedVote(cfg, id, nd, sv).0;
    HandleSpeedNode(cfg, id, nd, nd', sent, sv);
    if OnSpeedVote(cfg, id, nd, sv).1.Some? {
      SendElect(cfg, id, nd', sent, sv.view);
    }
  }

  // ----- Handling an elect message -----

  lemma AddElectKeeps(cfg: Config, nd: Node, nd': Node, author: NodeId, view: nat)
    requires cfg.n >= 1 && ElectorOk(cfg, nd)
    requires nd'.elector == Elector.AddElect(nd.elector, cfg.n, cfg.coin, author, view).0
    requires nd'.got == nd.got + {ElectMsg(author, view)}
    ensures ElectorOk(cfg, nd')
  {
    forall w: nat ensures
      var a := Elector.AggregatorOf(nd'.elector, w);
      && |a.elects| == |a.used|
      && (forall x :: x in a.used ==> ElectMsg(x, w) in nd'.got)
      && (w in nd'.elector.leaders ==> |a.used| >= High(cfg.n))
    {
      var a := Elector.AggregatorOf(nd.elector, w);
      assert |a.elects| == |a.used|;
    }
  }

  /** Nothing changes but the elector and the coin. */
  lemma CoinFrame(cfg: Config, id: NodeId, nd: Node, nd': Node, sent: set<Msg>, m: Msg)
    requires NodeOk(cfg, id, nd, sent) && m.ElectMsg? && m in sent
    requires nd'.instances == nd.instances && nd'.started == nd.started && nd'.view == nd.view
    requires nd'.height == nd.height
    requires nd'.store == nd.store && nd'.weakVotes == nd.weakVotes && nd'.speedVoteNums == nd.speedVoteNums
    requires nd'.got == nd.got + {m}
    requires ElectorOk(cfg, nd') && ScanOk(cfg, nd') && StoreOk(nd') && CoinOk(cfg, nd')
    ensures NodeOk(cfg, id, nd', sent)
  {
    SameInstances(cfg, nd, nd', m);
    hide InstancesOk; hide HistoryOk; hide VotesSentOk; hide ElectsSentOk; hide BlocksSentOk; hide ScanOk;
    hide WeakVotesOk; hide SpeedNumsOk; hide ElectorOk; hide StoreOk; hide CoinOk; hide NodeGrows;
    GrowthKeepsSent(cfg, id, nd, nd', sent);
    WeakVotesFrame(cfg, nd, nd', m);
    SpeedNumsFrame(cfg, nd, nd', m);
  }

  lemma SameInstances(cfg: Config, nd: Node, nd': Node, m: Msg)
    requires InstancesOk(cfg, nd) && HistoryOk(nd) && m.ElectMsg?
    requires nd'.instances == nd.instances && nd'.started == nd.started && nd'.view == nd.view
    requires nd'.height == nd.height
    requires nd'.got == nd.got + {m}
    ensures InstancesOk(cfg, nd') && HistoryOk(nd') && NodeGrows(nd, nd')
  {
    hide InstanceOk; hide KeyHistory;
    forall c: Key
      ensures InstanceOk(cfg, c, InstanceAt(nd', c)) && KeyHistory(c, InstanceAt(nd', c), nd'.got)
      ensures Grows(InstanceAt(nd, c), InstanceAt(nd', c))
    {
      assert InstanceAt(nd', c) == InstanceAt(nd, c);
      KeyParts(cfg, nd, c);
      OtherHistory(c, InstanceAt(nd, c), nd.got, m);
    }
  }

  lemma AdvanceEffect(cfg: Config, nd: Node, nd': Node, view: nat, h: Height)
    requires nd.started && nd.scan.None? && nd' == Advance(nd, view, h)
    ensures nd' == nd.(scan := nd'.scan) && ScanOk(cfg, nd')
  {
  }

  lemma EnqueueStore(nd: Node, nd': Node, d: Digest)
    requires StoreOk(nd) && d in nd.store
    requires nd'.store == nd.store && nd'.got == nd.got && nd'.gate == Enqueue(nd.gate, nd.store[d])
    ensures StoreOk(nd')
  {
    hide Hash;
  }

  lemma NoScan(cfg: Config, nd: Node)
    requires nd.started && nd.scan.None?
    ensures ScanOk(cfg, nd)
  {
  }

  lemma StoreSame(nd: Node, nd': Node)
    requires StoreOk(nd) && nd'.store == nd.store && nd'.got == nd.got && nd'.gate == nd.gate
    ensures StoreOk(nd')
  {
  }

  /** The leader announced is the one the coin of the view elects. */
  lemma VerdictIsLeader(cfg: Config, s: Elector.State, author: NodeId, view: nat)
    requires cfg.n >= 1
    ensures var v := Elector.AddElect(s, cfg.n, cfg.coin, author, view).1;
      v.Leader? ==> Elector.LeaderOf(cfg.n, cfg.coin, view) == Some(v.id)
  {
  }

  lemma HandleElect(cfg: Config, id: NodeId, nd: Node, nd': Node, sent: set<Msg>, author: NodeId, view: nat)
    requires NodeOk(cfg, id, nd, sent) && cfg.n >= 1 && nd.started && nd.scan.None? && nd.coin.None?
    requires ElectMsg(author, view) in sent && nd' == OnElect(cfg, nd, author, view)
    ensures NodeOk(cfg, id, nd', sent)
  {
    hide InstancesOk; hide HistoryOk; hide VotesSentOk; hide ElectsSentOk; hide BlocksSentOk;
    hide WeakVotesOk; hide SpeedNumsOk; hide ElectorOk; hide StoreOk; hide ScanOk; hide Elector.AddElect;
    hide Elector.LeaderOf;
    var m := ElectMsg(author, view);
    StoreFrame(nd, nd');
    NoScan(cfg, nd');
    VerdictIsLeader(cfg, nd.elector, author, view);
    AddElectKeeps(cfg, nd, nd', author, view);
    CoinFrame(cfg, id, nd, nd', sent, m);
  }

  // ----- Sections of instances -----

  /** A section changes only its instance and, for a height-1 certificate, the callback channel. */
  lemma TaskNode(cfg: Config, id: NodeId, nd: Node, nd': Node, sent: set<Msg>, k: Key, t: Spb.Task)
    requires NodeOk(cfg, id, nd, sent) && k in nd.instances && Spb.Pending(nd.instances[k], t)
    requires nd' == RunTask(cfg, id, nd, k, t).0
    ensures NodeOk(cfg, id, nd', sent) && NodeGrows(nd, nd')
  {
    hide InstancesOk; hide HistoryOk; hide VotesSentOk; hide ElectsSentOk; hide BlocksSentOk; hide ScanOk;
    hide WeakVotesOk; hide SpeedNumsOk; hide ElectorOk; hide StoreOk; hide CoinOk; hide KeyHistory;
    hide SpbInvariant.Inv;
    hide Hash; hide Spb.Run; hide Spb.Pending; hide NodeGrows; hide Spb.Emits;
    var x := nd.instances[k];
    var y := nd'.instances[k];
    KeyParts(cfg, nd, k);
    RunOk(cfg, k, x, y, t);
    UpdateInstance(cfg, nd, nd', k, y);
    TaskHistory(cfg, nd, nd', k, t);
    GrowthKeepsSent(cfg, id, nd, nd', sent);
    GrowthKeepsScan(cfg, nd, nd');
    SameCounters(cfg, nd, nd');
    ElectorFrame(cfg, nd, nd');
    StoreSame(nd, nd');
    CoinGrows(cfg, nd, nd');
  }

  lemma SameCounters(cfg: Config, nd: Node, nd': Node)
    requires WeakVotesOk(cfg, nd) && SpeedNumsOk(cfg, nd)
    requires nd'.weakVotes == nd.weakVotes && nd'.speedVoteNums == nd.speedVoteNums && nd'.got == nd.got
    ensures WeakVotesOk(cfg, nd') && SpeedNumsOk(cfg, nd')
  {
  }

  lemma VoteOutcome(cfg: Config, k: Key, x: Spb.Instance, y: Spb.Instance, b: Block)
    requires InstanceOk(cfg, k, x) && Spb.Pending(x, Spb.SendVote(b)) && y == Spb.Run(x, High(cfg.n), Spb.SendVote(b))
    ensures x.At(b.height).proposal == Some(b) && Key(b.view, b.author) == k
    ensures !x.At(b.height).voted && y.At(b.height).voted && y.At(b.height).proposal == Some(b)
  {
    SpbInvariant.SlotParts(x, High(cfg.n));
    hide SpbInvariant.Inv;
    var s := x.At(b.height);
    SpbInvariant.FinishVoteProposal(s, Spb.FinishVote(s, b), b, x.proposer, x.view, b.height);
  }

  lemma SendVoteStep(cfg: Config, id: NodeId, nd: Node, nd': Node, sent: set<Msg>, k: Key, b: Block)
    requires NodeOk(cfg, id, nd, sent) && SentOk(cfg, sent) && id < cfg.n
    requires k in nd.instances && Spb.Pending(nd.instances[k], Spb.SendVote(b))
    requires nd' == RunTask(cfg, id, nd, k, Spb.SendVote(b)).0
    ensures StepOk(cfg, id, nd', sent, Some(Voting(VoteFor(id, b))))
  {
    hide InstancesOk; hide HistoryOk; hide ElectsSentOk; hide BlocksSentOk; hide ScanOk; hide SentOk; hide Hash;
    hide WeakVotesOk; hide SpeedNumsOk; hide ElectorOk; hide StoreOk; hide CoinOk; hide SpbInvariant.Inv;
    hide NodeGrows;
    hide Spb.Run; hide Spb.Pending; hide VotesSentOk;
    var v := VoteFor(id, b);
    var m := Voting(v);
    KeyParts(cfg, nd, k);
    VoteOutcome(cfg, k, nd.instances[k], nd'.instances[k], b);
    TaskNode(cfg, id, nd, nd', sent, k, Spb.SendVote(b));
    assert ProposeMsg(b) in nd.got by { hide VoteHistory; hide SpeedHistory; }
    SendVoteKeeps(cfg, sent, v, b);
    NewVote(id, nd, nd', sent, k, b);
    ElectsSentFrame(cfg, id, nd', sent, sent + {m});
    BlocksSentFrame(id, nd', sent, sent + {m});
  }

  lemma NewVote(id: NodeId, nd: Node, nd': Node, sent: set<Msg>, k: Key, b: Block)
    requires VotesSentOk(id, nd, sent) && VotesSentOk(id, nd', sent) && Key(b.view, b.author) == k
    requires !InstanceAt(nd, k).At(b.height).voted
    requires InstanceAt(nd', k).At(b.height).voted && InstanceAt(nd', k).At(b.height).proposal == Some(b)
    ensures Voting(VoteFor(id, b)) !in sent
    ensures VotesSentOk(id, nd', sent + {Voting(VoteFor(id, b))})
  {
    hide InstanceAt; hide Hash;
  }

  lemma SpeedOutcome(cfg: Config, k: Key, x: Spb.Instance, y: Spb.Instance, qc: BlockQc)
    requires InstanceOk(cfg, k, x) && qc.height.H2? && Spb.Pending(x, Spb.Announce(qc))
    requires y == Spb.Run(x, High(cfg.n), Spb.Announce(qc))
    ensures Key(qc.view, qc.proposer) == k && !x.hi.announced && y.hi.announced && y.hi.qc == Some(qc)
  {
    hide InstanceOk; hide SpbInvariant.Inv; hide High;
    HighQcOk(cfg, k, x);
  }

  lemma HighQcOk(cfg: Config, k: Key, x: Spb.Instance)
    requires InstanceOk(cfg, k, x)
    ensures SpbInvariant.QcOk(x.hi, x.proposer, x.view, H2, High(cfg.n)) && x.proposer == k.node && x.view == k.view
  {
    hide SpbInvariant.QcOk; hide SpbInvariant.VotesConserved; hide SpbInvariant.VotesKnown;
    hide SpbInvariant.ProposalOk; hide SpbInvariant.FastOk; hide SpbInvariant.ParkedOk;
  }

  lemma NewSpeedVote(id: NodeId, nd: Node, nd': Node, sent: set<Msg>, k: Key, qc: BlockQc)
    requires VotesSentOk(id, nd, sent) && VotesSentOk(id, nd', sent) && Key(qc.view, qc.proposer) == k
    requires !InstanceAt(nd, k).hi.announced && InstanceAt(nd', k).hi.announced && InstanceAt(nd', k).hi.qc == Some(qc)
    ensures SpeedVoting(SpeedVoteFor(id, qc)) !in sent
    ensures VotesSentOk(id, nd', sent + {SpeedVoting(SpeedVoteFor(id, qc))})
  {
    hide InstanceAt; hide Hash;
  }

  lemma SendSpeedStep(cfg: Config, id: NodeId, nd: Node, nd': Node, sent: set<Msg>, k: Key, qc: BlockQc)
    requires NodeOk(cfg, id, nd, sent) && SentOk(cfg, sent) && id < cfg.n && qc.height.H2?
    requires k in nd.instances && Spb.Pending(nd.instances[k], Spb.Announce(qc))
    requires nd' == RunTask(cfg, id, nd, k, Spb.Announce(qc)).0
    ensures StepOk(cfg, id, nd', sent, Some(SpeedVoting(SpeedVoteFor(id, qc))))
  {
    hide InstancesOk; hide HistoryOk; hide ElectsSentOk; hide BlocksSentOk; hide ScanOk; hide SentOk; hide Hash;
    hide WeakVotesOk; hide SpeedNumsOk; hide ElectorOk; hide StoreOk; hide CoinOk; hide SpbInvariant.Inv;
    hide NodeGrows;
    hide Spb.Run; hide Spb.Pending; hide VotesSentOk;
    var m := SpeedVoting(SpeedVoteFor(id, qc));
    KeyParts(cfg, nd, k);
    SpeedOutcome(cfg, k, nd.instances[k], nd'.instances[k], qc);
    TaskNode(cfg, id, nd, nd', sent, k, Spb.Announce(qc));
    SendOtherKeeps(cfg, sent, m);
    NewSpeedVote(id, nd, nd', sent, k, qc);
    ElectsSentFrame(cfg, id, nd', sent, sent + {m});
    BlocksSentFrame(id, nd', sent, sent + {m});
  }

  lemma TaskStep(cfg: Config, id: NodeId, nd: Node, sent: set<Msg>, k: Key, t: Spb.Task)
    requires NodeOk(cfg, id, nd, sent) && SentOk(cfg, sent) && id < cfg.n
    requires k in nd.instances && Spb.Pending(nd.instances[k], t)
    ensures StepOk(cfg, id, RunTask(cfg, id, nd, k, t).0, sent, RunTask(cfg, id, nd, k, t).1)
  {
    hide NodeOk; hide SentOk; hide Spb.Run; hide Spb.Pending; hide Hash; hide NodeGrows;
    var nd' := RunTask(cfg, id, nd, k, t).0;
    if t.SendVote? {
      SendVoteStep(cfg, id, nd, nd', sent, k, t.b);
    } else if t.Announce? && t.qc.height.H2? {
      SendSpeedStep(cfg, id, nd, nd', sent, k, t.qc);
    } else {
      TaskNode(cfg, id, nd, nd', sent, k, t);
    }
  }
}
