/** Each event of a Big node, taken in a state that satisfies the invariant. */
module BigEvents {
  import opened Blocks
  import opened Quorum
  import opened CommitLog
  import opened ViewChange
  import opened BigNode
  import opened BigInvariant
  import opened BigSteps
  import Spb
  import SpbInvariant
  import opened SpbGrowth
  import Elector

  // ----- Messages for instances -----

  /** A message is routed to its instance. */
  lemma Routed(cfg: Config, id: NodeId, nd: Node, nd': Node, sent: set<Msg>, m: Msg)
    requires cfg.n >= 1 && NodeOk(cfg, id, nd, sent) && SentOk(cfg, sent) && nd.started
    requires m in sent && m !in nd.got && Delivered(m).Some?
    requires nd' == nd.(instances := nd'.instances, store := nd'.store, speedVoteNums := nd'.speedVoteNums, got :=
      nd.got + {m})
    requires nd'.instances == nd.instances[KeyOf(m) := Spb.Deliver(InstanceAt(nd, KeyOf(m)), Delivered(m).value)]
    requires StoreOk(nd')
    ensures NodeOk(cfg, id, nd', sent)
  {
    hide NodeOk; hide SentOk; hide InstancesOk; hide HistoryOk; hide OwnSentOk; hide CountersOk; hide CoinOk;
    hide StoreOk;
    hide InstanceAt; hide Spb.Deliver; hide NodeGrows; hide Spb.Deliverable; hide InstanceOk; hide KeyHistory;
    hide Grows;
    NodeParts(cfg, id, nd, sent);
    var k := KeyOf(m);
    var x, y := InstanceAt(nd, k), nd'.instances[k];
    KeyParts(cfg, nd, k);
    MessageFits(cfg, x, nd.got, sent, m);
    DeliverOk(cfg, k, x, y, Delivered(m).value);
    DeliverHistory(x, y, nd.got, m);
    UpdateInstance(cfg, nd, nd', k, y);
    OwnGrows(id, nd, nd', sent);
    CountersFrame(cfg, nd, nd');
    CoinFrame(cfg, nd, nd');
    NodeAssembled(cfg, id, nd', sent);
  }

  lemma SameAt(nd: Node, nd': Node, k: Key)
    requires nd'.instances == nd.instances
    ensures InstanceAt(nd', k) == InstanceAt(nd, k)
  {
  }

  lemma ProposeStep(cfg: Config, id: NodeId, nd: Node, nd': Node, sent: set<Msg>, b: Block)
    requires cfg.n >= 1 && NodeOk(cfg, id, nd, sent) && SentOk(cfg, sent) && nd.started
    requires ProposeMsg(b) in sent && ProposeMsg(b) !in nd.got
    requires nd' == OnProposeMsg(nd, b).(got := nd.got + {ProposeMsg(b)})
    ensures NodeOk(cfg, id, nd', sent)
  {
    hide NodeOk; hide SentOk; hide StoreOk; hide InstanceAt; hide Spb.Deliver; hide Hash; hide InstancesOk;
    hide HistoryOk;
    hide OwnSentOk; hide CountersOk; hide CoinOk; hide GotOk;
    NodeParts(cfg, id, nd, sent);
    StoreProposal(nd, nd', b);
    SameAt(nd, nd.(store := nd.store[Hash(b) := b]), Key(b.view, b.author));
    Routed(cfg, id, nd, nd', sent, ProposeMsg(b));
  }

  lemma VoteStep(cfg: Config, id: NodeId, nd: Node, nd': Node, sent: set<Msg>, v: VoteMsg)
    requires cfg.n >= 1 && NodeOk(cfg, id, nd, sent) && SentOk(cfg, sent) && nd.started
    requires Voting(v) in sent && Voting(v) !in nd.got && nd' == OnVoteMsg(nd, v).(got := nd.got + {Voting(v)})
    ensures NodeOk(cfg, id, nd', sent)
  {
    hide NodeOk; hide SentOk; hide StoreOk; hide InstanceAt; hide Spb.Deliver; hide InstancesOk; hide HistoryOk;
    hide OwnSentOk; hide CountersOk; hide CoinOk; hide GotOk;
    NodeParts(cfg, id, nd, sent);
    StoreFrame(nd, nd');
    Routed(cfg, id, nd, nd', sent, Voting(v));
  }

  lemma SpeedStep(cfg: Config, id: NodeId, nd: Node, nd': Node, sent: set<Msg>, sv: SpeedVoteMsg)
    requires cfg.n >= 1 && NodeOk(cfg, id, nd, sent) && SentOk(cfg, sent) && nd.started && cfg.faults <= id < cfg.n
    requires SpeedVoting(sv) in sent && SpeedVoting(sv) !in nd.got
    requires nd' == OnSpeedMsg(cfg, id, nd, sv).0.(got := nd.got + {SpeedVoting(sv)})
    ensures StepOk(cfg, id, nd', sent, OnSpeedMsg(cfg, id, nd, sv).1)
  {
    hide NodeOk; hide SentOk; hide StoreOk; hide InstanceAt; hide Spb.Deliver; hide InstancesOk; hide HistoryOk;
    hide High;
    hide OwnSentOk; hide CountersOk; hide CoinOk; hide GotOk;
    NodeParts(cfg, id, nd, sent);
    StoreFrame(nd, nd');
    SameAt(nd, nd.(speedVoteNums := nd'.speedVoteNums), Key(sv.view, sv.author));
    Routed(cfg, id, nd, nd', sent, SpeedVoting(sv));
    if OnSpeedMsg(cfg, id, nd, sv).1.Some? {
      Sends(cfg, id, nd, nd', sent, ElectMsg(id, sv.view));
    }
  }

  // ----- Election -----

  lemma ElectStep(cfg: Config, id: NodeId, nd: Node, nd': Node, sent: set<Msg>, m: Msg)
    requires cfg.n >= 1 && NodeOk(cfg, id, nd, sent) && nd.started && nd.coin.None? && m.ElectMsg? && m in sent
    requires nd' == OnElectMsg(cfg, nd, m.author, m.view).(got := nd.got + {m})
    ensures NodeOk(cfg, id, nd', sent)
  {
    hide NodeOk; hide StoreOk; hide InstancesOk; hide HistoryOk; hide OwnSentOk; hide CountersOk; hide NodeGrows;
    hide Elector.AddElect; hide Elector.LeaderOf; hide Elector.Sound;
    NodeParts(cfg, id, nd, sent);
    var (e, verdict) := Elector.AddElect(nd.elector, cfg.n, cfg.coin, m.author, m.view);
    Elector.AddElectSound(nd.elector, cfg.n, cfg.coin, m.author, m.view, e, verdict);
    SameInstances(cfg, nd, nd');
    OwnGrows(id, nd, nd', sent);
    CountersFrame(cfg, nd, nd');
    StoreFrame(nd, nd');
    NodeAssembled(cfg, id, nd', sent);
  }

  // ----- Certificates -----

  /** The votes behind a certificate were sent by as many distinct nodes. */
  lemma CountedVoters(cfg: Config, s: Spb.Slot, got: set<Msg>, sent: set<Msg>, q: BlockQc, b: Block)
    requires cfg.n >= 1 && SentOk(cfg, sent) && VoteHistory(s.votes, got) && got <= sent && Names(sent, q, b)
    requires forall v :: v in s.counted ==> v == VoteFor(v.author, b)
    requires forall v :: s.counted[v] <= s.votes[v]
    requires |s.counted| >= High(cfg.n)
    ensures Certified(cfg, sent, q)
  {
    hide SentOk; hide Hash; hide High;
    forall v | v in s.counted ensures Voting(v) in sent && v.author in Voters(cfg.n, sent, q) {
      assert s.votes[v] >= 1;
      MsgOf(cfg, sent, Voting(v));
    }
    forall v ensures s.counted[v] <= 1 {
      assert s.counted[v] <= s.votes[v];
    }
    var author := (v: VoteMsg) => v.author;
    AuthorsSize(s.counted, author);
    SubsetSize(Authors(s.counted, author), Voters(cfg.n, sent, q));
  }

  /** A certificate an instance holds names the block it accepted, which the node has handled, and has a quorum
      behind it. */
  lemma QcFacts(cfg: Config, k: Key, x: Spb.Instance, got: set<Msg>, sent: set<Msg>, h: Height)
    requires cfg.n >= 1 && InstanceOk(cfg, k, x) && KeyHistory(k, x, got) && got <= sent && SentOk(cfg, sent)
    requires x.At(h).qc.Some?
    ensures var s := x.At(h);
      && QcAt(s.qc.value, k.view, h, k.node) && Certified(cfg, sent, s.qc.value)
      && s.qc.value.hash == s.hash && s.proposal.Some? && s.hash == Hash(s.proposal.value)
      && ProposeMsg(s.proposal.value) in got
  {
    hide SentOk; hide SpbInvariant.Inv; hide Certified; hide VoteHistory; hide SpeedHistory; hide Hash; hide High;
    var s := x.At(h);
    QcMeans(x, s, h, High(cfg.n));
    CountedVoters(cfg, s, got, sent, s.qc.value, s.proposal.value);
  }

  lemma PreQcFacts(cfg: Config, k: Key, x: Spb.Instance, got: set<Msg>, sent: set<Msg>)
    requires cfg.n >= 1 && InstanceOk(cfg, k, x) && KeyHistory(k, x, got) && got <= sent && SentOk(cfg, sent)
    requires x.preQc.Some?
    ensures x.preQc.value.view < k.view && Certified(cfg, sent, x.preQc.value)
  {
    hide SentOk; hide SpbInvariant.Inv; hide Certified; hide VoteHistory; hide SpeedHistory; hide Hash;
    QcFromFirst(cfg, k, x);
    SlotHolds(cfg, k, x, H1);
    BlockQcEarlier(cfg, sent, x.lo.proposal.value);
  }

  lemma QcFromFirst(cfg: Config, k: Key, x: Spb.Instance)
    requires InstanceOk(cfg, k, x) && x.preQc.Some?
    ensures x.lo.proposal.Some? && x.preQc == x.lo.proposal.value.qc
  {
    assert SpbInvariant.ParkedOk(x);
    hide SpbInvariant.Inv; hide Hash;
  }

  // ----- processCoin -----

  lemma ReportIsOk(cfg: Config, k: Key, x: Spb.Instance, got: set<Msg>, sent: set<Msg>, id: NodeId)
    requires cfg.n >= 1 && InstanceOk(cfg, k, x) && KeyHistory(k, x, got) && got <= sent && SentOk(cfg, sent)
    requires LeaderOf(cfg, k.view) == Some(k.node)
    ensures ReportOk(cfg, sent, MakeReport(id, k.view, x))
  {
    hide SentOk; hide KeyHistory; hide InstanceOk; hide Certified; hide LeaderOf; hide Hash;
    if x.lo.qc.Some? {
      QcFacts(cfg, k, x, got, sent, H1);
    }
    if x.hi.qc.Some? {
      QcFacts(cfg, k, x, got, sent, H2);
    }
    if x.preQc.Some? {
      PreQcFacts(cfg, k, x, got, sent);
    }
  }

  /** Nothing changes but the coin and the gate. */
  lemma SettleFrame(cfg: Config, id: NodeId, nd: Node, nd': Node, sent: set<Msg>)
    requires NodeOk(cfg, id, nd, sent) && nd.started && nd.coin.Some?
    requires nd' == nd.(coin := nd'.coin, gate := nd'.gate) && StoreOk(nd') && CoinOk(cfg, nd')
    requires nd'.coin.Some? ==> nd'.coin.value.view == nd.coin.value.view
    ensures NodeOk(cfg, id, nd', sent)
  {
    hide NodeOk; hide StoreOk; hide InstancesOk; hide HistoryOk; hide OwnSentOk; hide CountersOk; hide NodeGrows;
    hide LeaderOf;
    hide Elector.Sound;
    NodeParts(cfg, id, nd, sent);
    SameInstances(cfg, nd, nd');
    OwnGrows(id, nd, nd', sent);
    CountersFrame(cfg, nd, nd');
    NodeAssembled(cfg, id, nd', sent);
  }

  lemma AskStep(cfg: Config, id: NodeId, nd: Node, nd': Node, sent: set<Msg>)
    requires cfg.n >= 1 && NodeOk(cfg, id, nd, sent) && nd.started && nd.coin.Some?
    requires !nd.coin.value.stage.AskLevel? && nd' == CoinStep(id, nd).0
    ensures NodeOk(cfg, id, nd', sent)
  {
    hide NodeOk; hide StoreOk; hide Enqueue; hide InstancesOk; hide HistoryOk; hide OwnSentOk; hide CountersOk;
    hide GotOk;
    hide LeaderOf; hide DecCert; hide Elector.Sound;
    NodeParts(cfg, id, nd, sent);
    var c := nd.coin.value;
    var x := InstanceAt(nd, Key(c.view, c.leader));
    assert InstanceAt(nd', Key(c.view, c.leader)) == x;
    if c.stage.ReadHash? && x.At(c.stage.h).hash in nd.store {
      EnqueueStore(nd, nd', x.At(c.stage.h).hash);
    } else {
      StoreFrame(nd, nd');
    }
    SettleFrame(cfg, id, nd, nd', sent);
  }

  lemma ReportSent(cfg: Config, id: NodeId, nd: Node, nd': Node, sent: set<Msg>)
    requires cfg.n >= 1 && NodeOk(cfg, id, nd, sent) && SentOk(cfg, sent) && nd.started && nd.coin.Some?
    requires nd.coin.value.stage.AskLevel? && nd' == CoinStep(id, nd).0 && cfg.faults <= id < cfg.n
    ensures StepOk(cfg, id, nd', sent, CoinStep(id, nd).1)
  {
    hide NodeOk; hide SentOk; hide StoreOk; hide InstancesOk; hide HistoryOk; hide OwnSentOk; hide CountersOk;
    hide LeaderOf; hide MakeReport; hide InstanceOk; hide KeyHistory; hide ReportOk; hide Elector.Sound;
    NodeParts(cfg, id, nd, sent);
    var c := nd.coin.value;
    var k := Key(c.view, c.leader);
    var x := InstanceAt(nd, k);
    StoreFrame(nd, nd');
    SettleFrame(cfg, id, nd, nd', sent);
    KeyParts(cfg, nd, k);
    ReportIsOk(cfg, k, x, nd.got, sent, id);
    ReportShape(id, c.view, x);
    Sends(cfg, id, nd, nd', sent, ReportMsg(MakeReport(id, c.view, x)));
  }

  lemma ReportShape(id: NodeId, view: nat, x: Spb.Instance)
    ensures MakeReport(id, view, x).author == id && MakeReport(id, view, x).view == view
  {
  }

  lemma SettleStep(cfg: Config, id: NodeId, nd: Node, nd': Node, sent: set<Msg>)
    requires cfg.n >= 1 && NodeOk(cfg, id, nd, sent) && SentOk(cfg, sent) && nd.started && nd.coin.Some?
    requires nd' == CoinStep(id, nd).0 && cfg.faults <= id < cfg.n
    ensures StepOk(cfg, id, nd', sent, CoinStep(id, nd).1)
  {
    hide NodeOk; hide SentOk;
    if nd.coin.value.stage.AskLevel? {
      hide CoinStep;
      ReportSent(cfg, id, nd, nd', sent);
    } else {
      AskStep(cfg, id, nd, nd', sent);
    }
  }

  // ----- Reports -----

  lemma HeardMore(n: nat, got: set<Msg>, r: Report, view: nat, level: Level)
    requires r.author < n
    ensures HeardFrom(n, got + {ReportMsg(r)}, view, level)
         == HeardFrom(n, got, view, level) + (if r.view == view && r.level == level then {r.author} else {})
  {
    var got' := got + {ReportMsg(r)};
    forall x ensures Reported(got', x, view, level) <==>
      Reported(got, x, view, level) || (x == r.author && r.view == view && r.level == level)
    {
      if Reported(got, x, view, level) {
        var s :| ReportMsg(s) in got && s.author == x && s.view == view && s.level == level;
        assert ReportMsg(s) in got';
      }
      if x == r.author && r.view == view && r.level == level {
        assert ReportMsg(r) in got';
      }
    }
  }

  lemma NotHeard(cfg: Config, got: set<Msg>, sent: set<Msg>, r: Report)
    requires cfg.n >= 1 && SentOk(cfg, sent) && got <= sent && ReportMsg(r) in sent && ReportMsg(r) !in got
    ensures r.author < cfg.n && r.author !in HeardFrom(cfg.n, got, r.view, r.level)
  {
    MsgOf(cfg, sent, ReportMsg(r));
    hide SentOk; hide ReportOk;
    if Reported(got, r.author, r.view, r.level) {
      var s :| ReportMsg(s) in got && s.author == r.author && s.view == r.view && s.level == r.level;
      OnlyReport(cfg, sent, r, s);
    }
  }

  /** A report that is counted comes from a reporter not heard before. */
  lemma CountersStep(cfg: Config, nd: Node, nd': Node, sent: set<Msg>, r: Report, advanced: bool)
    requires cfg.n >= 1 && SentOk(cfg, sent) && nd.got <= sent && ReportMsg(r) in sent && ReportMsg(r) !in nd.got
    requires CountersOk(cfg, nd) && nd'.got == nd.got + {ReportMsg(r)}
    requires (nd'.progress, advanced) == OnReport(nd.progress, High(cfg.n), false, r.view, r.level)
    ensures CountersOk(cfg, nd') && nd.progress.view <= nd'.progress.view
    ensures advanced ==> nd'.progress.view == r.view + 1 > nd.progress.view
    ensures advanced ==> r.level.Level2? || |HeardFrom(cfg.n, nd'.got, r.view, r.level)| >= High(cfg.n)
  {
    hide SentOk; hide High; hide AllOpen; hide HeardFrom; hide OnReport; hide At;
    ReportAdvances(nd.progress, High(cfg.n), false, r.view, r.level, nd'.progress, advanced);
    ReportCounts(nd.progress, High(cfg.n), false, r.view, r.level, r.view);
    HeardCount(cfg, nd.got, sent, r, r.view, r.level);
    forall v: nat
      ensures At(nd'.progress, v).one <= |HeardFrom(cfg.n, nd'.got, v, Level1)|
      ensures At(nd'.progress, v).zero <= |HeardFrom(cfg.n, nd'.got, v, Level0)|
    {
      ReportCounts(nd.progress, High(cfg.n), false, r.view, r.level, v);
      HeardCount(cfg, nd.got, sent, r, v, Level1);
      HeardCount(cfg, nd.got, sent, r, v, Level0);
    }
  }

  lemma HeardCount(cfg: Config, got: set<Msg>, sent: set<Msg>, r: Report, v: nat, level: Level)
    requires cfg.n >= 1 && SentOk(cfg, sent) && got <= sent && ReportMsg(r) in sent && ReportMsg(r) !in got
    ensures |HeardFrom(cfg.n, got + {ReportMsg(r)}, v, level)| >=
      |HeardFrom(cfg.n, got, v, level)| + if r.view == v && r.level == level then 1 else 0
  {
    hide SentOk; hide HeardFrom;
    NotHeard(cfg, got, sent, r);
    HeardMore(cfg.n, got, r, v, level);
  }

  /** Nothing changes but the progress and the batch count. */
  lemma ReportFrame(cfg: Config, id: NodeId, nd: Node, nd': Node, sent: set<Msg>, r: Report)
    requires NodeOk(cfg, id, nd, sent) && nd.started && ReportMsg(r) in sent
    requires nd' == nd.(progress := nd'.progress, taken := nd'.taken, got := nd.got + {ReportMsg(r)})
    requires CountersOk(cfg, nd') && nd.progress.view <= nd'.progress.view
    ensures NodeOk(cfg, id, nd', sent)
  {
    hide NodeOk; hide StoreOk; hide InstancesOk; hide HistoryOk; hide OwnSentOk; hide CountersOk; hide CoinOk;
    hide NodeGrows;
    NodeParts(cfg, id, nd, sent);
    SameInstances(cfg, nd, nd');
    OwnGrows(id, nd, nd', sent);
    CoinFrame(cfg, nd, nd');
    StoreFrame(nd, nd');
    NodeAssembled(cfg, id, nd', sent);
  }

  lemma FirstIsJustified(cfg: Config, sent: set<Msg>, got: set<Msg>, r: Report, b: Block)
    requires got <= sent && ReportMsg(r) in sent && b.height.H1? && b.view == r.view + 1 && b.qc == r.qc
    requires r.level.Level2? || |HeardFrom(cfg.n, got, r.view, r.level)| >= High(cfg.n)
    ensures BlockOk(cfg, sent, b)
  {
    hide High;
    ReportersGrow(cfg.n, got, sent, r.view, r.level);
    assert Justifies(cfg, sent, r, b);
  }

  lemma ReportStep(cfg: Config, id: NodeId, nd: Node, nd': Node, sent: set<Msg>, r: Report, ready: bool)
    requires cfg.n >= 1 && NodeOk(cfg, id, nd, sent) && SentOk(cfg, sent) && nd.started
    requires ReportMsg(r) in sent && ReportMsg(r) !in nd.got && cfg.faults <= id < cfg.n
    requires nd' == OnReportMsg(cfg, id, nd, r, ready).0.(got := nd.got + {ReportMsg(r)})
    ensures StepOk(cfg, id, nd', sent, OnReportMsg(cfg, id, nd, r, ready).1)
  {
    hide NodeOk; hide SentOk; hide StoreOk; hide InstancesOk; hide HistoryOk; hide OwnSentOk; hide CountersOk;
    hide CoinOk;
    hide OnReport; hide High; hide HeardFrom; hide BlockOk; hide StepOk;
    NodeParts(cfg, id, nd, sent);
    var o := OnReport(nd.progress, High(cfg.n), false, r.view, r.level);
    CountersStep(cfg, nd, nd', sent, r, o.1);
    ReportFrame(cfg, id, nd, nd', sent, r);
    if o.1 {
      var b := MakeBlock(cfg, id, nd, o.0.view, H1, r.qc, ready);
      FirstIsJustified(cfg, sent, nd'.got, r, b);
      Sends(cfg, id, nd, nd', sent, ProposeMsg(b));
    } else {
      SendsNothing(cfg, id, nd', sent);
    }
  }

  lemma SendsNothing(cfg: Config, id: NodeId, nd': Node, sent: set<Msg>)
    requires cfg.n >= 1 && NodeOk(cfg, id, nd', sent)
    ensures StepOk(cfg, id, nd', sent, None)
  {
  }

  // ----- Start -----

  lemma BeginStep(cfg: Config, id: NodeId, nd: Node, nd': Node, sent: set<Msg>, ready: bool)
    requires cfg.n >= 1 && NodeOk(cfg, id, nd, sent) && SentOk(cfg, sent) && !nd.started && cfg.faults <= id < cfg.n
    requires nd' == Start(cfg, id, nd, ready).0
    ensures StepOk(cfg, id, nd', sent, Start(cfg, id, nd, ready).1)
  {
    hide NodeOk; hide SentOk; hide StoreOk; hide InstancesOk; hide HistoryOk; hide OwnSentOk; hide CountersOk;
    hide CoinOk;
    hide NodeGrows;
    NodeParts(cfg, id, nd, sent);
    SameInstances(cfg, nd, nd');
    OwnGrows(id, nd, nd', sent);
    CountersFrame(cfg, nd, nd');
    CoinFrame(cfg, nd, nd');
    StoreFrame(nd, nd');
    NodeAssembled(cfg, id, nd', sent);
    Sends(cfg, id, nd, nd', sent, ProposeMsg(MakeBlock(cfg, id, nd, 0, H1, None, ready)));
  }

  // ----- Sections of instances -----

  lemma TaskNode(cfg: Config, id: NodeId, nd: Node, nd': Node, sent: set<Msg>, k: Key, t: Spb.Task)
    requires NodeOk(cfg, id, nd, sent) && nd.started && k in nd.instances && Spb.Pending(nd.instances[k], t)
    requires nd' == nd.(instances := nd.instances[k := Spb.Run(nd.instances[k], High(cfg.n), t)], taken := nd'.taken)
    ensures NodeOk(cfg, id, nd', sent)
    ensures InstanceOk(cfg, k, nd.instances[k]) && KeyHistory(k, nd.instances[k], nd.got)
    ensures InstanceOk(cfg, k, nd'.instances[k]) && KeyHistory(k, nd'.instances[k], nd.got)
  {
    hide NodeOk; hide StoreOk; hide InstancesOk; hide HistoryOk; hide OwnSentOk; hide CountersOk; hide CoinOk;
    hide NodeGrows;
    hide Spb.Run; hide Spb.Pending; hide InstanceOk; hide KeyHistory; hide Grows; hide High;
    NodeParts(cfg, id, nd, sent);
    KeyParts(cfg, nd, k);
    var x, y := nd.instances[k], nd'.instances[k];
    assert InstanceAt(nd, k) == x;
    TaskOk(cfg, k, x, y, t);
    TaskHistory(k, x, y, nd.got, High(cfg.n), t);
    UpdateInstance(cfg, nd, nd', k, y);
    OwnGrows(id, nd, nd', sent);
    CountersFrame(cfg, nd, nd');
    CoinFrame(cfg, nd, nd');
    StoreFrame(nd, nd');
    NodeAssembled(cfg, id, nd', sent);
  }

  lemma VoteOutcome(cfg: Config, k: Key, x: Spb.Instance, y: Spb.Instance, b: Block)
    requires InstanceOk(cfg, k, x) && Spb.Pending(x, Spb.SendVote(b)) && y == Spb.Run(x, High(cfg.n), Spb.SendVote(b))
    ensures x.At(b.height).proposal == Some(b) && Key(b.view, b.author) == k
    ensures !x.At(b.height).voted && y.At(b.height).voted && y.At(b.height).proposal == Some(b)
  {
    SpbInvariant.SlotParts(x, High(cfg.n));
    hide SpbInvariant.Inv;
    var s := x.At(b.height);
    SpbInvariant.FinishVoteProposal(s, Spb.FinishVote(s, b), b, x.proposer, x.view, b.height);
  }

  lemma SendVoteStep(cfg: Config, id: NodeId, nd: Node, nd': Node, sent: set<Msg>, k: Key, b: Block)
    requires cfg.n >= 1 && NodeOk(cfg, id, nd, sent) && SentOk(cfg, sent) && nd.started && cfg.faults <= id < cfg.n
    requires k in nd.instances && Spb.Pending(nd.instances[k], Spb.SendVote(b))
    requires nd' == RunTask(cfg, id, nd, k, Spb.SendVote(b), false).0
    ensures StepOk(cfg, id, nd', sent, Some(Voting(VoteFor(id, b))))
  {
    hide NodeOk; hide SentOk; hide InstanceOk; hide Spb.Run; hide Spb.Pending; hide Hash; hide VoteHistory;
    hide SpeedHistory;
    hide InstancesOk; hide HistoryOk; hide OwnSentOk; hide CountersOk; hide CoinOk; hide StoreOk; hide StepOk;
    hide High;
    TaskNode(cfg, id, nd, nd', sent, k, Spb.SendVote(b));
    VoteOutcome(cfg, k, nd.instances[k], nd'.instances[k], b);
    NodeParts(cfg, id, nd, sent);
    assert ProposeMsg(b) in sent;
    var m := Voting(VoteFor(id, b));
    assert VoteOk(sent, m.v);
    Sends(cfg, id, nd, nd', sent, m);
  }

  lemma AnnounceOutcome(cfg: Config, k: Key, x: Spb.Instance, y: Spb.Instance, qc: BlockQc)
    requires InstanceOk(cfg, k, x) && Spb.Pending(x, Spb.Announce(qc)) && y == Spb.Run(x, High(cfg.n), Spb.Announce(qc))
    ensures Key(qc.view, qc.proposer) == k && !x.At(qc.height).announced && y.At(qc.height).announced
    ensures x.At(qc.height).qc == Some(qc) && y.At(qc.height).qc == Some(qc)
  {
    hide SpbInvariant.Inv; hide SpbInvariant.QcOk;
    QcOfInv(x, qc.height, High(cfg.n));
    AnnouncePending(x.At(qc.height), x.proposer, x.view, qc, High(cfg.n));
  }

  lemma AnnouncePending(s: Spb.Slot, proposer: NodeId, view: nat, qc: BlockQc, high: nat)
    requires SpbInvariant.QcOk(s, proposer, view, qc.height, high) && qc in s.announce
    ensures s.qc == Some(qc) && !s.announced && qc.view == view && qc.proposer == proposer
  {
  }

  lemma AnnounceStep(cfg: Config, id: NodeId, nd: Node, nd': Node, sent: set<Msg>, k: Key, qc: BlockQc, ready: bool)
    requires cfg.n >= 1 && NodeOk(cfg, id, nd, sent) && SentOk(cfg, sent) && nd.started && cfg.faults <= id < cfg.n
    requires k in nd.instances && Spb.Pending(nd.instances[k], Spb.Announce(qc))
    requires nd' == RunTask(cfg, id, nd, k, Spb.Announce(qc), ready).0
    ensures StepOk(cfg, id, nd', sent, RunTask(cfg, id, nd, k, Spb.Announce(qc), ready).1)
  {
    hide NodeOk; hide SentOk; hide InstanceOk; hide KeyHistory; hide Spb.Run; hide Spb.Pending; hide Hash;
    hide Certified;
    hide InstancesOk; hide HistoryOk; hide OwnSentOk; hide CountersOk; hide CoinOk; hide StoreOk; hide StepOk;
    hide High;
    TaskNode(cfg, id, nd, nd', sent, k, Spb.Announce(qc));
    AnnounceOutcome(cfg, k, nd.instances[k], nd'.instances[k], qc);
    NodeParts(cfg, id, nd, sent);
    QcFacts(cfg, k, nd.instances[k], nd.got, sent, qc.height);
    var out := RunTask(cfg, id, nd, k, Spb.Announce(qc), ready).1;
    if out.Some? {
      Sends(cfg, id, nd, nd', sent, out.value);
    } else {
      SendsNothing(cfg, id, nd', sent);
    }
  }

  lemma TaskStep(cfg: Config, id: NodeId, nd: Node, nd': Node, sent: set<Msg>, k: Key, t: Spb.Task, ready: bool)
    requires cfg.n >= 1 && NodeOk(cfg, id, nd, sent) && SentOk(cfg, sent) && nd.started && cfg.faults <= id < cfg.n
    requires k in nd.instances && Spb.Pending(nd.instances[k], t) && nd' == RunTask(cfg, id, nd, k, t, ready).0
    ensures StepOk(cfg, id, nd', sent, RunTask(cfg, id, nd, k, t, ready).1)
  {
    hide NodeOk; hide SentOk; hide Spb.Run; hide Spb.Pending; hide Hash; hide StepOk; hide High; hide MakeBlock;
    if t.SendVote? {
      SendVoteStep(cfg, id, nd, nd', sent, k, t.b);
    } else if t.Announce? {
      hide RunTask;
      AnnounceStep(cfg, id, nd, nd', sent, k, t.qc, ready);
    } else {
      TaskNode(cfg, id, nd, nd', sent, k, t);
      SendsNothing(cfg, id, nd', sent);
    }
  }
}
