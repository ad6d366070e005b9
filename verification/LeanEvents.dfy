/** Each event of a lean node, taken in a state that satisfies the invariant. */
module LeanEvents {
  import opened Blocks
  import opened Quorum
  import opened CommitLog
  import opened LeanSpb
  import opened LeanConservation
  import LeanConfluence
  import opened ViewChange
  import opened LeanNode
  import opened LeanSystem
  import opened LeanInvariant
  import opened LeanSteps
  import Elector

  // ----- Messages for instances -----

  /** A message is routed to its instance, or left out because its view is over. */
  lemma Routed(cfg: Config, id: NodeId, nd: Node, nd': Node, sent: set<Msg>, m: Msg)
    requires cfg.n >= 1 && NodeOk(cfg, id, nd, sent) && SentOk(cfg, sent) && nd.started && nd.coin.None?
    requires m in sent && m !in nd.got && Addressed(m, id) && Delivered(m).Some?
    requires nd' == nd.(instances := nd'.instances, store := nd'.store, finVotes := nd'.finVotes, got := nd.got + {m})
    requires nd'.instances == nd.instances
      || nd'.instances == nd.instances[KeyOf(m) := Deliver(InstanceAt(nd, KeyOf(m)), Delivered(m).value)]
    requires StoreOk(nd')
    ensures NodeOk(cfg, id, nd', sent)
  {
    hide NodeOk; hide SentOk; hide InstancesOk; hide HistoryOk; hide OwnSentOk; hide CountersOk; hide CoinOk;
    hide StoreOk;
    hide InstanceAt; hide Deliver; hide NodeGrows; hide Deliverable; hide InstanceOk; hide KeyHistory; hide Grows;
    NodeParts(cfg, id, nd, sent);
    if nd'.instances == nd.instances {
      SameInstances(cfg, nd, nd');
    } else {
      var k := KeyOf(m);
      var x, y := InstanceAt(nd, k), nd'.instances[k];
      KeyParts(cfg, nd, k);
      MessageFits(cfg, x, nd.got, sent, m);
      DeliverOk(cfg, k, x, y, Delivered(m).value);
      DeliverHistory(x, y, nd.got, m);
      UpdateInstance(cfg, nd, nd', k, y);
    }
    OwnGrows(id, nd, nd', sent);
    CountersFrame(cfg, nd, nd');
    NoCoin(cfg, nd');
    NodeAssembled(cfg, id, nd', sent);
  }

  lemma SameAt(nd: Node, nd': Node, k: Key)
    requires nd'.instances == nd.instances
    ensures InstanceAt(nd', k) == InstanceAt(nd, k)
  {
  }

  lemma ProposeStep(cfg: Config, id: NodeId, nd: Node, nd': Node, sent: set<Msg>, b: Block)
    requires cfg.n >= 1 && NodeOk(cfg, id, nd, sent) && SentOk(cfg, sent) && nd.started && nd.coin.None?
    requires ProposeMsg(b) in sent && ProposeMsg(b) !in nd.got
    requires nd' == OnProposeMsg(nd, b).(got := nd.got + {ProposeMsg(b)})
    ensures NodeOk(cfg, id, nd', sent)
  {
    hide NodeOk; hide SentOk; hide StoreOk; hide InstanceAt; hide Deliver; hide Hash; hide InstancesOk; hide HistoryOk;
    hide OwnSentOk; hide CountersOk; hide CoinOk; hide GotOk;
    NodeParts(cfg, id, nd, sent);
    StoreProposal(nd, nd', b);
    SameAt(nd, nd.(store := nd.store[Hash(b) := b]), Key(b.view, b.author));
    Routed(cfg, id, nd, nd', sent, ProposeMsg(b));
  }

  lemma VoteStep(cfg: Config, id: NodeId, nd: Node, nd': Node, sent: set<Msg>, m: Msg)
    requires cfg.n >= 1 && NodeOk(cfg, id, nd, sent) && SentOk(cfg, sent) && nd.started && nd.coin.None?
    requires m in sent && m !in nd.got && Addressed(m, id)
    requires (m.VoteOf? && nd' == OnVoteMsg(nd, m.v).(got := nd.got + {m}))
          || (m.SpeedOf? && nd' == OnSpeedMsg(nd, m.sv).(got := nd.got + {m}))
    ensures NodeOk(cfg, id, nd', sent)
  {
    hide NodeOk; hide SentOk; hide StoreOk; hide InstanceAt; hide Deliver; hide InstancesOk; hide HistoryOk;
    hide OwnSentOk; hide CountersOk; hide CoinOk; hide GotOk;
    NodeParts(cfg, id, nd, sent);
    StoreFrame(nd, nd');
    Routed(cfg, id, nd, nd', sent, m);
  }

  lemma FinStep(cfg: Config, id: NodeId, nd: Node, nd': Node, sent: set<Msg>, fv: FinVote)
    requires cfg.n >= 1 && NodeOk(cfg, id, nd, sent) && SentOk(cfg, sent) && nd.started && nd.coin.None?
    requires FinOf(fv) in sent && FinOf(fv) !in nd.got && cfg.faults <= id < cfg.n
    requires nd' == OnFinMsg(cfg, id, nd, fv).0.(got := nd.got + {FinOf(fv)})
    ensures StepOk(cfg, id, nd', sent, OnFinMsg(cfg, id, nd, fv).1)
  {
    hide NodeOk; hide SentOk; hide StoreOk; hide InstanceAt; hide Deliver; hide InstancesOk; hide HistoryOk; hide High;
    hide OwnSentOk; hide CountersOk; hide CoinOk; hide GotOk;
    NodeParts(cfg, id, nd, sent);
    StoreFrame(nd, nd');
    SameAt(nd, nd.(finVotes := nd.finVotes[fv.view := FinVotesAt(nd, fv.view) + {fv.author}]), Key(fv.view, fv.author));
    Routed(cfg, id, nd, nd', sent, FinOf(fv));
    if OnFinMsg(cfg, id, nd, fv).1.Some? {
      Sends(cfg, id, nd, nd', sent, ElectMsg(id, fv.view));
    }
  }

  // ----- Election -----

  /** Nothing changes but the elector and the coin. */
  lemma CoinFrame(cfg: Config, id: NodeId, nd: Node, nd': Node, sent: set<Msg>, m: Msg)
    requires NodeOk(cfg, id, nd, sent) && nd.started && m in sent && Addressed(m, id) && (m.ElectMsg? || m.CoinMsg?)
    requires nd' == nd.(elector := nd'.elector, coin := nd'.coin, got := nd.got + {m}) && CoinOk(cfg, nd')
    ensures NodeOk(cfg, id, nd', sent)
  {
    hide NodeOk; hide StoreOk; hide InstancesOk; hide HistoryOk; hide OwnSentOk; hide CountersOk; hide CoinOk;
    hide NodeGrows;
    NodeParts(cfg, id, nd, sent);
    SameInstances(cfg, nd, nd');
    OwnGrows(id, nd, nd', sent);
    CountersFrame(cfg, nd, nd');
    StoreFrame(nd, nd');
    NodeAssembled(cfg, id, nd', sent);
  }

  lemma CoinMsgStep(cfg: Config, id: NodeId, nd: Node, nd': Node, sent: set<Msg>, m: Msg)
    requires cfg.n >= 1 && NodeOk(cfg, id, nd, sent) && SentOk(cfg, sent) && nd.started && nd.coin.None?
    requires m.CoinMsg? && m in sent && Addressed(m, id) && nd' == OnCoinMsg(nd, m.leader, m.view).(got := nd.got + {m})
    ensures NodeOk(cfg, id, nd', sent)
  {
    hide NodeOk; hide SentOk; hide LeaderOf;
    MsgOf(cfg, sent, m);
    CoinFrame(cfg, id, nd, nd', sent, m);
  }

  lemma VerdictIsLeader(cfg: Config, s: Elector.State, author: NodeId, view: nat)
    requires cfg.n >= 1
    ensures var v := Elector.AddElect(s, cfg.n, cfg.coin, author, view).1;
      v.Leader? ==> LeaderOf(cfg, view) == Some(v.id)
  {
  }

  lemma ElectStep(cfg: Config, id: NodeId, nd: Node, nd': Node, sent: set<Msg>, m: Msg)
    requires cfg.n >= 1 && NodeOk(cfg, id, nd, sent) && SentOk(cfg, sent) && nd.started && nd.coin.None?
    requires m.ElectMsg? && m in sent && cfg.faults <= id < cfg.n
    requires nd' == OnElectMsg(cfg, id, nd, m.author, m.view).0.(got := nd.got + {m})
    ensures StepOk(cfg, id, nd', sent, OnElectMsg(cfg, id, nd, m.author, m.view).1)
  {
    hide NodeOk; hide SentOk; hide Elector.AddElect; hide LeaderOf;
    VerdictIsLeader(cfg, nd.elector, m.author, m.view);
    CoinFrame(cfg, id, nd, nd', sent, m);
    var out := OnElectMsg(cfg, id, nd, m.author, m.view).1;
    if out.Some? {
      Sends(cfg, id, nd, nd', sent, out.value);
    }
  }

  // ----- processCoin -----

  /** What a node knows about the certificates of an instance. */
  lemma Level2Facts(cfg: Config, k: Key, x: Instance, got: set<Msg>, sent: set<Msg>)
    requires cfg.n >= 1 && InstanceOk(cfg, k, x) && KeyHistory(x, got) && got <= sent && SentOk(cfg, sent)
    requires x.hi.qc.Some?
    ensures QcAt(x.hi.qc.value, k.view, H2, k.node) && Certified(cfg, sent, x.hi.qc.value)
    ensures x.end.fin.Some? && x.hi.qc == Some(x.end.fin.value.qc) && x.hi.hash == x.hi.qc.value.hash
    ensures FinOf(x.end.fin.value) in sent && x.lo.qc.Some?
  {
    hide SentOk; hide VoteHistory; hide SpeedHistory; hide Inv; hide Certified;
    QcFromFin(cfg, k, x);
    FinFacts(cfg, sent, x.end.fin.value);
  }

  lemma QcFromFin(cfg: Config, k: Key, x: Instance)
    requires InstanceOk(cfg, k, x) && x.hi.qc.Some?
    ensures x.end.fin.Some? && x.hi.qc == Some(x.end.fin.value.qc) && x.hi.hash == x.end.fin.value.qc.hash
    ensures x.end.fin.value.author == k.node && x.end.fin.value.view == k.view && x.lo.qc.Some?
  {
    hide Inv; hide TallyOk; hide FastOk; hide Hash;
    InvParts(x, High(cfg.n));
    AcceptedHasProposal(x.hi, x.proposer, x.view);
  }

  lemma AcceptedHasProposal(s: Slot, proposer: NodeId, view: nat)
    requires ProposalOk(s, proposer, view, H2) && s.hash != ZERO
    ensures s.proposal.Some? && s.hash == Hash(s.proposal.value)
  {
  }

  lemma Level1Facts(cfg: Config, k: Key, x: Instance, got: set<Msg>, sent: set<Msg>)
    requires cfg.n >= 1 && InstanceOk(cfg, k, x) && KeyHistory(x, got) && got <= sent && SentOk(cfg, sent)
    requires x.lo.qc.Some?
    ensures QcAt(x.lo.qc.value, k.view, H1, k.node) && Certified(cfg, sent, x.lo.qc.value)
    ensures x.hi.proposal.Some? && ProposeMsg(x.hi.proposal.value) in got && x.hi.hash == Hash(x.hi.proposal.value)
    ensures x.lo.hash == x.lo.qc.value.hash && x.hi.proposal.value.height.H2?
    ensures x.hi.proposal.value.author == k.node && x.hi.proposal.value.view == k.view
  {
    hide SentOk; hide VoteHistory; hide SpeedHistory; hide Inv; hide Certified; hide Hash;
    QcFromSecond(cfg, k, x);
    BlockQcEarlier(cfg, sent, x.hi.proposal.value);
  }

  lemma QcFromSecond(cfg: Config, k: Key, x: Instance)
    requires InstanceOk(cfg, k, x) && x.lo.qc.Some?
    ensures x.hi.proposal.Some? && x.lo.qc == x.hi.proposal.value.qc && x.hi.proposal.value.height.H2?
    ensures x.hi.proposal.value.author == k.node && x.hi.proposal.value.view == k.view
    ensures x.hi.hash == Hash(x.hi.proposal.value) && x.lo.hash == x.lo.qc.value.hash
  {
    InvParts(x, High(cfg.n));
    hide Inv; hide TallyOk; hide EndingOk; hide FastOk; hide Hash;
  }

  lemma PreQcFacts(cfg: Config, k: Key, x: Instance, got: set<Msg>, sent: set<Msg>)
    requires cfg.n >= 1 && InstanceOk(cfg, k, x) && KeyHistory(x, got) && got <= sent && SentOk(cfg, sent)
    requires x.preQc.Some?
    ensures x.preQc.value.view < k.view && Certified(cfg, sent, x.preQc.value) && Started(sent, k.node, k.view, x.preQc)
  {
    hide SentOk; hide VoteHistory; hide SpeedHistory; hide Inv; hide Certified; hide Hash;
    QcFromFirst(cfg, k, x);
    BlockQcEarlier(cfg, sent, x.lo.proposal.value);
  }

  lemma QcFromFirst(cfg: Config, k: Key, x: Instance)
    requires InstanceOk(cfg, k, x) && x.preQc.Some?
    ensures x.lo.proposal.Some? && x.preQc == x.lo.proposal.value.qc && x.lo.proposal.value.height.H1?
    ensures x.lo.proposal.value.author == k.node && x.lo.proposal.value.view == k.view
  {
    InvParts(x, High(cfg.n));
    hide Inv; hide TallyOk; hide EndingOk; hide FastOk; hide Hash;
  }

  lemma ReportIsOk(cfg: Config, k: Key, x: Instance, got: set<Msg>, sent: set<Msg>, id: NodeId)
    requires cfg.n >= 1 && InstanceOk(cfg, k, x) && KeyHistory(x, got) && got <= sent && SentOk(cfg, sent)
    requires LeaderOf(cfg, k.view) == Some(k.node)
    ensures ReportOk(cfg, sent, MakeReport(id, k.view, x))
  {
    hide SentOk; hide KeyHistory; hide InstanceOk; hide Certified; hide LeaderOf; hide Started;
    if x.hi.qc.Some? {
      Level2Facts(cfg, k, x, got, sent);
    } else if x.lo.qc.Some? {
      Level1Facts(cfg, k, x, got, sent);
    } else if x.preQc.Some? {
      PreQcFacts(cfg, k, x, got, sent);
    }
  }

  /** Nothing changes but the coin, the gate and the views reported on. */
  lemma SettleFrame(cfg: Config, id: NodeId, nd: Node, nd': Node, sent: set<Msg>)
    requires NodeOk(cfg, id, nd, sent) && nd.started
    requires nd' == nd.(coin := nd'.coin, gate := nd'.gate, coinViews := nd'.coinViews) && nd.coinViews <= nd'.coinViews
    requires CoinOk(cfg, nd') && StoreOk(nd')
    ensures NodeOk(cfg, id, nd', sent)
  {
    hide NodeOk; hide StoreOk; hide InstancesOk; hide HistoryOk; hide OwnSentOk; hide CountersOk; hide CoinOk;
    hide NodeGrows;
    NodeParts(cfg, id, nd, sent);
    SameInstances(cfg, nd, nd');
    OwnGrows(id, nd, nd', sent);
    CountersFrame(cfg, nd, nd');
    NodeAssembled(cfg, id, nd', sent);
  }

  lemma AskStep(cfg: Config, id: NodeId, nd: Node, nd': Node, sent: set<Msg>)
    requires cfg.n >= 1 && NodeOk(cfg, id, nd, sent) && nd.started && nd.coin.Some?
    requires !nd.coin.value.stage.AskLevel? && nd' == CoinStep(id, nd).0
    ensures NodeOk(cfg, id, nd', sent)
  {
    hide NodeOk; hide StoreOk; hide Enqueue; hide InstancesOk; hide HistoryOk; hide OwnSentOk; hide CountersOk;
    hide GotOk;
    hide LeaderOf; hide DecCert;
    NodeParts(cfg, id, nd, sent);
    var c := nd.coin.value;
    var x := InstanceAt(nd, Key(c.view, c.leader));
    assert InstanceAt(nd', Key(c.view, c.leader)) == x;
    if c.stage.ReadHash? && x.At(c.stage.h).hash in nd.store {
      EnqueueStore(nd, nd', x.At(c.stage.h).hash);
    } else {
      StoreFrame(nd, nd');
    }
    SettleFrame(cfg, id, nd, nd', sent);
  }

  lemma ReportSent(cfg: Config, id: NodeId, nd: Node, nd': Node, sent: set<Msg>)
    requires cfg.n >= 1 && NodeOk(cfg, id, nd, sent) && SentOk(cfg, sent) && nd.started && nd.coin.Some?
    requires nd.coin.value.stage.AskLevel? && nd' == CoinStep(id, nd).0 && cfg.faults <= id < cfg.n
    ensures StepOk(cfg, id, nd', sent, CoinStep(id, nd).1)
  {
    hide NodeOk; hide SentOk; hide StoreOk; hide InstancesOk; hide HistoryOk; hide OwnSentOk; hide CountersOk;
    hide LeaderOf; hide MakeReport; hide InstanceOk; hide KeyHistory; hide ReportOk;
    NodeParts(cfg, id, nd, sent);
    var c := nd.coin.value;
    var k := Key(c.view, c.leader);
    var x := InstanceAt(nd, k);
    StoreFrame(nd, nd');
    SettleFrame(cfg, id, nd, nd', sent);
    KeyParts(cfg, nd, k);
    ReportIsOk(cfg, k, x, nd.got, sent, id);
    ReportShape(id, c.view, x);
    Sends(cfg, id, nd, nd', sent, ReportMsg(MakeReport(id, c.view, x)));
  }

  lemma ReportShape(id: NodeId, view: nat, x: Instance)
    ensures MakeReport(id, view, x).author == id && MakeReport(id, view, x).view == view
  {
  }

  lemma SettleStep(cfg: Config, id: NodeId, nd: Node, nd': Node, sent: set<Msg>)
    requires cfg.n >= 1 && NodeOk(cfg, id, nd, sent) && SentOk(cfg, sent) && nd.started && nd.coin.Some?
    requires nd' == CoinStep(id, nd).0 && cfg.faults <= id < cfg.n
    ensures StepOk(cfg, id, nd', sent, CoinStep(id, nd).1)
  {
    hide NodeOk; hide SentOk;
    if nd.coin.value.stage.AskLevel? {
      hide CoinStep;
      ReportSent(cfg, id, nd, nd', sent);
    } else {
      AskStep(cfg, id, nd, nd', sent);
    }
  }

  // ----- Reports -----

  lemma HeardMore(n: nat, got: set<Msg>, r: Report, view: nat, level: Level)
    requires r.author < n
    ensures HeardFrom(n, got + {ReportMsg(r)}, view, level)
         == HeardFrom(n, got, view, level) + (if r.view == view && r.level == level then {r.author} else {})
  {
    var got' := got + {ReportMsg(r)};
    forall x ensures Reported(got', x, view, level) <==>
      Reported(got, x, view, level) || (x == r.author && r.view == view && r.level == level)
    {
      if Reported(got, x, view, level) {
        var s :| ReportMsg(s) in got && s.author == x && s.view == view && s.level == level;
        assert ReportMsg(s) in got';
      }
      if x == r.author && r.view == view && r.level == level {
        assert ReportMsg(r) in got';
      }
    }
  }

  lemma NotHeard(cfg: Config, got: set<Msg>, sent: set<Msg>, r: Report)
    requires cfg.n >= 1 && SentOk(cfg, sent) && got <= sent && ReportMsg(r) in sent && ReportMsg(r) !in got
    ensures r.author < cfg.n && r.author !in HeardFrom(cfg.n, got, r.view, r.level)
  {
    MsgOf(cfg, sent, ReportMsg(r));
    hide SentOk; hide ReportOk;
    if Reported(got, r.author, r.view, r.level) {
      var s :| ReportMsg(s) in got && s.author == r.author && s.view == r.view && s.level == r.level;
      OnlyReport(cfg, sent, r, s);
    }
  }

  /** A report that is counted comes from a reporter not heard before. */
  lemma CountersStep(cfg: Config, nd: Node, nd': Node, sent: set<Msg>, r: Report, advanced: bool)
    requires cfg.n >= 1 && SentOk(cfg, sent) && nd.got <= sent && ReportMsg(r) in sent && ReportMsg(r) !in nd.got
    requires CountersOk(cfg, nd) && nd'.got == nd.got + {ReportMsg(r)}
    requires (nd'.progress, advanced) == OnReport(nd.progress, High(cfg.n), true, r.view, r.level)
    ensures CountersOk(cfg, nd') && nd.progress.view <= nd'.progress.view
    ensures advanced ==> nd'.progress.view == r.view + 1 > nd.progress.view
    ensures advanced ==> r.level.Level2? || |HeardFrom(cfg.n, nd'.got, r.view, r.level)| >= High(cfg.n)
  {
    hide SentOk; hide High; hide AllOpen; hide HeardFrom; hide OnReport; hide At;
    ReportAdvances(nd.progress, High(cfg.n), true, r.view, r.level, nd'.progress, advanced);
    ReportCounts(nd.progress, High(cfg.n), true, r.view, r.level, r.view);
    HeardCount(cfg, nd.got, sent, r, r.view, r.level);
    forall v: nat
      ensures At(nd'.progress, v).one <= |HeardFrom(cfg.n, nd'.got, v, Level1)|
      ensures At(nd'.progress, v).zero <= |HeardFrom(cfg.n, nd'.got, v, Level0)|
    {
      ReportCounts(nd.progress, High(cfg.n), true, r.view, r.level, v);
      HeardCount(cfg, nd.got, sent, r, v, Level1);
      HeardCount(cfg, nd.got, sent, r, v, Level0);
    }
  }

  lemma HeardCount(cfg: Config, got: set<Msg>, sent: set<Msg>, r: Report, v: nat, level: Level)
    requires cfg.n >= 1 && SentOk(cfg, sent) && got <= sent && ReportMsg(r) in sent && ReportMsg(r) !in got
    ensures |HeardFrom(cfg.n, got + {ReportMsg(r)}, v, level)| >=
      |HeardFrom(cfg.n, got, v, level)| + if r.view == v && r.level == level then 1 else 0
  {
    hide SentOk; hide HeardFrom;
    NotHeard(cfg, got, sent, r);
    HeardMore(cfg.n, got, r, v, level);
  }

  /** Nothing changes but the progress and the batch count. */
  lemma ReportFrame(cfg: Config, id: NodeId, nd: Node, nd': Node, sent: set<Msg>, r: Report)
    requires NodeOk(cfg, id, nd, sent) && nd.started && nd.coin.None? && ReportMsg(r) in sent
    requires nd' == nd.(progress := nd'.progress, taken := nd'.taken, got := nd.got + {ReportMsg(r)})
    requires CountersOk(cfg, nd') && nd.progress.view <= nd'.progress.view
    ensures NodeOk(cfg, id, nd', sent)
  {
    hide NodeOk; hide StoreOk; hide InstancesOk; hide HistoryOk; hide OwnSentOk; hide CountersOk; hide CoinOk;
    hide NodeGrows;
    NodeParts(cfg, id, nd, sent);
    SameInstances(cfg, nd, nd');
    OwnGrows(id, nd, nd', sent);
    NoCoin(cfg, nd');
    StoreFrame(nd, nd');
    NodeAssembled(cfg, id, nd', sent);
  }

  lemma FirstIsJustified(cfg: Config, sent: set<Msg>, got: set<Msg>, r: Report, b: Block)
    requires got <= sent && ReportMsg(r) in sent && b.height.H1? && b.view == r.view + 1 && b.qc == r.qc
    requires r.level.Level2? || |HeardFrom(cfg.n, got, r.view, r.level)| >= High(cfg.n)
    ensures BlockOk(cfg, sent, b)
  {
    hide High;
    ReportersGrow(cfg.n, got, sent, r.view, r.level);
    assert Justifies(cfg, sent, r, b);
  }

  lemma ReportStep(cfg: Config, id: NodeId, nd: Node, nd': Node, sent: set<Msg>, r: Report, ready: bool)
    requires cfg.n >= 1 && NodeOk(cfg, id, nd, sent) && SentOk(cfg, sent) && nd.started && nd.coin.None?
    requires ReportMsg(r) in sent && ReportMsg(r) !in nd.got && cfg.faults <= id < cfg.n
    requires nd' == OnReportMsg(cfg, id, nd, r, ready).0.(got := nd.got + {ReportMsg(r)})
    ensures StepOk(cfg, id, nd', sent, OnReportMsg(cfg, id, nd, r, ready).1)
  {
    hide NodeOk; hide SentOk; hide StoreOk; hide InstancesOk; hide HistoryOk; hide OwnSentOk; hide CountersOk;
    hide CoinOk;
    hide OnReport; hide High; hide HeardFrom; hide BlockOk; hide StepOk;
    NodeParts(cfg, id, nd, sent);
    var o := OnReport(nd.progress, High(cfg.n), true, r.view, r.level);
    CountersStep(cfg, nd, nd', sent, r, o.1);
    ReportFrame(cfg, id, nd, nd', sent, r);
    if o.1 {
      var b := MakeBlock(cfg, id, nd, o.0.view, H1, r.qc, ready);
      FirstIsJustified(cfg, sent, nd'.got, r, b);
      Sends(cfg, id, nd, nd', sent, ProposeMsg(b));
    } else {
      SendsNothing(cfg, id, nd', sent);
    }
  }

  lemma SendsNothing(cfg: Config, id: NodeId, nd': Node, sent: set<Msg>)
    requires cfg.n >= 1 && NodeOk(cfg, id, nd', sent)
    ensures StepOk(cfg, id, nd', sent, None)
  {
  }

  // ----- Start -----

  lemma BeginStep(cfg: Config, id: NodeId, nd: Node, nd': Node, sent: set<Msg>, ready: bool)
    requires cfg.n >= 1 && NodeOk(cfg, id, nd, sent) && SentOk(cfg, sent) && !nd.started && cfg.faults <= id < cfg.n
    requires nd' == Start(cfg, id, nd, ready).0
    ensures StepOk(cfg, id, nd', sent, Start(cfg, id, nd, ready).1)
  {
    hide NodeOk; hide SentOk; hide StoreOk; hide InstancesOk; hide HistoryOk; hide OwnSentOk; hide CountersOk;
    hide CoinOk;
    hide NodeGrows;
    NodeParts(cfg, id, nd, sent);
    SameInstances(cfg, nd, nd');
    OwnGrows(id, nd, nd', sent);
    CountersFrame(cfg, nd, nd');
    NoCoin(cfg, nd');
    StoreFrame(nd, nd');
    NodeAssembled(cfg, id, nd', sent);
    Sends(cfg, id, nd, nd', sent, ProposeMsg(MakeBlock(cfg, id, nd, 0, H1, None, ready)));
  }

  // ----- Sections of instances -----

  lemma TaskNode(cfg: Config, id: NodeId, nd: Node, nd': Node, sent: set<Msg>, k: Key, t: Task)
    requires NodeOk(cfg, id, nd, sent) && nd.started && k in nd.instances && Pending(nd.instances[k], t)
    requires nd' == nd.(instances := nd.instances[k := Run(nd.instances[k], High(cfg.n), t)], taken := nd'.taken)
    ensures NodeOk(cfg, id, nd', sent)
    ensures InstanceOk(cfg, k, nd.instances[k]) && KeyHistory(nd.instances[k], nd.got)
  {
    hide NodeOk; hide StoreOk; hide InstancesOk; hide HistoryOk; hide OwnSentOk; hide CountersOk; hide CoinOk;
    hide NodeGrows;
    hide Run; hide Pending; hide InstanceOk; hide KeyHistory; hide Grows; hide High;
    NodeParts(cfg, id, nd, sent);
    KeyParts(cfg, nd, k);
    var x, y := nd.instances[k], nd'.instances[k];
    assert InstanceAt(nd, k) == x;
    TaskOk(cfg, k, x, y, t);
    TaskHistory(x, y, nd.got, High(cfg.n), t);
    UpdateInstance(cfg, nd, nd', k, y);
    OwnGrows(id, nd, nd', sent);
    CountersFrame(cfg, nd, nd');
    CoinGrows(cfg, nd, nd');
    StoreFrame(nd, nd');
    NodeAssembled(cfg, id, nd', sent);
  }

  lemma VoteOutcome(cfg: Config, k: Key, x: Instance, y: Instance, b: Block)
    requires InstanceOk(cfg, k, x) && Pending(x, SendVote(b)) && y == Run(x, High(cfg.n), SendVote(b))
    ensures x.At(b.height).proposal == Some(b) && Key(b.view, b.author) == k
    ensures !x.At(b.height).voted && y.At(b.height).voted && y.At(b.height).proposal == Some(b)
  {
    hide Inv; hide ProposalOk; hide TallyOk; hide ParkedOk; hide EndingOk; hide FastOk;
    InvParts(x, High(cfg.n));
    SlotHolds(cfg, k, x, b.height);
    var s := x.At(b.height);
    FinishVoteProposal(s, FinishVote(s, b), b, x.proposer, x.view, b.height);
  }

  lemma SendVoteStep(cfg: Config, id: NodeId, nd: Node, nd': Node, sent: set<Msg>, k: Key, b: Block)
    requires cfg.n >= 1 && NodeOk(cfg, id, nd, sent) && SentOk(cfg, sent) && nd.started && cfg.faults <= id < cfg.n
    requires k in nd.instances && Pending(nd.instances[k], SendVote(b))
    requires nd' == RunTask(cfg, id, nd, k, SendVote(b), false).0
    ensures StepOk(cfg, id, nd', sent, Some(VoteOf(VoteFor(id, b))))
  {
    hide NodeOk; hide SentOk; hide InstanceOk; hide Run; hide Pending; hide Hash; hide VoteHistory; hide SpeedHistory;
    hide High;
    hide InstancesOk; hide HistoryOk; hide OwnSentOk; hide CountersOk; hide CoinOk; hide StoreOk; hide StepOk;
    TaskNode(cfg, id, nd, nd', sent, k, SendVote(b));
    VoteOutcome(cfg, k, nd.instances[k], nd'.instances[k], b);
    NodeParts(cfg, id, nd, sent);
    assert ProposeMsg(b) in sent;
    var m := VoteOf(VoteFor(id, b));
    assert VoteOk(sent, m.v);
    Sends(cfg, id, nd, nd', sent, m);
  }

  lemma SpeedOutcome(cfg: Config, k: Key, x: Instance, y: Instance, fv: FinVote)
    requires InstanceOk(cfg, k, x) && Pending(x, SendSpeed(fv)) && y == Run(x, High(cfg.n), SendSpeed(fv))
    ensures x.end.fin == Some(fv) && Key(fv.view, fv.author) == k
    ensures !x.end.sped && y.end.sped && y.end.fin == Some(fv)
  {
    hide Inv; hide ProposalOk; hide TallyOk; hide ParkedOk; hide EndingOk; hide FastOk;
    InvParts(x, High(cfg.n));
    FinHolds(cfg, k, x);
    SpeedSent(x.end, y.end, x.hi, fv, x.proposer, x.view);
  }

  lemma SendSpeedStep(cfg: Config, id: NodeId, nd: Node, nd': Node, sent: set<Msg>, k: Key, fv: FinVote)
    requires cfg.n >= 1 && NodeOk(cfg, id, nd, sent) && SentOk(cfg, sent) && nd.started && cfg.faults <= id < cfg.n
    requires k in nd.instances && Pending(nd.instances[k], SendSpeed(fv))
    requires nd' == RunTask(cfg, id, nd, k, SendSpeed(fv), false).0
    ensures StepOk(cfg, id, nd', sent, Some(SpeedOf(SpeedVoteFor(id, fv.qc))))
  {
    hide NodeOk; hide SentOk; hide InstanceOk; hide Run; hide Pending; hide VoteHistory; hide SpeedHistory; hide High;
    hide InstancesOk; hide HistoryOk; hide OwnSentOk; hide CountersOk; hide CoinOk; hide StoreOk; hide Certified;
    hide StepOk;
    TaskNode(cfg, id, nd, nd', sent, k, SendSpeed(fv));
    SpeedOutcome(cfg, k, nd.instances[k], nd'.instances[k], fv);
    NodeParts(cfg, id, nd, sent);
    assert FinOf(fv) in sent;
    FinFacts(cfg, sent, fv);
    var m := SpeedOf(SpeedVoteFor(id, fv.qc));
    assert SpeedOk(sent, m.sv);
    Sends(cfg, id, nd, nd', sent, m);
  }

  // ----- Certificates -----

  /** The votes behind a certificate were sent by as many distinct nodes. */
  lemma CountedVoters(cfg: Config, s: Slot, got: set<Msg>, sent: set<Msg>, proposer: NodeId, view: nat, q: BlockQc)
    requires cfg.n >= 1 && SentOk(cfg, sent) && VoteHistory(s.votes, got) && got <= sent
    requires LeanConfluence.VotesFor(s, proposer, view, q) && |s.counted| >= 1
    ensures Certified(cfg, sent, q) || |s.counted| < High(cfg.n)
    ensures exists v :: v in s.counted && VoteOf(v) in got && v.proposer == proposer
  {
    hide SentOk; hide Hash; hide High;
    var u :| u in s.counted;
    assert VoteOf(u) in got;
    MsgOf(cfg, sent, VoteOf(u));
    var b :| ProposeMsg(b) in sent && u == VoteFor(u.author, b);
    assert Names(sent, q, b);
    forall v | v in s.counted
      ensures v == VoteFor(v.author, b) && VoteOf(v) in sent && v.author in Voters(cfg.n, sent, q)
    {
      assert s.votes[v] >= 1;
      MsgOf(cfg, sent, VoteOf(v));
    }
    forall v ensures s.counted[v] <= 1 {
      assert s.counted[v] <= s.votes[v];
    }
    var author := (v: VoteMsg) => v.author;
    AuthorsSize(s.counted, author);
    SubsetSize(Authors(s.counted, author), Voters(cfg.n, sent, q));
  }

  /** A certificate about to be used is the node's own and has a quorum behind it. */
  lemma CertifyFacts(cfg: Config, id: NodeId, k: Key, x: Instance, got: set<Msg>, sent: set<Msg>, q: BlockQc)
    requires cfg.n >= 1 && SentOk(cfg, sent) && InstanceOk(cfg, k, x) && KeyHistory(x, got) && got <= sent
    requires (forall m :: m in got ==> Addressed(m, id)) && Pending(x, Certify(q))
    ensures k.node == id && QcAt(q, k.view, q.height, id) && Certified(cfg, sent, q) && !x.At(q.height).certified
  {
    hide SentOk; hide Inv; hide Certified; hide VoteHistory; hide SpeedHistory; hide LeanConfluence.VotesFor;
    hide Pending;
    assert High(cfg.n) >= 1;
    hide High;
    LeanConfluence.CertifyMeans(x, q, High(cfg.n));
    assert q.view == x.view && q.proposer == x.proposer by { QcPlace(x.At(q.height), x.proposer, x.view, q); }
    CountedVoters(cfg, x.At(q.height), got, sent, x.proposer, x.view, q);
    var v :| v in x.At(q.height).counted && VoteOf(v) in got && v.proposer == x.proposer;
    assert Addressed(VoteOf(v), id);
  }

  lemma QcPlace(s: Slot, proposer: NodeId, view: nat, q: BlockQc)
    requires LeanConfluence.VotesFor(s, proposer, view, q)
    ensures q.view == view && q.proposer == proposer
  {
  }

  lemma CertifyOutcome(x: Instance, y: Instance, high: nat, q: BlockQc)
    requires Pending(x, Certify(q)) && y == Run(x, high, Certify(q))
    ensures y.At(q.height).certified
  {
  }

  lemma CertifyStep(cfg: Config, id: NodeId, nd: Node, nd': Node, sent: set<Msg>, k: Key, q: BlockQc, ready: bool)
    requires cfg.n >= 1 && NodeOk(cfg, id, nd, sent) && SentOk(cfg, sent) && nd.started && cfg.faults <= id < cfg.n
    requires k in nd.instances && Pending(nd.instances[k], Certify(q))
    requires nd' == RunTask(cfg, id, nd, k, Certify(q), ready).0
    ensures StepOk(cfg, id, nd', sent, RunTask(cfg, id, nd, k, Certify(q), ready).1)
  {
    hide NodeOk; hide SentOk; hide InstanceOk; hide KeyHistory; hide Run; hide Pending; hide High; hide Certified;
    hide InstancesOk; hide HistoryOk; hide OwnSentOk; hide CountersOk; hide CoinOk; hide StoreOk; hide StepOk;
    TaskNode(cfg, id, nd, nd', sent, k, Certify(q));
    NodeParts(cfg, id, nd, sent);
    CertifyFacts(cfg, id, k, nd.instances[k], nd.got, sent, q);
    CertifyOutcome(nd.instances[k], nd'.instances[k], High(cfg.n), q);
    Sends(cfg, id, nd, nd', sent, RunTask(cfg, id, nd, k, Certify(q), ready).1.value);
  }

  lemma TaskStep(cfg: Config, id: NodeId, nd: Node, nd': Node, sent: set<Msg>, k: Key, t: Task, ready: bool)
    requires cfg.n >= 1 && NodeOk(cfg, id, nd, sent) && SentOk(cfg, sent) && nd.started && cfg.faults <= id < cfg.n
    requires k in nd.instances && Pending(nd.instances[k], t) && nd' == RunTask(cfg, id, nd, k, t, ready).0
    ensures StepOk(cfg, id, nd', sent, RunTask(cfg, id, nd, k, t, ready).1)
  {
    hide NodeOk; hide SentOk; hide Run; hide Pending; hide Hash; hide StepOk; hide High; hide MakeBlock;
    match t {
      case SendVote(b) => SendVoteStep(cfg, id, nd, nd', sent, k, b);
      case SendSpeed(fv) => SendSpeedStep(cfg, id, nd, nd', sent, k, fv);
      case Certify(q) => CertifyStep(cfg, id, nd, nd', sent, k, q, ready);
      case _ =>
        TaskNode(cfg, id, nd, nd', sent, k, t);
        SendsNothing(cfg, id, nd', sent);
    }
  }
}
