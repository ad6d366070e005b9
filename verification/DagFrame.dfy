/** How the parts of the invariant survive changes they do not depend on. */
module DagFrame {
  import opened Blocks
  import opened Quorum
  import opened CommitLog
  import opened DagNode
  import opened DagInvariant
  import Spb
  import opened SpbGrowth

  // ----- More messages sent -----

  lemma CertifiedGrows(cfg: Config, sent: set<Msg>, sent': set<Msg>, q: BlockQc)
    requires sent <= sent' && Certified(cfg, sent, q)
    ensures Certified(cfg, sent', q)
  {
    var b :| Names(sent, q, b);
    assert Names(sent', q, b);
    SubsetSize(Voters(cfg.n, sent, q), Voters(cfg.n, sent', q));
  }

  lemma RefsGrow(cfg: Config, sent: set<Msg>, sent': set<Msg>, b: Block)
    requires sent <= sent' && RefsOk(cfg, sent, b)
    ensures RefsOk(cfg, sent', b)
  {
    hide Certified;
    forall q | q in b.references && Certified(cfg, sent, q) ensures Certified(cfg, sent', q) {
      CertifiedGrows(cfg, sent, sent', q);
    }
  }

  lemma VotesSentFrame(id: NodeId, nd: Node, sent: set<Msg>, sent': set<Msg>)
    requires VotesSentOk(id, nd, sent) && sent <= sent'
    requires forall v :: Voting(v) in sent' && v.author == id ==> Voting(v) in sent
    requires forall sv :: SpeedVoting(sv) in sent' && sv.author == id ==> SpeedVoting(sv) in sent
    ensures VotesSentOk(id, nd, sent')
  {
  }

  /** Messages of other nodes do not matter to what a node has sent. */
  lemma OthersSend(cfg: Config, id: NodeId, nd: Node, sent: set<Msg>, m: Msg)
    requires NodeOk(cfg, id, nd, sent) && Sender(m) != id
    ensures NodeOk(cfg, id, nd, sent + {m})
  {
    hide InstancesOk; hide HistoryOk; hide ScanOk; hide WeakVotesOk; hide SpeedNumsOk; hide ElectorOk; hide StoreOk;
    hide CoinOk;
    hide VotesSentOk;
    VotesSentFrame(id, nd, sent, sent + {m});
  }

  lemma SentKeepsBlocks(cfg: Config, sent: set<Msg>, sent': set<Msg>)
    requires SentOk(cfg, sent) && sent <= sent'
    ensures forall b :: ProposeMsg(b) in sent ==> RefsOk(cfg, sent', b)
    ensures forall v :: Voting(v) in sent ==> exists b :: ProposeMsg(b) in sent' && v == VoteFor(v.author, b)
  {
    hide RefsOk;
    forall b | ProposeMsg(b) in sent ensures RefsOk(cfg, sent', b) {
      RefsGrow(cfg, sent, sent', b);
    }
    forall v | Voting(v) in sent ensures exists b :: ProposeMsg(b) in sent' && v == VoteFor(v.author, b) {
      var b :| ProposeMsg(b) in sent && v == VoteFor(v.author, b);
      assert ProposeMsg(b) in sent';
    }
  }

  lemma SendVoteKeeps(cfg: Config, sent: set<Msg>, v: VoteMsg, b: Block)
    requires SentOk(cfg, sent) && ProposeMsg(b) in sent && v == VoteFor(v.author, b) && v.author < cfg.n
    ensures SentOk(cfg, sent + {Voting(v)})
  {
    SentKeepsBlocks(cfg, sent, sent + {Voting(v)});
    hide RefsOk;
    assert ProposeMsg(b) in sent + {Voting(v)};
  }

  lemma SendOtherKeeps(cfg: Config, sent: set<Msg>, m: Msg)
    requires SentOk(cfg, sent) && (m.SpeedVoting? || m.ElectMsg?) && Sender(m) < cfg.n
    ensures SentOk(cfg, sent + {m})
  {
    SentKeepsBlocks(cfg, sent, sent + {m});
    hide RefsOk;
  }

  lemma SendBlockKeeps(cfg: Config, sent: set<Msg>, b: Block)
    requires SentOk(cfg, sent) && b.author < cfg.n && RefsOk(cfg, sent, b)
    requires forall c :: ProposeMsg(c) in sent ==> !SamePosition(b, c)
    ensures SentOk(cfg, sent + {ProposeMsg(b)})
  {
    SentKeepsBlocks(cfg, sent, sent + {ProposeMsg(b)});
    RefsGrow(cfg, sent, sent + {ProposeMsg(b)}, b);
    hide RefsOk;
  }

  // ----- A node moves on -----

  /** Nothing a node has done is undone. */
  ghost predicate NodeGrows(nd: Node, nd': Node) {
    && (forall k :: Grows(InstanceAt(nd, k), InstanceAt(nd', k)))
    && (nd.started ==> nd'.started)
    && Layer(nd.view, nd.height) <= Layer(nd'.view, nd'.height)
    && nd.got <= nd'.got
  }

  lemma HoldsGrows(nd: Node, nd': Node, q: BlockQc)
    requires NodeGrows(nd, nd') && Holds(nd, q)
    ensures Holds(nd', q)
  {
    var k := Key(q.view, q.proposer);
    assert Grows(InstanceAt(nd, k), InstanceAt(nd', k));
  }

  lemma GrowthKeepsVotesSent(id: NodeId, nd: Node, nd': Node, sent: set<Msg>)
    requires VotesSentOk(id, nd, sent) && NodeGrows(nd, nd')
    ensures VotesSentOk(id, nd', sent)
  {
    forall v | Voting(v) in sent && v.author == id
      ensures var s := InstanceAt(nd', Key(v.view, v.proposer)).At(v.height);
        s.voted && s.proposal.Some? && v == VoteFor(id, s.proposal.value)
    {
      assert Grows(InstanceAt(nd, Key(v.view, v.proposer)), InstanceAt(nd', Key(v.view, v.proposer)));
    }
    forall sv | SpeedVoting(sv) in sent && sv.author == id
      ensures var s := InstanceAt(nd', Key(sv.view, sv.proposer)).hi;
        s.announced && s.qc.Some? && sv == SpeedVoteFor(id, s.qc.value)
    {
      assert Grows(InstanceAt(nd, Key(sv.view, sv.proposer)), InstanceAt(nd', Key(sv.view, sv.proposer)));
    }
  }

  lemma GrowthKeepsCertified(n: nat, nd: Node, nd': Node, view: nat)
    requires NodeGrows(nd, nd')
    ensures |CertifiedProposers(n, nd, view)| <= |CertifiedProposers(n, nd', view)|
  {
    forall p | QcAt(nd, Key(view, p), H2).Some? ensures QcAt(nd', Key(view, p), H2).Some? {
      assert Grows(InstanceAt(nd, Key(view, p)), InstanceAt(nd', Key(view, p)));
    }
    SubsetSize(CertifiedProposers(n, nd, view), CertifiedProposers(n, nd', view));
  }

  lemma GrowthKeepsSent(cfg: Config, id: NodeId, nd: Node, nd': Node, sent: set<Msg>)
    requires VotesSentOk(id, nd, sent) && ElectsSentOk(cfg, id, nd, sent) && BlocksSentOk(id, nd, sent)
    requires NodeGrows(nd, nd')
    ensures VotesSentOk(id, nd', sent) && ElectsSentOk(cfg, id, nd', sent) && BlocksSentOk(id, nd', sent)
  {
    GrowthKeepsVotesSent(id, nd, nd', sent);
    forall view | ElectMsg(id, view) in sent ensures |CertifiedProposers(cfg.n, nd', view)| >= High(cfg.n) {
      GrowthKeepsCertified(cfg.n, nd, nd', view);
    }
    hide VotesSentOk;
    forall b, q | ProposeMsg(b) in sent && b.author == id && q in b.references ensures Holds(nd', q) {
      HoldsGrows(nd, nd', q);
    }
  }

  lemma GrowthKeepsScan(cfg: Config, nd: Node, nd': Node)
    requires ScanOk(cfg, nd) && NodeGrows(nd, nd')
    requires nd'.scan == nd.scan && nd'.view == nd.view && nd'.height == nd.height && nd'.started == nd.started
    ensures ScanOk(cfg, nd')
  {
    if nd.scan.Some? {
      forall q | q in nd.scan.value.refs ensures Holds(nd', q) {
        HoldsGrows(nd, nd', q);
      }
    }
  }

  // ----- What each event leaves alone -----

  lemma ReceiveFrame(cfg: Config, id: NodeId, nd: Node, m: Msg)
    requires cfg.n >= 1
    ensures var nd' := Receive(cfg, id, nd, m).0;
      && nd'.started == nd.started && nd'.view == nd.view && nd'.height == nd.height && nd'.taken == nd.taken
      && nd'.gate == nd.gate && nd'.scan == nd.scan && nd'.callBack == nd.callBack && nd'.got == nd.got + {m}
      && nd'.store == (if m.ProposeMsg? then nd.store[Hash(m.b) := m.b] else nd.store)
      && (!m.ElectMsg? ==> nd'.elector == nd.elector && nd'.coin == nd.coin)
  {
    hide Hash; hide High; hide Spb.Deliver; hide AddWeakVotes; hide Elector.AddElect; hide InstanceAt;
    match m {
      case ProposeMsg(_) =>
      case Voting(_) =>
      case SpeedVoting(_) =>
      case ElectMsg(_, _) =>
    }
  }

  lemma TaskFrame(cfg: Config, id: NodeId, nd: Node, k: Key, t: Spb.Task)
    requires k in nd.instances && Spb.Pending(nd.instances[k], t)
    ensures var nd' := RunTask(cfg, id, nd, k, t).0;
      nd' == nd.(instances := nd'.instances, callBack := nd'.callBack)
  {
    hide Hash; hide High; hide Spb.Run; hide Spb.Pending;
  }

  lemma SettleFrame(cfg: Config, nd: Node)
    requires nd.coin.Some?
    ensures var nd' := CoinStep(cfg, nd);
      && nd' == nd.(gate := nd'.gate, coin := nd'.coin, scan := nd'.scan)
      && (nd'.scan == nd.scan || (nd'.scan.Some? && nd'.scan.value.next == 0))
      && (nd'.coin.Some? ==> nd'.coin.value.view == nd.coin.value.view)
  {
    hide CommitHeight; hide Enqueue; hide InstanceAt; hide Advance;
    var c := nd.coin.value;
    var done := nd.(coin := None);
    AdvanceFrame(done, c.view + 1, H1);
    if c.read.Some? {
      var d := InstanceAt(nd, Key(c.view, c.leader)).At(c.read.value).hash;
      if d in nd.store {
        AdvanceFrame(done.(gate := Enqueue(nd.gate, nd.store[d])), c.view + 1, H1);
      }
    }
  }

  lemma AdvanceFrame(nd: Node, view: nat, h: Height)
    ensures var nd' := Advance(nd, view, h);
      nd' == nd.(scan := nd'.scan) && (nd'.scan == nd.scan || (nd'.scan.Some? && nd'.scan.value.next == 0))
  {
  }
}
