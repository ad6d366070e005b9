/** What the lean protocol guarantees over every run. */
module LeanTheorems {
  import opened Blocks
  import opened Quorum
  import opened CommitLog
  import opened LeanSpb
  import opened LeanConservation
  import LeanConfluence
  import opened ViewChange
  import opened LeanNode
  import opened LeanSystem
  import opened LeanInvariant
  import opened LeanSteps
  import opened LeanEvents
  import opened LeanRuns
  import ChainCommit
  import Elector

  // ----- View change -----

  /** The message of this step is a report that completes a level of the current view or a later one. */
  ghost predicate Completing(cfg: Config, p: Progress, r: Report) {
    r.view >= p.view && Reached(Count(At(p, r.view), r.level), r.level, High(cfg.n))
  }

  /** A node changes its view exactly on a report that is the first to complete a level of the current view or a
      later one, and then moves to the view after it. */
  lemma ViewChanges(cfg: Config, run: seq<System>, t: nat, i: NodeId, e: Event)
    requires IsRun(cfg, run) && t + 1 < |run| && CanMove(cfg, run[t], Local(i, e))
    requires run[t + 1] == Apply(cfg, run[t], Local(i, e))
    ensures |run[t].nodes| == |run[t + 1].nodes| == cfg.n && AllOpen(run[t].nodes[i].progress, High(cfg.n))
    ensures var p, p' := run[t].nodes[i].progress, run[t + 1].nodes[i].progress;
      if e.Handle? && e.m.ReportMsg? && Completing(cfg, p, e.m.r) then p'.view == e.m.r.view + 1 > p.view
      else p'.view == p.view
  {
    hide IsRun; hide SystemOk; hide SentOk; hide NodeOk; hide High; hide Step; hide AllOpen; hide OnReport;
    hide HeardFrom;
    hide InstancesOk; hide HistoryOk; hide OwnSentOk; hide CoinOk; hide StoreOk; hide Reached;
    var nd := run[t].nodes[i];
    RunNode(cfg, run, t, i);
    NodeParts(cfg, i, nd, run[t].sent);
    MovedNode(cfg, run[t], Local(i, e), run[t + 1], i);
    StepView(cfg, i, nd, e);
  }

  lemma StepView(cfg: Config, id: NodeId, nd: Node, e: Event)
    requires cfg.n >= 1 && Enabled(nd, e) && AllOpen(nd.progress, High(cfg.n))
    ensures var p, p' := nd.progress, Step(cfg, id, nd, e).0.progress;
      if e.Handle? && e.m.ReportMsg? && Completing(cfg, p, e.m.r) then p'.view == e.m.r.view + 1 > p.view
      else p'.view == p.view
  {
    assert High(cfg.n) >= 1;
    hide High; hide AllOpen; hide Reached;
    if e.Handle? && e.m.ReportMsg? {
      hide OnReport; hide Enabled;
      var r := e.m.r;
      var o := OnReport(nd.progress, High(cfg.n), true, r.view, r.level);
      ReportAdvances(nd.progress, High(cfg.n), true, r.view, r.level, o.0, o.1);
      ReportProgress(cfg, id, nd, e);
    } else {
      hide Step;
      OtherEventsKeepView(cfg, id, nd, e);
    }
  }

  lemma ReportProgress(cfg: Config, id: NodeId, nd: Node, e: Event)
    requires cfg.n >= 1 && Enabled(nd, e) && e.Handle? && e.m.ReportMsg?
    ensures Step(cfg, id, nd, e).0.progress == OnReport(nd.progress, High(cfg.n), true, e.m.r.view, e.m.r.level).0
  {
    hide High; hide OnReport; hide MakeBlock;
  }

  lemma OtherEventsKeepView(cfg: Config, id: NodeId, nd: Node, e: Event)
    requires cfg.n >= 1 && Enabled(nd, e) && !(e.Handle? && e.m.ReportMsg?)
    ensures Step(cfg, id, nd, e).0.progress == nd.progress
  {
    hide High; hide Run; hide Hash; hide Elector.AddElect; hide MakeBlock; hide Deliver; hide MakeReport; hide Enqueue;
    hide InstanceAt; hide Pending; hide DecCert;
  }

  // ----- Certificates -----

  /** Every certificate in a block, a final vote or a report stands for a quorum of distinct voters. */
  lemma CarriedIsCertified(cfg: Config, run: seq<System>, t: nat, m: Msg, q: BlockQc)
    requires IsRun(cfg, run) && t < |run| && m in run[t].sent
    requires (m.ProposeMsg? && m.b.qc == Some(q)) || (m.FinOf? && m.fv.qc == q) || (m.ReportMsg? && m.r.qc == Some(q))
    ensures Certified(cfg, run[t].sent, q)
  {
    hide IsRun; hide SentOk; hide Certified;
    RunSent(cfg, run, t);
    var sent := run[t].sent;
    match m {
      case ProposeMsg(b) => BlockQcEarlier(cfg, sent, b);
      case FinOf(fv) => FinFacts(cfg, sent, fv);
      case ReportMsg(r) => MsgOf(cfg, sent, m);
    }
  }

  /** Every certificate a node holds for an instance stands for a quorum of distinct voters, and the node has
      the block it names in its store. */
  lemma HeldIsCertified(cfg: Config, run: seq<System>, t: nat, i: NodeId, k: Key, h: Height)
    requires IsRun(cfg, run) && t < |run| && i < cfg.n && |run[t].nodes| == cfg.n
    requires InstanceAt(run[t].nodes[i], k).At(h).qc.Some?
    ensures var nd := run[t].nodes[i];
      var q := InstanceAt(nd, k).At(h).qc.value;
      && QcAt(q, k.view, h, k.node) && Certified(cfg, run[t].sent, q)
      && q.hash == InstanceAt(nd, k).At(h).hash && q.hash in nd.store && Hash(nd.store[q.hash]) == q.hash
      && InstanceAt(nd, k).lo.qc.Some?
  {
    hide IsRun; hide SentOk; hide NodeOk; hide Certified; hide InstanceAt; hide InstancesOk; hide HistoryOk;
    hide OwnSentOk;
    hide CountersOk; hide CoinOk; hide InstanceOk; hide KeyHistory; hide Hash;
    RunNode(cfg, run, t, i);
    var nd, sent := run[t].nodes[i], run[t].sent;
    NodeParts(cfg, i, nd, sent);
    KeyParts(cfg, nd, k);
    var x := InstanceAt(nd, k);
    if h.H2? {
      Level2Facts(cfg, k, x, nd.got, sent);
    }
    Level1Facts(cfg, k, x, nd.got, sent);
    CertifiedHash(cfg, sent, x.At(h).qc.value);
    AcceptedIsGot(cfg, k, x, nd.got, h);
  }

  lemma CertifiedHash(cfg: Config, sent: set<Msg>, q: BlockQc)
    requires Certified(cfg, sent, q)
    ensures q.hash != ZERO
  {
    var b :| Names(sent, q, b);
  }

  lemma AcceptedIsGot(cfg: Config, k: Key, x: Instance, got: set<Msg>, h: Height)
    requires InstanceOk(cfg, k, x) && KeyHistory(x, got) && x.At(h).hash != ZERO
    ensures x.At(h).proposal.Some? && ProposeMsg(x.At(h).proposal.value) in got
    ensures x.At(h).hash == Hash(x.At(h).proposal.value)
  {
    InvParts(x, High(cfg.n));
    hide Inv; hide TallyOk; hide ParkedOk; hide EndingOk; hide FastOk; hide Hash; hide VoteHistory; hide SpeedHistory;
  }

  function SpeedVoters(n: nat, sent: set<Msg>, q: BlockQc): set<NodeId> {
    set a | a in Nodes(n) && SpeedOf(SpeedVoteMsg(a, q.proposer, q.hash, q.view)) in sent
  }

  /** A height-2 certificate that a quorum of distinct nodes answered with speed votes. */
  ghost predicate SpeedCertified(cfg: Config, sent: set<Msg>, q: BlockQc) {
    q.height.H2? && Certified(cfg, sent, q) && |SpeedVoters(cfg.n, sent, q)| >= High(cfg.n)
  }

  lemma CountedSpeed(cfg: Config, k: Key, x: Instance, got: set<Msg>, sent: set<Msg>) returns (q: BlockQc)
    requires cfg.n >= 1 && SentOk(cfg, sent) && InstanceOk(cfg, k, x) && SpeedHistory(x.fast.speedVotes, got)
    requires got <= sent
    requires x.fast.isSpeedCert
    ensures QcAt(q, k.view, H2, k.node) && SpeedCertified(cfg, sent, q) && FinOf(FinVote(k.node, k.view, q)) in sent
    ensures exists sv :: SpeedOf(sv) in got && sv.proposer == k.node
  {
    hide SentOk; hide Inv; hide Certified;
    var f := x.fast;
    LeanConfluence.SpeedCertMeans(x, High(cfg.n));
    assert |f.counted| >= 1;
    var u :| u in f.counted;
    var fin := SpeedVoteFin(cfg, sent, got, f, k, u);
    q := fin.qc;
    forall v | v in f.counted ensures v == SpeedVoteFor(v.author, q) && v.author in SpeedVoters(cfg.n, sent, q) {
      var fin' := SpeedVoteFin(cfg, sent, got, f, k, v);
      OnlyFin(cfg, sent, fin, fin');
    }
    forall v ensures f.counted[v] <= 1 {
      assert f.counted[v] <= f.speedVotes[v];
    }
    var author := (v: SpeedVoteMsg) => v.author;
    AuthorsSize(f.counted, author);
    SubsetSize(Authors(f.counted, author), SpeedVoters(cfg.n, sent, q));
  }

  lemma SpeedVoteFin(cfg: Config, sent: set<Msg>, got: set<Msg>, f: Fast, k: Key,
                     v: SpeedVoteMsg) returns (fin: FinVote)
    requires cfg.n >= 1 && SentOk(cfg, sent) && SpeedHistory(f.speedVotes, got) && got <= sent
    requires f.counted[v] <= f.speedVotes[v] && v in f.counted && v.proposer == k.node && v.view == k.view
    ensures SpeedOf(v) in got && v.author < cfg.n && FinOf(fin) in sent && v == SpeedVoteFor(v.author, fin.qc)
    ensures fin.author == k.node && fin.view == k.view && QcAt(fin.qc, k.view, H2, k.node)
    ensures Certified(cfg, sent, fin.qc)
  {
    hide SentOk; hide Certified;
    assert SpeedOf(v) in got;
    MsgOf(cfg, sent, SpeedOf(v));
    fin :| FinOf(fin) in sent && v == SpeedVoteFor(v.author, fin.qc);
    FinFacts(cfg, sent, fin);
  }

  /** The speed certificate of an instance is raised only at its proposer, and stands for a quorum of distinct
      speed voters for one height-2 certificate of it. */
  lemma SpeedCertificate(cfg: Config, run: seq<System>, t: nat, i: NodeId, k: Key) returns (q: BlockQc)
    requires IsRun(cfg, run) && t < |run| && i < cfg.n && |run[t].nodes| == cfg.n
    requires InstanceAt(run[t].nodes[i], k).fast.isSpeedCert
    ensures i == k.node && QcAt(q, k.view, H2, k.node) && SpeedCertified(cfg, run[t].sent, q)
    ensures FinOf(FinVote(k.node, k.view, q)) in run[t].sent
  {
    hide IsRun; hide SentOk; hide NodeOk; hide Certified; hide InstanceAt; hide InstancesOk; hide HistoryOk;
    hide OwnSentOk;
    hide CountersOk; hide CoinOk; hide StoreOk; hide InstanceOk; hide VoteHistory; hide SpeedHistory;
    hide SpeedCertified;
    RunNode(cfg, run, t, i);
    var nd, sent := run[t].nodes[i], run[t].sent;
    NodeParts(cfg, i, nd, sent);
    KeyParts(cfg, nd, k);
    q := CountedSpeed(cfg, k, InstanceAt(nd, k), nd.got, sent);
    var sv :| SpeedOf(sv) in nd.got && sv.proposer == k.node;
    assert Addressed(SpeedOf(sv), i);
  }

  // ----- Chains -----

  /** The certificate in a block names a block at a strictly smaller position. */
  lemma ChainDescends(cfg: Config, run: seq<System>, t: nat, c: Block) returns (b: Block)
    requires IsRun(cfg, run) && t < |run| && ProposeMsg(c) in run[t].sent && c.qc.Some?
    ensures Names(run[t].sent, c.qc.value, b) && LayerOf(b) < LayerOf(c)
  {
    hide IsRun; hide SentOk; hide Hash;
    RunSent(cfg, run, t);
    b := ParentOf(cfg, run[t].sent, c);
  }

  lemma ParentOf(cfg: Config, sent: set<Msg>, c: Block) returns (b: Block)
    requires cfg.n >= 1 && SentOk(cfg, sent) && ProposeMsg(c) in sent && c.qc.Some?
    ensures Names(sent, c.qc.value, b) && LayerOf(b) < LayerOf(c)
  {
    hide SentOk; hide Hash;
    BlockQcEarlier(cfg, sent, c);
    b :| Names(sent, c.qc.value, b);
  }

  /** The block and everything its certificates lead to is stored, each block under its hash. */
  ghost predicate HasChain(sent: set<Msg>, store: Store, c: Block)
    decreases LayerOf(c)
  {
    && Hash(c) in store && store[Hash(c)] == c
    && forall b :: c.qc.Some? && Names(sent, c.qc.value, b) && LayerOf(b) < LayerOf(c) ==> HasChain(sent, store, b)
  }

  /** The walk of the commit loop over a stored chain ends, with every ancestor found. */
  lemma {:induction false} ChainIsKept(cfg: Config, run: seq<System>, t: nat, store: Store, c: Block)
    requires IsRun(cfg, run) && t < |run| && ProposeMsg(c) in run[t].sent && HasChain(run[t].sent, store, c)
    ensures ChainCommit.Kept(store, c)
    decreases LayerOf(c)
  {
    hide IsRun; hide Hash;
    if c.qc.Some? {
      var b := ChainDescends(cfg, run, t, c);
      ChainIsKept(cfg, run, t, store, b);
    }
  }
}
