/** What the Big protocol guarantees over every run. */
module BigTheorems {
  import opened Blocks
  import opened Quorum
  import opened CommitLog
  import opened ViewChange
  import opened BigNode
  import opened BigSystem
  import opened BigInvariant
  import opened BigSteps
  import opened BigEvents
  import opened BigRuns
  import Spb
  import opened SpbGrowth
  import ChainCommit
  import Elector

  // ----- View change -----

  /** The message of this step is a report that completes a level of the current view or a later one. */
  ghost predicate Completing(cfg: Config, p: Progress, r: Report) {
    r.view >= p.view && Reached(Count(At(p, r.view), r.level), r.level, High(cfg.n))
  }

  /** A node changes its view exactly on a report that is the first to complete a level of the current view or a
      later one, and then moves to the view after it. */
  lemma ViewChanges(cfg: Config, run: seq<System>, t: nat, i: NodeId, e: Event)
    requires IsRun(cfg, run) && t + 1 < |run| && CanMove(cfg, run[t], Local(i, e))
    requires run[t + 1] == Apply(cfg, run[t], Local(i, e))
    ensures |run[t].nodes| == |run[t + 1].nodes| == cfg.n && AllOpen(run[t].nodes[i].progress, High(cfg.n))
    ensures var p, p' := run[t].nodes[i].progress, run[t + 1].nodes[i].progress;
      if e.Handle? && e.m.ReportMsg? && Completing(cfg, p, e.m.r) then p'.view == e.m.r.view + 1 > p.view
      else p'.view == p.view
  {
    hide IsRun; hide SystemOk; hide SentOk; hide NodeOk; hide High; hide Step; hide AllOpen; hide OnReport;
    hide HeardFrom;
    hide InstancesOk; hide HistoryOk; hide OwnSentOk; hide CoinOk; hide StoreOk; hide Reached;
    var nd := run[t].nodes[i];
    RunNode(cfg, run, t, i);
    NodeParts(cfg, i, nd, run[t].sent);
    MovedNode(cfg, run[t], Local(i, e), run[t + 1], i);
    StepView(cfg, i, nd, e);
  }

  lemma StepView(cfg: Config, id: NodeId, nd: Node, e: Event)
    requires cfg.n >= 1 && Enabled(nd, e) && AllOpen(nd.progress, High(cfg.n))
    ensures var p, p' := nd.progress, Step(cfg, id, nd, e).0.progress;
      if e.Handle? && e.m.ReportMsg? && Completing(cfg, p, e.m.r) then p'.view == e.m.r.view + 1 > p.view
      else p'.view == p.view
  {
    assert High(cfg.n) >= 1;
    hide High; hide AllOpen; hide Reached;
    if e.Handle? && e.m.ReportMsg? {
      hide OnReport; hide Enabled;
      var r := e.m.r;
      var o := OnReport(nd.progress, High(cfg.n), false, r.view, r.level);
      ReportAdvances(nd.progress, High(cfg.n), false, r.view, r.level, o.0, o.1);
      ReportProgress(cfg, id, nd, e);
    } else {
      hide Step;
      OtherEventsKeepView(cfg, id, nd, e);
    }
  }

  lemma ReportProgress(cfg: Config, id: NodeId, nd: Node, e: Event)
    requires cfg.n >= 1 && Enabled(nd, e) && e.Handle? && e.m.ReportMsg?
    ensures Step(cfg, id, nd, e).0.progress == OnReport(nd.progress, High(cfg.n), false, e.m.r.view, e.m.r.level).0
  {
    hide High; hide OnReport; hide MakeBlock;
  }

  lemma OtherEventsKeepView(cfg: Config, id: NodeId, nd: Node, e: Event)
    requires cfg.n >= 1 && Enabled(nd, e) && !(e.Handle? && e.m.ReportMsg?)
    ensures Step(cfg, id, nd, e).0.progress == nd.progress
  {
    hide High; hide Spb.Run; hide Hash; hide Elector.AddElect; hide MakeBlock; hide Spb.Deliver; hide MakeReport;
    hide Enqueue;
    hide InstanceAt; hide Spb.Pending; hide DecCert; hide Spb.Emits;
  }

  // ----- Local availability -----

  /** Every certificate a node has formed stands for a quorum of distinct voters, and the block it names is in the
      node's store under the hash of the instance. */
  lemma CertificateIsAvailable(cfg: Config, run: seq<System>, t: nat, i: NodeId, k: Key, h: Height)
    requires IsRun(cfg, run) && t < |run| && i < cfg.n && |run[t].nodes| == cfg.n
    requires InstanceAt(run[t].nodes[i], k).At(h).qc.Some?
    ensures var nd := run[t].nodes[i];
      var q := InstanceAt(nd, k).At(h).qc.value;
      && QcAt(q, k.view, h, k.node) && Certified(cfg, run[t].sent, q)
      && q.hash == InstanceAt(nd, k).At(h).hash && q.hash in nd.store && Hash(nd.store[q.hash]) == q.hash
  {
    hide IsRun; hide SentOk; hide NodeOk; hide Certified; hide InstanceAt; hide InstancesOk; hide HistoryOk;
    hide OwnSentOk;
    hide CountersOk; hide CoinOk; hide InstanceOk; hide KeyHistory; hide Hash;
    RunNode(cfg, run, t, i);
    var nd, sent := run[t].nodes[i], run[t].sent;
    NodeParts(cfg, i, nd, sent);
    KeyParts(cfg, nd, k);
    QcFacts(cfg, k, InstanceAt(nd, k), nd.got, sent, h);
  }

  /** Whenever processCoin is about to read a hash, the block is in the store: the error branch is dead. */
  lemma CommitLookupResolves(cfg: Config, run: seq<System>, t: nat, i: NodeId)
    requires IsRun(cfg, run) && t < |run| && i < cfg.n && |run[t].nodes| == cfg.n
    requires var nd := run[t].nodes[i]; nd.coin.Some? && nd.coin.value.stage.ReadHash?
    ensures var nd := run[t].nodes[i];
      var c := nd.coin.value;
      InstanceAt(nd, Key(c.view, c.leader)).At(c.stage.h).hash in nd.store
  {
    hide IsRun; hide SentOk; hide NodeOk; hide Certified; hide InstanceAt; hide InstancesOk; hide HistoryOk;
    hide OwnSentOk;
    hide CountersOk; hide StoreOk; hide KeyHistory; hide Hash; hide LeaderOf; hide Elector.Sound; hide InstanceOk;
    RunNode(cfg, run, t, i);
    var nd := run[t].nodes[i];
    NodeParts(cfg, i, nd, run[t].sent);
    var c := nd.coin.value;
    var k := Key(c.view, c.leader);
    KeyParts(cfg, nd, k);
    if c.stage.h.H2? {
      FlagNeedsQc(cfg, k, InstanceAt(nd, k));
    }
    CertificateIsAvailable(cfg, run, t, i, k, c.stage.h);
  }

  lemma FlagNeedsQc(cfg: Config, k: Key, x: Spb.Instance)
    requires InstanceOk(cfg, k, x) && x.fast.isSpeedCert
    ensures x.hi.qc.Some?
  {
    SpeedCertMeans(x, High(cfg.n));
  }

  // ----- The speed path -----

  /** Two speed votes of one node for one proposer and view are the same. */
  lemma SpeedVotesAgree(cfg: Config, run: seq<System>, t: nat, u: SpeedVoteMsg, v: SpeedVoteMsg)
    requires IsRun(cfg, run) && t < |run| && SpeedVoting(u) in run[t].sent && SpeedVoting(v) in run[t].sent
    requires u.author == v.author && u.proposer == v.proposer && u.view == v.view
    ensures u == v
  {
    hide IsRun; hide SentOk; hide NodeOk; hide InstanceAt; hide InstancesOk; hide HistoryOk; hide CountersOk;
    hide CoinOk; hide StoreOk;
    RunSent(cfg, run, t);
    MsgOf(cfg, run[t].sent, SpeedVoting(u));
    RunNode(cfg, run, t, u.author);
    NodeParts(cfg, u.author, run[t].nodes[u.author], run[t].sent);
    assert Backed(u.author, run[t].nodes[u.author], SpeedVoting(u));
    assert Backed(u.author, run[t].nodes[u.author], SpeedVoting(v));
  }

  /** A speed vote goes to the instance of its author and is dropped there unless the author is also its proposer:
      no instance ever counts more than one, so the flag can be raised only in a committee whose quorum is one
      node. */
  lemma SpeedFlagNeedsTinyCommittee(cfg: Config, run: seq<System>, t: nat, i: NodeId, k: Key)
    requires IsRun(cfg, run) && t < |run| && i < cfg.n && |run[t].nodes| == cfg.n
    ensures |InstanceAt(run[t].nodes[i], k).fast.counted| <= 1
    ensures InstanceAt(run[t].nodes[i], k).fast.isSpeedCert ==> cfg.n <= 3
  {
    hide IsRun; hide SentOk; hide NodeOk; hide InstanceAt; hide InstancesOk; hide HistoryOk; hide OwnSentOk;
    hide CountersOk;
    hide CoinOk; hide StoreOk; hide InstanceOk; hide VoteHistory;
    RunNode(cfg, run, t, i);
    var nd := run[t].nodes[i];
    NodeParts(cfg, i, nd, run[t].sent);
    KeyParts(cfg, nd, k);
    var f := InstanceAt(nd, k).fast;
    CountedIsForUs(cfg, k, InstanceAt(nd, k));
    forall u, v | u in f.counted && v in f.counted ensures u == v {
      assert f.speedVotes[u] >= 1 && f.speedVotes[v] >= 1;
      SpeedVotesAgree(cfg, run, t, u, v);
    }
    AtMostOne(f.counted, f.speedVotes);
    if f.isSpeedCert {
      FlagNeedsQuorum(cfg, k, InstanceAt(nd, k));
    }
  }

  lemma CountedIsForUs(cfg: Config, k: Key, x: Spb.Instance)
    requires InstanceOk(cfg, k, x)
    ensures forall sv :: sv in x.fast.counted ==> sv.proposer == k.node && sv.view == k.view
    ensures forall sv :: x.fast.counted[sv] <= x.fast.speedVotes[sv]
  {
    SpeedCounted(x, High(cfg.n));
  }

  lemma FlagNeedsQuorum(cfg: Config, k: Key, x: Spb.Instance)
    requires InstanceOk(cfg, k, x) && x.fast.isSpeedCert
    ensures |x.fast.counted| >= High(cfg.n)
  {
    SpeedCertMeans(x, High(cfg.n));
  }

  lemma AtMostOne(ms: multiset<SpeedVoteMsg>, bound: multiset<SpeedVoteMsg>)
    requires forall u, v :: u in ms && v in ms ==> u == v
    requires forall v :: ms[v] <= bound[v] <= 1
    ensures |ms| <= 1
  {
    if v :| v in ms {
      assert ms == multiset{v};
    } else {
      assert ms == multiset{};
    }
  }

  // ----- Chains -----

  /** The certificate in a block names a block at a strictly smaller position. */
  lemma ChainDescends(cfg: Config, run: seq<System>, t: nat, c: Block) returns (b: Block)
    requires IsRun(cfg, run) && t < |run| && ProposeMsg(c) in run[t].sent && c.qc.Some?
    ensures Names(run[t].sent, c.qc.value, b) && LayerOf(b) < LayerOf(c)
  {
    hide IsRun; hide SentOk; hide Hash;
    RunSent(cfg, run, t);
    b := ParentOf(cfg, run[t].sent, c);
  }

  lemma ParentOf(cfg: Config, sent: set<Msg>, c: Block) returns (b: Block)
    requires cfg.n >= 1 && SentOk(cfg, sent) && ProposeMsg(c) in sent && c.qc.Some?
    ensures Names(sent, c.qc.value, b) && LayerOf(b) < LayerOf(c)
  {
    hide SentOk; hide Hash;
    BlockQcEarlier(cfg, sent, c);
    b :| Names(sent, c.qc.value, b);
  }

  /** The block and everything its certificates lead to is stored, each block under its hash. */
  ghost predicate HasChain(sent: set<Msg>, store: Store, c: Block)
    decreases LayerOf(c)
  {
    && Hash(c) in store && store[Hash(c)] == c
    && forall b :: c.qc.Some? && Names(sent, c.qc.value, b) && LayerOf(b) < LayerOf(c) ==> HasChain(sent, store, b)
  }

  /** The walk of the commit loop over a stored chain ends, with every ancestor found. */
  lemma {:induction false} ChainIsKept(cfg: Config, run: seq<System>, t: nat, store: Store, c: Block)
    requires IsRun(cfg, run) && t < |run| && ProposeMsg(c) in run[t].sent && HasChain(run[t].sent, store, c)
    ensures ChainCommit.Kept(store, c)
    decreases LayerOf(c)
  {
    hide IsRun; hide Hash;
    if c.qc.Some? {
      var b := ChainDescends(cfg, run, t, c);
      ChainIsKept(cfg, run, t, store, b);
    }
  }
}
