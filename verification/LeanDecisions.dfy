/** What the nodes of the lean protocol decide to commit, and how their decisions fit together. */
module LeanDecisions {
  import opened Blocks
  import opened Quorum
  import opened CommitLog
  import opened LeanSpb
  import opened ViewChange
  import opened LeanNode
  import opened LeanSystem
  import opened LeanInvariant
  import opened LeanSteps
  import opened LeanEvents
  import opened LeanRuns
  import opened LeanTheorems
  import opened LeanSafety
  import opened LeanRestarts
  import opened LeanTurnout
  import Elector

  /** The hashes of two different proposed blocks differ. */
  ghost predicate Collisionless(sent: set<Msg>) {
    forall b, c :: ProposeMsg(b) in sent && ProposeMsg(c) in sent && Hash(b) == Hash(c) ==> b == c
  }

  lemma FewerCollide(sent: set<Msg>, sent': set<Msg>)
    requires sent <= sent' && Collisionless(sent')
    ensures Collisionless(sent)
  {
    hide Hash;
  }

  /** Why a block of the elected leader is committed: a quorum voted for the leader's height-2 block, which decides
      the height-1 block below it; or a quorum answered the height-2 certificate with speed votes, which decides
      the height-2 block. */
  ghost predicate DecidedBy(cfg: Config, sent: set<Msg>, q: BlockQc, b: Block)
    requires cfg.n >= 1
  {
    && ProposeMsg(b) in sent && LeaderOf(cfg, b.view) == Some(b.author) && QcAt(q, b.view, H2, b.author)
    && if b.height.H1? then Certified(cfg, sent, q) else SpeedCertified(cfg, sent, q) && Names(sent, q, b)
  }

  ghost predicate Decided(cfg: Config, sent: set<Msg>, b: Block)
    requires cfg.n >= 1
  {
    exists q :: DecidedBy(cfg, sent, q, b)
  }

  lemma DecidedGrows(cfg: Config, sent: set<Msg>, sent': set<Msg>, b: Block)
    requires cfg.n >= 1 && sent <= sent' && Decided(cfg, sent, b)
    ensures Decided(cfg, sent', b)
  {
    hide LeaderOf; hide Certified; hide Hash;
    var q :| DecidedBy(cfg, sent, q, b);
    CertifiedGrows(cfg, sent, sent', q);
    SubsetSize(SpeedVoters(cfg.n, sent, q), SpeedVoters(cfg.n, sent', q));
    assert DecidedBy(cfg, sent', q, b);
  }

  ghost predicate QueueOk(cfg: Config, nd: Node, sent: set<Msg>)
    requires cfg.n >= 1
  {
    (forall b :: b in nd.gate.queue ==> Decided(cfg, sent, b)) && GateAtLast(nd.gate)
  }

  // ----- The block processCoin reads -----

  /** The block stored under the hash of an instance is the proposal the instance accepted. */
  lemma StoredIsAccepted(cfg: Config, k: Key, x: Instance, nd: Node, sent: set<Msg>, h: Height)
    requires InstanceOk(cfg, k, x) && KeyHistory(x, nd.got) && StoreOk(nd) && nd.got <= sent && Collisionless(sent)
    requires x.At(h).hash in nd.store
    ensures var b := nd.store[x.At(h).hash];
      && ProposeMsg(b) in sent && Hash(b) == x.At(h).hash
      && b.author == k.node && b.view == k.view && b.height == h
  {
    hide InstanceOk; hide KeyHistory; hide Hash;
    var d := x.At(h).hash;
    assert Hash(nd.store[d]) == d;
    AcceptedIsGot(cfg, k, x, nd.got, h);
    SlotHolds(cfg, k, x, h);
  }

  lemma TargetDecided(cfg: Config, k: Key, x: Instance, nd: Node, sent: set<Msg>, h: Height)
    requires cfg.n >= 1 && SentOk(cfg, sent) && LeaderOf(cfg, k.view) == Some(k.node)
    requires InstanceOk(cfg, k, x) && KeyHistory(x, nd.got) && StoreOk(nd) && nd.got <= sent && Collisionless(sent)
    requires x.At(h).hash in nd.store && (if h.H1? then DecCert(x) else x.fast.isSpeedCert)
    ensures Decided(cfg, sent, nd.store[x.At(h).hash])
  {
    hide SentOk; hide LeaderOf; hide Hash; hide StoreOk; hide Collisionless; hide InstanceOk; hide Certified;
    hide VoteHistory;
    hide SpeedHistory; hide ProposalHistory;
    StoredIsAccepted(cfg, k, x, nd, sent, h);
    var b := nd.store[x.At(h).hash];
    if h.H1? {
      Level2Facts(cfg, k, x, nd.got, sent);
      assert DecidedBy(cfg, sent, x.hi.qc.value, b);
    } else {
      var q := CountedSpeed(cfg, k, x, nd.got, sent);
      NamesSecond(cfg, sent, q, b);
      assert DecidedBy(cfg, sent, q, b);
    }
  }

  lemma NamesSecond(cfg: Config, sent: set<Msg>, q: BlockQc, b: Block)
    requires cfg.n >= 1 && SentOk(cfg, sent) && SpeedCertified(cfg, sent, q) && ProposeMsg(b) in sent
    requires QcAt(q, b.view, b.height, b.author)
    ensures Names(sent, q, b)
  {
    hide SentOk; hide Hash;
    var a :| Names(sent, q, a);
    OnlyBlock(cfg, sent, a, b);
  }

  // ----- Queues along a run -----

  lemma SettleQueue(cfg: Config, id: NodeId, nd: Node, sent: set<Msg>)
    requires cfg.n >= 1 && SentOk(cfg, sent) && Collisionless(sent) && NodeOk(cfg, id, nd, sent)
    requires QueueOk(cfg, nd, sent)
    requires nd.coin.Some?
    ensures QueueOk(cfg, CoinStep(id, nd).0, sent)
  {
    hide NodeOk; hide SentOk; hide LeaderOf; hide Decided; hide Collisionless; hide InstanceOk; hide KeyHistory;
    hide MakeReport;
    hide InstancesOk; hide HistoryOk; hide OwnSentOk; hide CountersOk; hide StoreOk; hide DecCert; hide InstanceAt;
    NodeParts(cfg, id, nd, sent);
    var c := nd.coin.value;
    var k := Key(c.view, c.leader);
    KeyParts(cfg, nd, k);
    if c.stage.ReadHash? && InstanceAt(nd, k).At(c.stage.h).hash in nd.store {
      TargetDecided(cfg, k, InstanceAt(nd, k), nd, sent, c.stage.h);
      GateKeeps(nd.gate, nd.store[InstanceAt(nd, k).At(c.stage.h).hash]);
    }
  }

  /** Only processCoin changes the queue. */
  lemma OtherEventsKeepQueue(cfg: Config, id: NodeId, nd: Node, e: Event)
    requires cfg.n >= 1 && Enabled(nd, e) && !e.Settle?
    ensures Step(cfg, id, nd, e).0.gate == nd.gate
  {
    hide High; hide Run; hide Hash; hide MakeBlock; hide Deliver; hide OnReport; hide InstanceAt; hide Pending;
    hide Elector.AddElect;
  }

  lemma QueueGrows(cfg: Config, nd: Node, sent: set<Msg>, sent': set<Msg>)
    requires cfg.n >= 1 && sent <= sent' && QueueOk(cfg, nd, sent)
    ensures QueueOk(cfg, nd, sent')
  {
    hide Decided;
    forall b | b in nd.gate.queue ensures Decided(cfg, sent', b) {
      DecidedGrows(cfg, sent, sent', b);
    }
  }

  lemma MoveQueue(cfg: Config, g: System, mv: Move, g': System, i: NodeId)
    requires SystemOk(cfg, g) && CanMove(cfg, g, mv) && g' == Apply(cfg, g, mv) && i < cfg.n == |g.nodes|
    requires Collisionless(g.sent) && QueueOk(cfg, g.nodes[i], g.sent)
    ensures |g'.nodes| == cfg.n && QueueOk(cfg, g'.nodes[i], g'.sent)
  {
    hide SystemOk; hide NodeOk; hide SentOk; hide Collisionless; hide QueueOk; hide Step; hide Enabled; hide CanMove;
    hide Apply;
    NodeOf(cfg, g, i);
    SystemSize(cfg, g);
    MovedNode(cfg, g, mv, g', i);
    SentGrowsOne(cfg, g, mv, g');
    if mv.Local? && mv.i == i {
      StepQueue(cfg, i, g.nodes[i], g.sent, mv.e);
    }
    QueueGrows(cfg, g'.nodes[i], g.sent, g'.sent);
  }

  lemma StepQueue(cfg: Config, id: NodeId, nd: Node, sent: set<Msg>, e: Event)
    requires cfg.n >= 1 && SentOk(cfg, sent) && Collisionless(sent) && NodeOk(cfg, id, nd, sent)
    requires QueueOk(cfg, nd, sent)
    requires Enabled(nd, e)
    ensures QueueOk(cfg, Step(cfg, id, nd, e).0, sent)
  {
    if e.Settle? {
      hide SentOk; hide NodeOk; hide QueueOk; hide Collisionless; hide CoinStep;
      SettleQueue(cfg, id, nd, sent);
    } else {
      hide SentOk; hide NodeOk; hide Collisionless; hide Step; hide Enabled; hide Decided;
      OtherEventsKeepQueue(cfg, id, nd, e);
    }
  }

  /** In every state of every run whose hashes do not collide, everything a node has handed to its commit loop
      is decided by a quorum. */
  lemma {:induction false} QueuesAreDecided(cfg: Config, run: seq<System>, t: nat, i: NodeId)
    requires IsRun(cfg, run) && t < |run| && Collisionless(run[t].sent) && i < cfg.n
    ensures cfg.n >= 1 && |run[t].nodes| == cfg.n && QueueOk(cfg, run[t].nodes[i], run[t].sent)
  {
    assert run[0] == Initial(cfg) && cfg.n >= 1;
    hide SystemOk; hide SentOk; hide Collisionless; hide Apply; hide IsRun; hide CanMove;
    if t == 0 {
      hide Decided;
    } else {
      hide QueueOk; hide NetOk;
      RunOk(cfg, run, t - 1);
      SystemSize(cfg, run[t - 1]);
      SentGrows(cfg, run, t - 1, t);
      FewerCollide(run[t - 1].sent, run[t].sent);
      QueuesAreDecided(cfg, run, t - 1, i);
      var mv := MoveOf(cfg, run, t - 1);
      MoveQueue(cfg, run[t - 1], mv, run[t], i);
    }
  }

  // ----- Decisions fit together -----

  /** Decisions of the same view are about the same leader: at the same height they are equal, and the height-2
      decision extends the height-1 decision. */
  lemma SameViewAgrees(cfg: Config, sent: set<Msg>, b: Block, c: Block)
    requires cfg.n >= 1 && SentOk(cfg, sent) && Decided(cfg, sent, b) && Decided(cfg, sent, c) && b.view == c.view
    ensures b.author == c.author && (b.height == c.height ==> b == c)
    ensures LayerOf(b) <= LayerOf(c) ==> Extends(sent, c, b)
  {
    assert ProposeMsg(b) in sent && ProposeMsg(c) in sent && b.author == c.author by {
      hide LeaderOf; hide Certified;
    }
    hide SentOk; hide Decided; hide Hash;
    if b.height == c.height {
      OnlyBlock(cfg, sent, b, c);
      assert Extends(sent, c, b);
    } else if c.height.H2? {
      SecondExtendsFirst(cfg, sent, c, b);
    }
  }

  /** A quorum decided `b` in time, and no node went to a view after it, up to `top`, without a certificate. */
  ghost predicate Holds(cfg: Config, run: seq<System>, t: nat, b: Block, top: nat)
    requires cfg.n >= 1 && t < |run|
  {
    && (exists q :: DecidedBy(cfg, run[t].sent, q, b) && InTime(cfg, run, t, q, b.height.H2?))
    && forall u :: 0 <= u < t ==> !Restarts(cfg, run, u, b.view, top)
  }

  lemma LaterDecisionExtends(cfg: Config, run: seq<System>, t: nat, b: Block, c: Block)
    requires IsRun(cfg, run) && cfg.n >= 1 && t < |run| && Holds(cfg, run, t, b, c.view) && b.view < c.view
    requires ProposeMsg(c) in run[t].sent
    ensures Extends(run[t].sent, c, b)
  {
    hide IsRun; hide InTime; hide Restarts; hide Extends; hide LeaderOf; hide Certified; hide Hash; hide SpeedCertified;
    var q :| DecidedBy(cfg, run[t].sent, q, b) && InTime(cfg, run, t, q, b.height.H2?);
    LaterViewsExtendLeaderIff(cfg, run, t, q, b.height.H2?, b, c.view);
  }

  /** The coin elects no silent node in a view between two others. */
  ghost predicate HeardBetween(cfg: Config, view: nat, top: nat)
    requires cfg.n >= 1
  {
    forall w: nat :: view < w < top ==> !SilentLeader(cfg, w)
  }

  /** When no more than a quorum runs, the coin alone makes later blocks extend a decided height-1 block. */
  lemma HeardExtends(cfg: Config, run: seq<System>, t: nat, b: Block, c: Block)
    requires IsRun(cfg, run) && t < |run| && cfg.n >= 1 && JustAQuorum(cfg) && HeardBetween(cfg, b.view, c.view)
    requires Decided(cfg, run[t].sent, b) && b.height.H1? && ProposeMsg(c) in run[t].sent && b.view < c.view
    ensures Extends(run[t].sent, c, b)
  {
    hide IsRun; hide LeaderOf; hide Certified; hide JustAQuorum; hide Extends; hide SpeedCertified; hide Hash;
    hide SentOk; hide SilentLeader;
    var q :| DecidedBy(cfg, run[t].sent, q, b);
    RunSent(cfg, run, t);
    assert !SilentLeader(cfg, b.view) by { LeaderSpeaks(cfg, run[t].sent, b); }
    CertificateExtendsIffHeard(cfg, run, t, q, b, c.view);
  }

  lemma LeaderSpeaks(cfg: Config, sent: set<Msg>, b: Block)
    requires cfg.n >= 1 && SentOk(cfg, sent) && ProposeMsg(b) in sent && LeaderOf(cfg, b.view) == Some(b.author)
    ensures !SilentLeader(cfg, b.view)
  {
    hide SentOk;
    MsgOf(cfg, sent, ProposeMsg(b));
  }

  /** The decisions of all nodes fit together: of any two, the one at the higher position extends the other, if
      they are of the same view; or if the lower one was decided in time and no node went to a view between
      without a certificate; or, for a height-1 block and no more than a quorum of running nodes, if the coin elects
      no silent node in between. */
  lemma DecisionsAgree(cfg: Config, run: seq<System>, t: nat, i: NodeId, j: NodeId, b: Block, c: Block)
    requires IsRun(cfg, run) && t < |run| && Collisionless(run[t].sent) && i < cfg.n && j < cfg.n
    requires |run[t].nodes| == cfg.n
    requires b in run[t].nodes[i].gate.queue && c in run[t].nodes[j].gate.queue && LayerOf(b) <= LayerOf(c)
    ensures LayerOf(b) == LayerOf(c) ==> b == c
    ensures b.view == c.view || Holds(cfg, run, t, b, c.view) ==> Extends(run[t].sent, c, b)
    ensures JustAQuorum(cfg) && b.height.H1? && HeardBetween(cfg, b.view, c.view) ==> Extends(run[t].sent, c, b)
  {
    hide IsRun; hide Collisionless; hide SentOk; hide Holds; hide Extends; hide LeaderOf; hide Certified; hide Hash;
    hide JustAQuorum; hide HeardBetween;
    RunSent(cfg, run, t);
    QueuesAreDecided(cfg, run, t, i);
    QueuesAreDecided(cfg, run, t, j);
    if JustAQuorum(cfg) && b.height.H1? && HeardBetween(cfg, b.view, c.view) && b.view < c.view {
      HeardExtends(cfg, run, t, b, c);
    }
    if b.view == c.view {
      SameViewAgrees(cfg, run[t].sent, b, c);
    } else if Holds(cfg, run, t, b, c.view) {
      assert ProposeMsg(c) in run[t].sent;
      LaterDecisionExtends(cfg, run, t, b, c);
    }
  }

  // ----- Decisions the gate turns away -----

  /** The block processCoin is about to commit. */
  ghost predicate Committing(nd: Node, b: Block) {
    && nd.coin.Some? && nd.coin.value.stage.ReadHash?
    && var c := nd.coin.value;
       var d := InstanceAt(nd, Key(c.view, c.leader)).At(c.stage.h).hash;
       d in nd.store && nd.store[d] == b
  }

  lemma CommittingDecided(cfg: Config, run: seq<System>, t: nat, i: NodeId, b: Block)
    requires IsRun(cfg, run) && t < |run| && Collisionless(run[t].sent) && i < cfg.n == |run[t].nodes|
    requires Committing(run[t].nodes[i], b)
    ensures cfg.n >= 1 && Decided(cfg, run[t].sent, b)
  {
    hide IsRun; hide NodeOk; hide SentOk; hide LeaderOf; hide Decided; hide Collisionless; hide InstanceOk;
    hide KeyHistory;
    hide InstancesOk; hide HistoryOk; hide OwnSentOk; hide CountersOk; hide StoreOk; hide DecCert; hide InstanceAt;
    RunNode(cfg, run, t, i);
    var nd := run[t].nodes[i];
    NodeParts(cfg, i, nd, run[t].sent);
    var c := nd.coin.value;
    var k := Key(c.view, c.leader);
    KeyParts(cfg, nd, k);
    TargetDecided(cfg, k, InstanceAt(nd, k), nd, run[t].sent, c.stage.h);
  }

  /** A decided block that the gate turns away comes below a block the gate has let through, which extends it under
      the same conditions as any later decision. */
  lemma GateLosesNothing(cfg: Config, run: seq<System>, t: nat, i: NodeId, b: Block) returns (c: Block)
    requires IsRun(cfg, run) && t < |run| && Collisionless(run[t].sent) && i < cfg.n == |run[t].nodes|
    requires Committing(run[t].nodes[i], b)
    requires Enqueue(run[t].nodes[i].gate, b) == run[t].nodes[i].gate
    ensures c in run[t].nodes[i].gate.queue && LayerOf(b) < LayerOf(c)
    ensures b.view == c.view || Holds(cfg, run, t, b, c.view) ==> Extends(run[t].sent, c, b)
  {
    hide IsRun; hide Collisionless; hide SentOk; hide Holds; hide Extends; hide LeaderOf; hide Certified; hide Hash;
    hide Committing;
    RunSent(cfg, run, t);
    QueuesAreDecided(cfg, run, t, i);
    CommittingDecided(cfg, run, t, i, b);
    var g := run[t].nodes[i].gate;
    c := TurnedAway(g, b);
    if b.view == c.view {
      SameViewAgrees(cfg, run[t].sent, b, c);
    } else if Holds(cfg, run, t, b, c.view) {
      assert ProposeMsg(c) in run[t].sent;
      LaterDecisionExtends(cfg, run, t, b, c);
    }
  }

  lemma TurnedAway(g: Gate, b: Block) returns (c: Block)
    requires GateAtLast(g) && Enqueue(g, b) == g
    ensures c in g.queue && LayerOf(b) < LayerOf(c)
  {
    assert |g.queue + [b]| == |g.queue| + 1;
    c := g.queue[|g.queue| - 1];
  }
}
