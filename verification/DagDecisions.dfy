/** What a node of the DAG protocol decides to commit, and that the decisions of all nodes fit together. */
module DagDecisions {
  import opened Blocks
  import opened Quorum
  import opened CommitLog
  import opened DagNode
  import opened DagSystem
  import opened DagInvariant
  import opened DagFrame
  import opened DagEvents
  import opened DagProposals
  import opened DagRuns
  import opened DagSafety
  import opened DagTheorems
  import opened DagSpeed
  import opened DagCommitSafety
  import Elector
  import Spb
  import SpbInvariant

  // ----- Why a block may be committed -----

  ghost predicate WeakQuorum(cfg: Config, sent: set<Msg>, b: Block, a: set<NodeId>) {
    a <= Nodes(cfg.n) && |a| >= Low(cfg.n) && forall x :: x in a ==> Supports(sent, x, b)
  }

  ghost predicate SpeedQuorum(cfg: Config, sent: set<Msg>, b: Block, a: set<NodeId>) {
    a <= Nodes(cfg.n) && |a| >= High(cfg.n) && forall x :: x in a ==> SpeedVoted(sent, x, Key(b.view, b.author))
  }

  /** The block of the elected leader: its height-1 block with f+1 weak votes, or its height-2 block with 2f+1
      speed votes. */
  ghost predicate Backed(cfg: Config, sent: set<Msg>, b: Block)
    requires cfg.n >= 1
  {
    && ProposeMsg(b) in sent && Elector.LeaderOf(cfg.n, cfg.coin, b.view) == Some(b.author)
    && (b.height.H1? ==> exists a :: WeakQuorum(cfg, sent, b, a))
    && (b.height.H2? ==> exists a :: SpeedQuorum(cfg, sent, b, a))
  }

  lemma BackedGrows(cfg: Config, sent: set<Msg>, sent': set<Msg>, b: Block)
    requires cfg.n >= 1 && sent <= sent' && Backed(cfg, sent, b)
    ensures Backed(cfg, sent', b)
  {
    hide Supports; hide Elector.LeaderOf; hide SpeedVoted;
    if b.height.H1? {
      var a :| WeakQuorum(cfg, sent, b, a);
      forall x | x in a ensures Supports(sent', x, b) {
        SupportGrows(sent, sent', x, b);
      }
      assert WeakQuorum(cfg, sent', b, a);
    } else {
      var a :| SpeedQuorum(cfg, sent, b, a);
      forall x | x in a ensures SpeedVoted(sent', x, Key(b.view, b.author)) {
        SpeedGrows(sent, sent', x, Key(b.view, b.author));
      }
      assert SpeedQuorum(cfg, sent', b, a);
    }
  }

  lemma SpeedGrows(sent: set<Msg>, sent': set<Msg>, x: NodeId, k: Key)
    requires sent <= sent' && SpeedVoted(sent, x, k)
    ensures SpeedVoted(sent', x, k)
  {
    var sv :| SpeedVoting(sv) in sent && sv.author == x && sv.view == k.view && sv.proposer == k.node;
    assert SpeedVoting(sv) in sent';
  }

  // ----- What processCoin commits -----

  /** The hash of an accepted height-1 block is the hash of the block received from that proposer. */
  lemma AcceptedFirst(cfg: Config, nd: Node, k: Key) returns (b: Block)
    requires InstancesOk(cfg, nd) && HistoryOk(nd) && InstanceAt(nd, k).lo.hash != ZERO
    ensures ProposeMsg(b) in nd.got && b.author == k.node && b.view == k.view && b.height.H1?
    ensures Hash(b) == InstanceAt(nd, k).lo.hash
  {
    KeyParts(cfg, nd, k);
    hide InstancesOk; hide HistoryOk; hide InstanceAt; hide Hash;
    var x := InstanceAt(nd, k);
    SpbInvariant.SlotParts(x, High(cfg.n));
    hide SpbInvariant.Inv; hide VoteHistory; hide SpeedHistory;
    b := x.lo.proposal.value;
  }

  lemma WeakTarget(cfg: Config, g: System, i: NodeId, leader: NodeId, view: nat, d: Digest)
    requires SystemOk(cfg, g) && i < |g.nodes| && Collisionless(g.sent)
    requires Elector.LeaderOf(cfg.n, cfg.coin, view) == Some(leader)
    requires var nd := g.nodes[i];
      Count(nd.weakVotes, Key(view, leader)) >= Low(cfg.n) && InstanceAt(nd, Key(view, leader)).lo.hash == d &&
        d in nd.store
    ensures var b := g.nodes[i].store[d];
      Backed(cfg, g.sent, b) && b.view == view && b.author == leader && b.height.H1?
  {
    var nd := g.nodes[i];
    SystemSize(cfg, g);
    NodeOfSystem(cfg, g, i);
    NodeParts(cfg, i, nd, g.sent);
    StoreOfNode(cfg, i, nd, g.sent);
    assert OnePerPosition(g.sent);
    hide SystemOk; hide NodeOk; hide SentOk; hide InstancesOk; hide HistoryOk; hide ScanOk; hide BlocksSentOk;
    hide Hash; hide InstanceAt; hide Elector.LeaderOf; hide Supports;
    assert Hash(nd.store[d]) == d;
    var b := AcceptedFirst(cfg, nd, Key(view, leader));
    assert nd.store[d] == b;
    var b', a := WeakVotesMean(cfg, g, i, view, leader);
    assert SamePosition(b, b');
    assert WeakQuorum(cfg, g.sent, b, a);
  }

  lemma SpeedTarget(cfg: Config, run: seq<System>, t: nat, i: NodeId, leader: NodeId, view: nat, d: Digest)
    requires IsRun(cfg, run) && t < |run| && i < |run[t].nodes| && Collisionless(run[t].sent)
    requires Elector.LeaderOf(cfg.n, cfg.coin, view) == Some(leader)
    requires var x := InstanceAt(run[t].nodes[i], Key(view, leader));
      x.fast.isSpeedCert && x.hi.hash == d && d in run[t].nodes[i].store
    ensures var b := run[t].nodes[i].store[d];
      Backed(cfg, run[t].sent, b) && b.view == view && b.author == leader && b.height.H2?
  {
    var g, k := run[t], Key(view, leader);
    var nd := g.nodes[i];
    RunOk(cfg, run, t);
    var a := SpeedCertificate(cfg, run, t, i, k);
    hide IsRun; hide Elector.LeaderOf; hide SpeedVoted;
    SystemSize(cfg, g);
    NodeOfSystem(cfg, g, i);
    NodeParts(cfg, i, nd, g.sent);
    StoreOfNode(cfg, i, nd, g.sent);
    hide SystemOk; hide NodeOk; hide SentOk; hide InstancesOk; hide HistoryOk; hide ScanOk; hide BlocksSentOk;
    hide Hash; hide InstanceAt; hide QcAt;
    var b := HeldIsCertified(cfg, nd, g.sent, k, H2);
    assert Hash(nd.store[d]) == d;
    assert nd.store[d] == b;
    assert SpeedQuorum(cfg, g.sent, b, a);
  }

  /** The block that processCoin is about to commit, if its hash is in the store. */
  function Target(nd: Node): (b: Option<Block>)
    ensures b.Some? ==> nd.coin.Some?
  {
    if nd.coin.None? || nd.coin.value.read.None? then None
    else
      var d := InstanceAt(nd, Key(nd.coin.value.view, nd.coin.value.leader)).At(nd.coin.value.read.value).hash;
      if d in nd.store then Some(nd.store[d]) else None
  }

  /** A block enters the channel of the commit loop only as the target of processCoin. */
  lemma GateOrigin(cfg: Config, id: NodeId, nd: Node, e: Event, nd': Node)
    requires cfg.n >= 1 && Enabled(nd, e) && nd' == Step(cfg, id, nd, e).0
    ensures if e.Settle? && Target(nd).Some? then nd'.gate == Enqueue(nd.gate, Target(nd).value) && nd'.coin.None?
      else nd'.gate == nd.gate
  {
    hide Spb.Run; hide Spb.Deliver; hide Spb.Pending; hide Hash; hide AddWeakVotes; hide High; hide InstanceAt;
    hide MakeBlock;
    hide Elector.AddElect; hide CommitHeight; hide Enqueue;
  }

  /** In every run whose hashes do not collide, the target of processCoin is the block of the elected leader
      whose weak votes or speed certificate it has seen. */
  lemma TargetIsBacked(cfg: Config, run: seq<System>, t: nat, i: NodeId)
    requires IsRun(cfg, run) && t < |run| && i < |run[t].nodes| && Collisionless(run[t].sent)
    requires Target(run[t].nodes[i]).Some?
    ensures cfg.n >= 1 && Backed(cfg, run[t].sent, Target(run[t].nodes[i]).value)
    ensures var b, c := Target(run[t].nodes[i]).value, run[t].nodes[i].coin.value;
      b.view == c.view && b.author == c.leader && b.height == c.read.value
  {
    var nd := run[t].nodes[i];
    assert cfg.n >= 1;
    hide IsRun; hide SystemOk; hide Backed; hide Collisionless; hide Elector.LeaderOf; hide NodeOk; hide SentOk;
    RunOk(cfg, run, t);
    SystemSize(cfg, run[t]);
    NodeOfSystem(cfg, run[t], i);
    NodeParts(cfg, i, nd, run[t].sent);
    hide InstancesOk; hide HistoryOk; hide ScanOk; hide InstanceAt;
    var c := nd.coin.value;
    var d := InstanceAt(nd, Key(c.view, c.leader)).At(c.read.value).hash;
    if c.read.value.H2? {
      SpeedTarget(cfg, run, t, i, c.leader, c.view, d);
    } else {
      WeakTarget(cfg, run[t], i, c.leader, c.view, d);
    }
  }

  // ----- Every run -----

  /** Each view is decided at most once: the coin of a view is processed once. */
  ghost predicate ViewsOk(nd: Node) {
    && (forall b :: b in nd.gate.queue ==> b.view in nd.elector.leaders)
    && (nd.coin.Some? ==> nd.coin.value.view in nd.elector.leaders && forall b :: b in nd.gate.queue ==>
      b.view != nd.coin.value.view)
  }

  ghost predicate QueueOk(cfg: Config, nd: Node, sent: set<Msg>)
    requires cfg.n >= 1
  {
    (forall b :: b in nd.gate.queue ==> Backed(cfg, sent, b)) && GateAtLast(nd.gate) && ViewsOk(nd)
  }

  ghost predicate QueuesOk(cfg: Config, g: System)
    requires cfg.n >= 1
  {
    forall i :: 0 <= i < |g.nodes| ==> QueueOk(cfg, g.nodes[i], g.sent)
  }

  lemma QueueGrows(cfg: Config, nd: Node, sent: set<Msg>, sent': set<Msg>)
    requires cfg.n >= 1 && QueueOk(cfg, nd, sent) && sent <= sent'
    ensures QueueOk(cfg, nd, sent')
  {
    hide Backed; hide ViewsOk; hide GateAtLast;
    forall b | b in nd.gate.queue ensures Backed(cfg, sent', b) {
      BackedGrows(cfg, sent, sent', b);
    }
  }

  /** A leader is announced only when none is on record. */
  lemma LeaderIsNew(cfg: Config, nd: Node, author: NodeId, view: nat)
    requires cfg.n >= 1 && ElectorOk(cfg, nd)
    ensures var (e, v) := Elector.AddElect(nd.elector, cfg.n, cfg.coin, author, view);
      && (v.Leader? ==> view !in nd.elector.leaders && view in e.leaders)
      && (forall w :: w in nd.elector.leaders ==> w in e.leaders)
  {
    var a := Elector.AggregatorOf(nd.elector, view);
    assert |a.elects| == |a.used|;
  }

  /** What events other than the coin's do to the views a node has decided. */
  lemma OtherViews(cfg: Config, id: NodeId, nd: Node, e: Event, nd': Node)
    requires cfg.n >= 1 && Enabled(nd, e) && nd' == Step(cfg, id, nd, e).0 && !(e.Handle? && e.m.ElectMsg?)
    ensures nd'.elector == nd.elector && (nd'.coin.Some? ==> nd.coin.Some? && nd'.coin.value.view == nd.coin.value.view)
  {
    hide Receive; hide RunTask; hide CoinStep; hide Hash; hide Spb.Pending; hide QcAt; hide High; hide MakeBlock;
    match e {
      case Handle(m) => ReceiveFrame(cfg, id, nd, m);
      case Task(k, t) => TaskFrame(cfg, id, nd, k, t);
      case Settle => SettleFrame(cfg, nd);
      case _ =>
    }
  }

  lemma ViewsKeep(cfg: Config, id: NodeId, nd: Node, sent: set<Msg>, e: Event, nd': Node)
    requires cfg.n >= 1 && NodeOk(cfg, id, nd, sent) && Enabled(nd, e) && nd' == Step(cfg, id, nd, e).0 && ViewsOk(nd)
    requires Target(nd).Some? ==> Target(nd).value.view == nd.coin.value.view
    ensures ViewsOk(nd')
  {
    hide NodeOk; hide Target; hide ElectorOk; hide Step; hide Enabled; hide Enqueue; hide Elector.AddElect;
    hide GateAtLast;
    ElectorOfNode2(cfg, id, nd, sent);
    GateOrigin(cfg, id, nd, e, nd');
    if Target(nd).Some? {
      OnlyAdded(nd.gate, Target(nd).value);
    }
    if e.Handle? && e.m.ElectMsg? {
      LeaderIsNew(cfg, nd, e.m.author, e.m.view);
      ElectViews(cfg, id, nd, e, nd');
    } else {
      OtherViews(cfg, id, nd, e, nd');
    }
  }

  lemma ElectorOfNode2(cfg: Config, id: NodeId, nd: Node, sent: set<Msg>)
    requires NodeOk(cfg, id, nd, sent)
    ensures ElectorOk(cfg, nd)
  {
    hide InstancesOk; hide HistoryOk; hide VotesSentOk; hide ElectsSentOk; hide ScanOk; hide BlocksSentOk;
    hide WeakVotesOk; hide SpeedNumsOk; hide ElectorOk; hide StoreOk; hide CoinOk;
  }

  lemma ElectViews(cfg: Config, id: NodeId, nd: Node, e: Event, nd': Node)
    requires cfg.n >= 1 && Enabled(nd, e) && nd' == Step(cfg, id, nd, e).0 && e.Handle? && e.m.ElectMsg?
    ensures var (s, v) := Elector.AddElect(nd.elector, cfg.n, cfg.coin, e.m.author, e.m.view);
      && nd'.elector == s
      && (v.Leader? ==> nd'.coin.Some? && nd'.coin.value.view == e.m.view)
      && (!v.Leader? ==> nd'.coin.None?)
  {
    hide Elector.AddElect;
  }

  lemma OnlyAdded(g: Gate, b: Block)
    ensures forall c :: c in Enqueue(g, b).queue ==> c in g.queue || c == b
  {
  }

  lemma OwnQueue(cfg: Config, run: seq<System>, t: nat, i: NodeId, e: Event, nd': Node)
    requires IsRun(cfg, run) && t < |run| && i < |run[t].nodes| && Collisionless(run[t].sent)
    requires Enabled(run[t].nodes[i], e)
    requires cfg.n >= 1 && QueueOk(cfg, run[t].nodes[i], run[t].sent) && nd' == Step(cfg, i, run[t].nodes[i], e).0
    ensures QueueOk(cfg, nd', run[t].sent)
  {
    hide IsRun; hide SystemOk; hide Step; hide Enabled; hide Backed; hide Collisionless; hide NodeOk; hide SentOk;
    hide NetOk;
    hide Target; hide ViewsOk; hide GateAtLast; hide Enqueue;
    var nd := run[t].nodes[i];
    RunOk(cfg, run, t);
    SystemSize(cfg, run[t]);
    NodeOfSystem(cfg, run[t], i);
    GateOrigin(cfg, i, nd, e, nd');
    if Target(nd).Some? {
      TargetIsBacked(cfg, run, t, i);
      GateKeeps(nd.gate, Target(nd).value);
      OnlyAdded(nd.gate, Target(nd).value);
    }
    ViewsKeep(cfg, i, nd, run[t].sent, e, nd');
  }

  lemma QueueStep(cfg: Config, run: seq<System>, t: nat)
    requires IsRun(cfg, run) && t + 1 < |run| && cfg.n >= 1 && Collisionless(run[t].sent) && QueuesOk(cfg, run[t])
    ensures QueuesOk(cfg, run[t + 1])
  {
    var g, g' := run[t], run[t + 1];
    hide IsRun; hide SystemOk; hide Step; hide Enabled; hide QueueOk; hide Collisionless; hide Apply; hide NodeOk;
    hide NetOk;
    RunOk(cfg, run, t);
    SystemSize(cfg, g);
    SentGrows(cfg, run, t, t + 1);
    var mv := MoveOf(cfg, run, t);
    forall i | 0 <= i < |g'.nodes| ensures QueueOk(cfg, g'.nodes[i], g'.sent) {
      MovedNode(cfg, g, mv, g', i);
      if mv.Local? && mv.i == i {
        OwnQueue(cfg, run, t, i, mv.e, g'.nodes[i]);
      }
      QueueGrows(cfg, g'.nodes[i], g.sent, g'.sent);
    }
  }

  /** In every state of every run whose hashes do not collide, everything any node has handed to its commit
      loop is backed, at most one block per view, and the gate stands at the last of them. */
  lemma {:induction false} QueuesAreBacked(cfg: Config, run: seq<System>, t: nat)
    requires IsRun(cfg, run) && t < |run| && Collisionless(run[t].sent)
    ensures cfg.n >= 1 && QueuesOk(cfg, run[t])
  {
    assert cfg.n >= 1 && run[0] == Initial(cfg);
    hide IsRun; hide SystemOk; hide Collisionless; hide Next;
    if t > 0 {
      hide QueuesOk;
      SentGrows(cfg, run, t - 1, t);
      FewerCollide(run[t - 1].sent, run[t].sent);
      QueuesAreBacked(cfg, run, t - 1);
      QueueStep(cfg, run, t - 1);
    }
  }

  // ----- Agreement -----

  /** f+1 nodes sent their speed vote for `b` before they read its certificate for their next block. */
  ghost predicate InTime(cfg: Config, run: seq<System>, t: nat, b: Block, a: set<NodeId>)
    requires t < |run|
  {
    a <= Nodes(cfg.n) && |a| >= Low(cfg.n) && forall x :: x in a ==> VotedInTimeBy(run, t, x, b.view, b.author)
  }

  /** When a decided block `b` is in the causal history of a block `c`: a height-1 block always, once `c` is of
      a later view; a height-2 block if f+1 speed voters were in time, from height 2 of the next view on. */
  ghost predicate Covers(cfg: Config, run: seq<System>, t: nat, c: Block, b: Block)
    requires t < |run|
  {
    if b.height.H1? then c.view > b.view
      else LayerOf(c) >= Layer(b.view + 1, H2) && exists a :: InTime(cfg, run, t, b, a)
  }

  lemma BackedIsIncluded(cfg: Config, run: seq<System>, t: nat, b: Block, c: Block)
    requires IsRun(cfg, run) && t < |run| && cfg.n % 3 == 1 && Backed(cfg, run[t].sent, b)
    requires ProposeMsg(c) in run[t].sent
    requires Covers(cfg, run, t, c, b)
    ensures InHistory(run[t].sent, c, b)
  {
    hide IsRun; hide SystemOk; hide SentOk; hide InHistory; hide Elector.LeaderOf; hide Supports; hide Low; hide High;
    hide VotedInTimeBy;
    RunOk(cfg, run, t);
    SentOfSystem(cfg, run[t]);
    if b.height.H1? {
      var a :| WeakQuorum(cfg, run[t].sent, b, a);
      WeakCommitSafety(cfg, run[t].sent, b, a, c);
    } else {
      var a :| InTime(cfg, run, t, b, a);
      var b' := SpeedCommitSafety(cfg, run, t, a, b.view, b.author);
      OneBlockThere(cfg, run[t].sent, b, b');
    }
  }

  lemma OneBlockThere(cfg: Config, sent: set<Msg>, b: Block, c: Block)
    requires SentOk(cfg, sent) && ProposeMsg(b) in sent && ProposeMsg(c) in sent && SamePosition(b, c)
    ensures b == c
  {
    hide RefsOk;
    assert OnePerPosition(sent);
  }

  lemma SameLayerAgrees(cfg: Config, run: seq<System>, t: nat, b: Block, c: Block)
    requires IsRun(cfg, run) && t < |run| && cfg.n >= 1 && LayerOf(b) == LayerOf(c)
    requires Backed(cfg, run[t].sent, b) && Backed(cfg, run[t].sent, c)
    ensures b == c
  {
    assert b.author == c.author && b.view == c.view && b.height == c.height by {
      hide IsRun; hide Elector.LeaderOf; hide WeakQuorum; hide SpeedQuorum;
    }
    hide IsRun; hide Backed; hide SystemOk; hide SentOk; hide NetOk; hide NodeOk;
    BackedSent(cfg, run[t].sent, b);
    BackedSent(cfg, run[t].sent, c);
    RunOk(cfg, run, t);
    SystemSize(cfg, run[t]);
    NodeOfSystem(cfg, run[t], 0);
    OneBlockThere(cfg, run[t].sent, b, c);
  }

  /** Agreement on committed sets: blocks decided for one view have one author, and a block that one node has
      decided is in the causal history of every block any node has decided that covers it. */
  lemma DecisionsAgree(cfg: Config, run: seq<System>, t: nat, i: NodeId, b: Block, j: NodeId, c: Block)
    requires IsRun(cfg, run) && t < |run| && cfg.n % 3 == 1 && Collisionless(run[t].sent) && i < |run[t].nodes|
    requires j < |run[t].nodes|
    requires b in run[t].nodes[i].gate.queue && c in run[t].nodes[j].gate.queue
    ensures c.view == b.view ==> c.author == b.author
    ensures LayerOf(b) == LayerOf(c) ==> b == c
    ensures Covers(cfg, run, t, c, b) ==> InHistory(run[t].sent, c, b)
  {
    QueuesAreBacked(cfg, run, t);
    assert QueueOk(cfg, run[t].nodes[i], run[t].sent) && QueueOk(cfg, run[t].nodes[j], run[t].sent);
    assert Backed(cfg, run[t].sent, b) && Backed(cfg, run[t].sent, c);
    if LayerOf(b) == LayerOf(c) {
      SameLayerAgrees(cfg, run, t, b, c);
    }
    hide IsRun; hide QueuesOk; hide QueueOk; hide InHistory; hide Elector.LeaderOf; hide WeakQuorum; hide SpeedQuorum;
    hide Covers;
    if Covers(cfg, run, t, c, b) {
      BackedIsIncluded(cfg, run, t, b, c);
    }
  }

  /** The gate loses nothing: a decided block it turns away lies in an earlier view than a block it let through,
      and is in the causal history of that block when that block covers it. */
  lemma GateLosesNothing(cfg: Config, run: seq<System>, t: nat, i: NodeId) returns (c: Block)
    requires IsRun(cfg, run) && t < |run| && cfg.n % 3 == 1 && Collisionless(run[t].sent) && i < |run[t].nodes|
    requires var nd := run[t].nodes[i]; Target(nd).Some? && Enqueue(nd.gate, Target(nd).value) == nd.gate
    ensures var b := Target(run[t].nodes[i]).value;
      c in run[t].nodes[i].gate.queue && c.view > b.view && (Covers(cfg, run, t, c, b) ==> InHistory(run[t].sent, c, b))
  {
    hide IsRun; hide QueuesOk; hide QueueOk; hide InHistory; hide Covers; hide Target; hide Backed; hide Collisionless;
    var nd := run[t].nodes[i];
    QueuesAreBacked(cfg, run, t);
    QueueOf(cfg, run[t], i);
    TargetIsBacked(cfg, run, t, i);
    var b := Target(nd).value;
    c := TurnedAway(cfg, nd, run[t].sent, b);
    if Covers(cfg, run, t, c, b) {
      BackedSent(cfg, run[t].sent, c);
      BackedIsIncluded(cfg, run, t, b, c);
    }
  }

  lemma QueueOf(cfg: Config, g: System, i: NodeId)
    requires cfg.n >= 1 && QueuesOk(cfg, g) && i < |g.nodes|
    ensures QueueOk(cfg, g.nodes[i], g.sent)
  {
    hide QueueOk;
  }

  lemma BackedSent(cfg: Config, sent: set<Msg>, b: Block)
    requires cfg.n >= 1 && Backed(cfg, sent, b)
    ensures ProposeMsg(b) in sent
  {
    hide Elector.LeaderOf;
  }

  lemma TurnedAway(cfg: Config, nd: Node, sent: set<Msg>, b: Block) returns (c: Block)
    requires cfg.n >= 1 && QueueOk(cfg, nd, sent) && nd.coin.Some? && nd.coin.value.view == b.view
    requires Enqueue(nd.gate, b) == nd.gate
    ensures c in nd.gate.queue && c.view > b.view && Backed(cfg, sent, c)
  {
    hide Backed;
    c := nd.gate.queue[|nd.gate.queue| - 1];
  }
}
