/** A run of the Big protocol in which the speed flag is raised. */
module BigSpeed {
  import opened Blocks
  import opened Quorum
  import opened BigNode
  import opened BigSystem
  import opened BigInvariant
  import opened BigSteps
  import opened BigRuns
  import opened BigTheorems
  import Spb

  // ----- Runs in which one node is at work -----

  ghost predicate Reached(cfg: Config, g: System) {
    exists run :: IsRun(cfg, run) && run[|run| - 1] == g
  }

  /** A run ends in `g`, where node `i` is between two messages and has `x` as its own instance of view 0. */
  ghost predicate Holding(cfg: Config, g: System, i: NodeId, x: Spb.Instance) {
    && Reached(cfg, g) && cfg.n >= 1 && cfg.faults <= i < cfg.n == |g.nodes| && g.nodes[i].started &&
      g.nodes[i].coin.None?
    && Key(0, i) in g.nodes[i].instances && g.nodes[i].instances[Key(0, i)] == x
  }

  lemma MoveReached(cfg: Config, g: System, mv: Move)
    requires Reached(cfg, g) && CanMove(cfg, g, mv)
    ensures Reached(cfg, Apply(cfg, g, mv))
  {
    hide CanMove; hide Apply;
    var run :| IsRun(cfg, run) && run[|run| - 1] == g;
    var g' := Apply(cfg, g, mv);
    assert Next(cfg, g, g');
    hide Next;
    assert IsRun(cfg, run + [g']);
  }

  /** What a section of the instance sends. */
  function Output(i: NodeId, t: Spb.Task): Option<Msg> {
    match Spb.Emits(t)
    case None => None
    case Some(VoteOut(b)) => Some(Voting(VoteFor(i, b)))
    case Some(CertOut(qc)) => Some(ProposeMsg(Block(i, 0, H2, -1, Some(qc), [])))
    case Some(SpeedOut(qc)) => Some(SpeedVoting(SpeedVoteFor(i, qc)))
  }

  lemma TaskEffect(cfg: Config, i: NodeId, nd: Node, t: Spb.Task)
    requires Key(0, i) in nd.instances && Spb.Pending(nd.instances[Key(0, i)], t)
    ensures RunTask(cfg, i, nd, Key(0, i), t, false) ==
      (nd.(instances := nd.instances[Key(0, i) := Spb.Run(nd.instances[Key(0, i)], High(cfg.n), t)]), Output(i, t))
  {
    hide Spb.Run; hide High; hide Spb.Pending; hide Hash;
  }

  /** A section runs. */
  lemma Work(cfg: Config, g: System, i: NodeId, x: Spb.Instance, t: Spb.Task) returns (g': System)
    requires Holding(cfg, g, i, x) && Spb.Pending(x, t)
    ensures Holding(cfg, g', i, Spb.Run(x, High(cfg.n), t))
    ensures Output(i, t).Some? ==> Packet(i, Output(i, t).value) in g'.net
  {
    hide Spb.Run; hide Spb.Pending; hide High; hide Reached; hide RunTask; hide Output;
    TaskEffect(cfg, i, g.nodes[i], t);
    MoveReached(cfg, g, Local(i, Task(Key(0, i), t, false)));
    g' := Apply(cfg, g, Local(i, Task(Key(0, i), t, false)));
  }

  /** The delivery of a message that belongs to the node's own instance. */
  function Delivered(i: NodeId, m: Msg): Option<Spb.Delivery> {
    match m
    case ProposeMsg(b) => if b.author == i && b.view == 0 then Some(Spb.Proposal(b)) else None
    case Voting(v) => if v.proposer == i && v.view == 0 then Some(Spb.Vote(v)) else None
    case SpeedVoting(sv) => if sv.author == i && sv.view == 0 then Some(Spb.SpeedVote(sv)) else None
    case _ => None
  }

  lemma HandEffect(cfg: Config, i: NodeId, nd: Node, m: Msg)
    requires cfg.n >= 1 && Delivered(i, m).Some?
    ensures var nd' := Receive(cfg, i, nd, m, false).0;
      && nd'.started == nd.started && nd'.coin == nd.coin
      && nd'.instances == nd.instances[Key(0, i) := Spb.Deliver(InstanceAt(nd, Key(0, i)), Delivered(i, m).value)]
  {
    hide Spb.Deliver; hide Hash; hide High;
  }

  /** A message arrives. */
  lemma Hand(cfg: Config, g: System, i: NodeId, x: Spb.Instance, m: Msg) returns (g': System)
    requires Reached(cfg, g) && cfg.n >= 1 && cfg.faults <= i < cfg.n == |g.nodes|
    requires g.nodes[i].started && g.nodes[i].coin.None? && InstanceAt(g.nodes[i], Key(0, i)) == x
    requires Packet(i, m) in g.net && Delivered(i, m).Some?
    ensures Holding(cfg, g', i, Spb.Deliver(x, Delivered(i, m).value))
  {
    hide Spb.Deliver; hide Reached; hide Receive; hide InstanceAt; hide Delivered;
    HandEffect(cfg, i, g.nodes[i], m);
    MoveReached(cfg, g, Local(i, Handle(m, false)));
    g' := Apply(cfg, g, Local(i, Handle(m, false)));
  }

  lemma HandNext(cfg: Config, g: System, i: NodeId, x: Spb.Instance, m: Msg) returns (g': System)
    requires Holding(cfg, g, i, x) && Packet(i, m) in g.net && Delivered(i, m).Some?
    ensures Holding(cfg, g', i, Spb.Deliver(x, Delivered(i, m).value))
  {
    hide Spb.Deliver; hide Reached; hide Delivered;
    g' := Hand(cfg, g, i, x, m);
  }

  // ----- A proposal, a vote, a speed vote -----

  /** What matters of the instance. */
  datatype Face = Face(proposer: NodeId, view: nat, loHash: Digest, loVotes: nat, hiHash: Digest, hiVotes: nat,
                       certified: bool, speedVotes: nat)

  function FaceOf(x: Spb.Instance): Face {
    Face(x.proposer, x.view, x.lo.hash, x.lo.voteNums, x.hi.hash, x.hi.voteNums, x.hi.qc.Some?, x.fast.speedVoteNums)
  }

  function Hashed(f: Face, b: Block): Face {
    if b.height.H1? then f.(loHash := Hash(b)) else f.(hiHash := Hash(b))
  }

  lemma Passage(x: Spb.Instance, b: Block, high: nat)
    returns (x0: Spb.Instance, x1: Spb.Instance, x2: Spb.Instance, x3: Spb.Instance)
    requires b.height.H2? ==> x.lo.hash == Spb.ParentHash(b)
    ensures x0 == Spb.Deliver(x, Spb.Proposal(b))
    ensures Spb.Pending(x0, Spb.OnPropose(b)) && x1 == Spb.Run(x0, high, Spb.OnPropose(b))
    ensures Spb.Pending(x1, Spb.Replay(b)) && x2 == Spb.Run(x1, high, Spb.Replay(b))
    ensures Spb.Pending(x2, Spb.SendVote(b)) && x3 == Spb.Run(x2, high, Spb.SendVote(b))
    ensures FaceOf(x3) == Hashed(FaceOf(x), b)
  {
    hide Hash; hide Spb.ParentHash;
    x0 := Spb.Deliver(x, Spb.Proposal(b));
    x1 := Spb.Run(x0, high, Spb.OnPropose(b));
    x2 := Spb.Run(x1, high, Spb.Replay(b));
    x3 := Spb.Run(x2, high, Spb.SendVote(b));
  }

  /** An accepted proposal leads to a vote. */
  lemma Propose(cfg: Config, g: System, i: NodeId, x: Spb.Instance, b: Block) returns (g': System, y: Spb.Instance)
    requires Holding(cfg, g, i, Spb.Deliver(x, Spb.Proposal(b)))
    requires b.height.H2? ==> x.lo.hash == Spb.ParentHash(b)
    ensures Holding(cfg, g', i, y) && FaceOf(y) == Hashed(FaceOf(x), b)
    ensures Packet(i, Voting(VoteFor(i, b))) in g'.net
  {
    hide Spb.Run; hide Spb.Pending; hide FaceOf; hide Holding; hide Hash; hide High; hide Spb.Deliver;
    var x0, x1, x2, x3 := Passage(x, b, High(cfg.n));
    y := x3;
    var g1 := Work(cfg, g, i, x0, Spb.OnPropose(b));
    var g2 := Work(cfg, g1, i, x1, Spb.Replay(b));
    g' := Work(cfg, g2, i, x2, Spb.SendVote(b));
  }

  function Sealed(f: Face, h: Height): Face {
    if h.H1? then f.(loVotes := 1) else f.(hiVotes := 1, certified := true)
  }

  predicate Awaits(f: Face, v: VoteMsg) {
    if v.height.H1? then f.loHash == v.hash && f.loVotes == 0 else f.hiHash == v.hash && f.hiVotes == 0
  }

  function QcOf(x: Spb.Instance, v: VoteMsg): BlockQc {
    BlockQc(x.view, v.height, v.proposer, v.hash)
  }

  lemma Tally(x: Spb.Instance, v: VoteMsg)
    returns (x0: Spb.Instance, x1: Spb.Instance, x2: Spb.Instance, x3: Spb.Instance, x4: Spb.Instance)
    requires Awaits(FaceOf(x), v)
    ensures x0 == Spb.Deliver(x, Spb.Vote(v))
    ensures Spb.Pending(x0, Spb.OnVote(v)) && x1 == Spb.Run(x0, 1, Spb.OnVote(v))
    ensures Spb.Pending(x1, Spb.CountVote(v)) && x2 == Spb.Run(x1, 1, Spb.CountVote(v))
    ensures Spb.Pending(x2, Spb.StoreQc(QcOf(x, v))) && x3 == Spb.Run(x2, 1, Spb.StoreQc(QcOf(x, v)))
    ensures Spb.Pending(x3, Spb.Announce(QcOf(x, v))) && x4 == Spb.Run(x3, 1, Spb.Announce(QcOf(x, v)))
    ensures FaceOf(x4) == Sealed(FaceOf(x), v.height)
  {
    if v.height.H1? {
      x0 := Spb.Deliver(x, Spb.Vote(v));
      x1 := Spb.Run(x0, 1, Spb.OnVote(v));
      x2 := Spb.Run(x1, 1, Spb.CountVote(v));
      x3 := Spb.Run(x2, 1, Spb.StoreQc(QcOf(x, v)));
      x4 := Spb.Run(x3, 1, Spb.Announce(QcOf(x, v)));
    } else {
      x0 := Spb.Deliver(x, Spb.Vote(v));
      x1 := Spb.Run(x0, 1, Spb.OnVote(v));
      x2 := Spb.Run(x1, 1, Spb.CountVote(v));
      x3 := Spb.Run(x2, 1, Spb.StoreQc(QcOf(x, v)));
      x4 := Spb.Run(x3, 1, Spb.Announce(QcOf(x, v)));
    }
  }

  /** With a quorum of one, the vote makes the certificate, which leads to the height-2 proposal or the speed vote. */
  lemma Seal(cfg: Config, g: System, i: NodeId, x: Spb.Instance, v: VoteMsg) returns (g': System, y: Spb.Instance)
    requires Holding(cfg, g, i, Spb.Deliver(x, Spb.Vote(v))) && Awaits(FaceOf(x), v) && High(cfg.n) == 1
    ensures Holding(cfg, g', i, y) && FaceOf(y) == Sealed(FaceOf(x), v.height)
    ensures Packet(i, Output(i, Spb.Announce(QcOf(x, v))).value) in g'.net
  {
    hide Spb.Run; hide Spb.Pending; hide FaceOf; hide Holding; hide High; hide Spb.Deliver; hide Awaits; hide QcOf;
    var x0, x1, x2, x3, x4 := Tally(x, v);
    y := x4;
    var g1 := Work(cfg, g, i, x0, Spb.OnVote(v));
    var g2 := Work(cfg, g1, i, x1, Spb.CountVote(v));
    var g3 := Work(cfg, g2, i, x2, Spb.StoreQc(QcOf(x, v)));
    g' := Work(cfg, g3, i, x3, Spb.Announce(QcOf(x, v)));
  }

  /** The instance is certified and takes this speed vote for its first. */
  predicate Expects(f: Face, sv: SpeedVoteMsg) {
    f.certified && f.speedVotes == 0 && sv.proposer == f.proposer && sv.view == f.view == 0
  }

  lemma SpeedTally(x: Spb.Instance, sv: SpeedVoteMsg)
    returns (x0: Spb.Instance, x1: Spb.Instance, x2: Spb.Instance, x3: Spb.Instance)
    requires Expects(FaceOf(x), sv)
    ensures x0 == Spb.Deliver(x, Spb.SpeedVote(sv))
    ensures Spb.Pending(x0, Spb.OnSpeed(sv)) && x1 == Spb.Run(x0, 1, Spb.OnSpeed(sv))
    ensures Spb.Pending(x1, Spb.CountSpeed(sv)) && x2 == Spb.Run(x1, 1, Spb.CountSpeed(sv))
    ensures Spb.Pending(x2, Spb.StoreCert) && x3 == Spb.Run(x2, 1, Spb.StoreCert)
    ensures x3.fast.isSpeedCert
  {
    x0 := Spb.Deliver(x, Spb.SpeedVote(sv));
    x1 := Spb.Run(x0, 1, Spb.OnSpeed(sv));
    x2 := Spb.Run(x1, 1, Spb.CountSpeed(sv));
    x3 := Spb.Run(x2, 1, Spb.StoreCert);
  }

  lemma Raise(cfg: Config, g: System, i: NodeId, x: Spb.Instance,
              sv: SpeedVoteMsg) returns (g': System, y: Spb.Instance)
    requires Holding(cfg, g, i, Spb.Deliver(x, Spb.SpeedVote(sv))) && High(cfg.n) == 1
    requires Expects(FaceOf(x), sv)
    ensures Holding(cfg, g', i, y) && y.fast.isSpeedCert
  {
    hide Spb.Run; hide Spb.Pending; hide Holding; hide High; hide Spb.Deliver;
    var x0, x1, x2, x3 := SpeedTally(x, sv);
    y := x3;
    var g1 := Work(cfg, g, i, x0, Spb.OnSpeed(sv));
    var g2 := Work(cfg, g1, i, x1, Spb.CountSpeed(sv));
    g' := Work(cfg, g2, i, x2, Spb.StoreCert);
  }

  // ----- The run -----

  /** The node proposes, and its proposal arrives at its own instance. */
  lemma Begun(cfg: Config, i: NodeId) returns (g: System, b: Block)
    requires cfg.faults <= i < cfg.n
    ensures Holding(cfg, g, i, Spb.Deliver(Spb.Init(Spb.Big, i, 0), Spb.Proposal(b)))
    ensures b.author == i && b.view == 0 && b.height.H1?
  {
    hide Spb.Deliver;
    assert IsRun(cfg, [Initial(cfg)]);
    var g0 := Initial(cfg);
    assert Reached(cfg, g0);
    MoveReached(cfg, g0, Local(i, Begin(false)));
    var g1 := Apply(cfg, g0, Local(i, Begin(false)));
    b := Block(i, 0, H1, -1, None, []);
    hide IsRun;
    g := Hand(cfg, g1, i, Spb.Init(Spb.Big, i, 0), ProposeMsg(b));
  }

  predicate Ready(f: Face, i: NodeId, b: Block) {
    && f.proposer == i && f.view == 0 && b.author == i && b.view == 0
    && if b.height.H1? then f.loVotes == 0 else f.hiVotes == 0 && f.loHash == Spb.ParentHash(b)
  }

  /** A proposal of the node is certified by the node alone. */
  lemma Certify(cfg: Config, g: System, i: NodeId, x: Spb.Instance, b: Block) returns (g': System, y: Spb.Instance)
    requires Holding(cfg, g, i, Spb.Deliver(x, Spb.Proposal(b))) && High(cfg.n) == 1 && Ready(FaceOf(x), i, b)
    ensures Holding(cfg, g', i, y) && FaceOf(y) == Sealed(Hashed(FaceOf(x), b), b.height)
    ensures Packet(i, Output(i, Spb.Announce(BlockQc(0, b.height, i, Hash(b)))).value) in g'.net
  {
    hide Holding; hide Spb.Deliver; hide High; hide Hash; hide Spb.ParentHash;
    var h, z := Propose(cfg, g, i, x, b);
    var v := VoteFor(i, b);
    h := HandNext(cfg, h, i, z, Voting(v));
    g', y := Seal(cfg, h, i, z, v);
  }

  /** The first block of the node is certified, and its second block is on its way to itself. */
  lemma FirstCertified(cfg: Config, i: NodeId) returns (g: System, x: Spb.Instance, b2: Block)
    requires cfg.faults <= i < cfg.n && High(cfg.n) == 1
    ensures Holding(cfg, g, i, x) && Packet(i, ProposeMsg(b2)) in g.net && b2.height.H2? && Ready(FaceOf(x), i, b2)
    ensures FaceOf(x).speedVotes == 0
  {
    var x0 := Spb.Init(Spb.Big, i, 0);
    assert FaceOf(x0) == Face(i, 0, ZERO, 0, ZERO, 0, false, 0);
    hide Holding; hide Spb.Deliver; hide High; hide Hash; hide Spb.Init; hide FaceOf;
    var h, b := Begun(cfg, i);
    g, x := Certify(cfg, h, i, x0, b);
    b2 := Block(i, 0, H2, -1, Some(BlockQc(0, H1, i, Hash(b))), []);
  }

  /** Both blocks of the node are certified, and its speed vote is on its way to itself. */
  lemma SecondCertified(cfg: Config, i: NodeId) returns (g: System, x: Spb.Instance, sv: SpeedVoteMsg)
    requires cfg.faults <= i < cfg.n && High(cfg.n) == 1
    ensures Holding(cfg, g, i, x) && Packet(i, SpeedVoting(sv)) in g.net && sv.author == i
    ensures Expects(FaceOf(x), sv)
  {
    hide Holding; hide Spb.Deliver; hide High; hide Hash; hide FaceOf;
    var g1, x1, b := FirstCertified(cfg, i);
    var h := HandNext(cfg, g1, i, x1, ProposeMsg(b));
    g, x := Certify(cfg, h, i, x1, b);
    sv := SpeedVoteFor(i, BlockQc(0, H2, i, Hash(b)));
  }

  /** In a committee whose quorum is one node, every running node can raise the speed flag of its own instance. */
  lemma FlagRaised(cfg: Config, i: NodeId) returns (run: seq<System>)
    requires cfg.faults <= i < cfg.n <= 3
    ensures IsRun(cfg, run) && |run| >= 1 && i < |run[|run| - 1].nodes|
    ensures InstanceAt(run[|run| - 1].nodes[i], Key(0, i)).fast.isSpeedCert
  {
    assert High(cfg.n) == 1;
    hide Holding; hide Spb.Deliver; hide High; hide FaceOf; hide IsRun; hide InstanceAt;
    var g1, x1, sv := SecondCertified(cfg, i);
    var g2 := HandNext(cfg, g1, i, x1, SpeedVoting(sv));
    var g, x := Raise(cfg, g2, i, x1, sv);
    run := RunTo(cfg, g, i, x);
  }

  lemma RunTo(cfg: Config, g: System, i: NodeId, x: Spb.Instance) returns (run: seq<System>)
    requires Holding(cfg, g, i, x)
    ensures IsRun(cfg, run) && |run| >= 1 && run[|run| - 1] == g && i < |g.nodes|
    ensures InstanceAt(g.nodes[i], Key(0, i)) == x
  {
    hide Next; hide Initial;
    run :| IsRun(cfg, run) && run[|run| - 1] == g;
  }

  ghost predicate CanRaise(cfg: Config) {
    exists run: seq<System>, t: nat, i: NodeId, k: Key :: Raised(cfg, run, t, i, k)
  }

  ghost predicate Raised(cfg: Config, run: seq<System>, t: nat, i: NodeId, k: Key) {
    IsRun(cfg, run) && t < |run| && i < |run[t].nodes| && InstanceAt(run[t].nodes[i], k).fast.isSpeedCert
  }

  /** The speed flag of the Big protocol can be raised if and only if the committee has at most three nodes and one of
      them runs. */
  lemma FlagIff(cfg: Config)
    requires cfg.n >= 1
    ensures CanRaise(cfg) <==> cfg.faults < cfg.n <= 3
  {
    hide IsRun; hide InstanceAt;
    if cfg.faults < cfg.n <= 3 {
      var run := FlagRaised(cfg, cfg.faults);
      assert Raised(cfg, run, |run| - 1, cfg.faults, Key(0, cfg.faults));
    }
    if run: seq<System>, t: nat, i: NodeId, k: Key :| Raised(cfg, run, t, i, k) {
      FlagNeedsRunner(cfg, run, t, i, k);
    }
  }

  lemma FlagNeedsRunner(cfg: Config, run: seq<System>, t: nat, i: NodeId, k: Key)
    requires Raised(cfg, run, t, i, k)
    ensures cfg.faults < cfg.n <= 3
  {
    hide IsRun; hide SentOk; hide NodeOk; hide InstanceAt; hide InstancesOk; hide HistoryOk; hide OwnSentOk;
    hide CountersOk; hide CoinOk; hide StoreOk; hide InstanceOk; hide VoteHistory; hide ProposalHistory;
    assert High(cfg.n) >= 1;
    hide High;
    RunSent(cfg, run, t);
    SpeedFlagNeedsTinyCommittee(cfg, run, t, i, k);
    RunNode(cfg, run, t, i);
    var nd := run[t].nodes[i];
    NodeParts(cfg, i, nd, run[t].sent);
    KeyParts(cfg, nd, k);
    var x := InstanceAt(nd, k);
    CountedIsForUs(cfg, k, x);
    FlagNeedsQuorum(cfg, k, x);
    var sv :| sv in x.fast.counted;
    assert x.fast.speedVotes[sv] >= 1;
    MsgOf(cfg, run[t].sent, SpeedVoting(sv));
  }
}
