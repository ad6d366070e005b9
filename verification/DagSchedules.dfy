/** Runs of the DAG protocol built step by step: what a scheduler can bring about. */
module DagSchedules {
  import opened Blocks
  import opened Quorum
  import opened DagNode
  import opened DagSystem
  import Spb

  // ----- Reachable states -----

  ghost predicate Reached(cfg: Config, g: System) {
    exists run :: IsRun(cfg, run) && run[|run| - 1] == g
  }

  lemma MoveReached(cfg: Config, g: System, mv: DagSystem.Move)
    requires Reached(cfg, g) && CanMove(cfg, g, mv)
    ensures Reached(cfg, Apply(cfg, g, mv))
  {
    hide CanMove; hide Apply;
    var run :| IsRun(cfg, run) && run[|run| - 1] == g;
    var g' := Apply(cfg, g, mv);
    assert Next(cfg, g, g');
    hide Next;
    assert IsRun(cfg, run + [g']);
  }

  predicate Runs(cfg: Config, i: NodeId) {
    cfg.faults <= i < cfg.n
  }

  /** A running node that is between two messages. */
  predicate Awake(nd: Node) {
    nd.started && nd.scan.None? && nd.coin.None?
  }

  /** A run reaches `g`, where all running nodes are between two messages. */
  ghost predicate Idle(cfg: Config, g: System) {
    Reached(cfg, g) && cfg.n >= 1 && |g.nodes| == cfg.n && forall i: NodeId :: Runs(cfg, i) ==> Awake(g.nodes[i])
  }

  /** The message has been sent and is on its way to every node. */
  ghost predicate OnItsWay(cfg: Config, g: System, m: Msg) {
    m in g.sent && forall j: NodeId :: j < cfg.n ==> Packet(j, m) in g.net
  }

  /** One event of one node. */
  lemma Do(cfg: Config, g: System, i: NodeId, e: Event) returns (g': System)
    requires Reached(cfg, g) && cfg.n >= 1 && CanMove(cfg, g, Local(i, e))
    ensures Reached(cfg, g') && g'.nodes == g.nodes[i := Step(cfg, i, g.nodes[i], e).0] && g.sent <= g'.sent
    ensures forall p :: p in g.net && !(e.Handle? && p == Packet(i, e.m)) ==> p in g'.net
    ensures var out := Step(cfg, i, g.nodes[i], e).1; out.Some? ==> OnItsWay(cfg, g', out.value)
  {
    hide Reached; hide Step; hide Enabled;
    MoveReached(cfg, g, Local(i, e));
    g' := Apply(cfg, g, Local(i, e));
  }

  // ----- Frames -----

  /** What matters of an instance for how a broadcast goes on. */
  datatype Face = Face(dag: bool, proposer: NodeId, view: nat, loHash: Digest, loVotes: nat, loQc: Option<BlockQc>,
                       hiHash: Digest, hiVotes: nat, hiQc: Option<BlockQc>, speedVotes: nat, sped: bool)

  function FaceOf(x: Spb.Instance): Face {
    Face(x.variant.Dag?, x.proposer, x.view, x.lo.hash, x.lo.voteNums, x.lo.qc, x.hi.hash, x.hi.voteNums, x.hi.qc,
         x.fast.speedVoteNums, x.fast.isSpeedCert)
  }

  function FaceAt(g: System, i: NodeId, k: Key): Face
    requires i < |g.nodes|
  {
    FaceOf(InstanceAt(g.nodes[i], k))
  }

  function NewFace(k: Key): Face {
    Face(true, k.node, k.view, ZERO, 0, None, ZERO, 0, None, 0, false)
  }

  predicate SameCore(nd: Node, nd': Node) {
    && nd'.started == nd.started && nd'.view == nd.view && nd'.height == nd.height && nd'.scan == nd.scan
    && nd'.coin == nd.coin && nd'.elector == nd.elector && nd'.speedVoteNums == nd.speedVoteNums
    && nd.callBack <= nd'.callBack
  }

  ghost predicate NodeAside(nd: Node, nd': Node, ks: set<Key>) {
    SameCore(nd, nd') && forall c: Key :: c !in ks ==> FaceOf(InstanceAt(nd', c)) == FaceOf(InstanceAt(nd, c))
  }

  function KeyOf(m: Msg): Key {
    match m
    case ProposeMsg(b) => Key(b.view, b.author)
    case Voting(v) => Key(v.view, v.proposer)
    case SpeedVoting(sv) => Key(sv.view, sv.proposer)
    case ElectMsg(_, view) => Key(view, 0)
  }

  predicate Concerns(m: Msg, ks: set<Key>) {
    (m.ProposeMsg? || m.Voting?) && KeyOf(m) in ks
  }

  /** Only the nodes in `xs` have moved, and only in the instances with these keys. */
  ghost predicate Aside(g: System, g': System, xs: set<NodeId>, ks: set<Key>) {
    && |g'.nodes| == |g.nodes| && g.sent <= g'.sent
    && (forall i :: 0 <= i < |g.nodes| ==> NodeAside(g.nodes[i], g'.nodes[i], ks))
    && (forall i :: 0 <= i < |g.nodes| && i !in xs ==> g'.nodes[i] == g.nodes[i])
    && (forall p :: p in g.net && !(p.to in xs && Concerns(p.m, ks)) ==> p in g'.net)
  }

  lemma AsideTwice(g: System, h: System, g': System, xs: set<NodeId>, a: set<Key>, ys: set<NodeId>, b: set<Key>)
    requires Aside(g, h, xs, a) && Aside(h, g', ys, b)
    ensures Aside(g, g', xs + ys, a + b)
  {
    hide KeyOf; hide InstanceAt; hide FaceOf;
  }

  lemma AsideIdle(cfg: Config, g: System, g': System, xs: set<NodeId>, ks: set<Key>)
    requires Idle(cfg, g) && Reached(cfg, g') && Aside(g, g', xs, ks)
    ensures Idle(cfg, g')
  {
    hide InstanceAt; hide FaceOf; hide Concerns; hide Reached;
  }

  lemma AsideSize(g: System, g': System, xs: set<NodeId>, ks: set<Key>)
    requires Aside(g, g', xs, ks)
    ensures |g'.nodes| == |g.nodes| && g.sent <= g'.sent
  {
    hide NodeAside; hide Concerns;
  }

  lemma AsideFace(g: System, g': System, xs: set<NodeId>, ks: set<Key>, i: NodeId, k: Key)
    requires Aside(g, g', xs, ks) && i < |g.nodes| && (k !in ks || i !in xs)
    ensures |g'.nodes| == |g.nodes| && FaceAt(g', i, k) == FaceAt(g, i, k)
  {
    hide InstanceAt; hide FaceOf; hide Concerns;
  }

  lemma StillOnItsWay(cfg: Config, g: System, g': System, xs: set<NodeId>, ks: set<Key>, m: Msg)
    requires OnItsWay(cfg, g, m) && Aside(g, g', xs, ks) && !Concerns(m, ks)
    ensures OnItsWay(cfg, g', m)
  {
    hide NodeAside;
  }

  // ----- One section, one delivery -----

  /** Node `i` has worked on its instance `k`, which is now `y`. */
  ghost predicate Worked(g: System, g': System, i: NodeId, k: Key, y: Spb.Instance) {
    && i < |g.nodes| == |g'.nodes| && Aside(g, g', {i}, {k})
    && k in g'.nodes[i].instances && g'.nodes[i].instances[k] == y
  }

  lemma WorkedTwice(g: System, h: System, g': System, i: NodeId, k: Key, y: Spb.Instance, z: Spb.Instance)
    requires Worked(g, h, i, k, y) && Worked(h, g', i, k, z)
    ensures Worked(g, g', i, k, z)
  {
    hide Aside;
    AsideTwice(g, h, g', {i}, {k}, {i}, {k});
    assert {k} + {k} == {k} && {i} + {i} == {i};
  }

  function Output(i: NodeId, t: Spb.Task): Option<Msg> {
    match Spb.Emits(t)
    case Some(VoteOut(b)) => Some(Voting(VoteFor(i, b)))
    case Some(SpeedOut(qc)) => Some(SpeedVoting(SpeedVoteFor(i, qc)))
    case _ => None
  }

  lemma TaskEffect(cfg: Config, i: NodeId, nd: Node, k: Key, t: Spb.Task)
    requires k in nd.instances && Spb.Pending(nd.instances[k], t)
    ensures var (nd', out) := RunTask(cfg, i, nd, k, t);
      && nd' == nd.(instances := nd.instances[k := Spb.Run(nd.instances[k], High(cfg.n), t)], callBack := nd'.callBack)
      && out == Output(i, t) && nd.callBack <= nd'.callBack
      && (t.Announce? && t.qc.height.H1? ==> k.view in nd'.callBack)
  {
    hide Spb.Run; hide High; hide Spb.Pending; hide Hash;
  }

  lemma Work(cfg: Config, g: System, i: NodeId, k: Key, t: Spb.Task) returns (g': System)
    requires Idle(cfg, g) && Runs(cfg, i) && k in g.nodes[i].instances && Spb.Pending(g.nodes[i].instances[k], t)
    ensures Idle(cfg, g') && Worked(g, g', i, k, Spb.Run(g.nodes[i].instances[k], High(cfg.n), t))
    ensures forall p :: p in g.net ==> p in g'.net
    ensures Output(i, t).Some? ==> OnItsWay(cfg, g', Output(i, t).value)
    ensures t.Announce? && t.qc.height.H1? ==> k.view in g'.nodes[i].callBack
  {
    hide Reached; hide Spb.Run; hide High; hide Spb.Pending; hide RunTask; hide OnItsWay; hide Output; hide FaceOf;
    TaskEffect(cfg, i, g.nodes[i], k, t);
    g' := Do(cfg, g, i, Task(k, t));
    AsideIdle(cfg, g, g', {i}, {k});
  }

  function Delivered(m: Msg): Spb.Delivery
    requires m.ProposeMsg? || m.Voting?
  {
    if m.ProposeMsg? then Spb.Proposal(m.b) else Spb.Vote(m.v)
  }

  lemma RouteEffect(cfg: Config, id: NodeId, nd: Node, m: Msg)
    requires cfg.n >= 1 && (m.ProposeMsg? || m.Voting?)
    ensures var nd' := Receive(cfg, id, nd, m).0;
      && SameCore(nd, nd')
      && nd'.instances == nd.instances[KeyOf(m) := Spb.Deliver(InstanceAt(nd, KeyOf(m)), Delivered(m))]
  {
    hide Hash; hide Spb.Deliver; hide InstanceAt; hide AddWeakVotes;
  }

  lemma Hand(cfg: Config, g: System, i: NodeId, m: Msg) returns (g': System)
    requires Idle(cfg, g) && Runs(cfg, i) && Packet(i, m) in g.net && (m.ProposeMsg? || m.Voting?)
    ensures Idle(cfg, g')
    ensures Worked(g, g', i, KeyOf(m), Spb.Deliver(InstanceAt(g.nodes[i], KeyOf(m)), Delivered(m)))
    ensures forall p :: p in g.net && p != Packet(i, m) ==> p in g'.net
  {
    hide Reached; hide Spb.Deliver; hide Receive; hide OnItsWay; hide KeyOf; hide Delivered; hide FaceOf;
    RouteEffect(cfg, i, g.nodes[i], m);
    g' := Do(cfg, g, i, Handle(m));
    AsideIdle(cfg, g, g', {i}, {KeyOf(m)});
  }

  // ----- Votes -----

  function HashAt(f: Face, h: Height): Digest {
    if h.H1? then f.loHash else f.hiHash
  }

  function VotesAt(f: Face, h: Height): nat {
    if h.H1? then f.loVotes else f.hiVotes
  }

  function QcIn(f: Face, h: Height): Option<BlockQc> {
    if h.H1? then f.loQc else f.hiQc
  }

  function Hashed(f: Face, b: Block): Face {
    if b.height.H1? then f.(loHash := Hash(b)) else f.(hiHash := Hash(b))
  }

  function Counted(f: Face, h: Height, more: nat): Face {
    if h.H1? then f.(loVotes := f.loVotes + more) else f.(hiVotes := f.hiVotes + more)
  }

  function Sealed(f: Face, h: Height, qc: BlockQc): Face {
    if h.H1? then f.(loQc := Some(qc)) else f.(hiQc := Some(qc))
  }

  ghost predicate Turned(g: System, g': System, i: NodeId, k: Key, f: Face) {
    i < |g.nodes| == |g'.nodes| && Aside(g, g', {i}, {k}) && k in g'.nodes[i].instances && FaceAt(g', i, k) == f
  }

  lemma Passage(x: Spb.Instance, b: Block, high: nat)
    returns (x1: Spb.Instance, x2: Spb.Instance, x3: Spb.Instance, x4: Spb.Instance)
    requires x.variant.Dag?
    ensures x1 == Spb.Deliver(x, Spb.Proposal(b))
    ensures Spb.Pending(x1, Spb.OnPropose(b)) && x2 == Spb.Run(x1, high, Spb.OnPropose(b))
    ensures Spb.Pending(x2, Spb.Replay(b)) && x3 == Spb.Run(x2, high, Spb.Replay(b))
    ensures Spb.Pending(x3, Spb.SendVote(b)) && x4 == Spb.Run(x3, high, Spb.SendVote(b))
    ensures FaceOf(x4) == Hashed(FaceOf(x), b)
  {
    hide Hash;
    if b.height.H1? {
      x1 := Spb.Deliver(x, Spb.Proposal(b));
      x2 := Spb.Run(x1, high, Spb.OnPropose(b));
      x3 := Spb.Run(x2, high, Spb.Replay(b));
      x4 := Spb.Run(x3, high, Spb.SendVote(b));
    } else {
      x1 := Spb.Deliver(x, Spb.Proposal(b));
      x2 := Spb.Run(x1, high, Spb.OnPropose(b));
      x3 := Spb.Run(x2, high, Spb.Replay(b));
      x4 := Spb.Run(x3, high, Spb.SendVote(b));
    }
  }

  /** A node handles a proposal and votes for it. */
  lemma DoVote(cfg: Config, g: System, x: NodeId, b: Block) returns (g': System)
    requires Idle(cfg, g) && Runs(cfg, x) && Packet(x, ProposeMsg(b)) in g.net
    requires FaceAt(g, x, Key(b.view, b.author)).dag
    ensures Idle(cfg, g')
    ensures Turned(g, g', x, Key(b.view, b.author), Hashed(FaceAt(g, x, Key(b.view, b.author)), b))
    ensures OnItsWay(cfg, g', Voting(VoteFor(x, b)))
    ensures forall p :: p in g.net && p != Packet(x, ProposeMsg(b)) ==> p in g'.net
  {
    hide Idle; hide OnItsWay; hide Hash; hide High; hide Spb.Run; hide Spb.Deliver; hide Aside; hide VoteFor;
    hide Spb.Pending; hide Hashed; hide InstanceAt;
    var k := Key(b.view, b.author);
    IdleSize(cfg, g);
    var x1, x2, x3, x4 := Passage(InstanceAt(g.nodes[x], k), b, High(cfg.n));
    var g1 := Hand(cfg, g, x, ProposeMsg(b));
    var g2 := Work(cfg, g1, x, k, Spb.OnPropose(b));
    WorkedTwice(g, g1, g2, x, k, x1, x2);
    var g3 := Work(cfg, g2, x, k, Spb.Replay(b));
    WorkedTwice(g, g2, g3, x, k, x2, x3);
    g' := Work(cfg, g3, x, k, Spb.SendVote(b));
    WorkedTwice(g, g3, g', x, k, x3, x4);
    Existing(g'.nodes[x], k);
  }

  lemma IdleSize(cfg: Config, g: System)
    requires Idle(cfg, g)
    ensures cfg.n >= 1 && |g.nodes| == cfg.n
  {
    hide Reached;
  }

  lemma Existing(nd: Node, k: Key)
    requires k in nd.instances
    ensures InstanceAt(nd, k) == nd.instances[k]
  {
  }

  function QcOf(f: Face, v: VoteMsg): BlockQc {
    BlockQc(f.view, v.height, v.proposer, v.hash)
  }

  lemma Tally(x: Spb.Instance, v: VoteMsg, high: nat) returns (x1: Spb.Instance, x2: Spb.Instance, x3: Spb.Instance)
    requires HashAt(FaceOf(x), v.height) == v.hash
    ensures x1 == Spb.Deliver(x, Spb.Vote(v))
    ensures Spb.Pending(x1, Spb.OnVote(v)) && x2 == Spb.Run(x1, high, Spb.OnVote(v))
    ensures Spb.Pending(x2, Spb.CountVote(v)) && x3 == Spb.Run(x2, high, Spb.CountVote(v))
    ensures FaceOf(x3) == Counted(FaceOf(x), v.height, 1)
    ensures VotesAt(FaceOf(x), v.height) + 1 == high ==> Spb.Pending(x3, Spb.StoreQc(QcOf(FaceOf(x), v)))
  {
    if v.height.H1? {
      x1 := Spb.Deliver(x, Spb.Vote(v));
      x2 := Spb.Run(x1, high, Spb.OnVote(v));
      x3 := Spb.Run(x2, high, Spb.CountVote(v));
    } else {
      x1 := Spb.Deliver(x, Spb.Vote(v));
      x2 := Spb.Run(x1, high, Spb.OnVote(v));
      x3 := Spb.Run(x2, high, Spb.CountVote(v));
    }
  }

  /** A node handles a vote and counts it. */
  lemma DoCount(cfg: Config, g: System, y: NodeId, v: VoteMsg) returns (g': System)
    requires Idle(cfg, g) && Runs(cfg, y) && Packet(y, Voting(v)) in g.net
    requires HashAt(FaceAt(g, y, Key(v.view, v.proposer)), v.height) == v.hash
    ensures Idle(cfg, g')
    ensures var k := Key(v.view, v.proposer);
      var f := FaceAt(g, y, k);
      && Turned(g, g', y, k, Counted(f, v.height, 1))
      && (VotesAt(f, v.height) + 1 == High(cfg.n) ==>
            Spb.Pending(g'.nodes[y].instances[k], Spb.StoreQc(QcOf(f, v))))
    ensures forall p :: p in g.net && p != Packet(y, Voting(v)) ==> p in g'.net
  {
    hide Idle; hide OnItsWay; hide High; hide Spb.Run; hide Spb.Deliver; hide Aside; hide Spb.Pending; hide InstanceAt;
    hide Counted;
    var k := Key(v.view, v.proposer);
    IdleSize(cfg, g);
    var x1, x2, x3 := Tally(InstanceAt(g.nodes[y], k), v, High(cfg.n));
    var g1 := Hand(cfg, g, y, Voting(v));
    var g2 := Work(cfg, g1, y, k, Spb.OnVote(v));
    WorkedTwice(g, g1, g2, y, k, x1, x2);
    g' := Work(cfg, g2, y, k, Spb.CountVote(v));
    WorkedTwice(g, g2, g', y, k, x2, x3);
    Existing(g'.nodes[y], k);
  }

  lemma SealPassage(x: Spb.Instance, qc: BlockQc, high: nat) returns (x1: Spb.Instance, x2: Spb.Instance)
    requires Spb.Pending(x, Spb.StoreQc(qc))
    ensures x1 == Spb.Run(x, high, Spb.StoreQc(qc))
    ensures Spb.Pending(x1, Spb.Announce(qc)) && x2 == Spb.Run(x1, high, Spb.Announce(qc))
    ensures FaceOf(x2) == Sealed(FaceOf(x), qc.height, qc)
  {
    x1 := Spb.Run(x, high, Spb.StoreQc(qc));
    x2 := Spb.Run(x1, high, Spb.Announce(qc));
  }

  /** A node stores a certificate: it asks for its next block, or sends a speed vote. */
  lemma DoSeal(cfg: Config, g: System, y: NodeId, k: Key, qc: BlockQc) returns (g': System)
    requires Idle(cfg, g) && Runs(cfg, y) && k in g.nodes[y].instances
    requires Spb.Pending(g.nodes[y].instances[k], Spb.StoreQc(qc))
    ensures Idle(cfg, g') && Turned(g, g', y, k, Sealed(FaceAt(g, y, k), qc.height, qc))
    ensures qc.height.H1? ==> k.view in g'.nodes[y].callBack
    ensures qc.height.H2? ==> OnItsWay(cfg, g', SpeedVoting(SpeedVoteFor(y, qc)))
    ensures forall p :: p in g.net ==> p in g'.net
  {
    hide Idle; hide OnItsWay; hide High; hide Spb.Run; hide Aside; hide Spb.Pending; hide InstanceAt; hide Sealed;
    IdleSize(cfg, g);
    Existing(g.nodes[y], k);
    var x1, x2 := SealPassage(g.nodes[y].instances[k], qc, High(cfg.n));
    var g1 := Work(cfg, g, y, k, Spb.StoreQc(qc));
    g' := Work(cfg, g1, y, k, Spb.Announce(qc));
    WorkedTwice(g, g1, g', y, k, x1, x2);
    Existing(g'.nodes[y], k);
  }
}
