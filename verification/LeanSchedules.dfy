/** Runs of the lean protocol built step by step: what a scheduler can bring about. */
module LeanSchedules {
  import opened Blocks
  import opened Quorum
  import opened LeanSpb
  import opened LeanNode
  import opened LeanSystem
  import opened LeanInvariant
  import opened LeanSteps
  import ViewChange

  // ----- Reachable states -----

  /** A run that starts with `past` ends in `g`. */
  ghost predicate Reached(cfg: Config, past: seq<System>, g: System) {
    exists run :: IsRun(cfg, run) && past <= run && run[|run| - 1] == g
  }

  lemma InitialReached(cfg: Config)
    requires cfg.n >= 1
    ensures Reached(cfg, [], Initial(cfg))
  {
    assert IsRun(cfg, [Initial(cfg)]);
  }

  lemma MoveReached(cfg: Config, past: seq<System>, g: System, mv: Move)
    requires Reached(cfg, past, g) && CanMove(cfg, g, mv)
    ensures Reached(cfg, past, Apply(cfg, g, mv))
  {
    hide CanMove; hide Apply;
    var run :| IsRun(cfg, run) && past <= run && run[|run| - 1] == g;
    var g' := Apply(cfg, g, mv);
    assert Next(cfg, g, g');
    hide Next;
    assert IsRun(cfg, run + [g']);
  }

  /** The message has been sent and is on its way to every addressee. */
  ghost predicate OnItsWay(cfg: Config, g: System, m: Msg) {
    m in g.sent && forall j: NodeId :: j < cfg.n && Addressed(m, j) ==> Packet(j, m) in g.net
  }

  /** A running node that is between two messages, in a view that nobody has reported on to it. */
  ghost predicate Awake(nd: Node, view: nat) {
    && nd.started && nd.coin.None? && nd.progress.view == view
    && forall u: nat :: u >= view ==> ViewChange.At(nd.progress, u) == ViewChange.Tally(0, 0, 0)
  }

  predicate Runs(cfg: Config, i: NodeId) {
    cfg.faults <= i < cfg.n
  }

  ghost predicate AllAwake(cfg: Config, g: System, view: nat) {
    cfg.n >= 1 && |g.nodes| == cfg.n && forall i: NodeId :: Runs(cfg, i) ==> Awake(g.nodes[i], view)
  }

  ghost predicate Idle(cfg: Config, past: seq<System>, g: System, view: nat) {
    Reached(cfg, past, g) && AllAwake(cfg, g, view)
  }

  /** One event of one node. */
  lemma Do(cfg: Config, past: seq<System>, g: System, i: NodeId, e: Event) returns (g': System)
    requires Reached(cfg, past, g) && CanMove(cfg, g, Local(i, e))
    ensures Reached(cfg, past, g') && g'.nodes == g.nodes[i := Step(cfg, i, g.nodes[i], e).0] && g.sent <= g'.sent
    ensures forall p :: p in g.net && !(e.Handle? && p == Packet(i, e.m)) ==> p in g'.net
    ensures var out := Step(cfg, i, g.nodes[i], e).1; out.Some? ==> OnItsWay(cfg, g', out.value)
  {
    hide Reached; hide Step; hide Enabled;
    MoveReached(cfg, past, g, Local(i, e));
    g' := Apply(cfg, g, Local(i, e));
  }

  // ----- Frames -----

  predicate SameCore(nd: Node, nd': Node) {
    && nd'.started == nd.started && nd'.progress == nd.progress && nd'.coin == nd.coin
    && nd'.elector == nd.elector && nd'.coinViews == nd.coinViews && nd'.finVotes == nd.finVotes
  }

  ghost predicate NodeAside(nd: Node, nd': Node, ks: set<Key>) {
    SameCore(nd, nd') && forall c: Key :: c !in ks ==> InstanceAt(nd', c) == InstanceAt(nd, c)
  }

  predicate Concerns(m: Msg, ks: set<Key>) {
    (m.ProposeMsg? || m.VoteOf?) && KeyOf(m) in ks
  }

  /** Only the instances with these keys and the proposals and votes for them have been worked on. */
  ghost predicate Aside(g: System, g': System, ks: set<Key>) {
    && |g'.nodes| == |g.nodes| && g.sent <= g'.sent
    && (forall i :: 0 <= i < |g.nodes| ==> NodeAside(g.nodes[i], g'.nodes[i], ks))
    && (forall p :: p in g.net && !Concerns(p.m, ks) ==> p in g'.net)
  }

  lemma AsideTwice(g: System, h: System, g': System, a: set<Key>, b: set<Key>)
    requires Aside(g, h, a) && Aside(h, g', b)
    ensures Aside(g, g', a + b)
  {
    hide KeyOf; hide InstanceAt;
  }

  lemma AsideAwake(cfg: Config, g: System, g': System, ks: set<Key>, view: nat)
    requires AllAwake(cfg, g, view) && Aside(g, g', ks)
    ensures AllAwake(cfg, g', view)
  {
    hide InstanceAt; hide Concerns;
  }

  lemma StillOnItsWay(cfg: Config, g: System, g': System, ks: set<Key>, m: Msg)
    requires OnItsWay(cfg, g, m) && Aside(g, g', ks) && !Concerns(m, ks)
    ensures OnItsWay(cfg, g', m)
  {
    hide InstanceAt; hide Concerns; hide NodeAside;
  }

  // ----- One section, one delivery -----

  /** What changes when node `i` works on its instance `k`. */
  ghost predicate Worked(g: System, g': System, i: NodeId, k: Key, y: Instance) {
    && i < |g.nodes| && Aside(g, g', {k}) && k in g'.nodes[i].instances && InstanceAt(g'.nodes[i], k) == y
    && forall j :: 0 <= j < |g.nodes| && j != i ==> g'.nodes[j] == g.nodes[j]
  }

  /** What a section of an instance sends. */
  function Output(cfg: Config, id: NodeId, nd: Node, k: Key, t: Task): Option<Msg> {
    match t
    case SendVote(b) => Some(VoteOf(VoteFor(id, b)))
    case SendSpeed(fv) => Some(SpeedOf(SpeedVoteFor(id, fv.qc)))
    case Certify(qc) =>
      Some(if qc.height.H1? then ProposeMsg(MakeBlock(cfg, id, nd, k.view, H2, Some(qc), false))
           else FinOf(FinVote(id, k.view, qc)))
    case _ => None
  }

  lemma TaskEffect(cfg: Config, id: NodeId, nd: Node, k: Key, t: Task)
    requires k in nd.instances && Pending(nd.instances[k], t)
    ensures RunTask(cfg, id, nd, k, t, false) ==
      (nd.(instances := nd.instances[k := Run(nd.instances[k], High(cfg.n), t)]), Output(cfg, id, nd, k, t))
  {
    hide Run; hide High; hide Pending; hide MakeBlock;
  }

  lemma Work(cfg: Config, past: seq<System>, g: System, i: NodeId, k: Key, t: Task) returns (g': System)
    requires Idle(cfg, past, g, k.view) && Runs(cfg, i)
    requires k in g.nodes[i].instances && Pending(InstanceAt(g.nodes[i], k), t)
    ensures Idle(cfg, past, g', k.view)
    ensures Worked(g, g', i, k, Run(InstanceAt(g.nodes[i], k), High(cfg.n), t))
    ensures forall p :: p in g.net ==> p in g'.net
    ensures var out := Output(cfg, i, g.nodes[i], k, t); out.Some? ==> OnItsWay(cfg, g', out.value)
  {
    hide Reached; hide Run; hide High; hide Pending; hide RunTask; hide OnItsWay; hide Output;
    assert Awake(g.nodes[i], k.view);
    TaskEffect(cfg, i, g.nodes[i], k, t);
    g' := Do(cfg, past, g, i, DoTask(k, t, false));
    AsideAwake(cfg, g, g', {k}, k.view);
  }

  lemma RouteEffect(cfg: Config, id: NodeId, nd: Node, m: Msg)
    requires cfg.n >= 1 && nd.progress.view == KeyOf(m).view && (m.ProposeMsg? || m.VoteOf? || m.SpeedOf?)
    ensures var nd' := Receive(cfg, id, nd, m, false).0;
      && SameCore(nd, nd')
      && nd'.instances == nd.instances[KeyOf(m) := Deliver(InstanceAt(nd, KeyOf(m)), Delivered(m).value)]
  {
    hide Hash; hide Deliver;
  }

  lemma Hand(cfg: Config, past: seq<System>, g: System, i: NodeId, m: Msg) returns (g': System)
    requires Idle(cfg, past, g, KeyOf(m).view) && Runs(cfg, i) && Packet(i, m) in g.net
    requires m.ProposeMsg? || m.VoteOf?
    ensures Idle(cfg, past, g', KeyOf(m).view)
    ensures Worked(g, g', i, KeyOf(m), Deliver(InstanceAt(g.nodes[i], KeyOf(m)), Delivered(m).value))
    ensures forall p :: p in g.net && p != Packet(i, m) ==> p in g'.net
  {
    hide Reached; hide Deliver; hide Receive; hide OnItsWay; hide KeyOf; hide Delivered;
    assert Awake(g.nodes[i], KeyOf(m).view);
    RouteEffect(cfg, i, g.nodes[i], m);
    assert Delivered(m).Some? by { DeliveredSome(m); }
    g' := Do(cfg, past, g, i, Handle(m, false));
    AsideAwake(cfg, g, g', {KeyOf(m)}, KeyOf(m).view);
  }

  lemma DeliveredSome(m: Msg)
    requires m.ProposeMsg? || m.VoteOf?
    ensures Delivered(m).Some?
  {
  }

  // ----- One vote -----

  /** What matters of an instance for how a broadcast goes on. */
  datatype Face = Face(proposer: NodeId, view: nat, preQc: Option<BlockQc>, loHash: Digest, loQc: Option<BlockQc>,
    loVotes: nat,
                       hiHash: Digest, hiQc: Option<BlockQc>, hiVotes: nat, sped: bool)

  function FaceOf(x: Instance): Face {
    Face(x.proposer, x.view, x.preQc, x.lo.hash, x.lo.qc, x.lo.voteNums, x.hi.hash, x.hi.qc, x.hi.voteNums,
      x.fast.isSpeedCert)
  }

  function FaceAt(g: System, i: NodeId, k: Key): Face
    requires i < |g.nodes|
  {
    FaceOf(InstanceAt(g.nodes[i], k))
  }

  function NewFace(k: Key): Face {
    Face(k.node, k.view, None, ZERO, None, 0, ZERO, None, 0, false)
  }

  /** The instance has voted for a block. */
  function Cast(f: Face, b: Block): Face {
    if b.height.H1? then f.(preQc := b.qc, loHash := Hash(b)) else f.(loQc := b.qc, hiHash := Hash(b))
  }

  function Counted(f: Face, h: Height, more: nat): Face {
    if h.H1? then f.(loVotes := f.loVotes + more) else f.(hiVotes := f.hiVotes + more)
  }

  /** A proposal passes through the sections of an instance. */
  lemma Passage(x: Instance, b: Block, high: nat) returns (x1: Instance, x2: Instance, x3: Instance, x4: Instance)
    requires b.height.H2? ==> x.lo.hash == ParentHash(b)
    ensures x1 == Deliver(x, Proposal(b))
    ensures Pending(x1, OnPropose(b)) && x2 == Run(x1, high, OnPropose(b))
    ensures Pending(x2, Replay(b)) && x3 == Run(x2, high, Replay(b))
    ensures Pending(x3, SendVote(b)) && x4 == Run(x3, high, SendVote(b))
    ensures FaceOf(x4) == Cast(FaceOf(x), b)
  {
    hide Hash; hide ParentHash;
    x1 := Deliver(x, Proposal(b));
    x2 := Run(x1, high, OnPropose(b));
    x3 := Run(x2, high, Replay(b));
    x4 := Run(x3, high, SendVote(b));
  }

  lemma WorkedTwice(g: System, h: System, g': System, i: NodeId, k: Key, y: Instance, z: Instance)
    requires Worked(g, h, i, k, y) && Worked(h, g', i, k, z)
    ensures Worked(g, g', i, k, z)
  {
    hide Aside; hide InstanceAt;
    assert |h.nodes| == |g.nodes| by { AsideSize(g, h, {k}); }
    AsideTwice(g, h, g', {k}, {k});
    assert {k} + {k} == {k};
  }

  lemma AsideSize(g: System, g': System, ks: set<Key>)
    requires Aside(g, g', ks)
    ensures |g'.nodes| == |g.nodes|
  {
    hide NodeAside; hide Concerns;
  }

  /** Node `i` has worked on its instance `k`, which now has face `f`. */
  ghost predicate Turned(g: System, g': System, i: NodeId, k: Key, f: Face) {
    && i < |g.nodes| == |g'.nodes| && Aside(g, g', {k}) && k in g'.nodes[i].instances && FaceAt(g', i, k) == f
    && forall j :: 0 <= j < |g.nodes| && j != i ==> g'.nodes[j] == g.nodes[j]
  }

  /** A node handles a proposal and votes for it. */
  lemma DoVote(cfg: Config, past: seq<System>, g: System, x: NodeId, b: Block) returns (g': System)
    requires Idle(cfg, past, g, b.view) && Runs(cfg, x) && Packet(x, ProposeMsg(b)) in g.net
    requires b.height.H2? ==> FaceAt(g, x, Key(b.view, b.author)).loHash == ParentHash(b)
    ensures Idle(cfg, past, g', b.view)
    ensures Turned(g, g', x, Key(b.view, b.author), Cast(FaceAt(g, x, Key(b.view, b.author)), b))
    ensures forall p :: p in g.net && p != Packet(x, ProposeMsg(b)) ==> p in g'.net
    ensures OnItsWay(cfg, g', VoteOf(VoteFor(x, b)))
  {
    hide Reached; hide OnItsWay; hide Hash; hide High; hide Run; hide Deliver; hide Aside; hide NodeAside; hide Awake;
    hide VoteFor; hide ParentHash; hide Pending; hide InstanceAt; hide Cast; hide MakeBlock;
    var k := Key(b.view, b.author);
    var x1, x2, x3, x4 := Passage(InstanceAt(g.nodes[x], k), b, High(cfg.n));
    var g1 := Hand(cfg, past, g, x, ProposeMsg(b));
    var g2 := Work(cfg, past, g1, x, k, OnPropose(b));
    WorkedTwice(g, g1, g2, x, k, x1, x2);
    var g3 := Work(cfg, past, g2, x, k, Replay(b));
    WorkedTwice(g, g2, g3, x, k, x2, x3);
    g' := Work(cfg, past, g3, x, k, SendVote(b));
    WorkedTwice(g, g3, g', x, k, x3, x4);
  }

  lemma Tally(x: Instance, v: VoteMsg, high: nat) returns (x1: Instance, x2: Instance)
    ensures x1 == Deliver(x, Vote(v)) && Pending(x1, CountVote(v)) && x2 == Run(x1, high, CountVote(v))
    ensures FaceOf(x2) == Counted(FaceOf(x), v.height, 1)
    ensures x.At(v.height).voteNums + 1 == high ==>
      Pending(x2, Certify(BlockQc(x.view, v.height, v.proposer, v.hash)))
  {
    x1 := Deliver(x, Vote(v));
    x2 := Run(x1, high, CountVote(v));
    if v.height.H1? {
      assert x2.lo == AddVote(x1.lo, v, x.view, high) && x2.hi == x.hi;
    } else {
      assert x2.hi == AddVote(x1.hi, v, x.view, high) && x2.lo == x.lo;
    }
  }

  function VotesOf(f: Face, h: Height): nat {
    if h.H1? then f.loVotes else f.hiVotes
  }

  /** The proposer handles a vote and counts it. */
  lemma DoCount(cfg: Config, past: seq<System>, g: System, a: NodeId, v: VoteMsg) returns (g': System)
    requires Idle(cfg, past, g, v.view) && Runs(cfg, a) && Packet(a, VoteOf(v)) in g.net
    ensures Idle(cfg, past, g', v.view)
    ensures var k := Key(v.view, v.proposer);
      && Turned(g, g', a, k, Counted(FaceAt(g, a, k), v.height, 1))
      && (VotesOf(FaceAt(g, a, k), v.height) + 1 == High(cfg.n) ==>
          Pending(InstanceAt(g'.nodes[a], k), Certify(BlockQc(FaceAt(g, a, k).view, v.height, v.proposer, v.hash))))
    ensures forall p :: p in g.net && p != Packet(a, VoteOf(v)) ==> p in g'.net
  {
    hide Reached; hide OnItsWay; hide High; hide Run; hide Deliver; hide Aside; hide NodeAside; hide Awake;
    hide Pending; hide InstanceAt; hide Counted; hide MakeBlock;
    var k := Key(v.view, v.proposer);
    var x1, x2 := Tally(InstanceAt(g.nodes[a], k), v, High(cfg.n));
    var g1 := Hand(cfg, past, g, a, VoteOf(v));
    g' := Work(cfg, past, g1, a, k, CountVote(v));
    WorkedTwice(g, g1, g', a, k, x1, x2);
  }

  // ----- A round of votes -----

  /** What a round of votes on a block does to one node's instance. */
  function Ballot(f: Face, b: Block, cast: bool, more: nat): Face {
    Counted(if cast then Cast(f, b) else f, b.height, more)
  }

  lemma BallotTwice(f: Face, b: Block, c: bool, m: nat, d: bool, n: nat)
    ensures Ballot(Ballot(f, b, c, m), b, d, n) == Ballot(f, b, c || d, m + n)
  {
    hide Hash;
  }

  /** The proposer is about to use the certificate of its block. */
  ghost predicate Sealable(g: System, g': System, a: NodeId, b: Block)
    requires a < |g.nodes| == |g'.nodes|
  {
    var k := Key(b.view, a);
    Pending(InstanceAt(g'.nodes[a], k), Certify(BlockQc(FaceAt(g, a, k).view, b.height, a, Hash(b))))
  }

  /** One node votes and the proposer counts the vote. */
  lemma Poll(cfg: Config, past: seq<System>, g: System, a: NodeId, b: Block, x: NodeId) returns (g': System)
    requires Idle(cfg, past, g, b.view) && Runs(cfg, x) && Runs(cfg, a) && Packet(x, ProposeMsg(b)) in g.net
    requires b.author == a && (b.height.H2? ==> FaceAt(g, x, Key(b.view, a)).loHash == ParentHash(b))
    ensures Idle(cfg, past, g', b.view) && Aside(g, g', {Key(b.view, a)})
    ensures forall i: NodeId :: i < cfg.n ==>
      FaceAt(g', i, Key(b.view, a)) == Ballot(FaceAt(g, i, Key(b.view, a)), b, i == x, if i == a then 1 else 0)
    ensures forall p :: p in g.net && p != Packet(x, ProposeMsg(b)) && !p.m.VoteOf? ==> p in g'.net
    ensures Key(b.view, a) in g'.nodes[a].instances
    ensures VotesOf(FaceAt(g, a, Key(b.view, a)), b.height) + 1 == High(cfg.n) ==> Sealable(g, g', a, b)
  {
    hide Reached; hide High; hide Aside; hide Awake; hide Pending; hide InstanceAt; hide Hash; hide ParentHash;
    hide FaceOf;
    var k := Key(b.view, a);
    var v := VoteFor(x, b);
    var h := DoVote(cfg, past, g, x, b);
    assert Packet(a, VoteOf(v)) in h.net;
    hide OnItsWay;
    g' := DoCount(cfg, past, h, a, v);
    assert {k} + {k} == {k};
    AsideTwice(g, h, g', {k}, {k});
    forall i: NodeId | i < cfg.n
      ensures FaceAt(g', i, k) == Ballot(FaceAt(g, i, k), b, i == x, if i == a then 1 else 0)
    {
      if i != a {
        assert g'.nodes[i] == h.nodes[i];
      }
      if i != x {
        assert h.nodes[i] == g.nodes[i];
      }
    }
  }

  /** The nodes in `w` vote for a block one after the other, the last one completing its certificate. */
  lemma {:induction false} Round(cfg: Config, past: seq<System>, g: System, a: NodeId, b: Block,
                                 w: seq<NodeId>) returns (g': System)
    requires Idle(cfg, past, g, b.view) && Runs(cfg, a) && b.author == a && Distinct(w) && |w| >= 1
    requires forall x :: x in w ==> Runs(cfg, x) && Packet(x, ProposeMsg(b)) in g.net
    requires b.height.H2? ==> forall x :: x in w ==> FaceAt(g, x, Key(b.view, a)).loHash == ParentHash(b)
    requires VotesOf(FaceAt(g, a, Key(b.view, a)), b.height) + |w| == High(cfg.n)
    ensures Idle(cfg, past, g', b.view) && Aside(g, g', {Key(b.view, a)})
    ensures forall i: NodeId :: i < cfg.n ==>
      FaceAt(g', i, Key(b.view, a)) == Ballot(FaceAt(g, i, Key(b.view, a)), b, i in w, if i == a then |w| else 0)
    ensures Key(b.view, a) in g'.nodes[a].instances && Sealable(g, g', a, b)
    decreases |w|
  {
    hide Reached; hide High; hide Aside; hide Awake; hide Pending; hide InstanceAt; hide Hash; hide ParentHash;
    hide FaceOf; hide Ballot;
    var k := Key(b.view, a);
    var h := Poll(cfg, past, g, a, b, w[0]);
    var rest := w[1..];
    forall x | x in rest
      ensures Packet(x, ProposeMsg(b)) in h.net && x != w[0]
      ensures b.height.H2? ==> FaceAt(h, x, k).loHash == ParentHash(b)
    {
      assert x in w;
      BallotKeeps(FaceAt(g, x, k), b, false, if x == a then 1 else 0);
    }
    BallotKeeps(FaceAt(g, a, k), b, a == w[0], 1);
    if rest == [] {
      g' := h;
    } else {
      g' := Round(cfg, past, h, a, b, rest);
      assert {k} + {k} == {k};
      AsideTwice(g, h, g', {k}, {k});
    }
    forall i: NodeId | i < cfg.n
      ensures FaceAt(g', i, k) == Ballot(FaceAt(g, i, k), b, i in w, if i == a then |w| else 0)
    {
      if rest != [] {
        BallotTwice(FaceAt(g, i, k), b, i == w[0], if i == a then 1 else 0, i in rest, if i == a then |rest| else 0);
      }
    }
  }

  lemma BallotKeeps(f: Face, b: Block, cast: bool, more: nat)
    ensures var r := Ballot(f, b, cast, more);
      r.view == f.view && VotesOf(r, b.height) == VotesOf(f, b.height) + more && (b.height.H2? ==> r.loHash == f.loHash)
  {
    hide Hash;
  }

  // ----- A whole broadcast -----

  lemma SealKeeps(x: Instance, high: nat, qc: BlockQc)
    requires Pending(x, Certify(qc))
    ensures FaceOf(Run(x, high, Certify(qc))) == FaceOf(x)
  {
  }

  /** The proposer uses a certificate: for its height-2 block or for its final vote. */
  lemma Seal(cfg: Config, past: seq<System>, g: System, a: NodeId, k: Key, qc: BlockQc) returns (g': System)
    requires Idle(cfg, past, g, k.view) && Runs(cfg, a) && k in g.nodes[a].instances
    requires Pending(InstanceAt(g.nodes[a], k), Certify(qc))
    ensures Idle(cfg, past, g', k.view) && Aside(g, g', {k})
    ensures forall i: NodeId :: i < cfg.n ==> FaceAt(g', i, k) == FaceAt(g, i, k)
    ensures qc.height.H1? ==> exists id :: OnItsWay(cfg, g', ProposeMsg(Block(a, k.view, H2, id, Some(qc), [])))
    ensures qc.height.H2? ==> OnItsWay(cfg, g', FinOf(FinVote(a, k.view, qc)))
  {
    hide Reached; hide Awake; hide High; hide OnItsWay; hide Run; hide Pending; hide InstanceAt; hide FaceOf;
    SealKeeps(InstanceAt(g.nodes[a], k), High(cfg.n), qc);
    g' := Work(cfg, past, g, a, k, Certify(qc));
    forall i: NodeId | i < cfg.n ensures FaceAt(g', i, k) == FaceAt(g, i, k) {
    }
    if qc.height.H1? {
      var b := MakeBlock(cfg, a, g.nodes[a], k.view, H2, Some(qc), false);
      assert b == Block(a, k.view, H2, b.batchId, Some(qc), []);
    }
  }

  /** A node that voted for both blocks of a broadcast and knows nothing of the final vote. */
  predicate Knows(f: Face, q: BlockQc) {
    f.proposer == q.proposer && f.view == q.view && f.loQc.Some? && f.hiQc.None? && f.hiHash == q.hash && !f.sped
  }

  ghost predicate Unused(cfg: Config, g: System, k: Key)
    requires |g.nodes| == cfg.n
  {
    forall i: NodeId :: i < cfg.n ==> FaceAt(g, i, k) == NewFace(k)
  }

  /** A node gets its two blocks certified by the quorum `w` and sends its final vote. */
  lemma Broadcast(cfg: Config, past: seq<System>, g: System, a: NodeId, b: Block,
                  w: seq<NodeId>) returns (g': System, q: BlockQc)
    requires Idle(cfg, past, g, b.view) && Runs(cfg, a) && b.author == a && b.height.H1?
    requires Distinct(w) && |w| == High(cfg.n) && Unused(cfg, g, Key(b.view, a))
    requires forall x :: x in w ==> Runs(cfg, x) && Packet(x, ProposeMsg(b)) in g.net
    ensures Idle(cfg, past, g', b.view) && Aside(g, g', {Key(b.view, a)})
    ensures OnItsWay(cfg, g', FinOf(FinVote(a, b.view, q)))
    ensures QcAt(q, b.view, H2, a) && forall x :: x in w ==> Knows(FaceAt(g', x, Key(b.view, a)), q)
  {
    hide Reached; hide Aside; hide Awake; hide Pending; hide InstanceAt; hide Hash; hide FaceOf; hide High;
    var k := Key(b.view, a);
    var g1 := Round(cfg, past, g, a, b, w);
    var q1 := BlockQc(b.view, H1, a, Hash(b));
    var g2 := Seal(cfg, past, g1, a, k, q1);
    var id :| OnItsWay(cfg, g2, ProposeMsg(Block(a, b.view, H2, id, Some(q1), [])));
    var b2 := Block(a, b.view, H2, id, Some(q1), []);
    var g3 := Round(cfg, past, g2, a, b2, w);
    hide OnItsWay;
    q := BlockQc(b.view, H2, a, Hash(b2));
    g' := Seal(cfg, past, g3, a, k, q);
    assert {k} + {k} == {k};
    AsideTwice(g, g1, g2, {k}, {k});
    AsideTwice(g, g2, g3, {k}, {k});
    AsideTwice(g, g3, g', {k}, {k});
  }
}
