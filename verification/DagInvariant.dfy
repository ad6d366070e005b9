/** The invariant of the DAG protocol: what every reachable state satisfies. */
module DagInvariant {
  import opened Blocks
  import opened Quorum
  import opened DagNode
  import opened DagSystem
  import Spb
  import SpbInvariant
  import Elector

  // ----- What has been sent -----

  /** `b` is the block a certificate names. */
  predicate Names(sent: set<Msg>, qc: BlockQc, b: Block) {
    && ProposeMsg(b) in sent
    && b.author == qc.proposer && b.view == qc.view && b.height == qc.height && Hash(b) == qc.hash
  }

  function Voters(n: nat, sent: set<Msg>, qc: BlockQc): set<NodeId> {
    set a | a in Nodes(n) && Voting(VoteMsg(a, qc.proposer, qc.hash, qc.view, qc.height)) in sent
  }

  /** The certificate names a block of its proposer that a quorum of distinct nodes voted for. */
  ghost predicate Certified(cfg: Config, sent: set<Msg>, qc: BlockQc) {
    && (exists b :: Names(sent, qc, b))
    && |Voters(cfg.n, sent, qc)| >= High(cfg.n)
  }

  predicate Increasing(refs: seq<BlockQc>) {
    forall i, j :: 0 <= i < j < |refs| ==> refs[i].proposer < refs[j].proposer
  }

  /** A block other than a node's first references a quorum of distinct proposers of the preceding
      layer. */
  ghost predicate RefsOk(cfg: Config, sent: set<Msg>, b: Block) {
    if b.view == 0 && b.height.H1? then b.references == []
    else
      && |b.references| >= High(cfg.n)
      && Increasing(b.references)
      && forall q :: q in b.references ==>
           q.proposer < cfg.n && Layer(q.view, q.height) + 1 == Layer(b.view, b.height) && Certified(cfg, sent, q)
  }

  predicate SamePosition(b: Block, c: Block) {
    b.author == c.author && b.view == c.view && b.height == c.height
  }

  ghost predicate OnePerPosition(sent: set<Msg>) {
    forall b, c | ProposeMsg(b) in sent && ProposeMsg(c) in sent :: SamePosition(b, c) ==> b == c
  }

  ghost predicate SentOk(cfg: Config, sent: set<Msg>) {
    && (forall m :: m in sent ==> Sender(m) < cfg.n)
    && OnePerPosition(sent)
    && (forall b :: ProposeMsg(b) in sent ==> RefsOk(cfg, sent, b))
    && (forall v :: Voting(v) in sent ==> exists b :: ProposeMsg(b) in sent && v == VoteFor(v.author, b))
  }

  // ----- One node -----

  ghost predicate InstanceOk(cfg: Config, k: Key, x: Spb.Instance) {
    SpbInvariant.Inv(x, High(cfg.n)) && x.variant.Dag? && x.proposer == k.node && x.view == k.view
  }

  ghost predicate InstancesOk(cfg: Config, nd: Node) {
    forall k :: InstanceOk(cfg, k, InstanceAt(nd, k))
  }

  /** The history of an instance is what the node has handled for its view and proposer. */
  ghost predicate ProposalHistory(k: Key, lo: Option<Block>, hi: Option<Block>, got: set<Msg>) {
    forall b: Block :: Key(b.view, b.author) == k ==>
      (ProposeMsg(b) in got <==> (if b.height.H1? then lo else hi) == Some(b))
  }

  ghost predicate VoteHistory(k: Key, lo: multiset<VoteMsg>, hi: multiset<VoteMsg>, got: set<Msg>) {
    forall v: VoteMsg :: Key(v.view, v.proposer) == k ==>
      (if v.height.H1? then lo else hi)[v] == if Voting(v) in got then 1 else 0
  }

  ghost predicate SpeedHistory(k: Key, speedVotes: multiset<SpeedVoteMsg>, got: set<Msg>) {
    forall sv: SpeedVoteMsg :: Key(sv.view, sv.proposer) == k ==>
      speedVotes[sv] == if SpeedVoting(sv) in got then 1 else 0
  }

  ghost predicate KeyHistory(k: Key, x: Spb.Instance, got: set<Msg>) {
    && ProposalHistory(k, x.lo.proposal, x.hi.proposal, got)
    && VoteHistory(k, x.lo.votes, x.hi.votes, got)
    && SpeedHistory(k, x.fast.speedVotes, got)
  }

  ghost predicate HistoryOk(nd: Node) {
    forall k :: KeyHistory(k, InstanceAt(nd, k), nd.got)
  }

  /** A vote or speed vote in the network was sent once, by the instance that had reason to. */
  ghost predicate VotesSentOk(id: NodeId, nd: Node, sent: set<Msg>) {
    && (forall v :: Voting(v) in sent && v.author == id ==>
          var s := InstanceAt(nd, Key(v.view, v.proposer)).At(v.height);
          s.voted && s.proposal.Some? && v == VoteFor(id, s.proposal.value))
    && (forall sv :: SpeedVoting(sv) in sent && sv.author == id ==>
          var s := InstanceAt(nd, Key(sv.view, sv.proposer)).hi;
          s.announced && s.qc.Some? && sv == SpeedVoteFor(id, s.qc.value))
  }

  function CertifiedProposers(n: nat, nd: Node, view: nat): set<NodeId> {
    set p | p in Nodes(n) && QcAt(nd, Key(view, p), H2).Some?
  }

  /** A node asks for the election of a view only when it holds a quorum of height-2 certificates. */
  ghost predicate ElectsSentOk(cfg: Config, id: NodeId, nd: Node, sent: set<Msg>) {
    forall view :: ElectMsg(id, view) in sent ==> |CertifiedProposers(cfg.n, nd, view)| >= High(cfg.n)
  }

  predicate Holds(nd: Node, q: BlockQc) {
    QcAt(nd, Key(q.view, q.proposer), q.height) == Some(q)
  }

  /** A node's blocks are at or below its position and reference certificates it holds. */
  ghost predicate BlocksSentOk(id: NodeId, nd: Node, sent: set<Msg>) {
    forall b :: ProposeMsg(b) in sent && b.author == id ==>
      && nd.started
      && Layer(b.view, b.height) <= Layer(nd.view, nd.height)
      && forall q :: q in b.references ==> Holds(nd, q)
  }

  /** The references read so far for a block of this position. */
  ghost predicate ReadOk(nd: Node, view: nat, h: Height, next: nat, refs: seq<BlockQc>) {
    && Increasing(refs)
    && forall q :: q in refs ==> q.proposer < next && Holds(nd, q) && Layer(q.view, q.height) + 1 == Layer(view, h)
  }

  ghost predicate ScanOk(cfg: Config, nd: Node) {
    && (!nd.started ==> nd.view == 0 && nd.height.H1? && nd.scan.None?)
    && (nd.scan.Some? ==>
          var sc := nd.scan.value;
          IsNext(nd, sc.view, sc.height) && sc.next <= cfg.n && ReadOk(nd, sc.view, sc.height, sc.next, sc.refs))
  }

  /** Some reference of `b` is to a block of `p`. */
  ghost predicate Mentions(b: Block, p: NodeId) {
    exists q :: q in b.references && q.proposer == p
  }

  ghost predicate Refers(got: set<Msg>, a: NodeId, view: nat, p: NodeId) {
    exists b :: ProposeMsg(b) in got && b.author == a && b.view == view && b.height.H2? && Mentions(b, p)
  }

  /** The authors of height-2 blocks of a view that reference `p`. */
  ghost function WeakVoters(n: nat, got: set<Msg>, view: nat, p: NodeId): set<NodeId> {
    set a | a in Nodes(n) && Refers(got, a, view, p)
  }

  ghost predicate WeakVotesOk(cfg: Config, nd: Node) {
    forall k :: Count(nd.weakVotes, k) == |WeakVoters(cfg.n, nd.got, k.view, k.node)|
  }

  ghost predicate SpedFor(got: set<Msg>, a: NodeId, view: nat, p: NodeId) {
    exists sv :: SpeedVoting(sv) in got && sv.author == a && sv.view == view && sv.proposer == p
  }

  /** The proposers a node has speed voted for in a view. */
  ghost function SpeedTargets(n: nat, got: set<Msg>, view: nat, a: NodeId): set<NodeId> {
    set p | p in Nodes(n) && SpedFor(got, a, view, p)
  }

  ghost predicate SpeedNumsOk(cfg: Config, nd: Node) {
    forall k :: Count(nd.speedVoteNums, k) == |SpeedTargets(cfg.n, nd.got, k.view, k.node)|
  }

  /** The aggregators hold distinct authors that have asked for the election. */
  ghost predicate ElectorOk(cfg: Config, nd: Node) {
    forall view ::
      var a := Elector.AggregatorOf(nd.elector, view);
      && |a.elects| == |a.used|
      && (forall x :: x in a.used ==> ElectMsg(x, view) in nd.got)
      && (view in nd.elector.leaders ==> |a.used| >= High(cfg.n))
  }

  /** The store holds the blocks received, each under its hash. */
  ghost predicate StoreOk(nd: Node) {
    && (forall b :: ProposeMsg(b) in nd.got ==> Hash(b) in nd.store)
    && (forall d :: d in nd.store ==> Hash(nd.store[d]) == d && ProposeMsg(nd.store[d]) in nd.got)
    && (forall b :: b in nd.gate.queue ==> ProposeMsg(b) in nd.got)
  }

  /** What processCoin has found out and still holds when it goes on. */
  ghost predicate CoinOk(cfg: Config, nd: Node) {
    nd.coin.Some? ==>
      var c := nd.coin.value;
      && nd.started && nd.scan.None? && cfg.n >= 1
      && Elector.LeaderOf(cfg.n, cfg.coin, c.view) == Some(c.leader)
      && (c.read == Some(H2) ==> InstanceAt(nd, Key(c.view, c.leader)).fast.isSpeedCert)
      && (c.read == Some(H1) ==> Count(nd.weakVotes, Key(c.view, c.leader)) >= Low(cfg.n))
  }

  ghost predicate NodeOk(cfg: Config, id: NodeId, nd: Node, sent: set<Msg>) {
    && InstancesOk(cfg, nd) && HistoryOk(nd)
    && VotesSentOk(id, nd, sent) && ElectsSentOk(cfg, id, nd, sent) && BlocksSentOk(id, nd, sent) && ScanOk(cfg, nd)
    && WeakVotesOk(cfg, nd) && SpeedNumsOk(cfg, nd) && ElectorOk(cfg, nd) && StoreOk(nd) && CoinOk(cfg, nd)
    && nd.got <= sent
  }

  // ----- The network -----

  /** A packet is on its way at most once and not after it was handled; only elect messages repeat. */
  ghost predicate NetOk(cfg: Config, g: System)
    requires |g.nodes| == cfg.n
  {
    forall p :: p in g.net ==>
      && p.to < cfg.n && p.m in g.sent
      && (!p.m.ElectMsg? ==> g.net[p] == 1 && p.m !in g.nodes[p.to].got)
  }

  ghost predicate SystemOk(cfg: Config, g: System) {
    && cfg.n >= 1 && |g.nodes| == cfg.n
    && SentOk(cfg, g.sent)
    && (forall i :: 0 <= i < cfg.n ==> NodeOk(cfg, i, g.nodes[i], g.sent))
    && NetOk(cfg, g)
  }
}
