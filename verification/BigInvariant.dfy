/** What holds in every state of every run of the Big protocol. */
module BigInvariant {
  import opened Blocks
  import opened Quorum
  import opened ViewChange
  import opened BigNode
  import opened BigSystem
  import Spb
  import SpbInvariant
  import Elector

  function Sender(m: Msg): NodeId {
    match m
    case ProposeMsg(b) => b.author
    case Voting(v) => v.author
    case SpeedVoting(sv) => sv.author
    case ElectMsg(a, _) => a
    case ReportMsg(r) => r.author
  }

  // ----- Messages -----

  /** Certificate `q` names block `b`. */
  predicate Names(sent: set<Msg>, q: BlockQc, b: Block) {
    ProposeMsg(b) in sent && b.author == q.proposer && b.view == q.view && b.height == q.height && Hash(b) == q.hash
  }

  function Voters(n: nat, sent: set<Msg>, q: BlockQc): set<NodeId> {
    set a | a in Nodes(n) && Voting(VoteMsg(a, q.proposer, q.hash, q.view, q.height)) in sent
  }

  /** The certificate names a block of its proposer that a quorum of distinct nodes voted for. */
  ghost predicate Certified(cfg: Config, sent: set<Msg>, q: BlockQc) {
    (exists b :: Names(sent, q, b)) && |Voters(cfg.n, sent, q)| >= High(cfg.n)
  }

  predicate QcAt(q: BlockQc, view: nat, h: Height, proposer: NodeId) {
    q.view == view && q.height == h && q.proposer == proposer
  }

  /** The nodes that reported a level for a view. */
  ghost function Reporters(n: nat, sent: set<Msg>, view: nat, level: Level): set<NodeId> {
    set x | x in Nodes(n) && Reported(sent, x, view, level)
  }

  ghost predicate Reported(sent: set<Msg>, x: NodeId, view: nat, level: Level) {
    exists r :: ReportMsg(r) in sent && r.author == x && r.view == view && r.level == level
  }

  /** Why a height-1 block was proposed: it carries the certificate of a report that completed a level. */
  ghost predicate Justifies(cfg: Config, sent: set<Msg>, r: Report, b: Block) {
    && ReportMsg(r) in sent && r.view + 1 == b.view && r.qc == b.qc
    && (r.level.Level2? || |Reporters(cfg.n, sent, r.view, r.level)| >= High(cfg.n))
  }

  ghost predicate BlockOk(cfg: Config, sent: set<Msg>, b: Block) {
    && (b.height.H2? ==> b.qc.Some? && QcAt(b.qc.value, b.view, H1, b.author) && Certified(cfg, sent, b.qc.value))
    && (b.height.H1? && b.view == 0 ==> b.qc.None?)
    && (b.height.H1? && b.view > 0 ==> exists r :: Justifies(cfg, sent, r, b))
  }

  ghost predicate VoteOk(sent: set<Msg>, v: VoteMsg) {
    exists b :: ProposeMsg(b) in sent && v == VoteFor(v.author, b)
  }

  ghost predicate ReportOk(cfg: Config, sent: set<Msg>, r: Report)
    requires cfg.n >= 1
  {
    var leader := LeaderOf(cfg, r.view);
    && leader.Some?
    && (r.qc.Some? ==> Certified(cfg, sent, r.qc.value))
    && (r.level.Level2? ==> r.qc.Some? && QcAt(r.qc.value, r.view, H2, leader.value))
    && (r.level.Level1? ==> r.qc.Some? && QcAt(r.qc.value, r.view, H1, leader.value))
    && (r.level.Level0? && r.qc.Some? ==> r.qc.value.view < r.view)
  }

  /** Silent nodes send nothing. */
  ghost predicate MsgOk(cfg: Config, sent: set<Msg>, m: Msg)
    requires cfg.n >= 1
  {
    && cfg.faults <= Sender(m) < cfg.n
    && match m
       case ProposeMsg(b) => BlockOk(cfg, sent, b)
       case Voting(v) => VoteOk(sent, v)
       case ReportMsg(r) => ReportOk(cfg, sent, r)
       case _ => true
  }

  // ----- One block per node and position, one report per node and view -----

  predicate SamePosition(b: Block, c: Block) {
    b.height == c.height && b.author == c.author && b.view == c.view
  }

  /** Two messages of which a node sends at most one. */
  predicate Rivals(m: Msg, w: Msg) {
    match m
    case ProposeMsg(b) => w.ProposeMsg? && SamePosition(b, w.b)
    case ReportMsg(r) => w.ReportMsg? && w.r.author == r.author && w.r.view == r.view
    case _ => false
  }

  ghost predicate NoRivals(sent: set<Msg>) {
    forall m, w :: m in sent && w in sent && Rivals(m, w) ==> m == w
  }

  ghost predicate SentOk(cfg: Config, sent: set<Msg>)
    requires cfg.n >= 1
  {
    (forall m :: m in sent ==> MsgOk(cfg, sent, m)) && NoRivals(sent)
  }

  // ----- Instances -----

  ghost predicate InstanceOk(cfg: Config, k: Key, x: Spb.Instance) {
    SpbInvariant.Inv(x, High(cfg.n)) && x.variant.Big? && x.proposer == k.node && x.view == k.view
  }

  ghost predicate InstancesOk(cfg: Config, nd: Node) {
    forall k: Key :: InstanceOk(cfg, k, InstanceAt(nd, k))
  }

  /** What was routed to an instance was handled by the node, votes at most once each; speed votes go to the
      instance of their author. */
  ghost predicate KeyHistory(k: Key, x: Spb.Instance, got: set<Msg>) {
    && ProposalHistory(x.lo, x.hi, got) && VoteHistory(x.lo.votes, got) && VoteHistory(x.hi.votes, got)
    && SpeedHistory(k, x.fast.speedVotes, got)
  }

  ghost predicate ProposalHistory(lo: Spb.Slot, hi: Spb.Slot, got: set<Msg>) {
    && (lo.proposal.Some? ==> ProposeMsg(lo.proposal.value) in got)
    && (hi.proposal.Some? ==> ProposeMsg(hi.proposal.value) in got)
  }

  ghost predicate VoteHistory(votes: multiset<VoteMsg>, got: set<Msg>) {
    forall v :: votes[v] <= if Voting(v) in got then 1 else 0
  }

  ghost predicate SpeedHistory(k: Key, speedVotes: multiset<SpeedVoteMsg>, got: set<Msg>) {
    forall sv :: speedVotes[sv] <= if SpeedVoting(sv) in got && sv.author == k.node then 1 else 0
  }

  ghost predicate HistoryOk(nd: Node) {
    forall k: Key :: KeyHistory(k, InstanceAt(nd, k), nd.got)
  }

  // ----- Nodes -----

  /** What a node has on record for a message it has sent. */
  ghost predicate Backed(id: NodeId, nd: Node, m: Msg) {
    match m
    case ProposeMsg(b) =>
      && nd.started
      && (b.height.H1? ==> b.view <= nd.progress.view)
      && (b.height.H2? ==> InstanceAt(nd, Key(b.view, id)).lo.announced)
    case Voting(v) =>
      var s := InstanceAt(nd, Key(v.view, v.proposer)).At(v.height);
      s.voted && s.proposal.Some? && v == VoteFor(id, s.proposal.value)
    case SpeedVoting(sv) =>
      var s := InstanceAt(nd, Key(sv.view, sv.proposer)).hi;
      s.announced && s.qc.Some? && sv == SpeedVoteFor(id, s.qc.value)
    case ReportMsg(r) => r.view in nd.elector.leaders && (nd.coin.Some? ==> nd.coin.value.view != r.view)
    case _ => true
  }

  ghost predicate OwnSentOk(id: NodeId, nd: Node, sent: set<Msg>) {
    forall m :: m in sent && Sender(m) == id ==> Backed(id, nd, m)
  }

  /** The reporters a node has heard. */
  ghost function HeardFrom(n: nat, got: set<Msg>, view: nat, level: Level): set<NodeId> {
    Reporters(n, got, view, level)
  }

  /** A counter never exceeds the number of distinct reporters heard. */
  ghost predicate CountersOk(cfg: Config, nd: Node) {
    && AllOpen(nd.progress, High(cfg.n))
    && (forall v: nat :: At(nd.progress, v).one <= |HeardFrom(cfg.n, nd.got, v, Level1)|)
    && (forall v: nat :: At(nd.progress, v).zero <= |HeardFrom(cfg.n, nd.got, v, Level0)|)
  }

  /** What processCoin has found out and still holds when it goes on; each view is processed once. */
  ghost predicate CoinOk(cfg: Config, nd: Node) {
    && Elector.Sound(nd.elector, cfg.n)
    && (nd.coin.Some? ==>
          var c := nd.coin.value;
          var x := InstanceAt(nd, Key(c.view, c.leader));
          && cfg.n >= 1 && LeaderOf(cfg, c.view) == Some(c.leader) && c.view in nd.elector.leaders
          && (c.stage == ReadHash(H2) ==> x.fast.isSpeedCert)
          && (c.stage == ReadHash(H1) ==> DecCert(x)))
  }

  /** The store holds the blocks received, each under its hash. */
  ghost predicate StoreOk(nd: Node) {
    && (forall b :: ProposeMsg(b) in nd.got ==> Hash(b) in nd.store)
    && (forall d :: d in nd.store ==> Hash(nd.store[d]) == d && ProposeMsg(nd.store[d]) in nd.got)
    && (forall b :: b in nd.gate.queue ==> ProposeMsg(b) in nd.got)
  }

  ghost predicate GotOk(nd: Node, sent: set<Msg>) {
    nd.got <= sent && (!nd.started ==> nd == INIT)
  }

  ghost predicate NodeOk(cfg: Config, id: NodeId, nd: Node, sent: set<Msg>) {
    && InstancesOk(cfg, nd) && HistoryOk(nd) && OwnSentOk(id, nd, sent) && CountersOk(cfg, nd)
    && CoinOk(cfg, nd) && StoreOk(nd) && GotOk(nd, sent)
  }

  // ----- The network -----

  /** A packet is on its way at most once and not after it was handled; only elect messages repeat. */
  ghost predicate NetOk(cfg: Config, g: System)
    requires |g.nodes| == cfg.n
  {
    forall p :: p in g.net ==>
      && p.to < cfg.n && p.m in g.sent
      && (!p.m.ElectMsg? ==> g.net[p] == 1 && p.m !in g.nodes[p.to].got)
  }

  ghost predicate SystemOk(cfg: Config, g: System) {
    && cfg.n >= 1 && |g.nodes| == cfg.n
    && SentOk(cfg, g.sent)
    && (forall i :: 0 <= i < cfg.n ==> NodeOk(cfg, i, g.nodes[i], g.sent))
    && NetOk(cfg, g)
  }

  // ----- More messages -----

  lemma CertifiedGrows(cfg: Config, sent: set<Msg>, sent': set<Msg>, q: BlockQc)
    requires sent <= sent' && Certified(cfg, sent, q)
    ensures Certified(cfg, sent', q)
  {
    var b :| Names(sent, q, b);
    assert Names(sent', q, b);
    SubsetSize(Voters(cfg.n, sent, q), Voters(cfg.n, sent', q));
  }

  lemma ReportersGrow(n: nat, sent: set<Msg>, sent': set<Msg>, view: nat, level: Level)
    requires sent <= sent'
    ensures Reporters(n, sent, view, level) <= Reporters(n, sent', view, level)
    ensures |Reporters(n, sent, view, level)| <= |Reporters(n, sent', view, level)|
  {
    SubsetSize(Reporters(n, sent, view, level), Reporters(n, sent', view, level));
  }

  lemma BlockGrows(cfg: Config, sent: set<Msg>, sent': set<Msg>, b: Block)
    requires sent <= sent' && BlockOk(cfg, sent, b)
    ensures BlockOk(cfg, sent', b)
  {
    hide Certified;
    if b.height.H2? {
      CertifiedGrows(cfg, sent, sent', b.qc.value);
    } else if b.view > 0 {
      var r :| Justifies(cfg, sent, r, b);
      ReportersGrow(cfg.n, sent, sent', r.view, r.level);
      assert Justifies(cfg, sent', r, b);
    }
  }

  lemma ReportGrows(cfg: Config, sent: set<Msg>, sent': set<Msg>, r: Report)
    requires cfg.n >= 1 && sent <= sent' && ReportOk(cfg, sent, r)
    ensures ReportOk(cfg, sent', r)
  {
    hide Certified; hide LeaderOf;
    if r.qc.Some? {
      CertifiedGrows(cfg, sent, sent', r.qc.value);
    }
  }

  lemma VoteGrows(sent: set<Msg>, sent': set<Msg>, v: VoteMsg)
    requires sent <= sent' && VoteOk(sent, v)
    ensures VoteOk(sent', v)
  {
    hide Hash;
    var b :| ProposeMsg(b) in sent && v == VoteFor(v.author, b);
    assert ProposeMsg(b) in sent';
  }

  lemma MsgGrows(cfg: Config, sent: set<Msg>, sent': set<Msg>, m: Msg)
    requires cfg.n >= 1 && sent <= sent' && MsgOk(cfg, sent, m)
    ensures MsgOk(cfg, sent', m)
  {
    hide Certified; hide BlockOk; hide ReportOk; hide LeaderOf; hide VoteOk;
    match m {
      case ProposeMsg(b) => BlockGrows(cfg, sent, sent', b);
      case Voting(v) => VoteGrows(sent, sent', v);
      case ReportMsg(r) => ReportGrows(cfg, sent, sent', r);
      case _ =>
    }
  }

  /** A message of which the sender has sent no rival. */
  lemma SentAdds(cfg: Config, sent: set<Msg>, m: Msg)
    requires cfg.n >= 1 && SentOk(cfg, sent) && MsgOk(cfg, sent, m) && forall w :: w in sent ==> !Rivals(m, w)
    ensures SentOk(cfg, sent + {m})
  {
    hide MsgOk;
    forall w | w in sent + {m} ensures MsgOk(cfg, sent + {m}, w) {
      MsgGrows(cfg, sent, sent + {m}, w);
    }
    forall w, u | w in sent + {m} && u in sent + {m} && Rivals(w, u) ensures w == u {
      RivalsBothWays(w, u);
    }
  }

  lemma RivalsBothWays(m: Msg, w: Msg)
    requires Rivals(m, w)
    ensures Rivals(w, m)
  {
  }

  /** A node that does nothing while another one sends. */
  lemma NodeWaits(cfg: Config, id: NodeId, nd: Node, sent: set<Msg>, m: Msg)
    requires NodeOk(cfg, id, nd, sent) && (Sender(m) == id ==> Backed(id, nd, m))
    ensures NodeOk(cfg, id, nd, sent + {m})
  {
    hide InstancesOk; hide HistoryOk; hide CountersOk; hide CoinOk; hide StoreOk; hide Backed;
  }

  // ----- What a message says -----

  lemma MsgOf(cfg: Config, sent: set<Msg>, m: Msg)
    requires cfg.n >= 1 && SentOk(cfg, sent) && m in sent
    ensures MsgOk(cfg, sent, m)
  {
    hide MsgOk;
  }

  lemma OnlyBlock(cfg: Config, sent: set<Msg>, b: Block, c: Block)
    requires cfg.n >= 1 && SentOk(cfg, sent) && ProposeMsg(b) in sent && ProposeMsg(c) in sent && SamePosition(b, c)
    ensures b == c
  {
    hide MsgOk;
    assert Rivals(ProposeMsg(b), ProposeMsg(c));
  }

  lemma OnlyReport(cfg: Config, sent: set<Msg>, r: Report, s: Report)
    requires cfg.n >= 1 && SentOk(cfg, sent) && ReportMsg(r) in sent && ReportMsg(s) in sent
    requires r.author == s.author && r.view == s.view
    ensures r == s
  {
    hide MsgOk;
    assert Rivals(ReportMsg(r), ReportMsg(s));
  }

  /** The certificate inside a block points to an earlier view or to the block's own height 1. */
  lemma BlockQcEarlier(cfg: Config, sent: set<Msg>, b: Block)
    requires cfg.n >= 1 && SentOk(cfg, sent) && ProposeMsg(b) in sent && b.qc.Some?
    ensures Certified(cfg, sent, b.qc.value)
    ensures b.height.H1? ==> b.qc.value.view < b.view
    ensures b.height.H2? ==> QcAt(b.qc.value, b.view, H1, b.author)
  {
    MsgOf(cfg, sent, ProposeMsg(b));
    hide SentOk; hide Certified; hide LeaderOf;
    if b.height.H1? {
      var r :| Justifies(cfg, sent, r, b);
      MsgOf(cfg, sent, ReportMsg(r));
    }
  }

  lemma SecondHasQc(cfg: Config, sent: set<Msg>, b: Block)
    requires cfg.n >= 1 && SentOk(cfg, sent) && ProposeMsg(b) in sent && b.height.H2?
    ensures b.qc.Some? && b.qc.value.hash != ZERO
  {
    MsgOf(cfg, sent, ProposeMsg(b));
    hide SentOk; hide Hash;
    var c :| Names(sent, b.qc.value, c);
  }
}
