/** What every run of the DAG protocol guarantees, beyond commit safety. */
module DagTheorems {
  import opened Blocks
  import opened Quorum
  import opened DagNode
  import opened DagSystem
  import opened DagInvariant
  import opened DagEvents
  import opened DagProposals
  import opened DagRuns
  import opened DagSafety
  import opened DagSpeed
  import SpbInvariant
  import opened SpbGrowth
  import Elector

  // ----- The layered DAG -----

  /** In every state of every run: at most one block per node and position; every block but a node's
      first references at least 2f+1 certificates of distinct proposers, all of the layer just below,
      and each certificate names the one block its proposer issued there, which at least 2f+1 distinct
      nodes have voted for. */
  lemma LayeredDag(cfg: Config, run: seq<System>, t: nat)
    requires IsRun(cfg, run) && t < |run|
    ensures OnePerPosition(run[t].sent)
    ensures forall b :: ProposeMsg(b) in run[t].sent && LayerOf(b) == 0 ==> b.references == []
    ensures forall b :: ProposeMsg(b) in run[t].sent && LayerOf(b) > 0 ==>
      |Proposers(b.references)| == |b.references| >= High(cfg.n)
    ensures forall b, q :: ProposeMsg(b) in run[t].sent && q in b.references ==>
      && q.proposer < cfg.n && Layer(q.view, q.height) + 1 == LayerOf(b)
      && |Voters(cfg.n, run[t].sent, q)| >= High(cfg.n)
      && (exists r :: Names(run[t].sent, q, r))
      && (forall r, r' :: Names(run[t].sent, q, r) && Names(run[t].sent, q, r') ==> r == r')
  {
    RunOk(cfg, run, t);
    var sent := run[t].sent;
    SentOfSystem(cfg, run[t]);
    hide IsRun; hide SystemOk;
    assert OnePerPosition(sent);
    forall q: BlockQc, r, r' | Names(sent, q, r) && Names(sent, q, r') ensures r == r' {
      assert SamePosition(r, r');
    }
    forall b | ProposeMsg(b) in sent ensures RefsOk(cfg, sent, b) { }
    hide SentOk; hide OnePerPosition;
    forall b | ProposeMsg(b) in sent && LayerOf(b) > 0 ensures |Proposers(b.references)| == |b.references| {
      ProposersSize(b.references);
    }
  }

  lemma SentOfSystem(cfg: Config, g: System)
    requires SystemOk(cfg, g)
    ensures SentOk(cfg, g.sent) && |g.nodes| == cfg.n
  {
    hide NodeOk; hide NetOk; hide SentOk;
  }

  /** A node's blocks appear in strictly increasing position. */
  lemma {:induction false} IncreasingPositions(cfg: Config, run: seq<System>, s: nat, t: nat, b: Block, c: Block)
    requires IsRun(cfg, run) && s <= t < |run| && b.author == c.author
    requires ProposeMsg(b) in run[s].sent && ProposeMsg(c) !in run[s].sent && ProposeMsg(c) in run[t].sent
    ensures LayerOf(b) < LayerOf(c)
    decreases t
  {
    hide SystemOk; hide Next;
    assert s < t;
    RunOk(cfg, run, t - 1);
    if ProposeMsg(c) in run[t - 1].sent {
      IncreasingPositions(cfg, run, s, t - 1, b, c);
    } else {
      SentGrows(cfg, run, s, t - 1);
      assert Next(cfg, run[t - 1], run[t - 1 + 1]);
      NewBlockIsHigher(cfg, run[t - 1], run[t], b, c);
    }
  }

  lemma NewBlockIsHigher(cfg: Config, g: System, g': System, b: Block, c: Block)
    requires SystemOk(cfg, g) && Next(cfg, g, g') && b.author == c.author
    requires ProposeMsg(b) in g.sent && ProposeMsg(c) !in g.sent && ProposeMsg(c) in g'.sent
    ensures LayerOf(b) < LayerOf(c)
  {
    hide SystemOk; hide Step; hide Enabled; hide Apply; hide NodeOk;
    var mv :| CanMove(cfg, g, mv) && g' == Apply(cfg, g, mv);
    SystemSize(cfg, g);
    NewMessage(cfg, g, mv, g', ProposeMsg(c));
    EventStep(cfg, g, mv.i, mv.e);
    NodeOfSystem(cfg, g, mv.i);
    assert Sender(ProposeMsg(c)) == mv.i;
    ProposalIsNext(cfg, mv.i, g.nodes[mv.i], g.sent, mv.e, b);
  }

  /** The next proposal of a node lies above everything it has proposed. */
  lemma ProposalIsNext(cfg: Config, id: NodeId, nd: Node, sent: set<Msg>, e: Event, b: Block)
    requires cfg.n >= 1 && NodeOk(cfg, id, nd, sent) && Enabled(nd, e) && ProposeMsg(b) in sent && b.author == id
    ensures var out := Step(cfg, id, nd, e).1; out.Some? && out.value.ProposeMsg? ==> LayerOf(b) < LayerOf(out.value.b)
  {
    hide Step;
    ProposalOrigin(cfg, id, nd, e);
    hide InstancesOk; hide HistoryOk; hide VotesSentOk; hide ElectsSentOk; hide ReadOk;
    hide WeakVotesOk; hide SpeedNumsOk; hide ElectorOk; hide StoreOk; hide CoinOk; hide Holds;
  }

  // ----- Election gating -----

  /** Whenever a node knows the leader of a view, at least 2f+1 distinct nodes hold height-2
      certificates of at least 2f+1 distinct proposers of that view. */
  lemma ElectionGating(cfg: Config, run: seq<System>, t: nat, i: NodeId, view: nat) returns (a: set<NodeId>)
    requires IsRun(cfg, run) && t < |run| && i < |run[t].nodes| && view in run[t].nodes[i].elector.leaders
    ensures a <= Nodes(|run[t].nodes|) && |a| >= High(cfg.n)
    ensures forall x :: x in a ==> |CertifiedProposers(cfg.n, run[t].nodes[x], view)| >= High(cfg.n)
  {
    RunOk(cfg, run, t);
    var g := run[t];
    SentOfSystem(cfg, g);
    NodeOfSystem(cfg, g, i);
    hide IsRun; hide SystemOk; hide CertifiedProposers;
    a := ElectorOfNode(cfg, i, g.nodes[i], g.sent, view);
    forall x | x in a ensures x < cfg.n && |CertifiedProposers(cfg.n, g.nodes[x], view)| >= High(cfg.n) {
      SenderIsNode(cfg, g, ElectMsg(x, view));
      NodeOfSystem(cfg, g, x);
      ElectOfNode(cfg, x, g.nodes[x], g.sent, view);
    }
  }

  lemma ElectorOfNode(cfg: Config, id: NodeId, nd: Node, sent: set<Msg>, view: nat) returns (a: set<NodeId>)
    requires NodeOk(cfg, id, nd, sent) && view in nd.elector.leaders
    ensures |a| >= High(cfg.n) && forall x :: x in a ==> ElectMsg(x, view) in sent
  {
    hide InstancesOk; hide HistoryOk; hide VotesSentOk; hide ElectsSentOk; hide BlocksSentOk; hide ScanOk;
    hide WeakVotesOk; hide SpeedNumsOk; hide StoreOk;
    a := Elector.AggregatorOf(nd.elector, view).used;
    assert |Elector.AggregatorOf(nd.elector, view).elects| == |a|;
  }

  lemma ElectOfNode(cfg: Config, id: NodeId, nd: Node, sent: set<Msg>, view: nat)
    requires NodeOk(cfg, id, nd, sent) && ElectMsg(id, view) in sent
    ensures |CertifiedProposers(cfg.n, nd, view)| >= High(cfg.n)
  {
    hide InstancesOk; hide HistoryOk; hide VotesSentOk; hide BlocksSentOk; hide ScanOk;
    hide WeakVotesOk; hide SpeedNumsOk; hide ElectorOk; hide StoreOk; hide CoinOk; hide CertifiedProposers;
  }

  // ----- Local availability -----

  /** A certificate a node holds names a block the node has received, stored under the hash its
      instance has accepted. */
  lemma CertificateIsAvailable(cfg: Config, run: seq<System>, t: nat, i: NodeId, k: Key, h: Height) returns (b: Block)
    requires IsRun(cfg, run) && t < |run| && i < |run[t].nodes| && QcAt(run[t].nodes[i], k, h).Some?
    ensures var nd := run[t].nodes[i];
      && QcAt(nd, k, h).value == BlockQc(k.view, h, k.node, Hash(b))
      && InstanceAt(nd, k).At(h).hash == Hash(b)
      && ProposeMsg(b) in nd.got && Hash(b) in nd.store && Hash(nd.store[Hash(b)]) == Hash(b)
  {
    RunOk(cfg, run, t);
    SentOfSystem(cfg, run[t]);
    NodeOfSystem(cfg, run[t], i);
    var nd := run[t].nodes[i];
    NodeParts(cfg, i, nd, run[t].sent);
    StoreOfNode(cfg, i, nd, run[t].sent);
    hide IsRun; hide SystemOk; hide NodeOk; hide QcAt; hide InstanceAt; hide Hash; hide InstancesOk; hide HistoryOk;
    hide ScanOk; hide SentOk;
    b := HeldIsCertified(cfg, nd, run[t].sent, k, h);
  }

  /** Every reference of a node's own block is a certificate it holds, so it resolves in its store. */
  lemma OwnReferencesResolve(cfg: Config, run: seq<System>, t: nat, b: Block, q: BlockQc)
    requires IsRun(cfg, run) && t < |run| && ProposeMsg(b) in run[t].sent && q in b.references
    ensures b.author < |run[t].nodes| && QcAt(run[t].nodes[b.author], Key(q.view, q.proposer), q.height) == Some(q)
    ensures q.hash in run[t].nodes[b.author].store
  {
    RunOk(cfg, run, t);
    SentOfSystem(cfg, run[t]);
    SenderIsNode(cfg, run[t], ProposeMsg(b));
    var i := b.author;
    NodeOfSystem(cfg, run[t], i);
    StoreOfNode(cfg, i, run[t].nodes[i], run[t].sent);
    hide SystemOk; hide NodeOk; hide StoreOk; hide Hash;
    assert Holds(run[t].nodes[i], q);
    var r := CertificateIsAvailable(cfg, run, t, i, Key(q.view, q.proposer), q.height);
  }

  /** A speed certificate comes after the height-2 certificate, so the lookup of the speed commit
      succeeds; and 2f+1 distinct nodes have sent the speed votes behind it. */
  lemma SpeedCertificate(cfg: Config, run: seq<System>, t: nat, i: NodeId, k: Key) returns (a: set<NodeId>)
    requires IsRun(cfg, run) && t < |run| && i < |run[t].nodes| && InstanceAt(run[t].nodes[i], k).fast.isSpeedCert
    ensures var nd := run[t].nodes[i];
      QcAt(nd, k, H2).Some? && InstanceAt(nd, k).hi.hash in nd.store
    ensures a <= Nodes(cfg.n) && |a| >= High(cfg.n)
    ensures forall x :: x in a ==> SpeedVoted(run[t].sent, x, k)
  {
    hide IsRun; hide SystemOk; hide NodeOk; hide SpbInvariant.Inv; hide InstancesOk; hide HistoryOk; hide ScanOk;
    hide CoinOk; hide Hash; hide QcAt; hide SentOk; hide InstanceAt; hide NetOk; hide SpeedVoted;
    RunOk(cfg, run, t);
    var g := run[t];
    SystemSize(cfg, g);
    NodeOfSystem(cfg, g, i);
    var nd := g.nodes[i];
    NodeParts(cfg, i, nd, g.sent);
    KeyParts(cfg, nd, k);
    SpeedCertMeans(InstanceAt(nd, k), High(cfg.n));
    assert QcAt(nd, k, H2).Some? by { HeldAt(nd, k); }
    var b := CertificateIsAvailable(cfg, run, t, i, k, H2);
    var fast := InstanceAt(nd, k).fast;
    a := SpeedAuthors(cfg, g, nd, k, fast.counted, fast.speedVotes);
    forall x | x in a ensures SpeedVoted(g.sent, x, k) {
      var sv :| sv in fast.counted && sv.author == x;
      assert fast.counted[sv] <= fast.speedVotes[sv];
      CountedIsSent(k, fast.speedVotes, nd.got, sv);
      VotedFor(g.sent, k, sv);
    }
  }

  lemma HeldAt(nd: Node, k: Key)
    ensures QcAt(nd, k, H2) == InstanceAt(nd, k).hi.qc
  {
  }

  lemma VotedFor(sent: set<Msg>, k: Key, sv: SpeedVoteMsg)
    requires SpeedVoting(sv) in sent && sv.view == k.view && sv.proposer == k.node
    ensures SpeedVoted(sent, sv.author, k)
  {
  }

  ghost predicate SpeedVoted(sent: set<Msg>, x: NodeId, k: Key) {
    exists sv :: SpeedVoting(sv) in sent && sv.author == x && sv.view == k.view && sv.proposer == k.node
  }

  lemma CountedIsSent(k: Key, votes: multiset<SpeedVoteMsg>, got: set<Msg>, sv: SpeedVoteMsg)
    requires SpeedHistory(k, votes, got) && sv in votes && sv.proposer == k.node && sv.view == k.view
    ensures SpeedVoting(sv) in got
  {
  }

  /** Speed votes for one proposer that occur once each come from distinct nodes. */
  lemma SpeedAuthors(cfg: Config, g: System, nd: Node, k: Key, counted: multiset<SpeedVoteMsg>,
                     votes: multiset<SpeedVoteMsg>)
    returns (a: set<NodeId>)
    requires SystemOk(cfg, g) && nd.got <= g.sent && SpeedHistory(k, votes, nd.got)
    requires forall sv :: sv in counted ==> sv.proposer == k.node && sv.view == k.view
    requires forall sv :: counted[sv] <= votes[sv]
    ensures a <= Nodes(cfg.n) && |a| == |counted|
    ensures forall x :: x in a <==> exists sv :: sv in counted && sv.author == x
  {
    hide SystemOk; hide QcAt;
    forall sv | sv in counted ensures SpeedVoting(sv) in g.sent && sv.author < cfg.n && counted[sv] == 1 {
      assert Key(sv.view, sv.proposer) == k;
      SpeedVoteOrigin(cfg, g, sv);
    }
    hide SpeedHistory; hide Nodes;
    forall u, v | u in counted && v in counted && u.author == v.author ensures u == v {
      SpeedVoteOrigin(cfg, g, u);
      SpeedVoteOrigin(cfg, g, v);
    }
    var author := (v: SpeedVoteMsg) => v.author;
    AuthorsSize(counted, author);
    a := Authors(counted, author);
    forall x ensures x in a <==> exists sv :: sv in counted && sv.author == x {
      if sv :| sv in counted && sv.author == x { assert author(sv) == x; }
    }
    forall x | x in a ensures x in Nodes(cfg.n) {
      var sv :| sv in counted && author(sv) == x;
      InNodes(cfg.n, x);
    }
  }
}
