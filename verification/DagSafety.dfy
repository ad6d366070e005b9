/** Safety of the DAG protocol over every run. */
module DagSafety {
  import opened Blocks
  import opened Quorum
  import opened DagNode
  import opened DagSystem
  import opened DagInvariant
  import opened DagProposals
  import opened DagRuns

  // ----- Causal history -----

  /** Block `c` references block `r`. */
  ghost predicate References1(sent: set<Msg>, c: Block, r: Block) {
    exists q :: q in c.references && Names(sent, q, r)
  }

  /** `b` is `c` or is reached from `c` through references. */
  ghost predicate InHistory(sent: set<Msg>, c: Block, b: Block)
    decreases LayerOf(c)
  {
    c == b || exists r :: References1(sent, c, r) && LayerOf(r) < LayerOf(c) && InHistory(sent, r, b)
  }

  function Proposers(refs: seq<BlockQc>): set<NodeId> {
    set q | q in refs :: q.proposer
  }

  lemma {:induction false} ProposersSize(refs: seq<BlockQc>)
    requires Increasing(refs)
    ensures |Proposers(refs)| == |refs|
  {
    if refs != [] {
      var init, q := refs[..|refs| - 1], refs[|refs| - 1];
      ProposersSize(init);
      assert refs == init + [q];
      assert Proposers(refs) == Proposers(init) + {q.proposer};
      assert q.proposer !in Proposers(init);
    }
  }

  /** The block behind a reference of a block other than a first one. */
  lemma RefBlock(cfg: Config, sent: set<Msg>, c: Block, q: BlockQc) returns (r: Block)
    requires SentOk(cfg, sent) && ProposeMsg(c) in sent && q in c.references
    ensures Names(sent, q, r) && References1(sent, c, r) && LayerOf(r) + 1 == LayerOf(c)
    ensures ProposeMsg(r) in sent && r.author == q.proposer < cfg.n
  {
    assert RefsOk(cfg, sent, c);
    hide SentOk;
    assert Certified(cfg, sent, q);
    r :| Names(sent, q, r);
  }

  /** Every block other than a first one has a quorum of referenced authors. */
  lemma RefQuorum(cfg: Config, sent: set<Msg>, c: Block)
    requires SentOk(cfg, sent) && ProposeMsg(c) in sent && LayerOf(c) > 0
    ensures |Proposers(c.references)| >= High(cfg.n) && Proposers(c.references) <= Nodes(cfg.n)
  {
    assert RefsOk(cfg, sent, c);
    hide SentOk; hide Certified;
    ProposersSize(c.references);
  }

  // ----- Whatever a layer has in common stays in common -----

  /** If every block of a layer has `b` in its history, so has every block of a higher layer. */
  lemma {:induction false} HistorySpreads(cfg: Config, sent: set<Msg>, layer: nat, b: Block, c: Block)
    requires SentOk(cfg, sent) && ProposeMsg(c) in sent && LayerOf(c) >= layer
    requires forall d :: ProposeMsg(d) in sent && LayerOf(d) == layer ==> InHistory(sent, d, b)
    ensures InHistory(sent, c, b)
    decreases LayerOf(c)
  {
    if LayerOf(c) > layer {
      RefQuorum(cfg, sent, c);
      hide SentOk;
      assert c.references == [] ==> Proposers(c.references) == {};
      var r := RefBlock(cfg, sent, c, c.references[0]);
      HistorySpreads(cfg, sent, layer, b, r);
    }
  }

  /** If the authors in `a` have a block of the preceding layer with `b` in its history, and they meet
      every quorum, then `b` is in the history of every block of the next layer. */
  lemma LayerMeets(cfg: Config, sent: set<Msg>, layer: nat, a: set<NodeId>, b: Block, c: Block)
    requires SentOk(cfg, sent) && ProposeMsg(c) in sent && LayerOf(c) == layer + 1
    requires a <= Nodes(cfg.n) && |a| + High(cfg.n) > cfg.n
    requires forall d :: ProposeMsg(d) in sent && LayerOf(d) == layer && d.author in a ==> InHistory(sent, d, b)
    ensures InHistory(sent, c, b)
  {
    RefQuorum(cfg, sent, c);
    hide SentOk;
    var x := Meet(cfg.n, a, Proposers(c.references));
    var q :| q in c.references && q.proposer == x;
    var r := RefBlock(cfg, sent, c, q);
  }

  // ----- Commit by weak votes -----

  /** Node `x` has proposed a block of the next layer that references `b`. */
  ghost predicate Supports(sent: set<Msg>, x: NodeId, b: Block) {
    exists c :: ProposeMsg(c) in sent && c.author == x && LayerOf(c) == LayerOf(b) + 1 && References1(sent, c, b)
  }

  lemma SupportInHistory(cfg: Config, sent: set<Msg>, b: Block, c: Block)
    requires OnePerPosition(sent) && ProposeMsg(c) in sent && Supports(sent, c.author, b)
    requires LayerOf(c) == LayerOf(b) + 1
    ensures InHistory(sent, c, b)
  {
    var c' :| ProposeMsg(c') in sent && c'.author == c.author && LayerOf(c') == LayerOf(b) + 1 &&
      References1(sent, c', b);
    assert SamePosition(c, c');
    assert InHistory(sent, b, b);
  }

  lemma SupportGrows(sent: set<Msg>, sent': set<Msg>, x: NodeId, b: Block)
    requires sent <= sent' && Supports(sent, x, b)
    ensures Supports(sent', x, b)
  {
    var c :| ProposeMsg(c) in sent && c.author == x && LayerOf(c) == LayerOf(b) + 1 && References1(sent, c, b);
    var q :| q in c.references && Names(sent, q, b);
    assert Names(sent', q, b);
    assert ProposeMsg(c) in sent';
  }

  /** Commit safety: once f+1 height-2 blocks of a view reference a height-1 block of that view, every
      block of every later view has it in its causal history. */
  lemma WeakCommitSafety(cfg: Config, sent: set<Msg>, b: Block, a: set<NodeId>, d: Block)
    requires SentOk(cfg, sent) && cfg.n % 3 == 1 && b.height.H1?
    requires a <= Nodes(cfg.n) && |a| >= Low(cfg.n)
    requires forall x :: x in a ==> Supports(sent, x, b)
    requires ProposeMsg(d) in sent && d.view > b.view
    ensures InHistory(sent, d, b)
  {
    var layer := LayerOf(b) + 1;
    assert OnePerPosition(sent);
    Thresholds(cfg.n);
    hide SentOk; hide OnePerPosition; hide Supports; hide InHistory; hide High; hide Low;
    forall c | ProposeMsg(c) in sent && LayerOf(c) == layer && c.author in a ensures InHistory(sent, c, b) {
      SupportInHistory(cfg, sent, b, c);
    }
    forall c | ProposeMsg(c) in sent && LayerOf(c) == layer + 1 ensures InHistory(sent, c, b) {
      LayerMeets(cfg, sent, layer, a, b, c);
    }
    HistorySpreads(cfg, sent, layer + 1, b, d);
  }

  /** What a node's weak-vote counter stands for: it reaches f+1 only when f+1 nodes have proposed a
      height-2 block that references the leader's one height-1 block of the view. */
  lemma WeakVotesMean(cfg: Config, g: System, i: NodeId, view: nat, p: NodeId) returns (b: Block, a: set<NodeId>)
    requires SystemOk(cfg, g) && i < |g.nodes| && Count(g.nodes[i].weakVotes, Key(view, p)) >= 1
    ensures ProposeMsg(b) in g.sent && b.author == p && b.view == view && b.height.H1?
    ensures a <= Nodes(cfg.n) && |a| == Count(g.nodes[i].weakVotes, Key(view, p))
    ensures forall x :: x in a ==> Supports(g.sent, x, b)
  {
    NodeOfSystem(cfg, g, i);
    var nd := g.nodes[i];
    NodeParts(cfg, i, nd, g.sent);
    WeakOfNode(cfg, i, nd, g.sent, Key(view, p));
    hide SystemOk; hide NodeOk;
    a := WeakVoters(cfg.n, nd.got, view, p);
    var x0 :| x0 in a;
    b := WeakBlock(cfg, g.sent, nd.got, x0, view, p);
    forall x | x in a
      ensures Supports(g.sent, x, b)
    {
      var b' := WeakBlock(cfg, g.sent, nd.got, x, view, p);
      assert SamePosition(b, b');
    }
  }

  lemma WeakOfNode(cfg: Config, id: NodeId, nd: Node, sent: set<Msg>, k: Key)
    requires NodeOk(cfg, id, nd, sent)
    ensures Count(nd.weakVotes, k) == |WeakVoters(cfg.n, nd.got, k.view, k.node)|
  {
    hide InstancesOk; hide HistoryOk; hide VotesSentOk; hide ElectsSentOk; hide BlocksSentOk; hide ScanOk;
    hide SpeedNumsOk; hide ElectorOk; hide StoreOk; hide CoinOk;
  }

  lemma WeakBlock(cfg: Config, sent: set<Msg>, got: set<Msg>, x: NodeId, view: nat, p: NodeId) returns (b: Block)
    requires SentOk(cfg, sent) && got <= sent && Refers(got, x, view, p)
    ensures ProposeMsg(b) in sent && b.author == p && b.view == view && b.height.H1?
    ensures Supports(sent, x, b)
  {
    hide SentOk;
    var c :| ProposeMsg(c) in got && c.author == x && c.view == view && c.height.H2? && Mentions(c, p);
    var q :| q in c.references && q.proposer == p;
    b := RefBlock(cfg, sent, c, q);
  }

  /** Commit safety as a node decides it, in every state of every run: when its weak votes for `p` in a
      view reach f+1, every block any node has proposed or will have proposed in a later view of the
      same run has `p`'s block of that view in its causal history. */
  lemma WeakVotesCommitSafely(cfg: Config, run: seq<System>, s: nat, t: nat, i: NodeId, view: nat,
                              p: NodeId) returns (b: Block)
    requires IsRun(cfg, run) && s <= t < |run| && cfg.n % 3 == 1 && i < cfg.n == |run[s].nodes|
    requires Count(run[s].nodes[i].weakVotes, Key(view, p)) >= Low(cfg.n)
    ensures ProposeMsg(b) in run[s].sent && b.author == p && b.view == view && b.height.H1?
    ensures forall d :: ProposeMsg(d) in run[t].sent && d.view > view ==> InHistory(run[t].sent, d, b)
  {
    RunOk(cfg, run, s);
    RunOk(cfg, run, t);
    SentGrows(cfg, run, s, t);
    var a: set<NodeId>;
    hide IsRun; hide SystemOk; hide SentOk; hide NodeOk;
    b, a := WeakVotesMean(cfg, run[s], i, view, p);
    SenderIsNode(cfg, run[t], ProposeMsg(b));
    hide Supports;
    forall x | x in a ensures Supports(run[t].sent, x, b) {
      SupportGrows(run[s].sent, run[t].sent, x, b);
    }
    forall d | ProposeMsg(d) in run[t].sent && d.view > view ensures InHistory(run[t].sent, d, b) {
      WeakCommitSafety(cfg, run[t].sent, b, a, d);
    }
  }

  lemma {:induction false} SentGrows(cfg: Config, run: seq<System>, s: nat, t: nat)
    requires IsRun(cfg, run) && s <= t < |run|
    ensures run[s].sent <= run[t].sent
  {
    if s < t {
      SentGrows(cfg, run, s, t - 1);
      assert Next(cfg, run[t - 1], run[t - 1 + 1]);
      hide Step; hide Enabled;
    }
  }
}
