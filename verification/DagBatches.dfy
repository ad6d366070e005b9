/** Batch identifiers and block hashes along a run. */
module DagBatches {
  import opened Blocks
  import opened Quorum
  import opened CommitLog
  import opened DagNode
  import opened DagSystem
  import opened DagInvariant
  import opened DagRuns
  import opened DagTheorems
  import BlockHash
  import Spb
  import Elector

  /** A node's batches are numbered upwards in its own residue class. */
  ghost predicate BatchesOk(cfg: Config, id: NodeId, taken: nat, sent: set<Msg>)
    requires cfg.n >= 1
  {
    && (forall b :: ProposeMsg(b) in sent && b.author == id ==>
          && -1 <= b.batchId < id + cfg.n * taken
          && (b.batchId >= 0 ==> b.batchId % cfg.n == id))
    && (forall b, c | ProposeMsg(b) in sent && ProposeMsg(c) in sent :: InOrder(id, b, c))
  }

  predicate InOrder(id: NodeId, b: Block, c: Block) {
    b.author == id && c.author == id && LayerOf(b) < LayerOf(c) && b.batchId >= 0 && c.batchId >= 0 ==>
      b.batchId < c.batchId
  }

  lemma Residue(id: nat, n: nat, k: nat)
    requires id < n
    ensures (id + n * k) % n == id
  {
    var x := id + n * k;
    var q, r := x / n, x % n;
    assert x == n * q + r;
    LargeMultiple(n, k - q);
    assert n * (k - q) == r - id;
  }

  /** A nonzero multiple of `n` is at least `n` away from 0. */
  lemma LargeMultiple(n: int, d: int)
    requires n >= 0
    ensures d != 0 ==> n * d >= n || n * d <= -n
  {
    if d > 0 {
      assert n * d == n + n * (d - 1);
    } else if d < 0 {
      assert n * d == -n - n * (-d - 1);
    }
  }

  /** What a step does to the batch count, and the batch a new block carries. */
  lemma StepBatches(cfg: Config, id: NodeId, nd: Node, e: Event)
    requires cfg.n >= 1 && Enabled(nd, e)
    ensures var (nd', out) := Step(cfg, id, nd, e);
      && (if out.Some? && out.value.ProposeMsg? then
            exists ready: bool :: out.value.b.batchId == BatchId(cfg, id, nd.taken, ready)
                            && nd'.taken == (if ready then nd.taken + 1 else nd.taken) && out.value.b.author == id
          else nd'.taken == nd.taken)
  {
    hide Hash; hide High; hide Spb.Run; hide Spb.Deliver; hide Spb.Pending; hide AddWeakVotes; hide Elector.AddElect;
    hide CommitHeight; hide Enqueue; hide InstanceAt;
  }

  lemma NewBatch(cfg: Config, id: NodeId, taken: nat, sent: set<Msg>, c: Block, ready: bool)
    requires cfg.n >= 1 && id < cfg.n && BatchesOk(cfg, id, taken, sent)
    requires c.author == id && c.batchId == BatchId(cfg, id, taken, ready)
    requires forall b :: ProposeMsg(b) in sent && b.author == id ==> LayerOf(b) < LayerOf(c)
    ensures BatchesOk(cfg, id, if ready then taken + 1 else taken, sent + {ProposeMsg(c)})
  {
    Residue(id, cfg.n, taken);
    assert cfg.n * (taken + 1) == cfg.n * taken + cfg.n;
  }

  lemma OwnBatches(cfg: Config, id: NodeId, nd: Node, sent: set<Msg>, e: Event)
    requires cfg.n >= 1 && id < cfg.n && NodeOk(cfg, id, nd, sent) && Enabled(nd, e)
    requires BatchesOk(cfg, id, nd.taken, sent)
    ensures var (nd', out) := Step(cfg, id, nd, e);
      BatchesOk(cfg, id, nd'.taken, sent + (if out.Some? then {out.value} else {}))
  {
    hide Step; hide NodeOk; hide Enabled;
    var (nd', out) := Step(cfg, id, nd, e);
    StepBatches(cfg, id, nd, e);
    if out.Some? && out.value.ProposeMsg? {
      var c := out.value.b;
      var ready: bool :| c.batchId == BatchId(cfg, id, nd.taken, ready) &&
        nd'.taken == (if ready then nd.taken + 1 else nd.taken);
      forall b | ProposeMsg(b) in sent && b.author == id ensures LayerOf(b) < LayerOf(c) {
        ProposalIsNext(cfg, id, nd, sent, e, b);
      }
      hide BatchesOk;
      NewBatch(cfg, id, nd.taken, sent, c, ready);
    }
  }

  lemma OthersBatches(cfg: Config, id: NodeId, taken: nat, sent: set<Msg>, m: Msg)
    requires cfg.n >= 1 && BatchesOk(cfg, id, taken, sent) && Sender(m) != id
    ensures BatchesOk(cfg, id, taken, sent + {m})
  {
  }

  lemma StepKeepsBatches(cfg: Config, g: System, g': System, i: NodeId)
    requires SystemOk(cfg, g) && Next(cfg, g, g') && i < |g.nodes| && BatchesOk(cfg, i, g.nodes[i].taken, g.sent)
    ensures |g'.nodes| == |g.nodes| && BatchesOk(cfg, i, g'.nodes[i].taken, g'.sent)
  {
    hide SystemOk; hide Step; hide Enabled; hide BatchesOk;
    SentOfSystem(cfg, g);
    var mv :| CanMove(cfg, g, mv) && g' == Apply(cfg, g, mv);
    if mv.Local? {
      LocalKeepsBatches(cfg, g, g', mv.i, mv.e, i);
    }
  }

  lemma LocalKeepsBatches(cfg: Config, g: System, g': System, j: NodeId, e: Event, i: NodeId)
    requires SystemOk(cfg, g) && i < |g.nodes| && BatchesOk(cfg, i, g.nodes[i].taken, g.sent)
    requires CanMove(cfg, g, Local(j, e)) && g' == Apply(cfg, g, Local(j, e))
    ensures |g'.nodes| == |g.nodes| && BatchesOk(cfg, i, g'.nodes[i].taken, g'.sent)
  {
    hide SystemOk; hide NodeOk; hide SentOk; hide Step; hide Enabled; hide BatchesOk;
    SentOfSystem(cfg, g);
    NodeOfSystem(cfg, g, i);
    EventStep(cfg, g, j, e);
    var out := Step(cfg, j, g.nodes[j], e).1;
    if j == i {
      OwnBatches(cfg, i, g.nodes[i], g.sent, e);
      if out.None? {
        assert g.sent + {} == g.sent;
      }
    } else if out.Some? {
      OthersBatches(cfg, i, g.nodes[i].taken, g.sent, out.value);
    }
  }

  lemma {:induction false} RunBatches(cfg: Config, run: seq<System>, t: nat, i: NodeId)
    requires IsRun(cfg, run) && t < |run| && i < cfg.n
    ensures |run[t].nodes| == cfg.n && BatchesOk(cfg, i, run[t].nodes[i].taken, run[t].sent)
  {
    hide SystemOk; hide Next;
    if t > 0 {
      hide BatchesOk;
      RunBatches(cfg, run, t - 1, i);
      RunOk(cfg, run, t - 1);
      assert Next(cfg, run[t - 1], run[t - 1 + 1]);
      StepKeepsBatches(cfg, run[t - 1], run[t], i);
    }
  }

  /** Along every run, one author's blocks have pairwise distinct hashes. */
  lemma OneAuthorNeverCollides(cfg: Config, run: seq<System>, t: nat, b: Block, c: Block)
    requires IsRun(cfg, run) && t < |run| && ProposeMsg(b) in run[t].sent && ProposeMsg(c) in run[t].sent
    requires b.author == c.author && b != c
    ensures Hash(b) != Hash(c)
  {
    RunOk(cfg, run, t);
    SenderIsNode(cfg, run[t], ProposeMsg(b));
    RunBatches(cfg, run, t, b.author);
    hide IsRun; hide SystemOk; hide Hash;
    assert !SamePosition(b, c);
    hide SentOk;
    assert InOrder(b.author, b, c) && InOrder(b.author, c, b);
    if LayerOf(b) < LayerOf(c) {
      BlockHash.HashesDiffer(b, c);
    } else {
      BlockHash.HashesDiffer(c, b);
    }
  }

  /** Along every run, no batch appears in two blocks. */
  lemma BatchesAreUnique(cfg: Config, run: seq<System>, t: nat, b: Block, c: Block)
    requires IsRun(cfg, run) && t < |run| && ProposeMsg(b) in run[t].sent && ProposeMsg(c) in run[t].sent
    requires b != c && b.batchId >= 0 && c.batchId >= 0
    ensures b.batchId != c.batchId
  {
    RunOk(cfg, run, t);
    SenderIsNode(cfg, run[t], ProposeMsg(b));
    SenderIsNode(cfg, run[t], ProposeMsg(c));
    RunBatches(cfg, run, t, b.author);
    RunBatches(cfg, run, t, c.author);
    hide IsRun; hide SystemOk; hide Hash;
    if b.author == c.author {
      assert !SamePosition(b, c);
      assert InOrder(b.author, b, c) && InOrder(b.author, c, b);
    }
  }
}
