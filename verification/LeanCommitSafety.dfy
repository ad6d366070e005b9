/** What the commit loop commits when it runs over the store of a node of the lean protocol. */
module LeanCommitSafety {
  import opened Blocks
  import opened CommitLog
  import opened LeanSpb
  import opened ViewChange
  import opened LeanNode
  import opened LeanSystem
  import opened LeanInvariant
  import opened LeanSteps
  import opened LeanRuns
  import opened LeanTheorems
  import opened LeanSafety
  import opened LeanDecisions
  import opened Quorum
  import ChainCommit
  import Elector

  // ----- The store of a node along a run -----

  /** Only proposals change the store. */
  lemma StepStore(cfg: Config, id: NodeId, nd: Node, e: Event)
    requires cfg.n >= 1 && Enabled(nd, e)
    ensures Step(cfg, id, nd, e).0.store == if e.Handle? && e.m.ProposeMsg? then nd.store[Hash(e.m.b) := e.m.b]
      else nd.store
  {
    hide High; hide Run; hide Hash; hide MakeBlock; hide Deliver; hide OnReport; hide InstanceAt; hide Pending;
    hide Elector.AddElect;
    hide Enqueue; hide MakeReport; hide DecCert;
  }

  lemma OneStoreStep(cfg: Config, run: seq<System>, t: nat, j: NodeId)
    requires IsRun(cfg, run) && t + 1 < |run| && Collisionless(run[t].sent) && j < cfg.n
    ensures |run[t].nodes| == |run[t + 1].nodes| == cfg.n
    ensures StoreGrows(run[t].nodes[j].store, run[t + 1].nodes[j].store)
  {
    hide IsRun; hide SystemOk; hide SentOk; hide NodeOk; hide NetOk; hide Step; hide Enabled; hide Apply; hide Hash;
    hide InstancesOk; hide HistoryOk; hide OwnSentOk; hide CountersOk; hide CoinOk;
    var g, g' := run[t], run[t + 1];
    RunOk(cfg, run, t);
    RunNode(cfg, run, t, j);
    NodeParts(cfg, j, g.nodes[j], g.sent);
    var mv := MoveOf(cfg, run, t);
    MovedNode(cfg, g, mv, g', j);
    if mv.Local? && mv.i == j {
      StepStore(cfg, j, g.nodes[j], mv.e);
      if mv.e.Handle? {
        PacketIsNew(cfg, g, Packet(j, mv.e.m));
      }
    }
  }

  lemma {:induction false} StoreGrowsAlong(cfg: Config, run: seq<System>, s: nat, t: nat, j: NodeId)
    requires IsRun(cfg, run) && s <= t < |run| && Collisionless(run[t].sent) && j < cfg.n
    ensures |run[s].nodes| == |run[t].nodes| == cfg.n && StoreGrows(run[s].nodes[j].store, run[t].nodes[j].store)
  {
    hide IsRun; hide Collisionless; hide StoreGrows; hide SentOk;
    RunSent(cfg, run, s);
    if s == t {
      StoreGrowsSelf(run[s].nodes[j].store);
    } else {
      SentGrows(cfg, run, t - 1, t);
      FewerCollide(run[t - 1].sent, run[t].sent);
      StoreGrowsAlong(cfg, run, s, t - 1, j);
      OneStoreStep(cfg, run, t - 1, j);
      StoreGrowsOn(run[s].nodes[j].store, run[t - 1].nodes[j].store, run[t].nodes[j].store);
    }
  }

  /** The store of a node is sound for the walk: blocks are stored under their hashes, and a stored parent comes
      earlier. */
  lemma StoreIsSound(cfg: Config, run: seq<System>, t: nat, j: NodeId)
    requires IsRun(cfg, run) && t < |run| && Collisionless(run[t].sent) && j < cfg.n
    ensures |run[t].nodes| == cfg.n && ChainCommit.Sound(run[t].nodes[j].store)
    ensures forall d :: d in run[t].nodes[j].store ==> ProposeMsg(run[t].nodes[j].store[d]) in run[t].sent
  {
    hide IsRun; hide NodeOk; hide InstancesOk; hide HistoryOk; hide OwnSentOk; hide CountersOk; hide CoinOk;
    hide SentOk; hide Hash;
    RunNode(cfg, run, t, j);
    var nd, sent := run[t].nodes[j], run[t].sent;
    NodeParts(cfg, j, nd, sent);
    forall d | d in nd.store && nd.store[d].qc.Some? && nd.store[d].qc.value.hash in nd.store
      ensures LayerOf(nd.store[nd.store[d].qc.value.hash]) < LayerOf(nd.store[d])
    {
      var a := ParentOf(cfg, sent, nd.store[d]);
      assert nd.store[nd.store[d].qc.value.hash] == a;
    }
  }

  // ----- The commit loop of a node along a run -----

  /** Node `j` drains the blocks `ds` one after the other; the walk of each ends at the time in `times`, when the
      block's ancestors are in the store. */
  ghost predicate Schedule(run: seq<System>, j: NodeId, times: seq<nat>, ds: seq<Block>) {
    && |times| == |ds|
    && (forall k :: 0 <= k < |times| ==> times[k] < |run| && j < |run[times[k]].nodes|)
    && (forall i, k :: 0 <= i <= k < |times| ==> times[i] <= times[k])
    && (forall k :: 0 <= k < |times| ==> ChainCommit.Kept(run[times[k]].nodes[j].store, ds[k]))
  }

  ghost function Stores(run: seq<System>, j: NodeId, times: seq<nat>): (r: seq<Store>)
    requires forall k :: 0 <= k < |times| ==> times[k] < |run| && j < |run[times[k]].nodes|
    ensures |r| == |times| && forall k :: 0 <= k < |r| ==> r[k] == run[times[k]].nodes[j].store
  {
    seq(|times|, k requires 0 <= k < |times| => run[times[k]].nodes[j].store)
  }

  /** The committed set of node `j` after its drains. */
  ghost function Committed(run: seq<System>, j: NodeId, times: seq<nat>, ds: seq<Block>): set<Digest>
    requires Schedule(run, j, times, ds)
  {
    ChainCommit.DrainEach(Stores(run, j, times), {}, ds)
  }

  /** The committed set of a node is the union of the ancestor chains of the blocks it has drained, whenever they
      arrived. */
  lemma CommittedIsUnion(cfg: Config, run: seq<System>, j: NodeId, times: seq<nat>, ds: seq<Block>, t: nat)
    requires IsRun(cfg, run) && Schedule(run, j, times, ds) && t < |run| && Collisionless(run[t].sent) && j < cfg.n
    requires forall k :: 0 <= k < |times| ==> times[k] <= t
    ensures |run[t].nodes| == cfg.n && ChainCommit.AllKept(run[t].nodes[j].store, ds)
    ensures Committed(run, j, times, ds) == ChainCommit.Ancestors(run[t].nodes[j].store, ds)
  {
    hide IsRun; hide Collisionless; hide StoreGrows; hide SentOk; hide ChainCommit.Kept; hide ChainCommit.DrainEach;
    hide ChainCommit.Ancestors; hide ChainCommit.AllKept; hide Hash;
    RunSent(cfg, run, t);
    var ss, store := Stores(run, j, times), run[t].nodes[j].store;
    forall i, k | 0 <= i <= k < |ss| ensures StoreGrows(ss[i], ss[k]) {
      SentGrows(cfg, run, times[k], t);
      FewerCollide(run[times[k]].sent, run[t].sent);
      StoreGrowsAlong(cfg, run, times[i], times[k], j);
    }
    forall k | 0 <= k < |ss| ensures StoreGrows(ss[k], store) {
      StoreGrowsAlong(cfg, run, times[k], t, j);
    }
    assert ChainCommit.InTime(ss, ds, store);
    assert ds != [] ==> ChainCommit.ParentComplete(ss[0], {});
    ChainCommit.DrainEachIsUnion(ss, {}, ds, store);
  }

  // ----- What a decided leader block means for commits -----

  /** Through certificates and through the store: the same chain. */
  lemma {:induction false} ExtendedIsInChain(cfg: Config, sent: set<Msg>, store: Store, c: Block, b: Block)
    requires cfg.n >= 1 && SentOk(cfg, sent) && Collisionless(sent)
    requires (forall d :: d in store ==> ProposeMsg(store[d]) in sent)
    requires ChainCommit.Kept(store, c) && Extends(sent, c, b)
    ensures Hash(b) in ChainCommit.Chain(store, c)
    decreases LayerOf(c)
  {
    hide Hash; hide SentOk;
    if c == b {
      ChainCommit.ChainEnds(store, c);
    } else {
      var a :| Names(sent, c.qc.value, a) && LayerOf(a) < LayerOf(c) && Extends(sent, a, b);
      ChainCommit.ParentRooted(store, {}, c);
      assert ChainCommit.Parent(store, c) == a;
      ExtendedIsInChain(cfg, sent, store, a, b);
    }
  }

  /** A drained block's ancestors are committed. */
  lemma DrainCommitsChain(cfg: Config, run: seq<System>, j: NodeId, times: seq<nat>, ds: seq<Block>, t: nat, k: nat,
                          b: Block)
    requires IsRun(cfg, run) && Schedule(run, j, times, ds) && t < |run| && Collisionless(run[t].sent) && j < cfg.n
    requires (forall l :: 0 <= l < |times| ==> times[l] <= t) && k < |ds| && Extends(run[t].sent, ds[k], b)
    ensures Hash(b) in Committed(run, j, times, ds)
  {
    hide IsRun; hide Collisionless; hide SentOk; hide Extends; hide Hash; hide ChainCommit.Kept; hide Committed;
    hide Schedule;
    hide ChainCommit.Sound;
    CommittedIsUnion(cfg, run, j, times, ds, t);
    RunSent(cfg, run, t);
    StoreIsSound(cfg, run, t, j);
    var store := run[t].nodes[j].store;
    ExtendedIsInChain(cfg, run[t].sent, store, ds[k], b);
    InAncestors(store, ds, k, Hash(b));
  }

  lemma {:induction false} InAncestors(store: Store, ds: seq<Block>, k: nat, d: Digest)
    requires ChainCommit.AllKept(store, ds) && k < |ds| && d in ChainCommit.Chain(store, ds[k])
    ensures d in ChainCommit.Ancestors(store, ds)
  {
    hide ChainCommit.Kept; hide ChainCommit.Chain;
    if k < |ds| - 1 {
      InAncestors(store, ds[..|ds| - 1], k, d);
    }
  }

  /** Commits agree across nodes: once the leader's block is decided in time, every node that drains a block of a
      later view has it committed, unless some node went to a view in between without a certificate. */
  lemma LeaderIsCommitted(cfg: Config, run: seq<System>, t: nat, b: Block, j: NodeId, times: seq<nat>, ds: seq<Block>,
                          k: nat)
    requires IsRun(cfg, run) && cfg.n >= 1 && t < |run| && Collisionless(run[t].sent) && j < cfg.n
    requires Schedule(run, j, times, ds) && (forall l :: 0 <= l < |times| ==> times[l] <= t) && k < |ds|
    requires b.view < ds[k].view && Holds(cfg, run, t, b, ds[k].view)
    ensures Hash(b) in Committed(run, j, times, ds)
  {
    hide IsRun; hide Collisionless; hide SentOk; hide Extends; hide Hash; hide Committed; hide Holds;
    hide ChainCommit.Sound;
    RunSent(cfg, run, times[k]);
    SentGrows(cfg, run, times[k], t);
    DrainedIsSent(cfg, run, j, times, ds, k, t);
    LaterDecisionExtends(cfg, run, t, b, ds[k]);
    DrainCommitsChain(cfg, run, j, times, ds, t, k, b);
  }

  lemma DrainedIsSent(cfg: Config, run: seq<System>, j: NodeId, times: seq<nat>, ds: seq<Block>, k: nat, t: nat)
    requires IsRun(cfg, run) && Schedule(run, j, times, ds) && k < |ds| && times[k] <= t < |run| && j < cfg.n
    requires Collisionless(run[t].sent)
    ensures ProposeMsg(ds[k]) in run[t].sent
  {
    hide IsRun; hide Collisionless; hide Hash; hide ChainCommit.Sound; hide ChainCommit.Linked;
    SentGrows(cfg, run, times[k], t);
    FewerCollide(run[times[k]].sent, run[t].sent);
    StoreIsSound(cfg, run, times[k], j);
  }
}
