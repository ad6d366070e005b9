/** What the commit loop commits when it runs over the store of a node of the DAG protocol. */
module DagCommitSafety {
  import opened Blocks
  import opened Quorum
  import opened CommitLog
  import opened DagNode
  import opened DagSystem
  import opened DagInvariant
  import opened DagFrame
  import opened DagRuns
  import opened DagProposals
  import opened DagSafety
  import Spb
  import DagCommit

  /** The hashes of two different proposed blocks differ. */
  ghost predicate Collisionless(sent: set<Msg>) {
    forall b, c :: ProposeMsg(b) in sent && ProposeMsg(c) in sent && Hash(b) == Hash(c) ==> b == c
  }

  lemma FewerCollide(sent: set<Msg>, sent': set<Msg>)
    requires sent <= sent' && Collisionless(sent')
    ensures Collisionless(sent)
  {
    hide Hash;
  }

  /** The node has handled every block of a causal history. */
  ghost predicate HasHistory(sent: set<Msg>, nd: Node, c: Block) {
    forall x :: InHistory(sent, c, x) ==> ProposeMsg(x) in nd.got
  }

  lemma HistoryOfReference(sent: set<Msg>, nd: Node, c: Block, r: Block)
    requires HasHistory(sent, nd, c) && References1(sent, c, r) && LayerOf(r) < LayerOf(c)
    ensures HasHistory(sent, nd, r)
  {
    forall x | InHistory(sent, r, x) ensures ProposeMsg(x) in nd.got {
      assert InHistory(sent, c, x);
    }
  }

  lemma {:induction false} HistoryGoesOn(sent: set<Msg>, c: Block, x: Block, r: Block)
    requires InHistory(sent, c, x) && References1(sent, x, r) && LayerOf(r) < LayerOf(x)
    ensures InHistory(sent, c, r)
    decreases LayerOf(c)
  {
    hide References1;
    if c == x {
      assert InHistory(sent, r, r);
    } else {
      var y :| References1(sent, c, y) && LayerOf(y) < LayerOf(c) && InHistory(sent, y, x);
      HistoryGoesOn(sent, y, x, r);
    }
  }

  // ----- Histories and the store -----

  /** A block the node has handled is stored under its hash. */
  lemma HandledIsKept(nd: Node, sent: set<Msg>, b: Block)
    requires StoreOk(nd) && nd.got <= sent && Collisionless(sent) && ProposeMsg(b) in nd.got
    ensures DagCommit.Kept(nd.store, b)
  {
    hide Hash;
  }

  /** The causal history of a block, followed through the store by hash. */
  lemma {:induction false} HistoryIsReached(sent: set<Msg>, nd: Node, c: Block, b: Block)
    requires StoreOk(nd) && nd.got <= sent && Collisionless(sent) && HasHistory(sent, nd, c) && InHistory(sent, c, b)
    ensures DagCommit.Reaches(nd.store, {}, Hash(c), Hash(b))
    decreases LayerOf(c)
  {
    assert InHistory(sent, c, c);
    HandledIsKept(nd, sent, c);
    hide StoreOk; hide Collisionless; hide Hash;
    if c == b {
      DagCommit.ReachesSelf(nd.store, {}, Hash(c));
    } else {
      var r :| References1(sent, c, r) && LayerOf(r) < LayerOf(c) && InHistory(sent, r, b);
      HistoryOfReference(sent, nd, c, r);
      HistoryIsReached(sent, nd, r, b);
      var q :| q in c.references && Names(sent, q, r);
      assert InHistory(sent, r, r);
      HandledIsKept(nd, sent, r);
      assert DagCommit.Edge(nd.store, Hash(c), Hash(r));
      DagCommit.ReachesBefore(nd.store, {}, Hash(c), Hash(r), Hash(b));
    }
  }

  /** One step through the store is one reference. */
  lemma EdgeIsReference(cfg: Config, sent: set<Msg>, nd: Node, c: Block, d: Digest, q: BlockQc) returns (r: Block)
    requires SentOk(cfg, sent) && StoreOk(nd) && nd.got <= sent && HasHistory(sent, nd, c) && d in nd.store
    requires InHistory(sent, c, nd.store[d]) && q in nd.store[d].references
    ensures InHistory(sent, c, r) && Hash(r) == q.hash && ProposeMsg(r) in nd.got && q.hash in nd.store
  {
    var x := nd.store[d];
    assert ProposeMsg(x) in sent;
    r := RefBlock(cfg, sent, x, q);
    hide SentOk; hide Hash;
    HistoryGoesOn(sent, c, x, r);
  }

  /** What is reached through the store is the causal history. */
  lemma {:induction false} ReachedIsHistory(cfg: Config, sent: set<Msg>, nd: Node, c: Block, p: seq<Digest>)
    requires SentOk(cfg, sent) && StoreOk(nd) && nd.got <= sent && Collisionless(sent) && HasHistory(sent, nd, c)
    requires DagCommit.Path(nd.store, {}, p) && p[0] == Hash(c)
    ensures |p| >= 1 && p[|p| - 1] in nd.store && InHistory(sent, c, nd.store[p[|p| - 1]])
  {
    hide SentOk; hide InHistory; hide HasHistory; hide DagCommit.Path; hide StoreOk; hide Collisionless; hide Hash;
    PathShape(nd.store, p);
    var n := |p| - 1;
    if n == 0 {
      OwnHistory(nd, sent, c);
    } else {
      PathPrefix(nd.store, p, n);
      ReachedIsHistory(cfg, sent, nd, c, p[..n]);
      var ref := PathStep(nd.store, p, n);
      var r := EdgeIsReference(cfg, sent, nd, c, p[n - 1], ref);
      HandledIsKept(nd, sent, r);
    }
  }

  lemma OwnHistory(nd: Node, sent: set<Msg>, c: Block)
    requires StoreOk(nd) && nd.got <= sent && Collisionless(sent) && HasHistory(sent, nd, c)
    ensures InHistory(sent, c, c) && DagCommit.Kept(nd.store, c)
  {
    hide Hash; hide StoreOk; hide Collisionless;
    assert InHistory(sent, c, c);
    HandledIsKept(nd, sent, c);
  }

  lemma PathShape(store: Store, p: seq<Digest>)
    requires DagCommit.Path(store, {}, p)
    ensures |p| >= 1 && forall i :: 0 <= i < |p| ==> p[i] in store
  {
  }

  lemma PathPrefix(store: Store, p: seq<Digest>, n: nat)
    requires DagCommit.Path(store, {}, p) && 0 < n < |p|
    ensures DagCommit.Path(store, {}, p[..n])
  {
    forall i | 0 <= i < n - 1 ensures DagCommit.Edge(store, p[..n][i], p[..n][i + 1]) {
      assert DagCommit.Edge(store, p[i], p[i + 1]);
    }
  }

  lemma PathStep(store: Store, p: seq<Digest>, n: nat) returns (q: BlockQc)
    requires DagCommit.Path(store, {}, p) && 0 < n < |p|
    ensures p[n - 1] in store && q in store[p[n - 1]].references && q.hash == p[n]
  {
    assert DagCommit.Edge(store, p[n - 1], p[n - 1 + 1]);
    q :| q in store[p[n - 1]].references && q.hash == p[n];
  }

  /** A handled history is full: none of its references is missing in the store. */
  lemma HistoryIsFull(cfg: Config, sent: set<Msg>, nd: Node, c: Block)
    requires SentOk(cfg, sent) && StoreOk(nd) && nd.got <= sent && Collisionless(sent) && HasHistory(sent, nd, c)
    ensures DagCommit.Full(nd.store, Hash(c))
  {
    hide SentOk; hide InHistory; hide HasHistory; hide Collisionless; hide Hash; hide StoreOk;
    OwnHistory(nd, sent, c);
    forall e, q | DagCommit.Reaches(nd.store, {}, Hash(c), e) && q in nd.store[e].references
      ensures q.hash in nd.store
    {
      var p :| DagCommit.Path(nd.store, {}, p) && p[0] == Hash(c) && p[|p| - 1] == e;
      PathShape(nd.store, p);
      ReachedIsHistory(cfg, sent, nd, c, p);
      var r := EdgeIsReference(cfg, sent, nd, c, e, q);
    }
  }

  lemma NodeStore(cfg: Config, g: System, j: NodeId)
    requires SystemOk(cfg, g) && j < |g.nodes|
    ensures SentOk(cfg, g.sent) && StoreOk(g.nodes[j]) && g.nodes[j].got <= g.sent
  {
    hide SystemOk; hide NodeOk; hide SentOk; hide StoreOk; hide NetOk; hide InstancesOk; hide HistoryOk; hide ScanOk;
    hide CoinOk; hide BlocksSentOk;
    SystemSize(cfg, g);
    NodeOfSystem(cfg, g, j);
    NodeParts(cfg, j, g.nodes[j], g.sent);
    StoreOfNode(cfg, j, g.nodes[j], g.sent);
  }

  // ----- The store of a node along a run -----

  /** Only proposals change the store. */
  lemma StepStore(cfg: Config, id: NodeId, nd: Node, e: Event)
    requires cfg.n >= 1 && Enabled(nd, e)
    ensures Step(cfg, id, nd, e).0.store == if e.Handle? && e.m.ProposeMsg? then nd.store[Hash(e.m.b) := e.m.b]
      else nd.store
  {
    hide Receive; hide RunTask; hide CoinStep; hide Hash; hide Spb.Pending; hide QcAt; hide High; hide MakeBlock;
    match e {
      case Handle(m) => ReceiveFrame(cfg, id, nd, m);
      case Task(k, t) => TaskFrame(cfg, id, nd, k, t);
      case Settle => SettleFrame(cfg, nd);
      case _ =>
    }
  }

  lemma HandledPacket(cfg: Config, g: System, mv: Move)
    requires CanMove(cfg, g, mv) && mv.Local? && mv.e.Handle?
    ensures Packet(mv.i, mv.e.m) in g.net
  {
  }

  lemma OneStoreStep(cfg: Config, run: seq<System>, t: nat, j: NodeId)
    requires IsRun(cfg, run) && t + 1 < |run| && Collisionless(run[t].sent) && j < cfg.n
    ensures |run[t].nodes| == |run[t + 1].nodes| == cfg.n
    ensures StoreGrows(run[t].nodes[j].store, run[t + 1].nodes[j].store)
  {
    hide IsRun; hide SystemOk; hide SentOk; hide NetOk; hide Step; hide Enabled; hide Apply; hide Hash; hide CanMove;
    var g, g' := run[t], run[t + 1];
    RunOk(cfg, run, t);
    RunOk(cfg, run, t + 1);
    SystemSize(cfg, g);
    SystemSize(cfg, g');
    NodeStore(cfg, g, j);
    var mv := MoveOf(cfg, run, t);
    MovedNode(cfg, g, mv, g', j);
    if mv.Local? && mv.i == j {
      StepStore(cfg, j, g.nodes[j], mv.e);
      if mv.e.Handle? {
        assert Packet(j, mv.e.m) in g.net by { HandledPacket(cfg, g, mv); }
        PacketIsNew(cfg, g, Packet(j, mv.e.m));
      }
    }
  }

  lemma {:induction false} StoreGrowsAlong(cfg: Config, run: seq<System>, s: nat, t: nat, j: NodeId)
    requires IsRun(cfg, run) && s <= t < |run| && Collisionless(run[t].sent) && j < cfg.n
    ensures |run[s].nodes| == |run[t].nodes| == cfg.n && StoreGrows(run[s].nodes[j].store, run[t].nodes[j].store)
  {
    hide IsRun; hide Collisionless; hide StoreGrows; hide SystemOk;
    RunOk(cfg, run, s);
    SystemSize(cfg, run[s]);
    if s == t {
      StoreGrowsSelf(run[s].nodes[j].store);
    } else {
      SentGrows(cfg, run, t - 1, t);
      FewerCollide(run[t - 1].sent, run[t].sent);
      StoreGrowsAlong(cfg, run, s, t - 1, j);
      OneStoreStep(cfg, run, t - 1, j);
      StoreGrowsOn(run[s].nodes[j].store, run[t - 1].nodes[j].store, run[t].nodes[j].store);
    }
  }

  // ----- The commit loop of a node along a run -----

  /** Node `j` drains the blocks `ds` one after the other at the times `times`, each when it has handled the
      block's causal history. */
  ghost predicate Schedule(run: seq<System>, j: NodeId, times: seq<nat>, ds: seq<Block>) {
    && |times| == |ds|
    && (forall k :: 0 <= k < |times| ==> times[k] < |run| && j < |run[times[k]].nodes|)
    && (forall i, k :: 0 <= i <= k < |times| ==> times[i] <= times[k])
    && (forall k :: 0 <= k < |times| ==> HasHistory(run[times[k]].sent, run[times[k]].nodes[j], ds[k]))
  }

  ghost function Stores(run: seq<System>, j: NodeId, times: seq<nat>): (r: seq<Store>)
    requires forall k :: 0 <= k < |times| ==> times[k] < |run| && j < |run[times[k]].nodes|
    ensures |r| == |times| && forall k :: 0 <= k < |r| ==> r[k] == run[times[k]].nodes[j].store
  {
    seq(|times|, k requires 0 <= k < |times| => run[times[k]].nodes[j].store)
  }

  /** The committed set of node `j` after its drains. */
  ghost function Committed(run: seq<System>, j: NodeId, times: seq<nat>, ds: seq<Block>): set<Digest>
    requires Schedule(run, j, times, ds)
  {
    DagCommit.DrainEach(Stores(run, j, times), {}, DagCommit.Hashes(ds))
  }

  lemma ScheduleIsFull(cfg: Config, run: seq<System>, j: NodeId, times: seq<nat>, ds: seq<Block>, t: nat)
    requires IsRun(cfg, run) && Schedule(run, j, times, ds) && t < |run| && Collisionless(run[t].sent) && j < cfg.n
    requires forall k :: 0 <= k < |times| ==> times[k] <= t
    ensures var ss := Stores(run, j, times);
      && Growing(ss) && DagCommit.AllFull(ss, DagCommit.Hashes(ds)) && |run[t].nodes| == cfg.n
      && forall k :: 0 <= k < |ss| ==> StoreGrows(ss[k], run[t].nodes[j].store)
  {
    hide IsRun; hide Collisionless; hide StoreGrows; hide SystemOk; hide HasHistory; hide DagCommit.Full; hide Hash;
    hide SentOk; hide StoreOk;
    RunOk(cfg, run, t);
    SystemSize(cfg, run[t]);
    var ss := Stores(run, j, times);
    forall k | 0 <= k < |times|
      ensures DagCommit.Full(ss[k], Hash(ds[k])) && StoreGrows(ss[k], run[t].nodes[j].store)
      ensures Collisionless(run[times[k]].sent)
    {
      SentGrows(cfg, run, times[k], t);
      FewerCollide(run[times[k]].sent, run[t].sent);
      StoreGrowsAlong(cfg, run, times[k], t, j);
      RunOk(cfg, run, times[k]);
      NodeStore(cfg, run[times[k]], j);
      HistoryIsFull(cfg, run[times[k]].sent, run[times[k]].nodes[j], ds[k]);
    }
    forall i, k | 0 <= i <= k < |ss| ensures StoreGrows(ss[i], ss[k]) {
      StoreGrowsAlong(cfg, run, times[i], times[k], j);
    }
  }

  /** The committed set of a node is closed all along, so each drain commits the whole causal history: it is the
      union of what the drained blocks reach in the store. */
  lemma CommittedIsUnion(cfg: Config, run: seq<System>, j: NodeId, times: seq<nat>, ds: seq<Block>, t: nat)
    requires IsRun(cfg, run) && Schedule(run, j, times, ds) && t < |run| && Collisionless(run[t].sent) && j < cfg.n
    requires forall k :: 0 <= k < |times| ==> times[k] <= t
    ensures DagCommit.ClosedThroughout(Stores(run, j, times), {}, DagCommit.Hashes(ds))
    ensures |run[t].nodes| == cfg.n
    ensures Committed(run, j, times, ds) == DagCommit.Histories(run[t].nodes[j].store, DagCommit.Hashes(ds))
  {
    hide IsRun; hide Collisionless; hide StoreGrows; hide DagCommit.Full; hide Hash; hide DagCommit.Reaches;
    hide DagCommit.DrainEach; hide DagCommit.EachHistory;
    ScheduleIsFull(cfg, run, j, times, ds, t);
    var ss, hs := Stores(run, j, times), DagCommit.Hashes(ds);
    assert ds != [] ==> DagCommit.Complete(ss[0], {});
    DagCommit.CompleteIsClosedThroughout(ss, {}, hs);
    DagCommit.TimingDoesNotMatter(ss, hs, ss, hs, {}, run[t].nodes[j].store);
  }

  /** A drained block's causal history is committed. */
  lemma DrainCommitsHistory(cfg: Config, run: seq<System>, j: NodeId, times: seq<nat>, ds: seq<Block>, t: nat, k: nat,
                            b: Block)
    requires IsRun(cfg, run) && Schedule(run, j, times, ds) && t < |run| && Collisionless(run[t].sent) && j < cfg.n
    requires (forall i :: 0 <= i < |times| ==> times[i] <= t) && k < |ds| && InHistory(run[times[k]].sent, ds[k], b)
    ensures Hash(b) in Committed(run, j, times, ds)
  {
    CommittedIsUnion(cfg, run, j, times, ds, t);
    ScheduleIsFull(cfg, run, j, times, ds, t);
    hide IsRun; hide SystemOk; hide SentOk; hide StoreOk; hide Collisionless; hide Hash; hide InHistory;
    hide DagCommit.Reaches; hide StoreGrows;
    var u := times[k];
    SentGrows(cfg, run, u, t);
    FewerCollide(run[u].sent, run[t].sent);
    RunOk(cfg, run, u);
    NodeStore(cfg, run[u], j);
    HistoryIsReached(run[u].sent, run[u].nodes[j], ds[k], b);
    var store := run[t].nodes[j].store;
    assert StoreGrows(Stores(run, j, times)[k], store);
    DagCommit.ReachesLater(run[u].nodes[j].store, store, {}, Hash(ds[k]), Hash(b));
    ReachedStored(store, Hash(ds[k]), Hash(b));
    assert DagCommit.Hashes(ds)[k] == Hash(ds[k]);
  }

  lemma ReachedStored(store: Store, d: Digest, e: Digest)
    requires DagCommit.Reaches(store, {}, d, e)
    ensures e in store
  {
  }

  /** Commits agree across nodes: once one node's weak votes decide a leader's block, every node that drains a
      block of a higher view afterwards, with that block's history, has it committed. */
  lemma DecidedBlockIsCommitted(cfg: Config, run: seq<System>, s: nat, i: NodeId, view: nat, p: NodeId,
                                j: NodeId, times: seq<nat>, ds: seq<Block>, k: nat, t: nat) returns (b: Block)
    requires IsRun(cfg, run) && s <= t < |run| && cfg.n % 3 == 1 && i < cfg.n == |run[s].nodes| && j < cfg.n
    requires Count(run[s].nodes[i].weakVotes, Key(view, p)) >= Low(cfg.n)
    requires Schedule(run, j, times, ds) && Collisionless(run[t].sent) && forall l :: 0 <= l < |times| ==> times[l] <= t
    requires k < |ds| && s <= times[k] && ds[k].view > view
    ensures ProposeMsg(b) in run[s].sent && b.author == p && b.view == view && b.height.H1?
    ensures Hash(b) in Committed(run, j, times, ds)
  {
    hide IsRun; hide SystemOk; hide SentOk; hide StoreOk; hide Collisionless; hide Hash; hide Low; hide Committed;
    var u := times[k];
    b := WeakVotesCommitSafely(cfg, run, s, u, i, view, p);
    assert InHistory(run[u].sent, ds[k], ds[k]);
    RunOk(cfg, run, u);
    NodeStore(cfg, run[u], j);
    hide InHistory;
    DrainCommitsHistory(cfg, run, j, times, ds, t, k, b);
  }
}
