/** Every state of every run satisfies the invariant. */
module DagRuns {
  import opened Blocks
  import opened Quorum
  import opened DagNode
  import opened DagSystem
  import opened DagInvariant
  import opened DagFrame
  import opened DagEvents
  import opened DagProposals
  import Spb
  import SpbInvariant

  // ----- The initial state -----

  lemma InitialInstances(cfg: Config)
    requires cfg.n >= 1
    ensures InstancesOk(cfg, INIT)
  {
    hide SpbInvariant.Inv;
    forall k: Key ensures InstanceOk(cfg, k, InstanceAt(INIT, k)) {
      SpbInvariant.InitKeeps(Spb.Dag, k.node, k.view, High(cfg.n));
    }
  }

  lemma InitialNode(cfg: Config, id: NodeId)
    requires cfg.n >= 1
    ensures NodeOk(cfg, id, INIT, {})
  {
    hide InstancesOk; hide SpbInvariant.Inv; hide High; hide Hash;
    InitialInstances(cfg);
    forall k: Key
      ensures WeakVoters(cfg.n, {}, k.view, k.node) == {} && SpeedTargets(cfg.n, {}, k.view, k.node) == {}
    {
    }
  }

  lemma InitialOk(cfg: Config)
    requires cfg.n >= 1
    ensures SystemOk(cfg, Initial(cfg))
  {
    hide NodeOk;
    forall i | 0 <= i < cfg.n ensures NodeOk(cfg, i, Initial(cfg).nodes[i], {}) {
      InitialNode(cfg, i);
    }
  }

  // ----- Speed votes come from certificates -----

  /** A speed vote was sent for the one height-2 certificate its author holds there. */
  lemma SpeedVoteOrigin(cfg: Config, g: System, sv: SpeedVoteMsg)
    requires SystemOk(cfg, g) && SpeedVoting(sv) in g.sent
    ensures sv.author < cfg.n && sv.proposer < cfg.n
    ensures var qc := QcAt(g.nodes[sv.author], Key(sv.view, sv.proposer), H2);
      qc.Some? && sv == SpeedVoteFor(sv.author, qc.value)
  {
    SenderIsNode(cfg, g, SpeedVoting(sv));
    var a := sv.author;
    assert NodeOk(cfg, a, g.nodes[a], g.sent);
    hide SystemOk;
    NodeParts(cfg, a, g.nodes[a], g.sent);
    SpeedVoteHeld(cfg, a, g.nodes[a], g.sent, sv);
    hide NodeOk;
    var b := HeldIsCertified(cfg, g.nodes[a], g.sent, Key(sv.view, sv.proposer), H2);
  }

  lemma SpeedVoteHeld(cfg: Config, id: NodeId, nd: Node, sent: set<Msg>, sv: SpeedVoteMsg)
    requires NodeOk(cfg, id, nd, sent) && SpeedVoting(sv) in sent && sv.author == id
    ensures var qc := QcAt(nd, Key(sv.view, sv.proposer), H2); qc.Some? && sv == SpeedVoteFor(id, qc.value)
  {
    hide InstancesOk; hide HistoryOk; hide ElectsSentOk; hide BlocksSentOk; hide ScanOk;
    hide WeakVotesOk; hide SpeedNumsOk; hide ElectorOk; hide StoreOk; hide CoinOk;
  }

  lemma SenderIsNode(cfg: Config, g: System, m: Msg)
    requires SystemOk(cfg, g) && m in g.sent
    ensures Sender(m) < cfg.n && SentOk(cfg, g.sent)
  {
    hide NodeOk; hide NetOk;
  }

  lemma SpeedVoteIsNew(cfg: Config, g: System, i: NodeId, sv: SpeedVoteMsg)
    requires SystemOk(cfg, g) && i < cfg.n && SpeedVoting(sv) in g.sent && SpeedVoting(sv) !in g.nodes[i].got
    ensures sv.proposer < cfg.n && NewTarget(g.nodes[i].got, sv)
  {
    SpeedVoteOrigin(cfg, g, sv);
    assert NodeOk(cfg, i, g.nodes[i], g.sent);
    NodeParts(cfg, i, g.nodes[i], g.sent);
    hide SystemOk; hide NodeOk; hide QcAt;
    forall u | SpeedVoting(u) in g.nodes[i].got
      ensures !(u.author == sv.author && u.view == sv.view && u.proposer == sv.proposer)
    {
      SpeedVoteOrigin(cfg, g, u);
    }
  }

  // ----- One step -----

  lemma EventStep(cfg: Config, g: System, i: NodeId, e: Event)
    requires SystemOk(cfg, g) && CanMove(cfg, g, Local(i, e))
    ensures StepOk(cfg, i, Step(cfg, i, g.nodes[i], e).0, g.sent, Step(cfg, i, g.nodes[i], e).1)
  {
    hide CoinStep; hide ScanStep; hide RunTask; hide Receive; hide Start; hide OnCallBack;
    var nd := g.nodes[i];
    NodeOfSystem(cfg, g, i);
    match e
    case Begin(ready) => hide SystemOk; hide NodeOk; BeginStep(cfg, i, nd, g.sent, ready);
    case CallBack(view) => hide SystemOk; hide NodeOk; CallBackStep(cfg, i, nd, OnCallBack(nd, view), g.sent, view);
    case Read(ready) => hide SystemOk; hide NodeOk; ReadStep(cfg, i, nd, g.sent, ready);
    case Task(k, t) => hide SystemOk; hide NodeOk; TaskStep(cfg, i, nd, g.sent, k, t);
    case Settle => hide SystemOk; hide NodeOk; SettleStep(cfg, i, nd, CoinStep(cfg, nd), g.sent);
    case Handle(m) => HandleStep(cfg, g, i, m);
  }

  lemma NodeOfSystem(cfg: Config, g: System, i: NodeId)
    requires SystemOk(cfg, g) && i < cfg.n
    ensures NodeOk(cfg, i, g.nodes[i], g.sent) && SentOk(cfg, g.sent)
  {
    hide NodeOk; hide NetOk; hide SentOk;
  }

  lemma HandleStep(cfg: Config, g: System, i: NodeId, m: Msg)
    requires SystemOk(cfg, g) && CanMove(cfg, g, Local(i, Handle(m)))
    ensures StepOk(cfg, i, Step(cfg, i, g.nodes[i], Handle(m)).0, g.sent, Step(cfg, i, g.nodes[i], Handle(m)).1)
  {
    var nd := g.nodes[i];
    NodeOfSystem(cfg, g, i);
    PacketIsNew(cfg, g, Packet(i, m));
    hide NodeOk; hide SentOk; hide NetOk;
    match m
    case ProposeMsg(b) => hide SystemOk; HandleProposal(cfg, i, nd, OnPropose(nd, b), g.sent, b);
    case Voting(v) => hide SystemOk; HandleVote(cfg, i, nd, OnVote(nd, v), g.sent, v);
    case SpeedVoting(sv) =>
      SpeedVoteIsNew(cfg, g, i, sv);
      hide SystemOk;
      HandleSpeed(cfg, i, nd, g.sent, sv);
    case ElectMsg(a, view) => hide SystemOk; HandleElect(cfg, i, nd, OnElect(cfg, nd, a, view), g.sent, a, view);
  }

  lemma PacketIsNew(cfg: Config, g: System, p: Packet)
    requires SystemOk(cfg, g) && p in g.net
    ensures p.to < cfg.n && p.m in g.sent && (!p.m.ElectMsg? ==> g.net[p] == 1 && p.m !in g.nodes[p.to].got)
  {
    hide NodeOk; hide SentOk;
  }

  /** What a node has handled grows by the message handled. */
  lemma StepGot(cfg: Config, id: NodeId, nd: Node, e: Event)
    requires cfg.n >= 1 && Enabled(nd, e)
    ensures Step(cfg, id, nd, e).0.got == nd.got + (if e.Handle? then {e.m} else {})
  {
    hide Receive; hide RunTask; hide CoinStep; hide Hash; hide Spb.Pending; hide QcAt; hide High; hide MakeBlock;
    match e {
      case Handle(m) => ReceiveFrame(cfg, id, nd, m);
      case Task(k, t) => TaskFrame(cfg, id, nd, k, t);
      case Settle => SettleFrame(cfg, nd);
      case _ =>
    }
  }

  lemma OtherNodes(cfg: Config, g: System, i: NodeId, nd': Node, nodes': seq<Node>, sent': set<Msg>, out: Option<Msg>)
    requires SystemOk(cfg, g) && i < cfg.n && StepOk(cfg, i, nd', g.sent, out) && nodes' == g.nodes[i := nd']
    requires sent' == g.sent + (if out.Some? then {out.value} else {})
    ensures SentOk(cfg, sent')
    ensures forall j :: 0 <= j < cfg.n ==> NodeOk(cfg, j, nodes'[j], sent')
  {
    NodeOfSystem(cfg, g, i);
    hide NodeOk; hide SentOk; hide SystemOk;
    if out.None? {
      assert sent' == g.sent;
    }
    forall j | 0 <= j < cfg.n ensures NodeOk(cfg, j, nodes'[j], sent') {
      NodeOfSystem(cfg, g, j);
      if j != i && out.Some? {
        OthersSend(cfg, j, g.nodes[j], g.sent, out.value);
      }
    }
  }

  lemma NetStep(cfg: Config, g: System, g': System, i: NodeId, e: Event)
    requires |g.nodes| == cfg.n && NetOk(cfg, g) && CanMove(cfg, g, Local(i, e)) && g' == Apply(cfg, g, Local(i, e))
    requires forall j :: 0 <= j < cfg.n ==> g.nodes[j].got <= g.sent
    requires var out := Step(cfg, i, g.nodes[i], e).1; out.Some? && !out.value.ElectMsg? ==> out.value !in g.sent
    ensures NetOk(cfg, g')
  {
    hide Step; hide Enabled;
    StepGot(cfg, i, g.nodes[i], e);
    var (nd, out) := Step(cfg, i, g.nodes[i], e);
    var net := if e.Handle? then g.net - multiset{Packet(i, e.m)} else g.net;
    var h := System(g.nodes[i := nd], g.sent, net);
    HandledNet(cfg, g, h, i, e);
    if out.Some? {
      BroadcastNet(cfg, h, g', out.value);
    }
  }

  /** The packet that was handled is gone and its message is on record. */
  lemma HandledNet(cfg: Config, g: System, h: System, i: NodeId, e: Event)
    requires |g.nodes| == cfg.n && NetOk(cfg, g) && i < cfg.n && (e.Handle? ==> Packet(i, e.m) in g.net)
    requires h.net == (if e.Handle? then g.net - multiset{Packet(i, e.m)} else g.net) && h.sent == g.sent
    requires |h.nodes| == cfg.n
    requires forall j :: 0 <= j < cfg.n && j != i ==> h.nodes[j] == g.nodes[j]
    requires h.nodes[i].got == g.nodes[i].got + (if e.Handle? then {e.m} else {})
    ensures NetOk(cfg, h)
  {
    forall p | p in h.net
      ensures p.to < cfg.n && p.m in h.sent && (!p.m.ElectMsg? ==> h.net[p] == 1 && p.m !in h.nodes[p.to].got)
    {
      assert p in g.net;
    }
  }

  /** A message that was not sent before is in no packet and on no record. */
  lemma BroadcastNet(cfg: Config, h: System, g': System, m: Msg)
    requires |h.nodes| == cfg.n && NetOk(cfg, h) && g' == System(h.nodes, h.sent + {m}, h.net + Packets(cfg.n, m))
    requires m.ElectMsg? || (m !in h.sent && forall j :: 0 <= j < cfg.n ==> m !in h.nodes[j].got)
    ensures NetOk(cfg, g')
  {
    forall p | p in g'.net
      ensures p.to < cfg.n && p.m in g'.sent && (!p.m.ElectMsg? ==> g'.net[p] == 1 && p.m !in g'.nodes[p.to].got)
    {
    }
  }

  lemma StepKeeps(cfg: Config, g: System, g': System)
    requires SystemOk(cfg, g) && Next(cfg, g, g')
    ensures SystemOk(cfg, g')
  {
    var mv :| CanMove(cfg, g, mv) && g' == Apply(cfg, g, mv);
    match mv
    case Drop(p) => DropKeeps(cfg, g, g', p);
    case Local(i, e) => LocalKeeps(cfg, g, g', i, e);
  }

  lemma DropKeeps(cfg: Config, g: System, g': System, p: Packet)
    requires SystemOk(cfg, g) && p in g.net && g' == g.(net := g.net - multiset{p})
    ensures SystemOk(cfg, g')
  {
    hide NodeOk; hide SentOk;
  }

  lemma LocalKeeps(cfg: Config, g: System, g': System, i: NodeId, e: Event)
    requires SystemOk(cfg, g) && CanMove(cfg, g, Local(i, e)) && g' == Apply(cfg, g, Local(i, e))
    ensures SystemOk(cfg, g')
  {
    hide SystemOk; hide NodeOk; hide SentOk; hide Step; hide Enabled; hide NetOk;
    SystemSize(cfg, g);
    EventStep(cfg, g, i, e);
    var (nd', out) := Step(cfg, i, g.nodes[i], e);
    OtherNodes(cfg, g, i, nd', g'.nodes, g'.sent, out);
    forall j | 0 <= j < cfg.n ensures g.nodes[j].got <= g.sent {
      NodeOfSystem(cfg, g, j);
      NodeParts(cfg, j, g.nodes[j], g.sent);
    }
    NetStep(cfg, g, g', i, e);
    SystemAssembled(cfg, g');
  }

  lemma SystemSize(cfg: Config, g: System)
    requires SystemOk(cfg, g)
    ensures cfg.n >= 1 && |g.nodes| == cfg.n && NetOk(cfg, g)
  {
    hide NodeOk; hide SentOk; hide NetOk;
  }

  lemma SystemAssembled(cfg: Config, g: System)
    requires cfg.n >= 1 && |g.nodes| == cfg.n && NetOk(cfg, g) && SentOk(cfg, g.sent)
    requires forall j :: 0 <= j < cfg.n ==> NodeOk(cfg, j, g.nodes[j], g.sent)
    ensures SystemOk(cfg, g)
  {
    hide NodeOk; hide SentOk; hide NetOk;
  }

  /** The invariant holds in every state of every run. */
  lemma {:induction false} RunOk(cfg: Config, run: seq<System>, t: nat)
    requires IsRun(cfg, run) && t < |run|
    ensures SystemOk(cfg, run[t])
  {
    hide SystemOk; hide Next;
    if t == 0 {
      InitialOk(cfg);
    } else {
      RunOk(cfg, run, t - 1);
      assert Next(cfg, run[t - 1], run[t - 1 + 1]);
      StepKeeps(cfg, run[t - 1], run[t]);
    }
  }

  // ----- Single moves of a run -----

  lemma MoveOf(cfg: Config, run: seq<System>, t: nat) returns (mv: Move)
    requires IsRun(cfg, run) && t + 1 < |run|
    ensures CanMove(cfg, run[t], mv) && run[t + 1] == Apply(cfg, run[t], mv)
  {
    assert Next(cfg, run[t], run[t + 1]);
    hide Apply; hide CanMove;
    mv :| CanMove(cfg, run[t], mv) && run[t + 1] == Apply(cfg, run[t], mv);
  }

  /** Only the node that moves changes. */
  lemma MovedNode(cfg: Config, g: System, mv: Move, g': System, i: NodeId)
    requires CanMove(cfg, g, mv) && g' == Apply(cfg, g, mv) && i < |g'.nodes| && cfg.n >= 1
    ensures |g'.nodes| == |g.nodes|
    ensures if mv.Local? && mv.i == i then Enabled(g.nodes[i], mv.e) && g'.nodes[i] == Step(cfg, i, g.nodes[i], mv.e).0
      else g'.nodes[i] == g.nodes[i]
  {
    hide Step; hide Enabled;
  }

  /** A message that was not sent before comes from the node that moved. */
  lemma NewMessage(cfg: Config, g: System, mv: Move, g': System, m: Msg)
    requires cfg.n >= 1 && CanMove(cfg, g, mv) && g' == Apply(cfg, g, mv) && m in g'.sent && m !in g.sent
    ensures mv.Local? && Enabled(g.nodes[mv.i], mv.e) && Step(cfg, mv.i, g.nodes[mv.i], mv.e).1 == Some(m)
  {
    hide Step; hide Enabled;
  }
}
