/** The invariant holds in every state of every run of the Big protocol. */
module BigRuns {
  import opened Blocks
  import opened Quorum
  import opened CommitLog
  import opened BigNode
  import opened BigSystem
  import opened BigInvariant
  import opened BigSteps
  import opened BigEvents
  import Spb
  import SpbInvariant

  // ----- The initial state -----

  lemma InitialInstances(cfg: Config)
    requires cfg.n >= 1
    ensures InstancesOk(cfg, INIT)
  {
    hide SpbInvariant.Inv;
    forall k: Key ensures InstanceOk(cfg, k, InstanceAt(INIT, k)) {
      SpbInvariant.InitKeeps(Spb.Big, k.node, k.view, High(cfg.n));
    }
  }

  lemma InitialNode(cfg: Config, id: NodeId)
    requires cfg.n >= 1
    ensures NodeOk(cfg, id, INIT, {})
  {
    hide InstancesOk; hide SpbInvariant.Inv; hide High; hide Hash; hide HistoryOk; hide CountersOk; hide OwnSentOk;
    InitialInstances(cfg);
    InitialHistory();
    InitialCounters(cfg);
    assert OwnSentOk(id, INIT, {}) by { NothingSent(id); }
  }

  lemma InitialHistory()
    ensures HistoryOk(INIT)
  {
  }

  lemma InitialCounters(cfg: Config)
    ensures CountersOk(cfg, INIT)
  {
    assert High(cfg.n) >= 1;
    hide High; hide HeardFrom;
  }

  lemma NothingSent(id: NodeId)
    ensures OwnSentOk(id, INIT, {})
  {
    hide Backed;
  }

  lemma InitialOk(cfg: Config)
    requires cfg.n >= 1
    ensures SystemOk(cfg, Initial(cfg))
  {
    hide NodeOk;
    forall i | 0 <= i < cfg.n ensures NodeOk(cfg, i, Initial(cfg).nodes[i], {}) {
      InitialNode(cfg, i);
    }
  }

  // ----- One step -----

  lemma NodeOf(cfg: Config, g: System, i: NodeId)
    requires SystemOk(cfg, g) && i < cfg.n
    ensures |g.nodes| == cfg.n && NodeOk(cfg, i, g.nodes[i], g.sent) && SentOk(cfg, g.sent)
  {
    hide NodeOk; hide SentOk; hide NetOk;
  }

  lemma PacketIsNew(cfg: Config, g: System, p: Packet)
    requires SystemOk(cfg, g) && p in g.net
    ensures p.to < cfg.n == |g.nodes| && p.m in g.sent
    ensures !p.m.ElectMsg? ==> g.net[p] == 1 && p.m !in g.nodes[p.to].got
  {
    hide NodeOk; hide SentOk;
  }

  lemma HandleStep(cfg: Config, id: NodeId, nd: Node, sent: set<Msg>, m: Msg, ready: bool)
    requires cfg.n >= 1 && NodeOk(cfg, id, nd, sent) && SentOk(cfg, sent) && nd.started && nd.coin.None?
    requires m in sent && (!m.ElectMsg? ==> m !in nd.got) && cfg.faults <= id < cfg.n
    ensures StepOk(cfg, id, Receive(cfg, id, nd, m, ready).0.(got := nd.got + {m}), sent,
      Receive(cfg, id, nd, m, ready).1)
  {
    hide NodeOk; hide SentOk; hide StepOk;
    var nd' := Receive(cfg, id, nd, m, ready).0.(got := nd.got + {m});
    match m {
      case ProposeMsg(b) =>
        hide OnProposeMsg;
        ProposeStep(cfg, id, nd, nd', sent, b);
        SendsNothing(cfg, id, nd', sent);
      case Voting(v) =>
        hide OnVoteMsg;
        VoteStep(cfg, id, nd, nd', sent, v);
        SendsNothing(cfg, id, nd', sent);
      case SpeedVoting(sv) => hide OnSpeedMsg; SpeedStep(cfg, id, nd, nd', sent, sv);
      case ElectMsg(a, view) =>
        hide OnElectMsg;
        ElectStep(cfg, id, nd, nd', sent, m);
        SendsNothing(cfg, id, nd', sent);
      case ReportMsg(r) => hide OnReportMsg; ReportStep(cfg, id, nd, nd', sent, r, ready);
    }
  }

  lemma EventStep(cfg: Config, g: System, i: NodeId, e: Event)
    requires SystemOk(cfg, g) && CanMove(cfg, g, Local(i, e))
    ensures StepOk(cfg, i, Step(cfg, i, g.nodes[i], e).0, g.sent, Step(cfg, i, g.nodes[i], e).1)
  {
    hide SystemOk; hide NodeOk; hide SentOk; hide StepOk; hide CoinStep; hide RunTask; hide Receive; hide Start;
    NodeOf(cfg, g, i);
    var nd := g.nodes[i];
    match e {
      case Begin(ready) => BeginStep(cfg, i, nd, Start(cfg, i, nd, ready).0, g.sent, ready);
      case Handle(m, ready) =>
        PacketIsNew(cfg, g, Packet(i, m));
        HandleStep(cfg, i, nd, g.sent, m, ready);
      case Settle => SettleStep(cfg, i, nd, CoinStep(i, nd).0, g.sent);
      case Task(k, t, ready) => TaskStep(cfg, i, nd, RunTask(cfg, i, nd, k, t, ready).0, g.sent, k, t, ready);
    }
  }

  /** What a node has handled grows by the message handled. */
  lemma StepGot(cfg: Config, id: NodeId, nd: Node, e: Event)
    requires cfg.n >= 1 && Enabled(nd, e)
    ensures Step(cfg, id, nd, e).0.got == nd.got + (if e.Handle? then {e.m} else {})
  {
    hide Spb.Run; hide Spb.Deliver; hide Spb.Pending; hide Hash; hide InstanceAt; hide High; hide Enqueue;
    hide MakeReport; hide MakeBlock;
    hide Receive;
  }

  lemma OtherNodes(cfg: Config, g: System, i: NodeId, nd': Node, nodes': seq<Node>, sent': set<Msg>, out: Option<Msg>)
    requires SystemOk(cfg, g) && i < cfg.n && StepOk(cfg, i, nd', g.sent, out) && nodes' == g.nodes[i := nd']
    requires sent' == g.sent + (if out.Some? then {out.value} else {})
    ensures SentOk(cfg, sent')
    ensures forall j :: 0 <= j < cfg.n ==> NodeOk(cfg, j, nodes'[j], sent')
  {
    hide NodeOk; hide SentOk; hide SystemOk;
    NodeOf(cfg, g, i);
    if out.None? {
      assert sent' == g.sent;
    }
    forall j | 0 <= j < cfg.n ensures NodeOk(cfg, j, nodes'[j], sent') {
      NodeOf(cfg, g, j);
      if j != i && out.Some? {
        NodeWaits(cfg, j, g.nodes[j], g.sent, out.value);
      }
    }
  }

  lemma NetStep(cfg: Config, g: System, g': System, i: NodeId, e: Event)
    requires |g.nodes| == cfg.n && NetOk(cfg, g) && CanMove(cfg, g, Local(i, e)) && g' == Apply(cfg, g, Local(i, e))
    requires forall j :: 0 <= j < cfg.n ==> g.nodes[j].got <= g.sent
    requires var out := Step(cfg, i, g.nodes[i], e).1; out.Some? && !out.value.ElectMsg? ==> out.value !in g.sent
    ensures NetOk(cfg, g')
  {
    hide Step; hide Enabled;
    StepGot(cfg, i, g.nodes[i], e);
    var (nd, out) := Step(cfg, i, g.nodes[i], e);
    var net := if e.Handle? then g.net - multiset{Packet(i, e.m)} else g.net;
    var h := System(g.nodes[i := nd], g.sent, net);
    HandledNet(cfg, g, h, i, e);
    if out.Some? {
      BroadcastNet(cfg, h, g', out.value);
    }
  }

  /** The packet that was handled is gone and its message is on record. */
  lemma HandledNet(cfg: Config, g: System, h: System, i: NodeId, e: Event)
    requires |g.nodes| == cfg.n && NetOk(cfg, g) && i < cfg.n && (e.Handle? ==> Packet(i, e.m) in g.net)
    requires h.net == (if e.Handle? then g.net - multiset{Packet(i, e.m)} else g.net) && h.sent == g.sent
    requires |h.nodes| == cfg.n
    requires forall j :: 0 <= j < cfg.n && j != i ==> h.nodes[j] == g.nodes[j]
    requires h.nodes[i].got == g.nodes[i].got + (if e.Handle? then {e.m} else {})
    ensures NetOk(cfg, h)
  {
    forall p | p in h.net
      ensures p.to < cfg.n && p.m in h.sent
      ensures !p.m.ElectMsg? ==> h.net[p] == 1 && p.m !in h.nodes[p.to].got
    {
      assert p in g.net;
    }
  }

  /** A message that was not sent before is in no packet and on no record. */
  lemma BroadcastNet(cfg: Config, h: System, g': System, m: Msg)
    requires |h.nodes| == cfg.n && NetOk(cfg, h) && g' == System(h.nodes, h.sent + {m}, h.net + Packets(cfg.n, m))
    requires m.ElectMsg? || (m !in h.sent && forall j :: 0 <= j < cfg.n ==> m !in h.nodes[j].got)
    ensures NetOk(cfg, g')
  {
    forall p | p in g'.net
      ensures p.to < cfg.n && p.m in g'.sent
      ensures !p.m.ElectMsg? ==> g'.net[p] == 1 && p.m !in g'.nodes[p.to].got
    {
    }
  }

  lemma StepKeeps(cfg: Config, g: System, mv: Move, g': System)
    requires SystemOk(cfg, g) && CanMove(cfg, g, mv) && g' == Apply(cfg, g, mv)
    ensures SystemOk(cfg, g')
  {
    match mv
    case Drop(p) => DropKeeps(cfg, g, g', p);
    case Local(i, e) => LocalKeeps(cfg, g, g', i, e);
  }

  lemma DropKeeps(cfg: Config, g: System, g': System, p: Packet)
    requires SystemOk(cfg, g) && p in g.net && g' == g.(net := g.net - multiset{p})
    ensures SystemOk(cfg, g')
  {
    hide NodeOk; hide SentOk;
  }

  lemma LocalKeeps(cfg: Config, g: System, g': System, i: NodeId, e: Event)
    requires SystemOk(cfg, g) && CanMove(cfg, g, Local(i, e)) && g' == Apply(cfg, g, Local(i, e))
    ensures SystemOk(cfg, g')
  {
    hide SystemOk; hide NodeOk; hide SentOk; hide Step; hide Enabled; hide NetOk; hide InstancesOk; hide HistoryOk;
    hide OwnSentOk;
    hide CountersOk; hide CoinOk; hide StoreOk;
    SystemSize(cfg, g);
    EventStep(cfg, g, i, e);
    var (nd', out) := Step(cfg, i, g.nodes[i], e);
    OtherNodes(cfg, g, i, nd', g'.nodes, g'.sent, out);
    forall j | 0 <= j < cfg.n ensures g.nodes[j].got <= g.sent {
      NodeOf(cfg, g, j);
      NodeParts(cfg, j, g.nodes[j], g.sent);
    }
    NetStep(cfg, g, g', i, e);
    SystemAssembled(cfg, g');
  }

  lemma SystemSize(cfg: Config, g: System)
    requires SystemOk(cfg, g)
    ensures cfg.n >= 1 && |g.nodes| == cfg.n && NetOk(cfg, g) && SentOk(cfg, g.sent)
  {
    hide NodeOk; hide SentOk; hide NetOk;
  }

  lemma SystemAssembled(cfg: Config, g: System)
    requires cfg.n >= 1 && |g.nodes| == cfg.n && NetOk(cfg, g) && SentOk(cfg, g.sent)
    requires forall j :: 0 <= j < cfg.n ==> NodeOk(cfg, j, g.nodes[j], g.sent)
    ensures SystemOk(cfg, g)
  {
    hide NodeOk; hide SentOk; hide NetOk;
  }

  /** The invariant of the Big protocol. */
  lemma {:induction false} RunOk(cfg: Config, run: seq<System>, t: nat)
    requires IsRun(cfg, run) && t < |run|
    ensures SystemOk(cfg, run[t])
  {
    hide SystemOk; hide Apply; hide CanMove;
    if t == 0 {
      InitialOk(cfg);
    } else {
      RunOk(cfg, run, t - 1);
      var mv := MoveOf(cfg, run, t - 1);
      StepKeeps(cfg, run[t - 1], mv, run[t]);
    }
  }

  // ----- Single moves of a run -----

  lemma MoveOf(cfg: Config, run: seq<System>, t: nat) returns (mv: Move)
    requires IsRun(cfg, run) && t + 1 < |run|
    ensures CanMove(cfg, run[t], mv) && run[t + 1] == Apply(cfg, run[t], mv)
  {
    assert Next(cfg, run[t], run[t + 1]);
    hide Apply; hide CanMove;
    mv :| CanMove(cfg, run[t], mv) && run[t + 1] == Apply(cfg, run[t], mv);
  }

  /** Only the node that moves changes. */
  lemma MovedNode(cfg: Config, g: System, mv: Move, g': System, i: NodeId)
    requires CanMove(cfg, g, mv) && g' == Apply(cfg, g, mv) && i < |g.nodes| && cfg.n >= 1
    ensures |g'.nodes| == |g.nodes|
    ensures if mv.Local? && mv.i == i then Enabled(g.nodes[i], mv.e) && g'.nodes[i] == Step(cfg, i, g.nodes[i], mv.e).0
      else g'.nodes[i] == g.nodes[i]
  {
    hide Step; hide Enabled;
  }

  /** A message that was not sent before comes from the node that moved. */
  lemma NewMessage(cfg: Config, g: System, mv: Move, g': System, m: Msg)
    requires cfg.n >= 1 && CanMove(cfg, g, mv) && g' == Apply(cfg, g, mv) && m in g'.sent && m !in g.sent
    ensures mv.Local? && Enabled(g.nodes[mv.i], mv.e) && Step(cfg, mv.i, g.nodes[mv.i], mv.e).1 == Some(m)
  {
    hide Step; hide Enabled;
  }

  lemma SentGrowsOne(cfg: Config, g: System, mv: Move, g': System)
    requires CanMove(cfg, g, mv) && g' == Apply(cfg, g, mv)
    ensures g.sent <= g'.sent
  {
    hide Step; hide Enabled;
  }

  lemma {:induction false} SentGrows(cfg: Config, run: seq<System>, s: nat, t: nat)
    requires IsRun(cfg, run) && s <= t < |run|
    ensures run[s].sent <= run[t].sent
  {
    hide IsRun; hide CanMove; hide Apply;
    if s < t {
      SentGrows(cfg, run, s, t - 1);
      var mv := MoveOf(cfg, run, t - 1);
      SentGrowsOne(cfg, run[t - 1], mv, run[t]);
    }
  }

  /** What holds of the messages sent and of the node at one point of a run. */
  lemma RunNode(cfg: Config, run: seq<System>, t: nat, i: NodeId)
    requires IsRun(cfg, run) && t < |run| && i < cfg.n
    ensures cfg.n >= 1 && |run[t].nodes| == cfg.n && SentOk(cfg, run[t].sent)
    ensures NodeOk(cfg, i, run[t].nodes[i], run[t].sent)
  {
    hide SystemOk; hide IsRun; hide SentOk; hide NodeOk;
    RunOk(cfg, run, t);
    SystemSize(cfg, run[t]);
    NodeOf(cfg, run[t], i);
  }

  lemma RunSent(cfg: Config, run: seq<System>, t: nat)
    requires IsRun(cfg, run) && t < |run|
    ensures cfg.n >= 1 && |run[t].nodes| == cfg.n && SentOk(cfg, run[t].sent)
  {
    hide SystemOk; hide IsRun; hide SentOk; hide NetOk;
    RunOk(cfg, run, t);
    SystemSize(cfg, run[t]);
  }
}
