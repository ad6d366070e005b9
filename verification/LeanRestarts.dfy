/** When the chain of the lean protocol starts anew: a view change on a report without a certificate. */
module LeanRestarts {
  import opened Blocks
  import opened Quorum
  import opened CommitLog
  import opened LeanSpb
  import opened ViewChange
  import opened LeanNode
  import opened LeanSystem
  import opened LeanInvariant
  import opened LeanSteps
  import opened LeanRuns
  import opened LeanTheorems
  import opened LeanSafety
  import Elector

  // ----- Where a height-1 block comes from -----

  lemma {:induction false} FirstSent(cfg: Config, run: seq<System>, t: nat, m: Msg) returns (u: nat)
    requires IsRun(cfg, run) && t < |run| && m in run[t].sent
    ensures u < t && m !in run[u].sent && m in run[u + 1].sent
  {
    hide IsRun;
    NothingAtFirst(cfg, run);
    if m in run[t - 1].sent {
      u := FirstSent(cfg, run, t - 1, m);
    } else {
      u := t - 1;
    }
  }

  lemma NothingAtFirst(cfg: Config, run: seq<System>)
    requires IsRun(cfg, run)
    ensures |run| >= 1 && run[0].sent == {}
  {
    hide Next;
  }

  /** A height-1 block after the first one is proposed exactly on a completing report, whose certificate it
      carries. */
  lemma FirstOrigin(cfg: Config, id: NodeId, nd: Node, e: Event, c: Block)
    requires cfg.n >= 1 && Enabled(nd, e) && AllOpen(nd.progress, High(cfg.n)) && (!nd.started ==> nd == INIT)
    requires Step(cfg, id, nd, e).1 == Some(ProposeMsg(c)) && c.height.H1? && c.view > 0
    ensures e.Handle? && e.m.ReportMsg? && Completing(cfg, nd.progress, e.m.r) && e.m.r.view + 1 == c.view
    ensures e.m.r.qc == c.qc
  {
    assert High(cfg.n) >= 1;
    hide Run; hide Hash; hide Deliver; hide Elector.AddElect; hide OnReport; hide High; hide InstanceAt; hide Enqueue;
    hide MakeReport; hide Pending; hide AllOpen; hide Reached; hide DecCert;
    assert e.Handle? && e.m.ReportMsg?;
    var r := e.m.r;
    var o := OnReport(nd.progress, High(cfg.n), true, r.view, r.level);
    ReportAdvances(nd.progress, High(cfg.n), true, r.view, r.level, o.0, o.1);
  }

  lemma CompletingProposes(cfg: Config, id: NodeId, nd: Node, r: Report, ready: bool)
    requires cfg.n >= 1 && Enabled(nd, Handle(ReportMsg(r), ready)) && AllOpen(nd.progress, High(cfg.n))
    requires Completing(cfg, nd.progress, r)
    ensures var out := Step(cfg, id, nd, Handle(ReportMsg(r), ready)).1;
      out.Some? && out.value.ProposeMsg? && out.value.b.height.H1? && out.value.b.view == r.view + 1 &&
        out.value.b.qc == r.qc
  {
    assert High(cfg.n) >= 1;
    hide OnReport; hide High; hide AllOpen; hide Reached;
    var o := OnReport(nd.progress, High(cfg.n), true, r.view, r.level);
    ReportAdvances(nd.progress, High(cfg.n), true, r.view, r.level, o.0, o.1);
  }

  // ----- The exact condition -----

  /** Step `u` handles a report without a certificate that completes a level of a view from `view` on and before
      `top`. */
  ghost predicate Restarts(cfg: Config, run: seq<System>, u: nat, view: nat, top: nat) {
    u + 1 < |run| && RestartsAt(cfg, run[u], run[u + 1], view, top)
  }

  ghost predicate RestartsAt(cfg: Config, g: System, g': System, view: nat, top: nat) {
    exists i: NodeId, r: Report, ready: bool :: RestartsWith(cfg, g, g', i, r, ready) && view <= r.view < top
  }

  ghost predicate RestartsWith(cfg: Config, g: System, g': System, i: NodeId, r: Report, ready: bool) {
    var mv := Local(i, Handle(ReportMsg(r), ready));
    && CanMove(cfg, g, mv) && g' == Apply(cfg, g, mv)
    && r.qc.None? && Completing(cfg, g.nodes[i].progress, r)
  }

  /** What is known of a node that takes part in a step of a run. */
  lemma NodeAt(cfg: Config, run: seq<System>, u: nat, i: NodeId)
    requires IsRun(cfg, run) && u < |run| && i < cfg.n
    ensures cfg.n >= 1 && |run[u].nodes| == cfg.n && AllOpen(run[u].nodes[i].progress, High(cfg.n))
    ensures !run[u].nodes[i].started ==> run[u].nodes[i] == INIT
  {
    hide IsRun; hide NodeOk; hide SentOk; hide InstancesOk; hide HistoryOk; hide OwnSentOk; hide CoinOk; hide StoreOk;
    hide AllOpen;
    hide HeardFrom;
    RunNode(cfg, run, u, i);
    NodeParts(cfg, i, run[u].nodes[i], run[u].sent);
  }

  lemma RestartProposes(cfg: Config, run: seq<System>, u: nat, t: nat, view: nat, top: nat) returns (c: Block)
    requires IsRun(cfg, run) && u < t < |run| && Restarts(cfg, run, u, view, top)
    ensures ProposeMsg(c) in run[t].sent && c.height.H1? && view < c.view <= top && c.qc.None?
  {
    hide IsRun; hide AllOpen; hide Step; hide Completing; hide Enabled;
    var i: NodeId, r: Report, ready: bool :| RestartsWith(cfg, run[u], run[u + 1], i, r, ready) && view <= r.view < top;
    NodeAt(cfg, run, u, i);
    CompletingProposes(cfg, i, run[u].nodes[i], r, ready);
    c := Step(cfg, i, run[u].nodes[i], Handle(ReportMsg(r), ready)).1.value.b;
    SentGrows(cfg, run, u + 1, t);
  }

  lemma NilBlockRestarts(cfg: Config, run: seq<System>, t: nat, view: nat, top: nat, c: Block) returns (u: nat)
    requires IsRun(cfg, run) && t < |run| && ProposeMsg(c) in run[t].sent && c.height.H1? && view < c.view <= top
    requires c.qc.None?
    ensures u < t && Restarts(cfg, run, u, view, top)
  {
    hide IsRun; hide AllOpen; hide Step; hide Completing; hide Enabled;
    u := FirstSent(cfg, run, t, ProposeMsg(c));
    var mv := MoveOf(cfg, run, u);
    RunSent(cfg, run, u);
    NewMessage(cfg, run[u], mv, run[u + 1], ProposeMsg(c));
    NodeAt(cfg, run, u, mv.i);
    FirstOrigin(cfg, mv.i, run[u].nodes[mv.i], mv.e, c);
    assert RestartsWith(cfg, run[u], run[u + 1], mv.i, mv.e.m.r, mv.e.ready);
  }

  /** After votes (or speed votes) in time for the leader's height-2 certificate, all blocks of the later views up
      to any view `top` extend the leader's block if and only if no node has gone to one of these views on a report
      without a certificate. */
  lemma LaterViewsExtendLeaderIff(cfg: Config, run: seq<System>, t: nat, q: BlockQc, speed: bool, b: Block, top: nat)
    requires IsRun(cfg, run) && InTime(cfg, run, t, q, speed) && Leading(run[t].sent, q, speed, b)
    ensures AllExtend(run[t].sent, q.view, top, b) <==> forall u :: 0 <= u < t ==> !Restarts(cfg, run, u, q.view, top)
  {
    assert t < |run|;
    hide IsRun; hide InTime; hide AllExtend; hide Restarts; hide Leading;
    UnbrokenExtends(cfg, run, t, q, speed, b, top);
    if u :| 0 <= u < t && Restarts(cfg, run, u, q.view, top) {
      var c := RestartProposes(cfg, run, u, t, q.view, top);
      assert !Unbroken(run[t].sent, q.view, top);
    } else if !Unbroken(run[t].sent, q.view, top) {
      var c :| ProposeMsg(c) in run[t].sent && c.height.H1? && q.view < c.view <= top && c.qc.None?;
      var u := NilBlockRestarts(cfg, run, t, q.view, top, c);
    }
  }

  // ----- The reports behind a restart -----

  /** A quorum reported LEVEL_0 on view `w`, one of them without a certificate. */
  ghost predicate NilQuorum(cfg: Config, sent: set<Msg>, w: nat) {
    && |Reporters(cfg.n, sent, w, Level0)| >= High(cfg.n)
    && exists r :: ReportMsg(r) in sent && r.view == w && r.level.Level0? && r.qc.None?
  }

  /** Without such a quorum on a later view the chain goes on. */
  lemma NoNilQuorumExtends(cfg: Config, run: seq<System>, t: nat, q: BlockQc, speed: bool, b: Block, top: nat)
    requires IsRun(cfg, run) && InTime(cfg, run, t, q, speed) && Leading(run[t].sent, q, speed, b)
    requires forall w: nat :: q.view < w < top ==> !NilQuorum(cfg, run[t].sent, w)
    ensures AllExtend(run[t].sent, q.view, top, b)
  {
    assert t < |run|;
    hide IsRun; hide InTime; hide AllExtend; hide Leading; hide NilQuorum; hide SentOk;
    RunSent(cfg, run, t);
    UnbrokenExtends(cfg, run, t, q, speed, b, top);
    forall c | ProposeMsg(c) in run[t].sent && c.height.H1? && q.view < c.view <= top ensures c.qc.Some? {
      if c.view == q.view + 1 {
        NextViewCarriesLeader(cfg, run, t, q, speed, c);
      } else {
        NilBlockHasQuorum(cfg, run[t].sent, c);
      }
    }
  }

  lemma NilBlockHasQuorum(cfg: Config, sent: set<Msg>, c: Block)
    requires cfg.n >= 1 && SentOk(cfg, sent) && ProposeMsg(c) in sent && c.height.H1? && c.view > 0
    ensures c.qc.None? ==> NilQuorum(cfg, sent, c.view - 1)
  {
    hide SentOk; hide Reporters; hide High; hide LeaderOf; hide Certified; hide Started;
    MsgOf(cfg, sent, ProposeMsg(c));
    var r :| Justifies(cfg, sent, r, c);
    MsgOf(cfg, sent, ReportMsg(r));
  }

  // ----- Silent leaders -----

  /** The coin of the view elects a node that stays silent. */
  ghost predicate SilentLeader(cfg: Config, view: nat)
    requires cfg.n >= 1
  {
    LeaderOf(cfg, view).Some? && LeaderOf(cfg, view).value < cfg.faults
  }

  /** A view whose leader is silent is reported on at LEVEL_0 without a certificate by everyone. */
  lemma SilentReports(cfg: Config, run: seq<System>, t: nat, r: Report)
    requires IsRun(cfg, run) && t < |run| && ReportMsg(r) in run[t].sent && SilentLeader(cfg, r.view)
    ensures r.level.Level0? && r.qc.None?
  {
    hide IsRun; hide SentOk; hide LeaderOf; hide Hash;
    RunSent(cfg, run, t);
    var sent := run[t].sent;
    var p := LeaderOf(cfg, r.view).value;
    MsgOf(cfg, sent, ReportMsg(r));
    forall b | ProposeMsg(b) in sent ensures b.author != p {
      MsgOf(cfg, sent, ProposeMsg(b));
    }
  }

  /** Every height-1 block of the view after one with a silent leader starts a new chain. */
  lemma SilentLeaderRestarts(cfg: Config, run: seq<System>, t: nat, c: Block)
    requires IsRun(cfg, run) && t < |run| && ProposeMsg(c) in run[t].sent && c.height.H1? && c.view > 0
    requires SilentLeader(cfg, c.view - 1)
    ensures c.qc.None?
  {
    hide IsRun; hide SentOk; hide SilentLeader; hide Reporters; hide High;
    RunSent(cfg, run, t);
    MsgOf(cfg, run[t].sent, ProposeMsg(c));
    var r :| Justifies(cfg, run[t].sent, r, c);
    SilentReports(cfg, run, t, r);
  }

  // ----- No chain crosses a restart -----

  /** All height-1 blocks of the view start new chains. */
  ghost predicate AllNil(sent: set<Msg>, view: nat) {
    forall c :: ProposeMsg(c) in sent && c.height.H1? && c.view == view ==> c.qc.None?
  }

  /** Certificates of later blocks do not reach below such a view: a report of LEVEL_0 hands on what a height-1
      block of its own view carried. */
  lemma {:induction false} QcStaysAbove(cfg: Config, sent: set<Msg>, view: nat, c: Block)
    requires cfg.n >= 1 && SentOk(cfg, sent) && AllNil(sent, view + 1)
    requires ProposeMsg(c) in sent && c.view > view && c.qc.Some?
    ensures c.qc.value.view > view
    decreases c.view
  {
    hide SentOk; hide Certified; hide Reporters; hide High; hide LeaderOf;
    MsgOf(cfg, sent, ProposeMsg(c));
    if c.height.H1? {
      var r :| Justifies(cfg, sent, r, c);
      MsgOf(cfg, sent, ReportMsg(r));
      if r.level.Level0? {
        var b :| ProposeMsg(b) in sent && b.author == LeaderOf(cfg, r.view).value && b.view == r.view && b.height.H1? &&
          b.qc == r.qc;
        QcStaysAbove(cfg, sent, view, b);
      }
    }
  }

  lemma {:induction false} NilViewBreaksChain(cfg: Config, sent: set<Msg>, view: nat, b: Block, c: Block)
    requires cfg.n >= 1 && SentOk(cfg, sent) && AllNil(sent, view + 1)
    requires ProposeMsg(c) in sent && b.view <= view < c.view
    ensures !Extends(sent, c, b)
    decreases LayerOf(c)
  {
    hide SentOk; hide AllNil; hide Hash;
    if c.qc.Some? {
      QcStaysAbove(cfg, sent, view, c);
      forall a | Names(sent, c.qc.value, a) && LayerOf(a) < LayerOf(c) ensures !Extends(sent, a, b) {
        NilViewBreaksChain(cfg, sent, view, b, a);
      }
    }
  }

  /** So no block after a view with a silent leader extends any block up to that view. */
  lemma SilentLeaderBreaksChain(cfg: Config, run: seq<System>, t: nat, view: nat, b: Block, c: Block)
    requires IsRun(cfg, run) && t < |run| && SilentLeader(cfg, view)
    requires b.view <= view < c.view && ProposeMsg(c) in run[t].sent
    ensures !Extends(run[t].sent, c, b) && !AllExtend(run[t].sent, b.view, c.view, b)
  {
    hide IsRun; hide SilentLeader; hide SentOk;
    RunSent(cfg, run, t);
    forall a | ProposeMsg(a) in run[t].sent && a.height.H1? && a.view == view + 1 ensures a.qc.None? {
      SilentLeaderRestarts(cfg, run, t, a);
    }
    NilViewBreaksChain(cfg, run[t].sent, view, b, c);
    hide Extends;
  }
}
