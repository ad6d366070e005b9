/** How many nodes of the lean protocol run, and what they can report. */
module LeanTurnout {
  import opened Blocks
  import opened Quorum
  import opened CommitLog
  import opened LeanSpb
  import opened LeanNode
  import opened LeanSystem
  import opened LeanInvariant
  import opened LeanRuns
  import opened LeanSafety
  import opened LeanRestarts
  import Elector
  import ViewChange

  // ----- A view is left only after a quorum of final votes -----

  ghost predicate Finished(sent: set<Msg>, x: NodeId, view: nat) {
    exists fv :: FinOf(fv) in sent && fv.author == x && fv.view == view
  }

  ghost function Finishers(n: nat, sent: set<Msg>, view: nat): set<NodeId> {
    set x | x in Nodes(n) && Finished(sent, x, view)
  }

  ghost predicate Ripe(cfg: Config, sent: set<Msg>, view: nat) {
    |Finishers(cfg.n, sent, view)| >= High(cfg.n)
  }

  lemma RipeGrows(cfg: Config, sent: set<Msg>, sent': set<Msg>, view: nat)
    requires sent <= sent' && Ripe(cfg, sent, view)
    ensures Ripe(cfg, sent', view)
  {
    hide High; hide Nodes;
    SubsetSize(Finishers(cfg.n, sent, view), Finishers(cfg.n, sent', view));
  }

  /** The view that an election message, a coin or a report is about. */
  function Closing(m: Msg): Option<nat> {
    match m
    case ElectMsg(_, view) => Some(view)
    case CoinMsg(_, _, view) => Some(view)
    case ReportMsg(r) => Some(r.view)
    case _ => None
  }

  /** The final votes a node has counted were sent, and it asks about a leader only in a view that is ripe. */
  ghost predicate NodeRipe(cfg: Config, nd: Node, sent: set<Msg>) {
    && (forall v: nat :: FinVotesAt(nd, v) <= Finishers(cfg.n, sent, v))
    && (nd.coin.Some? ==> Ripe(cfg, sent, nd.coin.value.view))
  }

  ghost predicate SentRipe(cfg: Config, sent: set<Msg>) {
    forall m :: m in sent && Closing(m).Some? ==> Ripe(cfg, sent, Closing(m).value)
  }

  ghost predicate AllRipe(cfg: Config, g: System) {
    && SentRipe(cfg, g.sent)
    && forall i :: 0 <= i < |g.nodes| ==> NodeRipe(cfg, g.nodes[i], g.sent)
  }

  lemma NodeRipeGrows(cfg: Config, nd: Node, sent: set<Msg>, sent': set<Msg>)
    requires sent <= sent' && NodeRipe(cfg, nd, sent)
    ensures NodeRipe(cfg, nd, sent')
  {
    hide Ripe; hide Nodes; hide FinVotesAt;
    if nd.coin.Some? {
      RipeGrows(cfg, sent, sent', nd.coin.value.view);
    }
  }

  lemma FinCounted(cfg: Config, id: NodeId, nd: Node, sent: set<Msg>, fv: FinVote)
    requires NodeRipe(cfg, nd, sent) && FinOf(fv) in sent && fv.author < cfg.n
    ensures var (nd', out) := OnFinMsg(cfg, id, nd, fv);
      NodeRipe(cfg, nd', sent) && (out.Some? ==> out.value.ElectMsg? && Ripe(cfg, sent, out.value.view))
  {
    hide Route; hide High; hide Nodes;
    InNodes(cfg.n, fv.author);
    var authors := FinVotesAt(nd, fv.view) + {fv.author};
    assert Finished(sent, fv.author, fv.view);
    assert authors <= Finishers(cfg.n, sent, fv.view);
    SubsetSize(authors, Finishers(cfg.n, sent, fv.view));
    RouteKeepsRest(nd.(finVotes := nd.finVotes[fv.view := authors]), Key(fv.view, fv.author), Fin(fv));
  }

  lemma RouteKeepsRest(nd: Node, k: Key, d: Delivery)
    ensures Route(nd, k, d) == nd.(instances := Route(nd, k, d).instances)
  {
    hide Deliver; hide InstanceAt;
  }

  lemma SameRipe(cfg: Config, nd: Node, nd': Node, sent: set<Msg>)
    requires NodeRipe(cfg, nd, sent) && nd'.finVotes == nd.finVotes
    requires nd'.coin.Some? ==> Ripe(cfg, sent, nd'.coin.value.view)
    ensures NodeRipe(cfg, nd', sent)
  {
    hide Ripe; hide Finishers;
  }

  lemma HandleRipe(cfg: Config, id: NodeId, nd: Node, sent: set<Msg>, m: Msg, ready: bool)
    requires cfg.n >= 1 && SentOk(cfg, sent) && SentRipe(cfg, sent) && NodeRipe(cfg, nd, sent) && m in sent
    requires nd.coin.None?
    ensures var (nd', out) := Receive(cfg, id, nd, m, ready);
      NodeRipe(cfg, nd', sent) && (out.Some? && Closing(out.value).Some? ==> Ripe(cfg, sent, Closing(out.value).value))
  {
    hide SentOk; hide Ripe; hide NodeRipe; hide Route; hide Hash; hide ViewChange.OnReport; hide MakeBlock;
    hide MsgOk; hide High;
    hide Elector.AddElect;
    var nd' := Receive(cfg, id, nd, m, ready).0;
    match m {
      case ProposeMsg(b) =>
        RouteKeepsRest(nd.(store := nd.store[Hash(b) := b]), Key(b.view, b.author), Proposal(b));
        SameRipe(cfg, nd, nd', sent);
      case VoteOf(v) => RouteKeepsRest(nd, Key(v.view, v.proposer), Vote(v)); SameRipe(cfg, nd, nd', sent);
      case SpeedOf(sv) => RouteKeepsRest(nd, Key(sv.view, sv.proposer), SpeedVote(sv)); SameRipe(cfg, nd, nd', sent);
      case FinOf(fv) =>
        FinFacts(cfg, sent, fv);
        hide OnFinMsg; hide FinOk;
        FinCounted(cfg, id, nd, sent, fv);
      case _ => SameRipe(cfg, nd, nd', sent);
    }
  }

  lemma StepRipe(cfg: Config, id: NodeId, nd: Node, sent: set<Msg>, e: Event)
    requires cfg.n >= 1 && SentOk(cfg, sent) && SentRipe(cfg, sent) && NodeRipe(cfg, nd, sent) && Enabled(nd, e)
    requires e.Handle? ==> e.m in sent
    ensures var (nd', out) := Step(cfg, id, nd, e);
      NodeRipe(cfg, nd', sent) && (out.Some? && Closing(out.value).Some? ==> Ripe(cfg, sent, Closing(out.value).value))
  {
    hide SentOk; hide SentRipe; hide Ripe; hide NodeRipe; hide Receive; hide Pending; hide MakeBlock; hide Run;
    hide High; hide InstanceAt; hide Enqueue; hide LevelOf; hide LevelQc; hide DecCert;
    var nd' := Step(cfg, id, nd, e).0;
    if e.Handle? {
      HandleRipe(cfg, id, nd, sent, e.m, e.ready);
      var nd1 := Receive(cfg, id, nd, e.m, e.ready).0;
      CoinRipe(cfg, nd1, sent);
      SameRipe(cfg, nd1, nd', sent);
    } else {
      assert nd.coin.Some? ==> Ripe(cfg, sent, nd.coin.value.view) by { CoinRipe(cfg, nd, sent); }
      SameRipe(cfg, nd, nd', sent);
    }
  }

  lemma CoinRipe(cfg: Config, nd: Node, sent: set<Msg>)
    requires NodeRipe(cfg, nd, sent)
    ensures nd.coin.Some? ==> Ripe(cfg, sent, nd.coin.value.view)
  {
    hide Ripe; hide Finishers;
  }

  lemma SentRipeAdds(cfg: Config, sent: set<Msg>, m: Msg)
    requires SentRipe(cfg, sent) && (Closing(m).Some? ==> Ripe(cfg, sent, Closing(m).value))
    ensures SentRipe(cfg, sent + {m})
  {
    hide Ripe;
    forall w | w in sent + {m} && Closing(w).Some? ensures Ripe(cfg, sent + {m}, Closing(w).value) {
      RipeGrows(cfg, sent, sent + {m}, Closing(w).value);
    }
  }

  lemma MoveRipe(cfg: Config, g: System, mv: Move, g': System)
    requires SystemOk(cfg, g) && AllRipe(cfg, g) && CanMove(cfg, g, mv) && g' == Apply(cfg, g, mv)
    ensures AllRipe(cfg, g')
  {
    hide SystemOk; hide SentOk; hide NodeRipe; hide SentRipe; hide Step; hide Enabled; hide NetOk; hide Ripe;
    if mv.Local? {
      SystemSize(cfg, g);
      if mv.e.Handle? {
        PacketIsNew(cfg, g, Packet(mv.i, mv.e.m));
      }
      StepRipe(cfg, mv.i, g.nodes[mv.i], g.sent, mv.e);
      var out := Step(cfg, mv.i, g.nodes[mv.i], mv.e).1;
      if out.Some? {
        SentRipeAdds(cfg, g.sent, out.value);
      }
      forall j | 0 <= j < |g'.nodes| ensures NodeRipe(cfg, g'.nodes[j], g'.sent) {
        if j == mv.i {
          NodeRipeGrows(cfg, g'.nodes[j], g.sent, g'.sent);
        } else {
          NodeRipeGrows(cfg, g.nodes[j], g.sent, g'.sent);
        }
      }
    }
  }

  lemma InitialRipe(cfg: Config)
    ensures AllRipe(cfg, Initial(cfg))
  {
    hide Ripe; hide Finishers;
  }

  lemma {:induction false} RunRipe(cfg: Config, run: seq<System>, t: nat)
    requires IsRun(cfg, run) && t < |run|
    ensures AllRipe(cfg, run[t])
  {
    hide AllRipe; hide SystemOk; hide CanMove; hide Apply;
    if t == 0 {
      InitialRipe(cfg);
    } else {
      hide IsRun;
      RunRipe(cfg, run, t - 1);
      RunOk(cfg, run, t - 1);
      var mv := MoveOf(cfg, run, t - 1);
      MoveRipe(cfg, run[t - 1], mv, run[t]);
    }
  }

  /** An election, a coin and a report of a view are only sent when 2f+1 distinct nodes have sent final votes. */
  lemma ViewsEndRipe(cfg: Config, run: seq<System>, t: nat, m: Msg)
    requires IsRun(cfg, run) && t < |run| && m in run[t].sent && Closing(m).Some?
    ensures Ripe(cfg, run[t].sent, Closing(m).value)
  {
    hide IsRun; hide Ripe; hide NodeRipe;
    RunRipe(cfg, run, t);
  }

  // ----- When just a quorum runs -----

  /** The nodes that are not silent are at most a quorum. */
  predicate JustAQuorum(cfg: Config) {
    Turnout(cfg) <= High(cfg.n)
  }

  /** A quorum of running nodes then is all of them. */
  lemma Everyone(cfg: Config, a: set<NodeId>, x: NodeId)
    requires JustAQuorum(cfg) && |a| >= High(cfg.n) && cfg.faults <= x < cfg.n
    requires forall y :: y in a ==> cfg.faults <= y < cfg.n
    ensures x in a
  {
    hide High;
    TurnoutSize(cfg);
    if x !in a {
      SubsetSize(a + {x}, Running(cfg));
    }
  }

  lemma RunningFinishers(cfg: Config, sent: set<Msg>, view: nat, x: NodeId)
    requires cfg.n >= 1 && SentOk(cfg, sent) && Ripe(cfg, sent, view) && JustAQuorum(cfg) && cfg.faults <= x < cfg.n
    ensures Finished(sent, x, view)
  {
    hide SentOk; hide High; hide JustAQuorum; hide Nodes;
    var a := Finishers(cfg.n, sent, view);
    forall y | y in a ensures cfg.faults <= y < cfg.n {
      var fv :| FinOf(fv) in sent && fv.author == y && fv.view == view;
      MsgOf(cfg, sent, FinOf(fv));
    }
    Everyone(cfg, a, x);
  }

  lemma RunningVoters(cfg: Config, sent: set<Msg>, q: BlockQc, x: NodeId)
    requires cfg.n >= 1 && SentOk(cfg, sent) && Certified(cfg, sent, q) && JustAQuorum(cfg)
    requires cfg.faults <= x < cfg.n
    ensures VoteOf(VoteMsg(x, q.proposer, q.hash, q.view, q.height)) in sent
  {
    hide SentOk; hide High; hide JustAQuorum; hide Nodes;
    var a := Voters(cfg.n, sent, q);
    forall y | y in a ensures cfg.faults <= y < cfg.n {
      MsgOf(cfg, sent, VoteOf(VoteMsg(y, q.proposer, q.hash, q.view, q.height)));
    }
    Everyone(cfg, a, x);
  }

  /** At the moment a node reports, the view's leader has its certificate, and the node has voted for it. */
  lemma ReportersVotedFirst(cfg: Config, run: seq<System>, t: nat, r: Report, p: NodeId) returns (q: BlockQc)
    requires IsRun(cfg, run) && t < |run| && ReportMsg(r) in run[t].sent && JustAQuorum(cfg)
    requires LeaderOf(cfg, r.view) == Some(p) && p >= cfg.faults
    ensures q.view == r.view && q.proposer == p && q.height.H2? && SupportedFirst(run, t, r.author, q, false)
  {
    hide IsRun; hide JustAQuorum; hide LeaderOf; hide SentOk; hide AllRipe; hide Certified; hide Finished;
    var u := FirstSent(cfg, run, t, ReportMsg(r));
    RunSent(cfg, run, u);
    var x, sent := r.author, run[u].sent;
    assert cfg.faults <= x < cfg.n && Ripe(cfg, sent, r.view) && NoReport(sent, x, r.view) by {
      ReportIsFirst(cfg, run, u, r);
    }
    assert p < cfg.n by { LeaderIsNode(cfg, r.view); }
    RunningFinishers(cfg, sent, r.view, p);
    q := LeaderCertificate(cfg, sent, r.view, p);
    RunningVoters(cfg, sent, q, x);
    assert Support(x, q, false) in run[u].sent;
  }

  lemma LeaderIsNode(cfg: Config, view: nat)
    requires cfg.n >= 1
    ensures LeaderOf(cfg, view).Some? ==> LeaderOf(cfg, view).value < cfg.n
  {
  }

  lemma LeaderCertificate(cfg: Config, sent: set<Msg>, view: nat, p: NodeId) returns (q: BlockQc)
    requires cfg.n >= 1 && SentOk(cfg, sent) && Finished(sent, p, view)
    ensures Certified(cfg, sent, q) && q.view == view && q.proposer == p && q.height.H2?
  {
    hide SentOk; hide Certified;
    var fv :| FinOf(fv) in sent && fv.author == p && fv.view == view;
    FinFacts(cfg, sent, fv);
    q := fv.qc;
  }

  lemma ReportIsFirst(cfg: Config, run: seq<System>, u: nat, r: Report)
    requires IsRun(cfg, run) && u + 1 < |run| && ReportMsg(r) !in run[u].sent && ReportMsg(r) in run[u + 1].sent
    ensures cfg.faults <= r.author < cfg.n && Ripe(cfg, run[u].sent, r.view) && NoReport(run[u].sent, r.author, r.view)
  {
    hide IsRun; hide SentOk; hide Ripe; hide NodeRipe; hide Apply; hide Step; hide Enabled; hide SentRipe;
    RunSent(cfg, run, u + 1);
    MsgOf(cfg, run[u + 1].sent, ReportMsg(r));
    SentGrows(cfg, run, u, u + 1);
    forall o | ReportMsg(o) in run[u].sent && o.author == r.author ensures o.view != r.view {
      if o.view == r.view {
        OnlyReport(cfg, run[u + 1].sent, o, r);
      }
    }
    RunSent(cfg, run, u);
    var mv := MoveOf(cfg, run, u);
    NewMessage(cfg, run[u], mv, run[u + 1], ReportMsg(r));
    RunRipe(cfg, run, u);
    CoinRipe(cfg, run[u].nodes[mv.i], run[u].sent);
    ReportFromCoin(cfg, mv.i, run[u].nodes[mv.i], mv.e, r);
  }

  lemma ReportFromCoin(cfg: Config, id: NodeId, nd: Node, e: Event, r: Report)
    requires cfg.n >= 1 && Enabled(nd, e) && Step(cfg, id, nd, e).1 == Some(ReportMsg(r))
    ensures nd.coin.Some? && nd.coin.value.view == r.view
  {
    hide LevelOf; hide LevelQc; hide Hash; hide Run; hide High; hide MakeBlock; hide ViewChange.OnReport;
    hide Deliver; hide Elector.AddElect; hide InstanceAt; hide Enqueue; hide Pending; hide DecCert;
    assert e.Settle?;
  }

  /** When just a quorum runs, a view is reported at LEVEL_0 exactly when its leader is silent. */
  lemma LowLevelIffSilent(cfg: Config, run: seq<System>, t: nat, r: Report)
    requires IsRun(cfg, run) && t < |run| && ReportMsg(r) in run[t].sent && JustAQuorum(cfg)
    ensures r.level.Level0? <==> SilentLeader(cfg, r.view)
  {
    hide IsRun; hide JustAQuorum; hide LeaderOf; hide SentOk; hide SupportedFirst;
    RunSent(cfg, run, t);
    MsgOf(cfg, run[t].sent, ReportMsg(r));
    if SilentLeader(cfg, r.view) {
      SilentReports(cfg, run, t, r);
    } else {
      var p := LeaderOf(cfg, r.view).value;
      var q := ReportersVotedFirst(cfg, run, t, r, p);
      FirstSupportersPledge(cfg, run, t, r.author, q, false);
    }
  }

  /** A height-1 block then starts a new chain exactly when the leader of the view before is silent. */
  lemma RestartIffSilent(cfg: Config, run: seq<System>, t: nat, c: Block)
    requires IsRun(cfg, run) && t < |run| && JustAQuorum(cfg)
    requires ProposeMsg(c) in run[t].sent && c.height.H1? && c.view > 0
    ensures c.qc.None? <==> SilentLeader(cfg, c.view - 1)
  {
    hide IsRun; hide JustAQuorum; hide SentOk; hide SilentLeader; hide Reporters; hide High; hide Certified;
    RunSent(cfg, run, t);
    MsgOf(cfg, run[t].sent, ProposeMsg(c));
    var r :| Justifies(cfg, run[t].sent, r, c);
    MsgOf(cfg, run[t].sent, ReportMsg(r));
    LowLevelIffSilent(cfg, run, t, r);
    if SilentLeader(cfg, c.view - 1) {
      SilentReports(cfg, run, t, r);
    }
  }

  /** Every certificate of a leader is in time. */
  lemma VotersArePrompt(cfg: Config, run: seq<System>, t: nat, q: BlockQc)
    requires IsRun(cfg, run) && t < |run| && JustAQuorum(cfg) && q.height.H2?
    requires LeaderOf(cfg, q.view) == Some(q.proposer) && Certified(cfg, run[t].sent, q)
    ensures AllPrompt(cfg, run, t, q)
  {
    hide IsRun; hide JustAQuorum; hide SentOk; hide LeaderOf; hide High; hide Nodes; hide Voters;
    RunSent(cfg, run, t);
    var sent := run[t].sent;
    forall x | x in Voters(cfg.n, sent, q) ensures SupportedFirst(run, t, x, q, false) {
      VoteOfVoter(cfg.n, sent, q, x);
      if r :| ReportMsg(r) in sent && r.author == x && r.view == q.view {
        var b :| Names(sent, q, b);
        MsgOf(cfg, sent, ProposeMsg(b));
        var o := ReportersVotedFirst(cfg, run, t, r, q.proposer);
        SameCertificate(cfg, run, t, x, o, q);
      } else {
        assert NoReport(sent, x, q.view);
      }
    }
  }

  lemma VoteOfVoter(n: nat, sent: set<Msg>, q: BlockQc, x: NodeId)
    ensures x in Voters(n, sent, q) ==> Support(x, q, false) in sent
  {
  }

  lemma SameCertificate(cfg: Config, run: seq<System>, t: nat, x: NodeId, o: BlockQc, q: BlockQc)
    requires IsRun(cfg, run) && t < |run| && SupportedFirst(run, t, x, o, false) && Support(x, q, false) in run[t].sent
    requires o.proposer == q.proposer && o.view == q.view && o.height == q.height
    ensures o == q
  {
    hide IsRun; hide SentOk; hide NoReport;
    var s :| 0 <= s <= t < |run| && Support(x, o, false) in run[s].sent && NoReport(run[s].sent, x, o.view);
    SentGrows(cfg, run, s, t);
    RunSent(cfg, run, t);
    VotesAgree(cfg, run[t].sent, Support(x, o, false).v, Support(x, q, false).v);
  }

  /** A leader's certificate is then enough: all blocks of all later views extend the leader's block if and only if
      none of them follows a view whose coin elects a silent node. */
  lemma CertificateExtendsIffHeard(cfg: Config, run: seq<System>, t: nat, q: BlockQc, b: Block, top: nat)
    requires IsRun(cfg, run) && t < |run| && JustAQuorum(cfg)
    requires q.height.H2? && LeaderOf(cfg, q.view) == Some(q.proposer) && Certified(cfg, run[t].sent, q)
    requires Leading(run[t].sent, q, false, b)
    ensures AllExtend(run[t].sent, q.view, top, b) <==>
      forall c :: ProposeMsg(c) in run[t].sent && c.height.H1? && q.view < c.view <= top ==>
        !SilentLeader(cfg, c.view - 1)
  {
    assert cfg.n >= 1;
    hide IsRun; hide JustAQuorum; hide LeaderOf; hide Certified; hide AllPrompt; hide InTime; hide Leading;
    hide AllExtend; hide SilentLeader;
    VotersArePrompt(cfg, run, t, q);
    CertificateIsInTime(cfg, run, t, q);
    UnbrokenExtends(cfg, run, t, q, false, b, top);
    forall c | ProposeMsg(c) in run[t].sent && c.height.H1? && q.view < c.view <= top
      ensures c.qc.None? <==> SilentLeader(cfg, c.view - 1)
    {
      RestartIffSilent(cfg, run, t, c);
    }
  }
}
