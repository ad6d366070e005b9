/** Runs of the lean protocol in which nodes vote for a leader after they have reported on its view. */
module LeanLateVotes {
  import opened Blocks
  import opened Quorum
  import opened LeanSpb
  import opened LeanNode
  import opened LeanSystem
  import opened LeanInvariant
  import opened LeanRuns
  import opened LeanTheorems
  import opened LeanSafety
  import opened LeanTurnout
  import opened LeanSchedules
  import opened LeanViews
  import opened LeanReports
  import opened LeanPasses

  // ----- Quorums of reports -----

  lemma ManyReports(cfg: Config, g: System, sent: set<Msg>, w: seq<NodeId>, level: Level, nil: bool)
    requires Quorate(cfg, w) && g.sent <= sent && forall x :: x in w ==> Filed(cfg, g, x, 0, level, nil)
    ensures |Reporters(cfg.n, sent, 0, level)| >= High(cfg.n)
  {
    hide High; hide Nodes;
    forall x | x in Members(w) ensures x in Reporters(cfg.n, sent, 0, level) {
      InNodes(cfg.n, x);
      FiledReported(cfg, g, sent, x, level, nil);
    }
    DistinctSize(w);
    SubsetSize(Members(w), Reporters(cfg.n, sent, 0, level));
  }

  lemma FiledReported(cfg: Config, g: System, sent: set<Msg>, x: NodeId, level: Level, nil: bool)
    requires Filed(cfg, g, x, 0, level, nil) && g.sent <= sent
    ensures Reported(sent, x, 0, level)
  {
    var r :| OnItsWay(cfg, g, ReportMsg(r)) && Reads(r, x, 0, level, nil);
    assert ReportMsg(r) in sent;
  }

  lemma CertifiedFinally(cfg: Config, run: seq<System>, t: nat, p: NodeId, q: BlockQc)
    requires IsRun(cfg, run) && t < |run| && FinOf(FinVote(p, 0, q)) in run[t].sent
    ensures Certified(cfg, run[t].sent, q) && q.height.H2? && q.view == 0 && q.proposer == p
  {
    hide IsRun; hide SentOk; hide Certified;
    RunSent(cfg, run, t);
    FinFacts(cfg, run[t].sent, FinVote(p, 0, q));
  }

  // ----- Late votes -----

  /** The leader of a view has a height-2 certificate. */
  ghost predicate Leads(cfg: Config, run: seq<System>, t: nat, q: BlockQc)
    requires cfg.n >= 1
  {
    && IsRun(cfg, run) && t < |run| && Certified(cfg, run[t].sent, q) && q.height.H2?
    && LeaderOf(cfg, q.view) == Some(q.proposer)
  }

  /** A leader's height-2 certificate beside a quorum of LEVEL_0 reports: when more than a quorum of nodes run, the
      others can leave the view before they vote for the leader. */
  lemma LateVotes(cfg: Config, p: NodeId) returns (run: seq<System>, q: BlockQc)
    requires cfg.n >= 1 && !JustAQuorum(cfg) && LeaderOf(cfg, 0) == Some(p) && p >= cfg.faults
    ensures |run| >= 1 && Leads(cfg, run, |run| - 1, q) && q.view == 0
    ensures |Reporters(cfg.n, run[|run| - 1].sent, 0, Level0)| >= High(cfg.n)
  {
    LeaderIsNode(cfg, 0);
    hide Reached; hide High; hide Awake; hide FaceAt; hide LeaderOf; hide Unused; hide Knows; hide Filed;
    hide Certified; hide Aside; hide Reporters; hide IsRun; hide Ahead; hide Proposed; hide OnItsWay; hide Called;
    hide Undecided;
    var w := QuorumWithout(cfg.n, cfg.faults, p);
    var g0 := Beginning(cfg);
    var g, _ := LeaveView(cfg, [], g0, 0, w, p);
    var g', o := BroadcastOf(cfg, [], g, 0, p, w);
    q := o;
    run := Pin(cfg, [], g');
    Arrived(cfg, g', FinOf(FinVote(p, 0, q)));
    CertifiedFinally(cfg, run, |run| - 1, p, q);
    AsideSent(g, g', {Key(0, p)});
    ManyReports(cfg, g, g'.sent, w, Level0, true);
  }

  /** All running nodes are in view 0. */
  lemma Beginning(cfg: Config) returns (g: System)
    requires cfg.n >= 1 && cfg.faults <= cfg.n
    ensures Entered(cfg, [], g, 0, false)
  {
    hide Entered;
    g := Opening(cfg);
    EnteredAnyway(cfg, [], g, 0);
  }

  /** In every run a leader's height-2 certificate excludes a quorum of LEVEL_0 reports. */
  ghost predicate CertificatesExclude(cfg: Config)
    requires cfg.n >= 1
  {
    forall run: seq<System>, t: nat, q: BlockQc ::
      Leads(cfg, run, t, q) ==> |Reporters(cfg.n, run[t].sent, q.view, Level0)| < High(cfg.n)
  }

  /** It does if and only if no more than 2f+1 nodes run, provided that the first leader is one of them. */
  lemma CertificatesExcludeIff(cfg: Config, p: NodeId)
    requires cfg.n >= 1 && LeaderOf(cfg, 0) == Some(p) && p >= cfg.faults
    ensures CertificatesExclude(cfg) <==> JustAQuorum(cfg)
  {
    hide IsRun; hide LeaderOf; hide JustAQuorum; hide High; hide Certified; hide Reporters;
    if JustAQuorum(cfg) {
      forall run: seq<System>, t: nat, q: BlockQc | Leads(cfg, run, t, q)
        ensures |Reporters(cfg.n, run[t].sent, q.view, Level0)| < High(cfg.n)
      {
        NoLowReports(cfg, run, t, q);
      }
    } else {
      var run, q := LateVotes(cfg, p);
      assert Leads(cfg, run, |run| - 1, q);
    }
  }

  lemma NoLowReports(cfg: Config, run: seq<System>, t: nat, q: BlockQc)
    requires IsRun(cfg, run) && t < |run| && Certified(cfg, run[t].sent, q) && JustAQuorum(cfg)
    requires LeaderOf(cfg, q.view) == Some(q.proposer)
    ensures |Reporters(cfg.n, run[t].sent, q.view, Level0)| < High(cfg.n)
  {
    assert High(cfg.n) >= 1;
    hide IsRun; hide LeaderOf; hide JustAQuorum; hide High; hide SentOk; hide Nodes;
    RunSent(cfg, run, t);
    var b :| Names(run[t].sent, q, b);
    MsgOf(cfg, run[t].sent, ProposeMsg(b));
    forall x | x in Nodes(cfg.n) ensures !Reported(run[t].sent, x, q.view, Level0) {
      if r :| ReportMsg(r) in run[t].sent && r.author == x && r.view == q.view && r.level == Level0 {
        LowLevelIffSilent(cfg, run, t, r);
      }
    }
    assert Reporters(cfg.n, run[t].sent, q.view, Level0) == {};
  }

  // ----- Late speed votes -----

  /** A final vote passes through the sections of an instance. */
  lemma SpeedPassage(x: Instance, fv: FinVote, high: nat) returns (x1: Instance, x2: Instance)
    requires fv in x.end.onFin && fv.author == x.proposer && fv.view == x.view && x.hi.hash == fv.qc.hash
    ensures Pending(x, OnFin(fv)) && x1 == Run(x, high, OnFin(fv))
    ensures Pending(x1, SendSpeed(fv)) && x2 == Run(x1, high, SendSpeed(fv))
  {
    x1 := Run(x, high, OnFin(fv));
    x2 := Run(x1, high, SendSpeed(fv));
  }

  /** A node looks at the final vote and answers with a speed vote. */
  lemma DoSpeed(cfg: Config, past: seq<System>, g: System, x: NodeId, p: NodeId, q: BlockQc) returns (g': System)
    requires Idle(cfg, past, g, 0) && Runs(cfg, x) && q.proposer == p && q.view == 0
    requires Waiting(g.nodes[x], Key(0, p), FinVote(p, 0, q)) && Knows(FaceAt(g, x, Key(0, p)), q)
    ensures Idle(cfg, past, g', 0) && Moved(g, g', [x]) && g.sent <= g'.sent
    ensures SpeedOf(SpeedVoteFor(x, q)) in g'.sent
  {
    hide Reached; hide Run; hide High; hide NodeAside; hide Awake; hide Pending;
    var k, fv := Key(0, p), FinVote(p, 0, q);
    var x1, x2 := SpeedPassage(InstanceAt(g.nodes[x], k), fv, High(cfg.n));
    hide InstanceAt; hide FaceOf;
    var h := Work(cfg, past, g, x, k, OnFin(fv));
    g' := Work(cfg, past, h, x, k, SendSpeed(fv));
  }

  lemma {:induction false} SpeedAll(cfg: Config, past: seq<System>, g: System, xs: seq<NodeId>, p: NodeId, q: BlockQc)
    returns (g': System)
    requires Idle(cfg, past, g, 0) && Distinct(xs) && q.proposer == p && q.view == 0
    requires forall x :: x in xs ==> Runs(cfg, x) && Waiting(g.nodes[x], Key(0, p), FinVote(p, 0, q))
    requires forall x :: x in xs ==> Knows(FaceAt(g, x, Key(0, p)), q)
    ensures Reached(cfg, past, g') && g.sent <= g'.sent
    ensures forall x :: x in xs ==> SpeedOf(SpeedVoteFor(x, q)) in g'.sent
    decreases |xs|
  {
    hide Reached; hide Awake; hide Waiting; hide Knows; hide FaceOf;
    if xs == [] {
      g' := g;
    } else {
      var x, rest := xs[0], xs[1..];
      assert x in xs;
      var h := DoSpeed(cfg, past, g, x, p, q);
      forall y | y in rest
        ensures Runs(cfg, y) && Waiting(h.nodes[y], Key(0, p), FinVote(p, 0, q)) && Knows(FaceAt(h, y, Key(0, p)), q)
      {
        assert y in xs && y != x;
      }
      g' := SpeedAll(cfg, past, h, rest, p, q);
    }
  }

  /** A leader's speed certificate beside a quorum of LEVEL_1 reports: a quorum can leave the view before it looks at
      the leader's final vote. */
  lemma LateSpeedVotes(cfg: Config, p: NodeId) returns (run: seq<System>, q: BlockQc)
    requires cfg.n >= 1 && Turnout(cfg) >= High(cfg.n) && LeaderOf(cfg, 0) == Some(p) && p >= cfg.faults
    ensures |run| >= 1 && Leads(cfg, run, |run| - 1, q) && q.view == 0
    ensures SpeedCertified(cfg, run[|run| - 1].sent, q)
    ensures |Reporters(cfg.n, run[|run| - 1].sent, 0, Level1)| >= High(cfg.n)
  {
    LeaderIsNode(cfg, 0);
    hide Reached; hide High; hide Awake; hide FaceAt; hide LeaderOf; hide Knows; hide Filed; hide Ahead; hide Called;
    hide Certified; hide Reporters; hide Waiting; hide IsRun; hide Undecided; hide Entered;
    var w := QuorumWith(cfg, p);
    assert Distinct(w) && forall x :: x in w ==> Runs(cfg, x);
    hide Quorate;
    var g0 := Beginning(cfg);
    var g, o := LeaveView(cfg, [], g0, 0, w, p);
    q := o;
    var g' := SpeedAll(cfg, [], g, w, p, q);
    run := Pin(cfg, [], g');
    CertifiedFinally(cfg, run, |run| - 1, p, q);
    ManyReports(cfg, g, g'.sent, w, Level1, false);
    ManySpeedVoters(cfg, g'.sent, w, q);
  }

  lemma ManySpeedVoters(cfg: Config, sent: set<Msg>, w: seq<NodeId>, q: BlockQc)
    requires Quorate(cfg, w) && forall x :: x in w ==> SpeedOf(SpeedVoteFor(x, q)) in sent
    ensures |SpeedVoters(cfg.n, sent, q)| >= High(cfg.n)
  {
    hide High; hide Nodes;
    forall x | x in Members(w) ensures x in SpeedVoters(cfg.n, sent, q) {
      InNodes(cfg.n, x);
    }
    DistinctSize(w);
    SubsetSize(Members(w), SpeedVoters(cfg.n, sent, q));
  }

  /** In every run a leader's speed certificate excludes a quorum of LEVEL_1 reports. */
  ghost predicate SpeedCertificatesExclude(cfg: Config)
    requires cfg.n >= 1
  {
    forall run: seq<System>, t: nat, q: BlockQc ::
      Leads(cfg, run, t, q) && SpeedCertified(cfg, run[t].sent, q) ==>
        |Reporters(cfg.n, run[t].sent, q.view, Level1)| < High(cfg.n)
  }

  /** It does only where there are no certificates at all, because fewer than 2f+1 nodes run. */
  lemma SpeedCertificatesExcludeIff(cfg: Config, p: NodeId)
    requires cfg.n >= 1 && LeaderOf(cfg, 0) == Some(p) && p >= cfg.faults
    ensures SpeedCertificatesExclude(cfg) <==> Turnout(cfg) < High(cfg.n)
  {
    hide IsRun; hide LeaderOf; hide High; hide Certified; hide Reporters; hide SpeedCertified; hide Turnout;
    if Turnout(cfg) < High(cfg.n) {
      forall run: seq<System>, t: nat, q: BlockQc | Leads(cfg, run, t, q) && SpeedCertified(cfg, run[t].sent, q)
        ensures |Reporters(cfg.n, run[t].sent, q.view, Level1)| < High(cfg.n)
      {
        ReportersRun(cfg, run, t, q.view, Level1);
        TurnoutSize(cfg);
        SubsetSize(Reporters(cfg.n, run[t].sent, q.view, Level1), Running(cfg));
      }
    } else {
      var run, q := LateSpeedVotes(cfg, p);
      assert SpeedCertified(cfg, run[|run| - 1].sent, q);
    }
  }
}
