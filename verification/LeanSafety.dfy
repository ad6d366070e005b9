/** Certificates exclude each other's absence, and later views build on a certified leader. */
module LeanSafety {
  import opened Blocks
  import opened Quorum
  import opened CommitLog
  import opened LeanSpb
  import opened LeanConservation
  import opened ViewChange
  import opened LeanNode
  import opened LeanSystem
  import opened LeanInvariant
  import opened LeanSteps
  import opened LeanEvents
  import opened LeanRuns
  import opened LeanTheorems
  import Elector

  // ----- What a node reports after it has voted -----

  predicate Recorded(x: Instance, speed: bool) {
    x.lo.qc.Some? && (speed ==> x.hi.qc.Some?)
  }

  predicate Meets(level: Level, speed: bool) {
    level != Level0 && (speed ==> level == Level2)
  }

  /** A report by `x` on this view says at least what `x` had recorded about the leader `p`. */
  ghost predicate Pledged(g: System, x: NodeId, view: nat, p: NodeId, speed: bool) {
    && x < |g.nodes|
    && Recorded(InstanceAt(g.nodes[x], Key(view, p)), speed)
    && forall r :: ReportMsg(r) in g.sent && r.author == x && r.view == view ==> Meets(r.level, speed)
  }

  lemma RecordedMeets(x: Instance, speed: bool)
    requires Recorded(x, speed)
    ensures Meets(LevelOf(x), speed)
  {
  }

  lemma StillRecorded(x: Instance, y: Instance, speed: bool)
    requires Recorded(x, speed) && Grows(x, y)
    ensures Recorded(y, speed)
  {
  }

  /** A report tells the level and the certificate of the instance of the view's leader. */
  lemma StepReports(cfg: Config, id: NodeId, nd: Node, e: Event, r: Report)
    requires cfg.n >= 1 && Enabled(nd, e) && CoinOk(cfg, nd) && Step(cfg, id, nd, e).1 == Some(ReportMsg(r))
    ensures LeaderOf(cfg, r.view).Some? && r.author == id
    ensures var x := InstanceAt(nd, Key(r.view, LeaderOf(cfg, r.view).value));
      r.level == LevelOf(x) && r.qc == LevelQc(x)
  {
    hide LevelOf; hide LevelQc; hide Hash; hide Run; hide High; hide MakeBlock; hide OnReport; hide LeaderOf;
    hide Deliver;
    hide Elector.AddElect; hide InstanceAt; hide Enqueue; hide Pending; hide DecCert;
    assert e.Settle?;
  }

  /** Instances only grow in a step. */
  lemma StepGrows(cfg: Config, id: NodeId, nd: Node, sent: set<Msg>, e: Event, k: Key, x: Instance, y: Instance)
    requires cfg.n >= 1 && Enabled(nd, e) && NodeOk(cfg, id, nd, sent) && SentOk(cfg, sent)
    requires e.Handle? ==> e.m in sent && (!Repeats(e.m) ==> e.m !in nd.got)
    requires x == InstanceAt(nd, k) && y == InstanceAt(Step(cfg, id, nd, e).0, k)
    ensures Grows(x, y)
  {
    hide NodeOk; hide SentOk; hide InstancesOk; hide HistoryOk; hide OwnSentOk; hide CountersOk; hide CoinOk;
    hide StoreOk;
    hide Grows; hide InstanceOk; hide KeyHistory; hide Deliver; hide Run; hide High; hide Pending; hide Deliverable;
    NodeParts(cfg, id, nd, sent);
    KeyParts(cfg, nd, k);
    GrowsSelf(x);
    match e {
      case DoTask(c, t, ready) =>
        hide MakeBlock; hide Hash;
        if c == k { TaskOk(cfg, k, x, y, t); }
      case Handle(m, ready) =>
        HandledInstance(cfg, id, nd, m, ready, k);
        if y != x {
          MessageFits(cfg, x, nd.got, sent, m);
          DeliverOk(cfg, k, x, y, Delivered(m).value);
        }
      case _ =>
    }
  }

  lemma HandledInstance(cfg: Config, id: NodeId, nd: Node, m: Msg, ready: bool, k: Key)
    requires cfg.n >= 1
    ensures var x, y := InstanceAt(nd, k), InstanceAt(Receive(cfg, id, nd, m, ready).0, k);
      y == x || (k == KeyOf(m) && Delivered(m).Some? && y == Deliver(x, Delivered(m).value))
  {
    hide Deliver; hide High; hide OnReport; hide Elector.AddElect; hide Hash; hide MakeBlock;
  }

  lemma MoveGrows(cfg: Config, g: System, mv: Move, g': System, i: NodeId, k: Key)
    requires SystemOk(cfg, g) && CanMove(cfg, g, mv) && g' == Apply(cfg, g, mv) && i < cfg.n
    ensures |g.nodes| == |g'.nodes| == cfg.n && Grows(InstanceAt(g.nodes[i], k), InstanceAt(g'.nodes[i], k))
  {
    hide SystemOk; hide NodeOk; hide SentOk; hide Step; hide Enabled; hide InstanceAt; hide Grows; hide NetOk;
    SystemSize(cfg, g);
    NodeOf(cfg, g, i);
    MovedNode(cfg, g, mv, g', i);
    GrowsSelf(InstanceAt(g.nodes[i], k));
    if mv.Local? && mv.i == i {
      if mv.e.Handle? {
        PacketIsNew(cfg, g, Packet(i, mv.e.m));
      }
      StepGrows(cfg, i, g.nodes[i], g.sent, mv.e, k, InstanceAt(g.nodes[i], k), InstanceAt(g'.nodes[i], k));
    }
  }

  lemma PledgeKept(cfg: Config, g: System, mv: Move, g': System, x: NodeId, view: nat, p: NodeId, speed: bool)
    requires SystemOk(cfg, g) && CanMove(cfg, g, mv) && g' == Apply(cfg, g, mv)
    requires Pledged(g, x, view, p, speed) && cfg.n >= 1 && LeaderOf(cfg, view) == Some(p)
    ensures Pledged(g', x, view, p, speed)
  {
    hide SystemOk; hide SentOk; hide NodeOk; hide Step; hide LevelOf; hide Recorded; hide Meets; hide LeaderOf;
    hide Apply;
    hide InstanceAt; hide Grows; hide InstancesOk; hide HistoryOk; hide OwnSentOk; hide CountersOk; hide StoreOk;
    hide CoinOk; hide Enabled; hide NetOk;
    SystemSize(cfg, g);
    MoveGrows(cfg, g, mv, g', x, Key(view, p));
    var x0 := InstanceAt(g.nodes[x], Key(view, p));
    StillRecorded(x0, InstanceAt(g'.nodes[x], Key(view, p)), speed);
    RecordedMeets(x0, speed);
    forall r | ReportMsg(r) in g'.sent && r.author == x && r.view == view ensures Meets(r.level, speed) {
      if ReportMsg(r) !in g.sent {
        NewMessage(cfg, g, mv, g', ReportMsg(r));
        NodeOf(cfg, g, mv.i);
        NodeParts(cfg, mv.i, g.nodes[mv.i], g.sent);
        StepReports(cfg, mv.i, g.nodes[mv.i], mv.e, r);
      }
    }
  }

  lemma {:induction false} PledgeHolds(cfg: Config, run: seq<System>, s: nat, t: nat, x: NodeId, view: nat, p: NodeId,
                                       speed: bool)
    requires IsRun(cfg, run) && s <= t < |run| && Pledged(run[s], x, view, p, speed) && LeaderOf(cfg, view) == Some(p)
    ensures Pledged(run[t], x, view, p, speed)
  {
    hide Pledged; hide LeaderOf; hide SystemOk; hide Apply; hide IsRun; hide CanMove; hide SentOk; hide InstanceAt;
    RunSent(cfg, run, s);
    if s < t {
      PledgeHolds(cfg, run, s, t - 1, x, view, p, speed);
      RunOk(cfg, run, t - 1);
      var mv := MoveOf(cfg, run, t - 1);
      PledgeKept(cfg, run[t - 1], mv, run[t], x, view, p, speed);
    }
  }

  // ----- Votes before reports -----

  /** The vote of `x` for the block of a height-2 certificate, or its speed vote for the certificate. */
  function Support(x: NodeId, q: BlockQc, speed: bool): Msg {
    if speed then SpeedOf(SpeedVoteMsg(x, q.proposer, q.hash, q.view))
    else VoteOf(VoteMsg(x, q.proposer, q.hash, q.view, q.height))
  }

  ghost predicate NoReport(sent: set<Msg>, x: NodeId, view: nat) {
    forall r :: ReportMsg(r) in sent && r.author == x ==> r.view != view
  }

  /** `x` supported the certificate before it reported on the view. */
  ghost predicate SupportedFirst(run: seq<System>, t: nat, x: NodeId, q: BlockQc, speed: bool) {
    exists s :: 0 <= s <= t < |run| && Support(x, q, speed) in run[s].sent && NoReport(run[s].sent, x, q.view)
  }

  ghost function Prompt(n: nat, run: seq<System>, t: nat, q: BlockQc, speed: bool): set<NodeId> {
    set x | x in Nodes(n) && SupportedFirst(run, t, x, q, speed)
  }

  /** A vote for a height-2 block is sent by a node that knows the leader's height-1 certificate, a speed vote by
      one that knows both. */
  lemma SupportRecords(cfg: Config, id: NodeId, nd: Node, sent: set<Msg>, q: BlockQc, speed: bool)
    requires NodeOk(cfg, id, nd, sent) && q.height.H2? && Support(id, q, speed) in sent
    ensures Recorded(InstanceAt(nd, Key(q.view, q.proposer)), speed)
  {
    hide NodeOk; hide InstancesOk; hide HistoryOk; hide CountersOk; hide CoinOk; hide StoreOk; hide GotOk;
    hide InstanceAt;
    hide InstanceOk; hide KeyHistory; hide Hash;
    NodeParts(cfg, id, nd, sent);
    var m := Support(id, q, speed);
    assert Backed(id, nd, m);
    var k := Key(q.view, q.proposer);
    KeyParts(cfg, nd, k);
    if speed {
      SpedMeans(cfg, k, InstanceAt(nd, k));
    } else {
      VotedMeans(cfg, k, InstanceAt(nd, k));
    }
  }

  lemma VotedMeans(cfg: Config, k: Key, x: Instance)
    requires InstanceOk(cfg, k, x) && x.hi.voted
    ensures x.lo.qc.Some?
  {
    InvParts(x, High(cfg.n));
    hide Inv; hide TallyOk; hide EndingOk; hide FastOk; hide Hash;
  }

  lemma SpedMeans(cfg: Config, k: Key, x: Instance)
    requires InstanceOk(cfg, k, x) && x.end.sped
    ensures x.lo.qc.Some? && x.hi.qc.Some?
  {
    SpedHasQc(cfg, k, x);
    hide InstanceOk;
    QcFromFin(cfg, k, x);
  }

  lemma SpedHasQc(cfg: Config, k: Key, x: Instance)
    requires InstanceOk(cfg, k, x) && x.end.sped
    ensures x.hi.qc.Some?
  {
    InvParts(x, High(cfg.n));
    hide Inv; hide TallyOk; hide ProposalOk; hide ParkedOk; hide FastOk; hide Hash;
  }

  lemma FirstSupportersPledge(cfg: Config, run: seq<System>, t: nat, x: NodeId, q: BlockQc, speed: bool)
    requires IsRun(cfg, run) && t < |run| && x < cfg.n && q.height.H2? && SupportedFirst(run, t, x, q, speed)
    requires LeaderOf(cfg, q.view) == Some(q.proposer)
    ensures Pledged(run[t], x, q.view, q.proposer, speed)
  {
    hide IsRun; hide LeaderOf; hide Support; hide NodeOk; hide Recorded; hide Meets; hide SentOk; hide InstanceAt;
    var s :| 0 <= s <= t < |run| && Support(x, q, speed) in run[s].sent && NoReport(run[s].sent, x, q.view);
    RunNode(cfg, run, s, x);
    SupportRecords(cfg, x, run[s].nodes[x], run[s].sent, q, speed);
    assert Pledged(run[s], x, q.view, q.proposer, speed);
    hide Pledged;
    PledgeHolds(cfg, run, s, t, x, q.view, q.proposer, speed);
  }

  // ----- Exclusion -----

  /** The nodes that are not silent. */
  function Running(cfg: Config): set<NodeId> {
    Between(cfg.faults, cfg.n)
  }

  function Turnout(cfg: Config): nat {
    Present(cfg.n, cfg.faults)
  }

  lemma TurnoutSize(cfg: Config)
    ensures |Running(cfg)| == Turnout(cfg)
  {
    PresentSize(cfg.n, cfg.faults);
  }

  lemma SendersRun(cfg: Config, run: seq<System>, t: nat, m: Msg)
    requires IsRun(cfg, run) && t < |run| && m in run[t].sent
    ensures Sender(m) in Running(cfg)
  {
    hide IsRun; hide SentOk;
    RunSent(cfg, run, t);
    MsgOf(cfg, run[t].sent, m);
  }

  lemma ReportersRun(cfg: Config, run: seq<System>, t: nat, view: nat, level: Level)
    requires IsRun(cfg, run) && t < |run|
    ensures Reporters(cfg.n, run[t].sent, view, level) <= Running(cfg)
  {
    hide IsRun; hide Running;
    forall x | x in Reporters(cfg.n, run[t].sent, view, level) ensures x in Running(cfg) {
      var r :| ReportMsg(r) in run[t].sent && r.author == x && r.view == view && r.level == level;
      SendersRun(cfg, run, t, ReportMsg(r));
    }
  }

  lemma PromptRun(cfg: Config, run: seq<System>, t: nat, q: BlockQc, speed: bool)
    requires IsRun(cfg, run) && t < |run|
    ensures Prompt(cfg.n, run, t, q, speed) <= Running(cfg)
  {
    hide IsRun; hide Running; hide Support; hide NoReport;
    forall x | x in Prompt(cfg.n, run, t, q, speed) ensures x in Running(cfg) {
      var s :| 0 <= s <= t < |run| && Support(x, q, speed) in run[s].sent && NoReport(run[s].sent, x, q.view);
      SendersRun(cfg, run, s, Support(x, q, speed));
      assert Sender(Support(x, q, speed)) == x by { SupportSender(x, q, speed); }
    }
  }

  lemma SupportSender(x: NodeId, q: BlockQc, speed: bool)
    ensures Sender(Support(x, q, speed)) == x
  {
  }

  lemma VotersRun(cfg: Config, run: seq<System>, t: nat, q: BlockQc)
    requires IsRun(cfg, run) && t < |run|
    ensures Voters(cfg.n, run[t].sent, q) <= Running(cfg)
  {
    hide IsRun; hide Running;
    forall x | x in Voters(cfg.n, run[t].sent, q) ensures x in Running(cfg) {
      SendersRun(cfg, run, t, VoteOf(VoteMsg(x, q.proposer, q.hash, q.view, q.height)));
    }
  }

  /** The leader's height-2 certificate, supported in time by more running nodes than a quorum can do without. */
  ghost predicate InTime(cfg: Config, run: seq<System>, t: nat, q: BlockQc, speed: bool) {
    && t < |run| && cfg.n >= 1 && q.height.H2? && LeaderOf(cfg, q.view) == Some(q.proposer)
    && |Prompt(cfg.n, run, t, q, speed)| + High(cfg.n) > Turnout(cfg)
  }

  /** A supporter in time does not report a lower level. */
  lemma PromptNotLow(cfg: Config, run: seq<System>, t: nat, q: BlockQc, speed: bool, level: Level)
    requires IsRun(cfg, run) && t < |run| && q.height.H2? && LeaderOf(cfg, q.view) == Some(q.proposer)
    requires !Meets(level, speed)
    ensures Prompt(cfg.n, run, t, q, speed) * Reporters(cfg.n, run[t].sent, q.view, level) == {}
  {
    hide IsRun; hide LeaderOf; hide Nodes; hide SupportedFirst; hide Meets;
    var low := Reporters(cfg.n, run[t].sent, q.view, level);
    forall x | x in Prompt(cfg.n, run, t, q, speed) ensures x !in low {
      InNodes(cfg.n, x);
      FirstSupportersPledge(cfg, run, t, x, q, speed);
      assert !Reported(run[t].sent, x, q.view, level);
    }
  }

  /** When more than all but 2f+1 of the running nodes voted for the leader's height-2 block before reporting, fewer
      than a quorum report that they know no height-1 certificate; when as many sent speed votes before reporting,
      fewer than a quorum report anything but a height-2 certificate. */
  lemma LowLevelExcluded(cfg: Config, run: seq<System>, t: nat, q: BlockQc, speed: bool, level: Level)
    requires IsRun(cfg, run) && InTime(cfg, run, t, q, speed) && !Meets(level, speed)
    ensures |Reporters(cfg.n, run[t].sent, q.view, level)| < High(cfg.n)
  {
    hide IsRun; hide High; hide Nodes; hide SupportedFirst; hide LeaderOf; hide Meets; hide Reported;
    hide Running;
    PromptNotLow(cfg, run, t, q, speed, level);
    PromptRun(cfg, run, t, q, speed);
    ReportersRun(cfg, run, t, q.view, level);
    TurnoutSize(cfg);
    OverlapWithin(Running(cfg), Prompt(cfg.n, run, t, q, speed), Reporters(cfg.n, run[t].sent, q.view, level));
  }

  /** The voters behind a certificate are all in time. */
  ghost predicate AllPrompt(cfg: Config, run: seq<System>, t: nat, q: BlockQc) {
    t < |run| && forall x :: x in Voters(cfg.n, run[t].sent, q) ==> SupportedFirst(run, t, x, q, false)
  }

  /** A certificate of the leader whose voters voted before reporting is in time, because certificates stand for
      quorums. */
  lemma CertificateIsInTime(cfg: Config, run: seq<System>, t: nat, q: BlockQc)
    requires IsRun(cfg, run) && t < |run| && Turnout(cfg) < 2 * High(cfg.n)
    requires Certified(cfg, run[t].sent, q) && q.height.H2? && LeaderOf(cfg, q.view) == Some(q.proposer)
    requires AllPrompt(cfg, run, t, q)
    ensures InTime(cfg, run, t, q, false)
  {
    hide IsRun; hide High; hide LeaderOf; hide SupportedFirst; hide SentOk; hide Turnout;
    RunSent(cfg, run, t);
    SubsetSize(Voters(cfg.n, run[t].sent, q), Prompt(cfg.n, run, t, q, false));
  }

  /** The same for the speed votes behind a speed certificate. */
  lemma SpeedCertificateIsInTime(cfg: Config, run: seq<System>, t: nat, q: BlockQc)
    requires IsRun(cfg, run) && t < |run| && Turnout(cfg) < 2 * High(cfg.n)
    requires SpeedCertified(cfg, run[t].sent, q) && LeaderOf(cfg, q.view) == Some(q.proposer)
    requires forall x :: x in SpeedVoters(cfg.n, run[t].sent, q) ==> SupportedFirst(run, t, x, q, true)
    ensures InTime(cfg, run, t, q, true)
  {
    hide IsRun; hide High; hide LeaderOf; hide SupportedFirst; hide Certified; hide SentOk;
    RunSent(cfg, run, t);
    SubsetSize(SpeedVoters(cfg.n, run[t].sent, q), Prompt(cfg.n, run, t, q, true));
  }

  /** A leader's height-2 certificate excludes a quorum of reports without a height-1 certificate, unless enough
      of its voters had reported before they voted: with such a quorum, at least 2(2f+1) less the number of running
      nodes did. */
  lemma CertificateExcludesLowLevel(cfg: Config, run: seq<System>, t: nat, q: BlockQc)
    requires IsRun(cfg, run) && t < |run| && Certified(cfg, run[t].sent, q) && q.height.H2?
    requires LeaderOf(cfg, q.view) == Some(q.proposer)
    ensures var late := Voters(cfg.n, run[t].sent, q) - Prompt(cfg.n, run, t, q, false);
      |late| < 2 * High(cfg.n) - Turnout(cfg) ==> |Reporters(cfg.n, run[t].sent, q.view, Level0)| < High(cfg.n)
  {
    hide IsRun; hide High; hide LeaderOf; hide SupportedFirst; hide Reported;
    var voters, prompt := Voters(cfg.n, run[t].sent, q), Prompt(cfg.n, run, t, q, false);
    var low := Reporters(cfg.n, run[t].sent, q.view, Level0);
    hide Running; hide Turnout;
    PromptNotLow(cfg, run, t, q, false, Level0);
    VotersRun(cfg, run, t, q);
    ReportersRun(cfg, run, t, q.view, Level0);
    TurnoutSize(cfg);
    OverlapWithin(Running(cfg), voters, low);
    assert voters * low <= voters - prompt;
    SubsetSize(voters * low, voters - prompt);
  }

  // ----- The next view -----

  /** Every height-1 block of the next view carries a certificate for a block of the leader, and after speed
      votes in time for its height-2 block. */
  lemma NextViewCarriesLeader(cfg: Config, run: seq<System>, t: nat, q: BlockQc, speed: bool, c: Block)
    requires IsRun(cfg, run) && InTime(cfg, run, t, q, speed)
    requires ProposeMsg(c) in run[t].sent && c.height.H1? && c.view == q.view + 1
    ensures c.qc.Some? && c.qc.value.view == q.view && c.qc.value.proposer == q.proposer
    ensures (speed ==> c.qc.value.height.H2?)
  {
    RunSent(cfg, run, t);
    var sent := run[t].sent;
    MsgOf(cfg, sent, ProposeMsg(c));
    var r :| Justifies(cfg, sent, r, c);
    MsgOf(cfg, sent, ReportMsg(r));
    hide IsRun; hide SentOk; hide High; hide Nodes; hide LeaderOf; hide Reporters; hide Certified; hide Prompt;
    hide Started;
    if !Meets(r.level, speed) {
      LowLevelExcluded(cfg, run, t, q, speed, r.level);
    }
    assert Meets(r.level, speed);
  }

  /** `b` is `c` or is reached from `c` through certificates. */
  ghost predicate Extends(sent: set<Msg>, c: Block, b: Block)
    decreases LayerOf(c)
  {
    c == b || (c.qc.Some? && exists a :: Names(sent, c.qc.value, a) && LayerOf(a) < LayerOf(c) && Extends(sent, a, b))
  }

  lemma ExtendsParent(sent: set<Msg>, c: Block, a: Block, b: Block)
    requires c.qc.Some? && Names(sent, c.qc.value, a) && LayerOf(a) < LayerOf(c) && Extends(sent, a, b)
    ensures Extends(sent, c, b)
  {
  }

  /** The block of the leader that is committed: its height-1 block, or its height-2 block on the speed path. */
  predicate Leading(sent: set<Msg>, q: BlockQc, speed: bool, b: Block) {
    ProposeMsg(b) in sent && b.author == q.proposer && b.view == q.view && b.height == if speed then H2 else H1
  }

  /** The height-2 block of a node extends its height-1 block of the same view. */
  lemma SecondExtendsFirst(cfg: Config, sent: set<Msg>, c: Block, b: Block)
    requires cfg.n >= 1 && SentOk(cfg, sent) && ProposeMsg(c) in sent && ProposeMsg(b) in sent && c.height.H2?
    requires b.height.H1?
    requires c.author == b.author && c.view == b.view
    ensures Extends(sent, c, b)
  {
    hide SentOk; hide Hash; hide Certified;
    SecondHasQc(cfg, sent, c);
    BlockQcEarlier(cfg, sent, c);
    var a := ParentOf(cfg, sent, c);
    OnlyBlock(cfg, sent, a, b);
    assert Extends(sent, b, b);
    ExtendsParent(sent, c, a, b);
  }

  lemma ExtendsLeader(cfg: Config, sent: set<Msg>, q: BlockQc, speed: bool, b: Block, c: Block)
    requires cfg.n >= 1 && SentOk(cfg, sent) && Leading(sent, q, speed, b) && ProposeMsg(c) in sent && c.height.H1?
    requires c.qc.Some? && c.qc.value.view == q.view && c.qc.value.proposer == q.proposer
    requires (speed ==> c.qc.value.height.H2?)
    ensures Extends(sent, c, b)
  {
    hide SentOk; hide Hash;
    var a := ParentOf(cfg, sent, c);
    if a.height == b.height {
      OnlyBlock(cfg, sent, a, b);
      assert Extends(sent, b, b);
    } else {
      SecondExtendsFirst(cfg, sent, a, b);
    }
    ExtendsParent(sent, c, a, b);
  }

  /** Commit safety from one view to the next: with votes in time every block of the next view extends the
      leader's height-1 block, with speed votes in time its height-2 block. */
  lemma NextViewExtendsLeader(cfg: Config, run: seq<System>, t: nat, q: BlockQc, speed: bool, b: Block, c: Block)
    requires IsRun(cfg, run) && InTime(cfg, run, t, q, speed) && Leading(run[t].sent, q, speed, b)
    requires ProposeMsg(c) in run[t].sent && c.view == q.view + 1
    ensures Extends(run[t].sent, c, b)
  {
    assert t < |run|;
    hide IsRun; hide InTime; hide Extends; hide SentOk; hide Leading; hide Hash; hide Certified;
    RunSent(cfg, run, t);
    var sent := run[t].sent;
    if c.height.H1? {
      NextViewCarriesLeader(cfg, run, t, q, speed, c);
      ExtendsLeader(cfg, sent, q, speed, b, c);
    } else {
      SecondHasQc(cfg, sent, c);
      BlockQcEarlier(cfg, sent, c);
      var a := ParentOf(cfg, sent, c);
      NextViewCarriesLeader(cfg, run, t, q, speed, a);
      ExtendsLeader(cfg, sent, q, speed, b, a);
      ExtendsParent(sent, c, a, b);
    }
  }

  // ----- All later views -----

  /** What a height-1 block of view `c.view > 0` builds on: a block of the previous view, or the certificate of
      the previous leader's own height-1 block. */
  lemma BuildsOn(cfg: Config, sent: set<Msg>, c: Block) returns (a: Block, d: Block)
    requires cfg.n >= 1 && SentOk(cfg, sent) && ProposeMsg(c) in sent && c.height.H1? && c.view > 0 && c.qc.Some?
    ensures Names(sent, c.qc.value, a) && LayerOf(a) < LayerOf(c)
    ensures a.view == c.view - 1 || (ProposeMsg(d) in sent && d.view == c.view - 1 && d.height.H1? && d.qc == c.qc)
  {
    MsgOf(cfg, sent, ProposeMsg(c));
    var r :| Justifies(cfg, sent, r, c);
    MsgOf(cfg, sent, ReportMsg(r));
    hide SentOk; hide Reporters; hide LeaderOf; hide High; hide Certified; hide Hash;
    a := ParentOf(cfg, sent, c);
    d := c;
    if r.level.Level0? {
      d :| ProposeMsg(d) in sent && d.author == LeaderOf(cfg, r.view).value && d.view == r.view && d.height.H1? &&
        d.qc == r.qc;
    }
  }

  /** Every height-1 block of a view after `view`, up to `top`, carries a certificate. */
  ghost predicate Unbroken(sent: set<Msg>, view: nat, top: nat) {
    forall c :: ProposeMsg(c) in sent && c.height.H1? && view < c.view <= top ==> c.qc.Some?
  }

  ghost predicate AllExtend(sent: set<Msg>, view: nat, top: nat, b: Block) {
    forall c :: ProposeMsg(c) in sent && view < c.view <= top ==> Extends(sent, c, b)
  }

  lemma {:induction false} LaterExtends(cfg: Config, sent: set<Msg>, view: nat, top: nat, b: Block, c: Block)
    requires cfg.n >= 1 && SentOk(cfg, sent) && Unbroken(sent, view, top) && b.view <= view
    requires forall a :: ProposeMsg(a) in sent && a.view == view + 1 ==> Extends(sent, a, b)
    requires ProposeMsg(c) in sent && view < c.view <= top
    ensures Extends(sent, c, b)
    decreases LayerOf(c)
  {
    hide SentOk; hide Hash; hide Certified;
    if c.view > view + 1 {
      if c.height.H2? {
        hide Extends;
        SecondHasQc(cfg, sent, c);
        BlockQcEarlier(cfg, sent, c);
        var a := ParentOf(cfg, sent, c);
        LaterExtends(cfg, sent, view, top, b, a);
        ExtendsParent(sent, c, a, b);
      } else {
        var a, d := BuildsOn(cfg, sent, c);
        hide Extends;
        if a.view == c.view - 1 {
          LaterExtends(cfg, sent, view, top, b, a);
          ExtendsParent(sent, c, a, b);
        } else {
          LaterExtends(cfg, sent, view, top, b, d);
          SameParent(sent, c, d, b);
        }
      }
    }
  }

  lemma SameParent(sent: set<Msg>, c: Block, d: Block, b: Block)
    requires Extends(sent, d, b) && d != b && c.qc == d.qc && LayerOf(d) < LayerOf(c)
    ensures Extends(sent, c, b)
  {
    hide Hash;
    var a :| Names(sent, d.qc.value, a) && LayerOf(a) < LayerOf(d) && Extends(sent, a, b);
    ExtendsParent(sent, c, a, b);
  }

  lemma UnbrokenExtends(cfg: Config, run: seq<System>, t: nat, q: BlockQc, speed: bool, b: Block, top: nat)
    requires IsRun(cfg, run) && InTime(cfg, run, t, q, speed) && Leading(run[t].sent, q, speed, b)
    ensures AllExtend(run[t].sent, q.view, top, b) <==> Unbroken(run[t].sent, q.view, top)
  {
    assert t < |run|;
    assert b.view == q.view;
    var sent := run[t].sent;
    hide IsRun; hide InTime; hide SentOk; hide Leading; hide Hash;
    RunSent(cfg, run, t);
    if Unbroken(sent, q.view, top) {
      hide Extends; hide Unbroken;
      forall a | ProposeMsg(a) in sent && a.view == q.view + 1 ensures Extends(sent, a, b) {
        NextViewExtendsLeader(cfg, run, t, q, speed, b, a);
      }
      forall c | ProposeMsg(c) in sent && q.view < c.view <= top ensures Extends(sent, c, b) {
        LaterExtends(cfg, sent, q.view, top, b, c);
      }
    } else {
      var c :| ProposeMsg(c) in sent && c.height.H1? && q.view < c.view <= top && c.qc.None?;
      assert !Extends(sent, c, b);
    }
  }
}
