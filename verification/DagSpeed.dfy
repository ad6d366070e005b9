/** Commit by speed certificate: when the committed block is in every later history. */
module DagSpeed {
  import opened Blocks
  import opened Quorum
  import opened CommitLog
  import opened DagNode
  import opened DagSystem
  import opened DagInvariant
  import opened DagFrame
  import opened DagProposals
  import opened DagRuns
  import opened DagSafety
  import Spb
  import SpbInvariant
  import opened SpbGrowth
  import Elector

  /** The scan for the height-1 block of the next view has read past `p` without losing it. */
  ghost predicate ScanKeeps(scan: Option<Scan>, view: nat, p: NodeId) {
    scan.Some? && scan.value.view == view + 1 && scan.value.height.H1? && scan.value.next > p ==>
      exists q :: q in scan.value.refs && q.proposer == p
  }

  ghost predicate BlockKeeps(id: NodeId, sent: set<Msg>, view: nat, p: NodeId) {
    forall b :: ProposeMsg(b) in sent && b.author == id && b.view == view + 1 && b.height.H1? ==> Mentions(b, p)
  }

  /** A node bound to reference the height-2 block of `p` in `view` in its next height-1 block. */
  ghost predicate Pledged(id: NodeId, nd: Node, sent: set<Msg>, view: nat, p: NodeId) {
    && QcAt(nd, Key(view, p), H2).Some?
    && BlockKeeps(id, sent, view, p)
    && ScanKeeps(nd.scan, view, p)
  }

  /** The node has speed voted for `p` in `view`, is not past that view, and if it is already collecting the
      references of its next height-1 block it has not yet read the certificate of `p`. */
  ghost predicate VotedInTime(id: NodeId, nd: Node, sent: set<Msg>, view: nat, p: NodeId) {
    && (exists sv :: SpeedVoting(sv) in sent && sv.author == id && sv.view == view && sv.proposer == p)
    && nd.view <= view
    && (nd.scan.Some? && nd.scan.value.view == view + 1 ==> nd.scan.value.next <= p)
  }

  lemma VotedInTimePledges(cfg: Config, id: NodeId, nd: Node, sent: set<Msg>, view: nat, p: NodeId)
    requires NodeOk(cfg, id, nd, sent) && VotedInTime(id, nd, sent, view, p)
    ensures Pledged(id, nd, sent, view, p)
  {
    hide InstancesOk; hide HistoryOk; hide ElectsSentOk; hide ScanOk;
    hide WeakVotesOk; hide SpeedNumsOk; hide ElectorOk; hide StoreOk; hide CoinOk; hide InstanceAt;
    var sv :| SpeedVoting(sv) in sent && sv.author == id && sv.view == view && sv.proposer == p;
  }

  // ----- A pledge is kept by every step -----

  lemma DeliverKeepsQc(nd: Node, nd': Node, c: Key, d: Spb.Delivery, k: Key)
    requires nd'.instances == nd.instances[c := Spb.Deliver(InstanceAt(nd, c), d)]
    ensures QcAt(nd', k, H2) == QcAt(nd, k, H2)
  {
  }

  lemma HandleKeepsQc(cfg: Config, id: NodeId, nd: Node, m: Msg, k: Key)
    requires cfg.n >= 1
    ensures QcAt(Receive(cfg, id, nd, m).0, k, H2) == QcAt(nd, k, H2)
  {
    hide Hash; hide High; hide AddWeakVotes; hide QcAt; hide Spb.Deliver; hide InstanceAt;
    match m
    case ProposeMsg(b) => DeliverKeepsQc(nd, OnPropose(nd, b), Key(b.view, b.author), Spb.Proposal(b), k);
    case Voting(v) => DeliverKeepsQc(nd, OnVote(nd, v), Key(v.view, v.proposer), Spb.Vote(v), k);
    case SpeedVoting(sv) =>
      DeliverKeepsQc(nd, OnSpeedVote(cfg, id, nd, sv).0, Key(sv.view, sv.proposer), Spb.SpeedVote(sv), k);
    case ElectMsg(a, view) => ElectKeepsInstances(cfg, nd, a, view); SameQc(nd, OnElect(cfg, nd, a, view), k);
  }

  lemma ElectKeepsInstances(cfg: Config, nd: Node, a: NodeId, view: nat)
    requires cfg.n >= 1
    ensures OnElect(cfg, nd, a, view).instances == nd.instances
  {
    hide Elector.AddElect; hide CommitHeight; hide Enqueue;
  }

  lemma SameQc(nd: Node, nd': Node, k: Key)
    requires nd'.instances == nd.instances
    ensures QcAt(nd', k, H2) == QcAt(nd, k, H2)
  {
  }

  lemma TaskKeepsQc(cfg: Config, id: NodeId, nd: Node, c: Key, t: Spb.Task, k: Key)
    requires InstancesOk(cfg, nd) && c in nd.instances && Spb.Pending(nd.instances[c], t) && QcAt(nd, k, H2).Some?
    ensures QcAt(RunTask(cfg, id, nd, c, t).0, k, H2).Some?
  {
    hide InstancesOk; hide Hash; hide High; hide Spb.Pending; hide Spb.Run; hide SpbInvariant.Inv;
    InstanceOfNode(cfg, nd, c);
    RunGrows(nd.instances[c], Spb.Run(nd.instances[c], High(cfg.n), t), High(cfg.n), t);
  }

  lemma QcPersists(cfg: Config, id: NodeId, nd: Node, e: Event, k: Key)
    requires cfg.n >= 1 && Enabled(nd, e) && InstancesOk(cfg, nd) && QcAt(nd, k, H2).Some?
    ensures QcAt(Step(cfg, id, nd, e).0, k, H2).Some?
  {
    hide InstancesOk; hide QcAt; hide RunTask; hide Receive;
    match e {
      case Task(c, t) => TaskKeepsQc(cfg, id, nd, c, t, k);
      case Handle(m) => HandleKeepsQc(cfg, id, nd, m, k);
      case _ => SameQc(nd, Step(cfg, id, nd, e).0, k);
    }
  }

  lemma InstanceOfNode(cfg: Config, nd: Node, k: Key)
    requires InstancesOk(cfg, nd)
    ensures InstanceOk(cfg, k, InstanceAt(nd, k))
  {
  }

  lemma ReadKeeps(cfg: Config, id: NodeId, nd: Node, view: nat, p: NodeId, ready: bool)
    requires nd.scan.Some? && nd.scan.value.next < cfg.n && ScanKeeps(nd.scan, view, p)
    requires QcAt(nd, Key(view, p), H2).Some? && QcAt(nd, Key(view, p), H2).value.proposer == p
    ensures ScanKeeps(ScanStep(cfg, id, nd, ready).0.scan, view, p)
  {
    var sc := nd.scan.value;
    var sc' := ScanStep(cfg, id, nd, ready).0.scan.value;
    if sc.view == view + 1 && sc.height.H1? && sc'.next > p {
      if sc.next > p {
        var q :| q in sc.refs && q.proposer == p;
        assert q in sc'.refs;
      } else {
        var q := QcAt(nd, Key(view, p), H2).value;
        assert sc'.refs == sc.refs + [q];
        assert q in sc'.refs;
      }
    }
  }

  /** Events other than reading start a scan from the beginning or leave it alone. */
  lemma OtherEventsKeepScan(cfg: Config, id: NodeId, nd: Node, e: Event, view: nat, p: NodeId)
    requires cfg.n >= 1 && Enabled(nd, e) && !e.Read? && ScanKeeps(nd.scan, view, p)
    ensures ScanKeeps(Step(cfg, id, nd, e).0.scan, view, p)
  {
    ScanAfter(cfg, id, nd, e);
    hide Step;
  }

  lemma ScanAfter(cfg: Config, id: NodeId, nd: Node, e: Event)
    requires cfg.n >= 1 && Enabled(nd, e) && !e.Read?
    ensures var sc := Step(cfg, id, nd, e).0.scan; sc == nd.scan || (sc.Some? && sc.value.next == 0)
  {
    hide Receive; hide RunTask; hide CoinStep; hide Hash; hide Spb.Pending;
    match e {
      case Handle(m) => ReceiveFrame(cfg, id, nd, m);
      case Task(k, t) => TaskFrame(cfg, id, nd, k, t);
      case Settle => SettleFrame(cfg, nd);
      case _ =>
    }
  }

  /** A proposal carries the references read; the first one is of view 0. */
  lemma ProposalOrigin(cfg: Config, id: NodeId, nd: Node, e: Event)
    requires cfg.n >= 1 && Enabled(nd, e)
    ensures var out := Step(cfg, id, nd, e).1; out.Some? && out.value.ProposeMsg? ==>
      var b := out.value.b;
      || (b.view == 0 && b.height.H1? && e.Begin?)
      || (e.Read? && nd.scan.value.next >= cfg.n && b.references == nd.scan.value.refs
          && b.view == nd.scan.value.view && b.height == nd.scan.value.height)
  {
    hide Hash; hide High; hide Spb.Run; hide Spb.Deliver; hide Spb.Pending; hide AddWeakVotes; hide Elector.AddElect;
    hide CommitHeight; hide Enqueue; hide InstanceAt;
  }

  lemma OwnStepKeepsScan(cfg: Config, id: NodeId, nd: Node, e: Event, view: nat, p: NodeId)
    requires cfg.n >= 1 && Enabled(nd, e) && ScanKeeps(nd.scan, view, p)
    requires QcAt(nd, Key(view, p), H2).Some? && QcAt(nd, Key(view, p), H2).value.proposer == p
    ensures ScanKeeps(Step(cfg, id, nd, e).0.scan, view, p)
  {
    if e.Read? {
      hide QcAt; hide High;
      if nd.scan.value.next < cfg.n {
        ReadKeeps(cfg, id, nd, view, p, e.ready);
      }
    } else {
      hide Step; hide QcAt;
      OtherEventsKeepScan(cfg, id, nd, e, view, p);
    }
  }

  lemma OwnStepKeepsBlock(cfg: Config, id: NodeId, nd: Node, sent: set<Msg>, e: Event, view: nat, p: NodeId)
    requires cfg.n >= 1 && p < cfg.n && Enabled(nd, e) && BlockKeeps(id, sent, view, p) && ScanKeeps(nd.scan, view, p)
    ensures var out := Step(cfg, id, nd, e).1; BlockKeeps(id, sent + (if out.Some? then {out.value} else {}), view, p)
  {
    hide Step;
    ProposalOrigin(cfg, id, nd, e);
    var out := Step(cfg, id, nd, e).1;
    if out.Some? && out.value.ProposeMsg? && out.value.b.view == view + 1 && out.value.b.height.H1? {
      assert Mentions(out.value.b, p);
    }
  }

  lemma OwnStepKeepsPledge(cfg: Config, id: NodeId, nd: Node, sent: set<Msg>, e: Event, view: nat, p: NodeId)
    requires cfg.n >= 1 && p < cfg.n && NodeOk(cfg, id, nd, sent) && Enabled(nd, e) && Pledged(id, nd, sent, view, p)
    ensures var (nd', out) := Step(cfg, id, nd, e);
      Pledged(id, nd', sent + (if out.Some? then {out.value} else {}), view, p)
  {
    hide NodeOk; hide InstancesOk; hide HistoryOk; hide ScanOk; hide QcAt; hide Step; hide Enabled; hide ScanKeeps;
    hide BlockKeeps;
    NodeParts(cfg, id, nd, sent);
    HeldPosition(cfg, nd, Key(view, p), H2);
    QcPersists(cfg, id, nd, e, Key(view, p));
    OwnStepKeepsScan(cfg, id, nd, e, view, p);
    OwnStepKeepsBlock(cfg, id, nd, sent, e, view, p);
  }

  lemma OthersKeepPledge(id: NodeId, nd: Node, sent: set<Msg>, m: Msg, view: nat, p: NodeId)
    requires Pledged(id, nd, sent, view, p) && Sender(m) != id
    ensures Pledged(id, nd, sent + {m}, view, p)
  {
    hide QcAt; hide ScanKeeps;
  }

  lemma LocalKeepsPledge(cfg: Config, g: System, g': System, j: NodeId, e: Event, i: NodeId, view: nat, p: NodeId)
    requires SystemOk(cfg, g) && i < |g.nodes| && p < cfg.n
    requires CanMove(cfg, g, Local(j, e)) && g' == Apply(cfg, g, Local(j, e))
    requires Pledged(i, g.nodes[i], g.sent, view, p)
    ensures |g'.nodes| == |g.nodes| && Pledged(i, g'.nodes[i], g'.sent, view, p)
  {
    hide Pledged; hide NodeOk; hide SentOk; hide NetOk; hide Step; hide Enabled;
    NodeOfSystem(cfg, g, i);
    EventStep(cfg, g, j, e);
    hide SystemOk;
    var out := Step(cfg, j, g.nodes[j], e).1;
    if j == i {
      OwnStepKeepsPledge(cfg, i, g.nodes[i], g.sent, e, view, p);
      if out.None? {
        assert g.sent + {} == g.sent;
      }
    } else if out.Some? {
      OthersKeepPledge(i, g.nodes[i], g.sent, out.value, view, p);
    }
  }

  lemma StepKeepsPledge(cfg: Config, g: System, g': System, i: NodeId, view: nat, p: NodeId)
    requires SystemOk(cfg, g) && Next(cfg, g, g') && i < |g.nodes| && p < cfg.n
    requires Pledged(i, g.nodes[i], g.sent, view, p)
    ensures |g'.nodes| == |g.nodes| && Pledged(i, g'.nodes[i], g'.sent, view, p)
  {
    hide Pledged; hide SystemOk; hide Step; hide Enabled;
    var mv :| CanMove(cfg, g, mv) && g' == Apply(cfg, g, mv);
    if mv.Local? {
      LocalKeepsPledge(cfg, g, g', mv.i, mv.e, i, view, p);
    }
  }

  lemma {:induction false} RunKeepsPledge(cfg: Config, run: seq<System>, s: nat, t: nat, i: NodeId, view: nat,
                                          p: NodeId)
    requires IsRun(cfg, run) && s <= t < |run| && i < |run[s].nodes| && p < cfg.n
    requires Pledged(i, run[s].nodes[i], run[s].sent, view, p)
    ensures |run[t].nodes| == |run[s].nodes| && Pledged(i, run[t].nodes[i], run[t].sent, view, p)
  {
    hide Pledged; hide Next; hide SystemOk;
    if s < t {
      RunKeepsPledge(cfg, run, s, t - 1, i, view, p);
      RunOk(cfg, run, t - 1);
      assert Next(cfg, run[t - 1], run[t - 1 + 1]);
      StepKeepsPledge(cfg, run[t - 1], run[t], i, view, p);
    }
  }

  // ----- Commit safety -----

  /** At some point up to `t`, node `i` had speed voted for `p` in time. */
  ghost predicate VotedInTimeBy(run: seq<System>, t: nat, i: NodeId, view: nat, p: NodeId)
    requires t < |run|
  {
    exists s :: 0 <= s <= t && i < |run[s].nodes| && VotedInTime(i, run[s].nodes[i], run[s].sent, view, p)
  }

  lemma InTimePledged(cfg: Config, run: seq<System>, t: nat, i: NodeId, view: nat, p: NodeId)
    requires IsRun(cfg, run) && t < |run| && VotedInTimeBy(run, t, i, view, p)
    ensures p < cfg.n && i < |run[t].nodes| == cfg.n && Pledged(i, run[t].nodes[i], run[t].sent, view, p)
  {
    var s :| 0 <= s <= t && i < |run[s].nodes| && VotedInTime(i, run[s].nodes[i], run[s].sent, view, p);
    RunOk(cfg, run, s);
    RunOk(cfg, run, t);
    assert |run[s].nodes| == cfg.n && |run[t].nodes| == cfg.n;
    NodeOfSystem(cfg, run[s], i);
    var sv :| SpeedVoting(sv) in run[s].sent && sv.author == i && sv.view == view && sv.proposer == p;
    SpeedVoteOrigin(cfg, run[s], sv);
    hide SystemOk; hide NodeOk; hide Next; hide QcAt;
    VotedInTimePledges(cfg, i, run[s].nodes[i], run[s].sent, view, p);
    hide Pledged; hide VotedInTime;
    RunKeepsPledge(cfg, run, s, t, i, view, p);
  }

  /** The height-1 block of a pledged node has the speed-committed block in its history. */
  lemma PledgedHistory(cfg: Config, sent: set<Msg>, i: NodeId, view: nat, p: NodeId, b: Block, c: Block)
    requires SentOk(cfg, sent) && BlockKeeps(i, sent, view, p)
    requires ProposeMsg(b) in sent && b.author == p && b.view == view && b.height.H2?
    requires ProposeMsg(c) in sent && c.author == i && LayerOf(c) == Layer(view + 1, H1)
    ensures InHistory(sent, c, b)
  {
    assert c.view == view + 1 && c.height.H1?;
    var q :| q in c.references && q.proposer == p;
    assert OnePerPosition(sent);
    var r := RefBlock(cfg, sent, c, q);
    hide SentOk;
    assert SamePosition(r, b);
    assert InHistory(sent, b, b);
  }

  /** Speed-commit safety: if f+1 nodes sent their speed vote for `p`'s height-2 block of a view before
      they read its certificate for their next height-1 block, then every height-2 block of the next view
      and every block of later views has it in its causal history. */
  lemma SpeedCommitSafety(cfg: Config, run: seq<System>, t: nat, a: set<NodeId>, view: nat,
                          p: NodeId) returns (b: Block)
    requires IsRun(cfg, run) && t < |run| && cfg.n % 3 == 1
    requires a <= Nodes(cfg.n) && |a| >= Low(cfg.n)
    requires forall i :: i in a ==> VotedInTimeBy(run, t, i, view, p)
    ensures ProposeMsg(b) in run[t].sent && b.author == p && b.view == view && b.height.H2?
    ensures forall d :: ProposeMsg(d) in run[t].sent && LayerOf(d) >= Layer(view + 1, H2) ==>
      InHistory(run[t].sent, d, b)
  {
    hide IsRun; hide VotedInTimeBy; hide SystemOk; hide NodeOk; hide SentOk; hide QcAt; hide ScanKeeps;
    hide BlockKeeps; hide InHistory; hide High; hide Low;
    Thresholds(cfg.n);
    var sent := run[t].sent;
    RunOk(cfg, run, t);
    var i0 :| i0 in a;
    InTimePledged(cfg, run, t, i0, view, p);
    NodeOfSystem(cfg, run[t], i0);
    NodeParts(cfg, i0, run[t].nodes[i0], sent);
    b := HeldIsCertified(cfg, run[t].nodes[i0], sent, Key(view, p), H2);
    forall c | ProposeMsg(c) in sent && LayerOf(c) == Layer(view + 1, H1) && c.author in a
      ensures InHistory(sent, c, b)
    {
      InTimePledged(cfg, run, t, c.author, view, p);
      PledgedHistory(cfg, sent, c.author, view, p, b, c);
    }
    forall d | ProposeMsg(d) in sent && LayerOf(d) == Layer(view + 1, H2) ensures InHistory(sent, d, b) {
      LayerMeets(cfg, sent, Layer(view + 1, H1), a, b, d);
    }
    forall d | ProposeMsg(d) in sent && LayerOf(d) >= Layer(view + 1, H2) ensures InHistory(sent, d, b) {
      HistorySpreads(cfg, sent, Layer(view + 1, H2), b, d);
    }
  }

  // ----- The read decides -----

  ghost predicate InRefs(refs: seq<BlockQc>, p: NodeId) {
    exists q :: q in refs && q.proposer == p
  }

  /** The scan for the height-1 block of the next view has read past `p`, and found it or not. */
  ghost predicate ScanRead(scan: Option<Scan>, view: nat, p: NodeId, found: bool) {
    && scan.Some? && scan.value.view == view + 1 && scan.value.height.H1? && scan.value.next > p
    && (InRefs(scan.value.refs, p) <==> found)
  }

  lemma RefsStep(refs: seq<BlockQc>, q: BlockQc, p: NodeId)
    ensures InRefs(refs + [q], p) <==> InRefs(refs, p) || q.proposer == p
  {
    if InRefs(refs, p) {
      var r :| r in refs && r.proposer == p;
      assert r in refs + [q];
    }
    assert q in refs + [q];
  }

  /** Reading on does not change what was found. */
  lemma ReadsOn(cfg: Config, id: NodeId, nd: Node, view: nat, p: NodeId, ready: bool, found: bool)
    requires InstancesOk(cfg, nd) && nd.scan.Some? && ScanRead(nd.scan, view, p, found)
    ensures var (nd', out) := ScanStep(cfg, id, nd, ready);
      && (nd'.scan.Some? ==> ScanRead(nd'.scan, view, p, found))
      && (out.Some? ==> out.value.ProposeMsg? && (Mentions(out.value.b, p) <==> found))
  {
    hide InstancesOk; hide QcAt; hide InRefs; hide High;
    var sc := nd.scan.value;
    var k := Key(ParentView(sc.view, sc.height), sc.next);
    if sc.next < cfg.n && QcAt(nd, k, H2).Some? {
      HeldPosition(cfg, nd, k, H2);
      RefsStep(sc.refs, QcAt(nd, k, H2).value, p);
    }
    MentionsRefs(MakeBlock(cfg, id, nd, sc.view, sc.height, sc.refs, ready), sc.refs, p);
  }

  lemma MentionsRefs(b: Block, refs: seq<BlockQc>, p: NodeId)
    requires b.references == refs
    ensures Mentions(b, p) <==> InRefs(refs, p)
  {
  }

  /** The read of `p` itself finds it exactly when the certificate is there. */
  lemma ReadFinds(cfg: Config, id: NodeId, nd: Node, view: nat, p: NodeId, ready: bool)
    requires InstancesOk(cfg, nd) && ScanOk(cfg, nd) && nd.scan.Some? && p < cfg.n
    requires nd.scan.value.view == view + 1 && nd.scan.value.height.H1? && nd.scan.value.next == p
    ensures ScanRead(ScanStep(cfg, id, nd, ready).0.scan, view, p, QcAt(nd, Key(view, p), H2).Some?)
  {
    hide InstancesOk; hide QcAt; hide ScanOk; hide InRefs; hide MakeBlock;
    var sc := nd.scan.value;
    NotYetIn(cfg, nd, p);
    var k := Key(view, p);
    if QcAt(nd, k, H2).Some? {
      HeldPosition(cfg, nd, k, H2);
      RefsStep(sc.refs, QcAt(nd, k, H2).value, p);
    }
  }

  lemma NotYetIn(cfg: Config, nd: Node, p: NodeId)
    requires ScanOk(cfg, nd) && nd.scan.Some? && nd.scan.value.next <= p
    ensures !InRefs(nd.scan.value.refs, p)
  {
  }

  /** While a scan is under way its node does nothing else, apart from sections of instances. */
  lemma ScanBusy(cfg: Config, id: NodeId, nd: Node, e: Event)
    requires cfg.n >= 1 && Enabled(nd, e) && nd.scan.Some? && nd.started && nd.coin.None? && !e.Read?
    ensures Step(cfg, id, nd, e).0.scan == nd.scan
    ensures (Step(cfg, id, nd, e).1.Some? ==> !Step(cfg, id, nd, e).1.value.ProposeMsg?)
  {
    hide Hash; hide High; hide Spb.Run; hide Spb.Pending; hide InstanceAt;
  }

  lemma BusyNode(cfg: Config, id: NodeId, nd: Node, sent: set<Msg>)
    requires NodeOk(cfg, id, nd, sent) && nd.scan.Some?
    ensures nd.started && nd.coin.None? && InstancesOk(cfg, nd) && ScanOk(cfg, nd)
  {
    NodeParts(cfg, id, nd, sent);
    hide NodeOk; hide InstancesOk; hide HistoryOk;
  }

  /** One move, while node `i` has read past `p`. */
  lemma ReadMove(cfg: Config, run: seq<System>, t: nat, i: NodeId, view: nat, p: NodeId, found: bool)
    requires IsRun(cfg, run) && t + 1 < |run| && i < |run[t].nodes| && ScanRead(run[t].nodes[i].scan, view, p, found)
    ensures i < |run[t + 1].nodes|
    ensures (run[t + 1].nodes[i].scan.Some? ==> ScanRead(run[t + 1].nodes[i].scan, view, p, found))
    ensures forall b :: ProposeMsg(b) in run[t + 1].sent && ProposeMsg(b) !in run[t].sent && b.author == i ==>
      (Mentions(b, p) <==> found)
  {
    assert cfg.n >= 1;
    RunOk(cfg, run, t);
    hide IsRun; hide SystemOk; hide Step; hide Enabled; hide Apply; hide Mentions;
    var g, g' := run[t], run[t + 1];
    SystemSize(cfg, g);
    RunOk(cfg, run, t + 1);
    SystemSize(cfg, g');
    NodeOfSystem(cfg, g, i);
    var mv := MoveOf(cfg, run, t);
    MovedNode(cfg, g, mv, g', i);
    BusyNode(cfg, i, g.nodes[i], g.sent);
    hide NodeOk; hide SentOk; hide ScanOk; hide InstancesOk; hide NetOk;
    if mv.Local? && mv.i == i {
      OwnRead(cfg, i, g.nodes[i], mv.e, view, p, found);
    }
    forall b | ProposeMsg(b) in g'.sent && ProposeMsg(b) !in g.sent && b.author == i ensures Mentions(b, p) <==> found {
      NewMessage(cfg, g, mv, g', ProposeMsg(b));
      EventStep(cfg, g, mv.i, mv.e);
      assert Sender(ProposeMsg(b)) == mv.i;
    }
  }

  lemma OwnRead(cfg: Config, id: NodeId, nd: Node, e: Event, view: nat, p: NodeId, found: bool)
    requires cfg.n >= 1 && Enabled(nd, e) && nd.started && nd.coin.None? && InstancesOk(cfg, nd)
    requires ScanRead(nd.scan, view, p, found)
    ensures var (nd', out) := Step(cfg, id, nd, e);
      && (nd'.scan.Some? ==> ScanRead(nd'.scan, view, p, found))
      && (out.Some? && out.value.ProposeMsg? ==> (Mentions(out.value.b, p) <==> found))
  {
    hide InstancesOk; hide ScanStep; hide Mentions;
    if e.Read? {
      ReadsOn(cfg, id, nd, view, p, e.ready, found);
    } else {
      ScanBusy(cfg, id, nd, e);
      hide Step;
    }
  }

  lemma {:induction false} ReadPersists(cfg: Config, run: seq<System>, s: nat, t: nat, i: NodeId, view: nat, p: NodeId,
                                        found: bool)
    requires IsRun(cfg, run) && s <= t < |run| && i < |run[s].nodes| && ScanRead(run[s].nodes[i].scan, view, p, found)
    requires forall u :: s <= u <= t ==> i < |run[u].nodes| && run[u].nodes[i].scan.Some?
    ensures ScanRead(run[t].nodes[i].scan, view, p, found)
  {
    hide IsRun; hide ScanRead; hide Mentions;
    if s < t {
      ReadPersists(cfg, run, s, t - 1, i, view, p, found);
      ReadMove(cfg, run, t - 1, i, view, p, found);
    }
  }

  /** The exact condition at one node: the height-1 block proposed from a scan references `p` if and only if
      the height-2 certificate of `p` was stored when the scan read it. */
  lemma ReadDecides(cfg: Config, run: seq<System>, s: nat, t: nat, i: NodeId, view: nat, p: NodeId, ready: bool,
                    b: Block)
    requires IsRun(cfg, run) && s < t && t + 1 < |run| && p < cfg.n
    requires CanMove(cfg, run[s], Local(i, Read(ready))) && run[s + 1] == Apply(cfg, run[s], Local(i, Read(ready)))
    requires run[s].nodes[i].scan == Some(Scan(view + 1, H1, p, run[s].nodes[i].scan.value.refs))
    requires forall u :: s < u <= t ==> i < |run[u].nodes| && run[u].nodes[i].scan.Some?
    requires ProposeMsg(b) in run[t + 1].sent && ProposeMsg(b) !in run[t].sent && b.author == i
    ensures Mentions(b, p) <==> QcAt(run[s].nodes[i], Key(view, p), H2).Some?
  {
    var found := QcAt(run[s].nodes[i], Key(view, p), H2).Some?;
    FirstRead(cfg, run, s, i, view, p, ready);
    hide IsRun; hide ScanRead; hide Mentions; hide QcAt; hide CanMove; hide Apply;
    ReadPersists(cfg, run, s + 1, t, i, view, p, found);
    ReadMove(cfg, run, t, i, view, p, found);
  }

  lemma FirstRead(cfg: Config, run: seq<System>, s: nat, i: NodeId, view: nat, p: NodeId, ready: bool)
    requires IsRun(cfg, run) && s + 1 < |run| && p < cfg.n
    requires CanMove(cfg, run[s], Local(i, Read(ready))) && run[s + 1] == Apply(cfg, run[s], Local(i, Read(ready)))
    requires run[s].nodes[i].scan == Some(Scan(view + 1, H1, p, run[s].nodes[i].scan.value.refs))
    ensures i < |run[s + 1].nodes|
    ensures ScanRead(run[s + 1].nodes[i].scan, view, p, QcAt(run[s].nodes[i], Key(view, p), H2).Some?)
  {
    hide IsRun; hide SystemOk; hide ScanRead; hide QcAt; hide ScanStep; hide Apply; hide NodeOk; hide SentOk;
    hide NetOk; hide InstancesOk; hide ScanOk;
    RunOk(cfg, run, s);
    RunOk(cfg, run, s + 1);
    SystemSize(cfg, run[s]);
    SystemSize(cfg, run[s + 1]);
    NodeOfSystem(cfg, run[s], i);
    MovedNode(cfg, run[s], Local(i, Read(ready)), run[s + 1], i);
    BusyNode(cfg, i, run[s].nodes[i], run[s].sent);
    ReadFinds(cfg, i, run[s].nodes[i], view, p, ready);
  }
}
