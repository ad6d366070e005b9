/** Schedules that take all running nodes of the lean protocol from one view to the next. */
module LeanPasses {
  import opened Blocks
  import opened Quorum
  import opened LeanSpb
  import ViewChange
  import opened LeanNode
  import opened LeanSystem
  import opened LeanInvariant
  import opened LeanSafety
  import opened LeanSchedules
  import opened LeanViews
  import opened LeanReports
  import Elector

  // ----- Quorums -----

  lemma QuorumWith(cfg: Config, p: NodeId) returns (w: seq<NodeId>)
    requires Turnout(cfg) >= High(cfg.n) && Runs(cfg, p)
    ensures Quorate(cfg, w) && p in w
  {
    assert High(cfg.n) >= 1;
    hide High;
    var others := Others(cfg.faults, p, High(cfg.n) - 1);
    OthersDistinct(cfg.faults, p, High(cfg.n) - 1);
    assert forall i :: 0 <= i < |others| ==> others[i] in others;
    w := others + [p];
  }

  // ----- A quorum broadcasts and calls elections -----

  /** How far the broadcast of `p` is while the quorum `w` leaves the view: at its end if `p` is in `w`, at its
      beginning otherwise. */
  ghost predicate Standing(cfg: Config, g: System, view: nat, w: seq<NodeId>, p: NodeId, q: BlockQc)
    requires |g.nodes| == cfg.n && forall x :: x in w ==> x < cfg.n
  {
    if p in w then
      && FinOf(FinVote(p, view, q)) in g.sent && QcAt(q, view, H2, p)
      && forall x :: x in w ==> Knows(FaceAt(g, x, Key(view, p)), q)
    else Unused(cfg, g, Key(view, p)) && (Runs(cfg, p) ==> Proposed(cfg, g, p, view, false))
  }

  lemma CalmProposed(cfg: Config, g: System, g': System, fin: bool, view: nat, i: NodeId, u: nat, nil: bool)
    requires Proposed(cfg, g, i, u, nil) && Calm(g, g', fin, view)
    ensures Proposed(cfg, g', i, u, nil)
  {
    hide Calm; hide OnItsWay;
    var qc :| OnItsWay(cfg, g, ProposeMsg(First(i, u, qc))) && (nil ==> qc.None?);
    CalmOnItsWay(cfg, g, g', fin, view, ProposeMsg(First(i, u, qc)));
  }

  lemma CalmStanding(cfg: Config, g: System, g': System, fin: bool, view: nat, w: seq<NodeId>, p: NodeId, q: BlockQc)
    requires |g.nodes| == cfg.n && (forall x :: x in w ==> x < cfg.n) && Standing(cfg, g, view, w, p, q)
    requires Calm(g, g', fin, view)
    ensures |g'.nodes| == cfg.n && Standing(cfg, g', view, w, p, q)
  {
    assert |g'.nodes| == cfg.n && g.sent <= g'.sent;
    hide Calm; hide FaceAt; hide Knows; hide Proposed;
    forall i: NodeId | i < cfg.n ensures FaceAt(g', i, Key(view, p)) == FaceAt(g, i, Key(view, p)) {
      CalmFace(g, g', fin, view, i, Key(view, p));
    }
    if p !in w && Runs(cfg, p) {
      CalmProposed(cfg, g, g', fin, view, p, view, false);
    }
  }

  lemma StandingReports(cfg: Config, g: System, view: nat, w: seq<NodeId>, p: NodeId, q: BlockQc, x: NodeId)
    requires |g.nodes| == cfg.n && (forall y :: y in w ==> y < cfg.n) && Standing(cfg, g, view, w, p, q) && x in w
    ensures WillReport(FaceAt(g, x, Key(view, p)), if p in w then Level1 else Level0, p !in w)
  {
    hide FaceAt; hide Proposed;
  }

  lemma AheadUnused(cfg: Config, g: System, view: nat, a: NodeId)
    requires Ahead(cfg, g, view)
    ensures |g.nodes| == cfg.n && Unused(cfg, g, Key(view, a))
  {
    hide FaceOf; hide InstanceAt; hide Fresh;
    forall i: NodeId | i < cfg.n ensures FaceAt(g, i, Key(view, a)) == NewFace(Key(view, a)) {
      assert NodeAhead(g.nodes[i], view);
    }
  }

  lemma AheadFresh(cfg: Config, g: System, view: nat, i: NodeId)
    requires Ahead(cfg, g, view) && i < cfg.n
    ensures |g.nodes| == cfg.n && Undecided(g.nodes[i], view) && FinVotesAt(g.nodes[i], view) == {}
  {
    assert NodeAhead(g.nodes[i], view);
    hide FaceOf; hide InstanceAt;
  }

  lemma StillFresh(g: System, g': System, ks: set<Key>, view: nat, i: NodeId)
    requires Aside(g, g', ks) && i < |g.nodes| && Undecided(g.nodes[i], view) && FinVotesAt(g.nodes[i], view) == {}
    ensures |g'.nodes| == |g.nodes| && Undecided(g'.nodes[i], view) && FinVotesAt(g'.nodes[i], view) == {}
  {
    hide InstanceAt; hide Concerns; hide Elector.AggregatorOf;
  }

  /** The quorum `w` broadcasts. */
  lemma BroadcastAll(cfg: Config, past: seq<System>, g: System, view: nat, w: seq<NodeId>, p: NodeId)
    returns (g': System, q: BlockQc, qs: map<NodeId, BlockQc>)
    requires Entered(cfg, past, g, view, false) && Quorate(cfg, w)
    ensures Idle(cfg, past, g', view) && Standing(cfg, g', view, w, p, q) && Ahead(cfg, g', view + 1)
    ensures g.sent <= g'.sent
    ensures forall i: NodeId :: i < cfg.n ==>
      Announced(g', i, view, w, qs) && Undecided(g'.nodes[i], view) && FinVotesAt(g'.nodes[i], view) == {}
    ensures p in w ==> p in qs && q == qs[p]
  {
    hide Reached; hide High; hide Awake; hide FaceAt; hide Unused; hide Aside; hide Knows; hide OnItsWay; hide Ahead;
    hide Proposed; hide Undecided; hide FinVotesAt;
    forall a: NodeId ensures Unused(cfg, g, Key(view, a)) {
      AheadUnused(cfg, g, view, a);
    }
    g', qs := Broadcasts(cfg, past, g, view, w, w);
    q := if p in w then qs[p] else BlockQc(view, H2, p, ZERO);
    forall i: NodeId | i < cfg.n ensures
      Announced(g', i, view, w, qs) && Undecided(g'.nodes[i], view) && FinVotesAt(g'.nodes[i], view) == {}
    {
      OverAnnounced(cfg, g', view, w, qs, i);
      AheadFresh(cfg, g, view, i);
      StillFresh(g, g', Keys(view, w), view, i);
    }
    AheadLater(cfg, g, view);
    AsideAhead(cfg, g, g', Keys(view, w), view + 1);
    AsideSent(g, g', Keys(view, w));
    if p in w {
      Arrived(cfg, g', FinOf(FinVote(p, view, q)));
    } else {
      StillUnused(cfg, g, g', Keys(view, w), Key(view, p));
      if Runs(cfg, p) {
        StillProposed(cfg, g, g', Keys(view, w), p, view, false);
      }
    }
  }

  lemma AsideSent(g: System, g': System, ks: set<Key>)
    requires Aside(g, g', ks)
    ensures g.sent <= g'.sent
  {
    hide NodeAside; hide Concerns;
  }

  lemma CalmSent(g: System, g': System, fin: bool, view: nat)
    requires Calm(g, g', fin, view)
    ensures g.sent <= g'.sent
  {
    hide NodeCalm;
  }

  lemma Arrived(cfg: Config, g: System, m: Msg)
    requires OnItsWay(cfg, g, m)
    ensures m in g.sent
  {
  }

  lemma OverAnnounced(cfg: Config, g: System, view: nat, w: seq<NodeId>, qs: map<NodeId, BlockQc>, x: NodeId)
    requires |g.nodes| == cfg.n && (forall y :: y in w ==> y < cfg.n) && x < cfg.n
    requires forall a :: a in w ==> a in qs && Over(cfg, g, view, a, w, qs[a])
    ensures Announced(g, x, view, w, qs)
  {
    hide FaceAt; hide Knows;
  }

  /** The quorum `w` broadcasts, and its members call elections. */
  lemma Gather(cfg: Config, past: seq<System>, g: System, view: nat, w: seq<NodeId>, p: NodeId)
    returns (g': System, q: BlockQc)
    requires Entered(cfg, past, g, view, false) && Quorate(cfg, w)
    ensures Idle(cfg, past, g', view) && Standing(cfg, g', view, w, p, q) && Ahead(cfg, g', view + 1)
    ensures g.sent <= g'.sent
    ensures forall i: NodeId :: i < cfg.n ==> Called(g', i, view, w) && Undecided(g'.nodes[i], view)
    ensures p in w ==> forall x :: x in w ==> Waiting(g'.nodes[x], Key(view, p), FinVote(p, view, q))
  {
    hide Reached; hide High; hide Awake; hide FaceAt; hide Standing; hide Calm; hide Waiting; hide Announced;
    hide OnItsWay; hide SameElection; hide Undecided; hide Ahead; hide Proposed; hide FinVotesAt; hide Moved;
    var g1, q1, qs := BroadcastAll(cfg, past, g, view, w, p);
    q := q1;
    g' := HearAll(cfg, past, g1, view, w, w, qs);
    CalmStanding(cfg, g1, g', true, view, w, p, q);
    CalmAhead(cfg, g1, g', true, view);
    CalmSent(g1, g', true, view);
    forall i: NodeId | i < cfg.n ensures Called(g', i, view, w) && Undecided(g'.nodes[i], view) {
      AllCalled(cfg, g', view, w, i);
      if i in w {
        StillUndecided(g1.nodes[i], g'.nodes[i], view);
      } else {
        MovedElsewhere(g1, g', w, i);
      }
    }
  }

  lemma AllCalled(cfg: Config, g: System, view: nat, w: seq<NodeId>, x: NodeId)
    requires x < cfg.n && forall y :: y in w ==> OnItsWay(cfg, g, ElectMsg(y, view))
    ensures Called(g, x, view, w)
  {
  }

  lemma StillUndecided(nd: Node, nd': Node, view: nat)
    requires Undecided(nd, view) && SameElection(nd, nd')
    ensures Undecided(nd', view)
  {
  }

  /** The quorum `w` broadcasts, elects the leader `p` and reports on the view; the other nodes can still do so. */
  lemma LeaveView(cfg: Config, past: seq<System>, g: System, view: nat, w: seq<NodeId>, p: NodeId)
    returns (g': System, q: BlockQc)
    requires Entered(cfg, past, g, view, false) && Quorate(cfg, w) && LeaderOf(cfg, view) == Some(p)
    ensures Idle(cfg, past, g', view) && Standing(cfg, g', view, w, p, q) && Ahead(cfg, g', view + 1)
    ensures g.sent <= g'.sent
    ensures forall x :: x in w ==> Filed(cfg, g', x, view, if p in w then Level1 else Level0, p !in w)
    ensures p in w ==> forall x :: x in w ==> Waiting(g'.nodes[x], Key(view, p), FinVote(p, view, q))
    ensures forall y: NodeId :: y < cfg.n && y !in w ==> Called(g', y, view, w) && Undecided(g'.nodes[y], view)
  {
    hide Reached; hide High; hide Awake; hide FaceAt; hide Standing; hide LeaderOf; hide Calm; hide Waiting;
    hide WillReport; hide Filed; hide Undecided; hide Ahead; hide Proposed; hide Moved; hide Called;
    var h, q1 := Gather(cfg, past, g, view, w, p);
    q := q1;
    var level := if p in w then Level1 else Level0;
    forall x | x in w ensures WillReport(FaceAt(h, x, Key(view, p)), level, p !in w) {
      StandingReports(cfg, h, view, w, p, q, x);
    }
    g' := AnswerAll(cfg, past, h, view, w, w, p, level, p !in w);
    CalmStanding(cfg, h, g', false, view, w, p, q);
    CalmAhead(cfg, h, g', false, view);
    CalmSent(h, g', false, view);
    forall x | x in w && p in w ensures Waiting(g'.nodes[x], Key(view, p), FinVote(p, view, q)) {
      CalmWaiting(h, g', false, view, x, Key(view, p), FinVote(p, view, q));
    }
    forall y: NodeId | y < cfg.n && y !in w ensures Called(g', y, view, w) && Undecided(g'.nodes[y], view) {
      MovedElsewhere(h, g', w, y);
      StillCalled(h, g', w, y, view, w);
    }
  }

  // ----- The view change -----

  /** How many reports of a level complete it. */
  function Needed(level: Level, high: nat): nat {
    if level.Level2? then 1 else high
  }

  function Times(level: Level, k: nat): ViewChange.Tally {
    match level
    case Level2 => ViewChange.Tally(k, 0, 0)
    case Level1 => ViewChange.Tally(0, k, 0)
    case Level0 => ViewChange.Tally(0, 0, k)
  }

  /** A node that has handled `k` reports of this level on its view and no other reports. */
  ghost predicate Counting(nd: Node, view: nat, level: Level, k: nat) {
    && nd.started && nd.coin.None? && nd.progress.view == view && ViewChange.At(nd.progress, view) == Times(level, k)
    && forall u: nat :: u > view ==> ViewChange.At(nd.progress, u) == ViewChange.Tally(0, 0, 0)
  }

  lemma AwakeCounts(nd: Node, view: nat, level: Level)
    requires Awake(nd, view)
    ensures Counting(nd, view, level, 0)
  {
    hide ViewChange.At;
  }

  predicate SameRest(nd: Node, nd': Node) {
    && nd'.instances == nd.instances && nd'.elector == nd.elector && nd'.coinViews == nd.coinViews
    && nd'.finVotes == nd.finVotes
  }

  lemma ReportEffect(cfg: Config, id: NodeId, nd: Node, r: Report, k: nat)
    requires cfg.n >= 1 && Counting(nd, r.view, r.level, k) && k < Needed(r.level, High(cfg.n))
    ensures var (nd', out) := Handled(cfg, id, nd, ReportMsg(r));
      && SameRest(nd, nd')
      && (k + 1 < Needed(r.level, High(cfg.n)) ==> Counting(nd', r.view, r.level, k + 1))
      && (k + 1 == Needed(r.level, High(cfg.n)) ==>
            Awake(nd', r.view + 1) && out == Some(ProposeMsg(First(id, r.view + 1, r.qc))))
  {
    assert High(cfg.n) >= 1;
    hide High; hide ViewChange.OnReport; hide ViewChange.At; hide Times; hide Needed;
    CountEffect(nd.progress, High(cfg.n), r.view, r.level, k);
  }

  lemma CountEffect(p: ViewChange.Progress, high: nat, view: nat, level: Level, k: nat)
    requires high >= 1 && p.view == view && ViewChange.At(p, view) == Times(level, k) && k < Needed(level, high)
    requires forall u: nat :: u > view ==> ViewChange.At(p, u) == ViewChange.Tally(0, 0, 0)
    ensures var (p', advanced) := ViewChange.OnReport(p, high, true, view, level);
      && (advanced <==> k + 1 == Needed(level, high)) && p'.view == (if advanced then view + 1 else view)
      && ViewChange.At(p', view) == Times(level, k + 1)
      && forall u: nat :: u > view ==> ViewChange.At(p', u) == ViewChange.Tally(0, 0, 0)
  {
    var p' := ViewChange.OnReport(p, high, true, view, level).0;
    forall u: nat | u > view ensures ViewChange.At(p', u) == ViewChange.Tally(0, 0, 0) {
      assert ViewChange.At(p', u) == ViewChange.At(p, u);
    }
  }

  /** Only node `i` has moved, and only on reports. */
  ghost predicate Adopted(g: System, g': System, i: NodeId) {
    && i < |g.nodes| == |g'.nodes| && g'.nodes == g.nodes[i := g'.nodes[i]] && SameRest(g.nodes[i], g'.nodes[i])
    && g.sent <= g'.sent && forall p :: p in g.net && !(p.to == i && p.m.ReportMsg?) ==> p in g'.net
  }

  lemma AdoptedTwice(g: System, h: System, g': System, i: NodeId)
    requires Adopted(g, h, i) && Adopted(h, g', i)
    ensures Adopted(g, g', i)
  {
  }

  lemma AdoptOne(cfg: Config, past: seq<System>, g: System, i: NodeId, r: Report, k: nat) returns (g': System)
    requires Reached(cfg, past, g) && cfg.n >= 1 && |g.nodes| == cfg.n && Runs(cfg, i)
    requires Packet(i, ReportMsg(r)) in g.net
    requires Counting(g.nodes[i], r.view, r.level, k) && k < Needed(r.level, High(cfg.n))
    ensures Reached(cfg, past, g') && Adopted(g, g', i)
    ensures forall p :: p in g.net && p != Packet(i, ReportMsg(r)) ==> p in g'.net
    ensures k + 1 < Needed(r.level, High(cfg.n)) ==> Counting(g'.nodes[i], r.view, r.level, k + 1)
    ensures k + 1 == Needed(r.level, High(cfg.n)) ==>
      Awake(g'.nodes[i], r.view + 1) && OnItsWay(cfg, g', ProposeMsg(First(i, r.view + 1, r.qc)))
  {
    hide Reached; hide High; hide OnItsWay; hide Receive; hide Needed; hide Times; hide ViewChange.At;
    ReportEffect(cfg, i, g.nodes[i], r, k);
    hide SameRest; hide Awake;
    g' := Do(cfg, past, g, i, Handle(ReportMsg(r), false));
  }

  /** A report of `x` is on its way to `i`. */
  ghost predicate FiledTo(g: System, i: NodeId, x: NodeId, view: nat, level: Level, nil: bool) {
    exists r :: Packet(i, ReportMsg(r)) in g.net && Reads(r, x, view, level, nil)
  }

  lemma StillFiledTo(g: System, g': System, o: Report, i: NodeId, x: NodeId, view: nat, level: Level, nil: bool)
    requires FiledTo(g, i, x, view, level, nil) && o.author != x
    requires forall p :: p in g.net && p != Packet(i, ReportMsg(o)) ==> p in g'.net
    ensures FiledTo(g', i, x, view, level, nil)
  {
    var r :| Packet(i, ReportMsg(r)) in g.net && Reads(r, x, view, level, nil);
    assert Packet(i, ReportMsg(r)) in g'.net;
  }

  /** Node `i` handles the reports of `xs`, the last of which completes their level, and enters the next view. */
  lemma {:induction false} Adopt(cfg: Config, past: seq<System>, g: System, i: NodeId, view: nat, xs: seq<NodeId>,
    level: Level, nil: bool, k: nat) returns (g': System)
    requires Reached(cfg, past, g) && cfg.n >= 1 && |g.nodes| == cfg.n && Runs(cfg, i) && Distinct(xs) && |xs| >= 1
    requires Counting(g.nodes[i], view, level, k) && k + |xs| == Needed(level, High(cfg.n))
    requires forall x :: x in xs ==> FiledTo(g, i, x, view, level, nil)
    ensures Reached(cfg, past, g') && Adopted(g, g', i)
    ensures Awake(g'.nodes[i], view + 1) && Proposed(cfg, g', i, view + 1, nil)
    decreases |xs|
  {
    hide Reached; hide High; hide OnItsWay; hide Needed; hide Counting; hide Awake; hide Adopted;
    var x, rest := xs[0], xs[1..];
    assert x in xs;
    assert FiledTo(g, i, x, view, level, nil);
    var r :| Packet(i, ReportMsg(r)) in g.net && Reads(r, x, view, level, nil);
    var h := AdoptOne(cfg, past, g, i, r, k);
    if rest == [] {
      g' := h;
    } else {
      forall y | y in rest ensures FiledTo(h, i, y, view, level, nil) {
        assert y in xs && y != x;
        StillFiledTo(g, h, r, i, y, view, level, nil);
      }
      assert |h.nodes| == cfg.n by { AdoptedSize(g, h, i); }
      g' := Adopt(cfg, past, h, i, view, rest, level, nil, k + 1);
      AdoptedTwice(g, h, g', i);
    }
  }

  lemma AdoptedSize(g: System, g': System, i: NodeId)
    requires Adopted(g, g', i)
    ensures |g'.nodes| == |g.nodes|
  {
  }

  // ----- All nodes enter the next view -----

  lemma AdoptedAhead(cfg: Config, g: System, g': System, i: NodeId, view: nat)
    requires Ahead(cfg, g, view) && Adopted(g, g', i)
    ensures Ahead(cfg, g', view)
  {
    hide NodeAhead;
    forall j | 0 <= j < cfg.n ensures NodeAhead(g'.nodes[j], view) {
      if j == i {
        SameRestAhead(g.nodes[j], g'.nodes[j], view);
      }
    }
  }

  lemma SameRestAhead(nd: Node, nd': Node, view: nat)
    requires NodeAhead(nd, view) && SameRest(nd, nd')
    ensures NodeAhead(nd', view)
  {
    hide FaceOf; hide Elector.AggregatorOf;
    forall u: nat | u >= view ensures Undecided(nd', u) && FinVotesAt(nd', u) == {} {
      assert Undecided(nd, u);
    }
    forall k: Key | k.view >= view ensures FaceOf(InstanceAt(nd', k)) == NewFace(k) {
      assert InstanceAt(nd', k) == InstanceAt(nd, k);
    }
  }

  lemma AdoptedProposed(cfg: Config, g: System, g': System, i: NodeId, j: NodeId, view: nat, nil: bool)
    requires Proposed(cfg, g, j, view, nil) && Adopted(g, g', i)
    ensures Proposed(cfg, g', j, view, nil)
  {
    hide SameRest;
    var qc :| OnItsWay(cfg, g, ProposeMsg(First(j, view, qc))) && (nil ==> qc.None?);
    assert OnItsWay(cfg, g', ProposeMsg(First(j, view, qc)));
  }

  lemma AdoptedFiledTo(g: System, g': System, i: NodeId, j: NodeId, x: NodeId, view: nat, level: Level, nil: bool)
    requires FiledTo(g, j, x, view, level, nil) && Adopted(g, g', i) && i != j
    ensures FiledTo(g', j, x, view, level, nil)
  {
    hide SameRest;
    var r :| Packet(j, ReportMsg(r)) in g.net && Reads(r, x, view, level, nil);
    assert Packet(j, ReportMsg(r)) in g'.net;
  }

  /** The nodes below `j` have entered the next view, the others have the reports of `xs` on their way. */
  ghost predicate Turning(cfg: Config, past: seq<System>, g: System, view: nat, xs: seq<NodeId>, level: Level,
                          nil: bool, 
    j: NodeId)
  {
    && Reached(cfg, past, g) && cfg.n >= 1 && Ahead(cfg, g, view + 1)
    && (forall i: NodeId :: Runs(cfg, i) && i < j ==>
          Awake(g.nodes[i], view + 1) && Proposed(cfg, g, i, view + 1, nil))
    && (forall i: NodeId :: Runs(cfg, i) && j <= i ==> Awake(g.nodes[i], view))
    && (forall i: NodeId, x :: Runs(cfg, i) && j <= i && x in xs ==> FiledTo(g, i, x, view, level, nil))
  }

  lemma TurnOne(cfg: Config, past: seq<System>, g: System, view: nat, xs: seq<NodeId>, level: Level, nil: bool,
    j: NodeId) returns (g': System)
    requires Turning(cfg, past, g, view, xs, level, nil, j) && j < cfg.n
    requires Distinct(xs) && |xs| == Needed(level, High(cfg.n))
    ensures Turning(cfg, past, g', view, xs, level, nil, j + 1)
  {
    assert |xs| >= 1;
    hide Reached; hide High; hide Awake; hide Proposed; hide FiledTo; hide Needed; hide Ahead;
    assert |g.nodes| == cfg.n by { AheadSize(cfg, g, view + 1); }
    if !Runs(cfg, j) {
      g' := g;
    } else {
      AwakeCounts(g.nodes[j], view, level);
      g' := Adopt(cfg, past, g, j, view, xs, level, nil, 0);
      AdoptedAhead(cfg, g, g', j, view + 1);
      forall i: NodeId | Runs(cfg, i) && i < j ensures Proposed(cfg, g', i, view + 1, nil) {
        AdoptedProposed(cfg, g, g', j, i, view + 1, nil);
      }
      forall i: NodeId, x | Runs(cfg, i) && j < i && x in xs ensures FiledTo(g', i, x, view, level, nil) {
        AdoptedFiledTo(g, g', j, i, x, view, level, nil);
      }
    }
  }

  lemma AheadSize(cfg: Config, g: System, view: nat)
    requires Ahead(cfg, g, view)
    ensures |g.nodes| == cfg.n
  {
  }

  lemma {:induction false} TurnAll(cfg: Config, past: seq<System>, g: System, view: nat, xs: seq<NodeId>, level: Level,
    nil: bool, j: NodeId) returns (g': System)
    requires Turning(cfg, past, g, view, xs, level, nil, j) && j <= cfg.n
    requires Distinct(xs) && |xs| == Needed(level, High(cfg.n))
    ensures Turning(cfg, past, g', view, xs, level, nil, cfg.n)
    decreases cfg.n - j
  {
    hide Turning; hide Needed; hide High;
    if j == cfg.n {
      g' := g;
    } else {
      var h := TurnOne(cfg, past, g, view, xs, level, nil, j);
      g' := TurnAll(cfg, past, h, view, xs, level, nil, j + 1);
    }
  }

  lemma FiledToAll(cfg: Config, g: System, x: NodeId, view: nat, level: Level, nil: bool, i: NodeId)
    requires Filed(cfg, g, x, view, level, nil) && i < cfg.n
    ensures FiledTo(g, i, x, view, level, nil)
  {
    var r :| OnItsWay(cfg, g, ReportMsg(r)) && Reads(r, x, view, level, nil);
    assert Packet(i, ReportMsg(r)) in g.net;
  }

  /** With enough reports on their way, all running nodes enter the next view. */
  lemma Turn(cfg: Config, past: seq<System>, g: System, view: nat, xs: seq<NodeId>, level: Level, nil: bool)
    returns (g': System)
    requires Idle(cfg, past, g, view) && Ahead(cfg, g, view + 1) && Distinct(xs) && |xs| == Needed(level, High(cfg.n))
    requires forall x :: x in xs ==> Filed(cfg, g, x, view, level, nil)
    ensures Entered(cfg, past, g', view + 1, nil)
  {
    hide Reached; hide High; hide Awake; hide Proposed; hide FiledTo; hide Needed; hide Ahead; hide Filed;
    forall i: NodeId, x | Runs(cfg, i) && x in xs ensures FiledTo(g, i, x, view, level, nil) {
      FiledToAll(cfg, g, x, view, level, nil, i);
    }
    g' := TurnAll(cfg, past, g, view, xs, level, nil, 0);
    AheadSize(cfg, g', view + 1);
  }

  // ----- The leader decides on itself -----

  lemma FinFace(x: Instance, fv: FinVote, high: nat)
    requires fv in x.end.onFin && fv.author == x.proposer && fv.view == x.view && x.hi.hash == fv.qc.hash
    ensures Pending(x, OnFin(fv)) && FaceOf(Run(x, high, OnFin(fv))) == FaceOf(x).(hiQc := Some(fv.qc))
  {
  }

  /** A node looks at a final vote. */
  lemma LookAt(cfg: Config, past: seq<System>, g: System, x: NodeId, view: nat, p: NodeId, q: BlockQc)
    returns (g': System)
    requires Idle(cfg, past, g, view) && Runs(cfg, x) && QcAt(q, view, H2, p)
    requires Waiting(g.nodes[x], Key(view, p), FinVote(p, view, q)) && Knows(FaceAt(g, x, Key(view, p)), q)
    ensures Idle(cfg, past, g', view) && Aside(g, g', {Key(view, p)})
    ensures FaceAt(g', x, Key(view, p)) == FaceAt(g, x, Key(view, p)).(hiQc := Some(q))
  {
    hide Reached; hide Run; hide High; hide NodeAside; hide Awake; hide Pending;
    var k, fv := Key(view, p), FinVote(p, view, q);
    FinFace(InstanceAt(g.nodes[x], k), fv, High(cfg.n));
    hide InstanceAt; hide FaceOf;
    g' := Work(cfg, past, g, x, k, OnFin(fv));
  }

  lemma AsideCalled(g: System, g': System, ks: set<Key>, x: NodeId, view: nat, vs: seq<NodeId>)
    requires Aside(g, g', ks) && Called(g, x, view, vs)
    ensures Called(g', x, view, vs)
  {
    hide NodeAside;
  }

  lemma AsideUndecided(g: System, g': System, ks: set<Key>, x: NodeId, view: nat)
    requires Aside(g, g', ks) && x < |g.nodes| && Undecided(g.nodes[x], view)
    ensures |g'.nodes| == |g.nodes| && Undecided(g'.nodes[x], view)
  {
    hide InstanceAt; hide Concerns; hide Elector.AggregatorOf;
  }

  lemma AsideFiled(cfg: Config, g: System, g': System, ks: set<Key>, x: NodeId, view: nat, level: Level, nil: bool)
    requires Aside(g, g', ks) && Filed(cfg, g, x, view, level, nil)
    ensures Filed(cfg, g', x, view, level, nil)
  {
    hide Aside; hide OnItsWay;
    var r :| OnItsWay(cfg, g, ReportMsg(r)) && Reads(r, x, view, level, nil);
    StillOnItsWay(cfg, g, g', ks, ReportMsg(r));
  }

  /** What a schedule does not undo: nothing happens in later views, and reports stay on their way. */
  ghost predicate Carried(cfg: Config, g: System, g': System, view: nat) {
    && (Ahead(cfg, g, view + 1) ==> Ahead(cfg, g', view + 1)) && g.sent <= g'.sent
    && forall x, level, nil :: Filed(cfg, g, x, view, level, nil) ==> Filed(cfg, g', x, view, level, nil)
  }

  lemma AsideCarried(cfg: Config, g: System, g': System, ks: set<Key>, view: nat)
    requires Aside(g, g', ks) && forall k :: k in ks ==> k.view == view
    ensures Carried(cfg, g, g', view)
  {
    hide Aside; hide Ahead; hide Filed;
    AsideSent(g, g', ks);
    if Ahead(cfg, g, view + 1) {
      AsideAhead(cfg, g, g', ks, view + 1);
    }
    forall x, level, nil | Filed(cfg, g, x, view, level, nil) ensures Filed(cfg, g', x, view, level, nil) {
      AsideFiled(cfg, g, g', ks, x, view, level, nil);
    }
  }

  lemma CalmCarried(cfg: Config, g: System, g': System, fin: bool, view: nat)
    requires Calm(g, g', fin, view)
    ensures Carried(cfg, g, g', view)
  {
    hide Calm; hide Ahead; hide Filed;
    CalmSent(g, g', fin, view);
    if Ahead(cfg, g, view + 1) {
      CalmAhead(cfg, g, g', fin, view);
    }
    forall x, level, nil | Filed(cfg, g, x, view, level, nil) ensures Filed(cfg, g', x, view, level, nil) {
      StillFiled(cfg, g, g', fin, view, x, view, level, nil);
    }
  }

  lemma CarriedTwice(cfg: Config, g: System, h: System, g': System, view: nat)
    requires Carried(cfg, g, h, view) && Carried(cfg, h, g', view)
    ensures Carried(cfg, g, g', view)
  {
    hide Ahead; hide Filed;
  }

  /** The leader `p`, whose final vote waits at itself, elects itself and commits its height-1 block. */
  lemma DecideLeader(cfg: Config, past: seq<System>, g: System, w: seq<NodeId>, b: Block, q: BlockQc)
    returns (now: seq<System>, g': System)
    requires Idle(cfg, past, g, b.view) && Quorate(cfg, w) && Runs(cfg, b.author) && QcAt(q, b.view, H2, b.author)
    requires Waiting(g.nodes[b.author], Key(b.view, b.author), FinVote(b.author, b.view, q))
    requires Knows(FaceAt(g, b.author, Key(b.view, b.author)), q) && ProposeMsg(b) in g.sent && b.height.H1?
    requires Called(g, b.author, b.view, w) && Undecided(g.nodes[b.author], b.view)
    requires LeaderOf(cfg, b.view) == Some(b.author)
    ensures past <= now && |now| >= 1 && Decides(now[|now| - 1], b.author, b)
    ensures Idle(cfg, now, g', b.view) && Carried(cfg, g, g', b.view)
    ensures Filed(cfg, g', b.author, b.view, Level2, false)
  {
    assert High(cfg.n) >= 1;
    var p, view, k := b.author, b.view, Key(b.view, b.author);
    hide Reached; hide High; hide Awake; hide Aside; hide Calm; hide Moved; hide Carried; hide Waiting; hide LeaderOf;
    hide Called; hide FaceAt; hide Filed; hide Decides;
    var g1 := LookAt(cfg, past, g, p, view, p, q);
    AsideCalled(g, g1, {k}, p, view, w);
    AsideUndecided(g, g1, {k}, p, view);
    AsideCarried(cfg, g, g1, {k}, view);
    var g2 := ElectAll(cfg, past, g1, p, view, w);
    CalmFace(g1, g2, false, view, p, k);
    CalmCarried(cfg, g1, g2, false, view);
    CarriedTwice(cfg, g, g1, g2, view);
    assert ProposeMsg(b) in g2.sent by { CarriedSent(cfg, g, g2, view); }
    now, g' := Decide(cfg, past, g2, p, b);
    CalmTwice(g1, g2, g', false, view);
    MovedAgain(g1, g2, g', p);
    CalmAwake(cfg, g1, g', false, view, p);
    CalmCarried(cfg, g1, g', false, view);
    CarriedTwice(cfg, g, g1, g', view);
  }

  lemma CarriedSent(cfg: Config, g: System, g': System, view: nat)
    requires Carried(cfg, g, g', view)
    ensures g.sent <= g'.sent
  {
    hide Ahead; hide Filed;
  }

  /** An undecided node handles the election messages of a quorum. */
  lemma ElectAll(cfg: Config, past: seq<System>, g: System, x: NodeId, view: nat, w: seq<NodeId>) returns (g': System)
    requires Idle(cfg, past, g, view) && Runs(cfg, x) && Quorate(cfg, w) && Called(g, x, view, w)
    requires Undecided(g.nodes[x], view) && LeaderOf(cfg, view).Some?
    ensures Reached(cfg, past, g') && |g'.nodes| == cfg.n && Calm(g, g', false, view) && Moved(g, g', [x])
    ensures g'.nodes[x].coin == Some(Coin(view, LeaderOf(cfg, view).value, AskSpeed)) && g'.nodes[x].started
  {
    assert High(cfg.n) >= 1;
    hide Reached; hide High; hide Awake; hide Calm; hide LeaderOf; hide Called;
    g' := Elect(cfg, past, g, x, view, w, LeaderOf(cfg, view).value);
  }

  // ----- Passing a view -----

  /** A view with a running leader: the leader commits its block, and its report takes everyone to the next view. */
  lemma PassHeard(cfg: Config, past: seq<System>, g: System, view: nat, p: NodeId)
    returns (now: seq<System>, g': System, b: Block)
    requires Entered(cfg, past, g, view, false) && LeaderOf(cfg, view) == Some(p) && Runs(cfg, p)
    requires Turnout(cfg) >= High(cfg.n)
    ensures past <= now && |now| >= 1 && Decides(now[|now| - 1], p, b) && b.view == view && b.author == p
    ensures Entered(cfg, now, g', view + 1, false)
  {
    hide Reached; hide High; hide Awake; hide Aside; hide Waiting; hide LeaderOf; hide Called; hide FaceAt; hide Filed;
    hide Decides; hide Ahead; hide OnItsWay; hide Undecided; hide Knows;
    var w := QuorumWith(cfg, p);
    var qc :| OnItsWay(cfg, g, ProposeMsg(First(p, view, qc)));
    b := First(p, view, qc);
    Arrived(cfg, g, ProposeMsg(b));
    var h, q := Gather(cfg, past, g, view, w, p);
    hide Quorate;
    now, g' := DecideLeader(cfg, past, h, w, b, q);
    g' := Turn(cfg, now, g', view, [p], Level2, false);
  }

  /** A view with a silent leader: a quorum reports LEVEL_0, and everyone starts the next view without a
      certificate. */
  lemma PassSilent(cfg: Config, past: seq<System>, g: System, view: nat, p: NodeId) returns (g': System)
    requires Entered(cfg, past, g, view, false) && LeaderOf(cfg, view) == Some(p) && p < cfg.faults
    requires Turnout(cfg) >= High(cfg.n)
    ensures Entered(cfg, past, g', view + 1, true)
  {
    hide Reached; hide High; hide Awake; hide Waiting; hide LeaderOf; hide Called; hide FaceAt; hide Filed;
    hide Ahead; hide Undecided; hide Standing; hide Proposed;
    var w := QuorumWithout(cfg.n, cfg.faults, p);
    var h, q := LeaveView(cfg, past, g, view, w, p);
    g' := Turn(cfg, past, h, view, w, Level0, true);
  }

  /** A view whose leader commits its block although a quorum has reported LEVEL_0, so that everyone starts the next
      view without a certificate. */
  lemma PassFork(cfg: Config, past: seq<System>, g: System, view: nat, p: NodeId)
    returns (now: seq<System>, g': System, b: Block)
    requires Entered(cfg, past, g, view, false) && LeaderOf(cfg, view) == Some(p) && Runs(cfg, p)
    requires Turnout(cfg) > High(cfg.n)
    ensures past <= now && |now| >= 1 && Decides(now[|now| - 1], p, b) && b.view == view && b.author == p
    ensures Entered(cfg, now, g', view + 1, true)
  {
    hide Reached; hide High; hide Awake; hide Aside; hide Waiting; hide LeaderOf; hide Called; hide FaceAt; hide Filed;
    hide Decides; hide Ahead; hide OnItsWay; hide Undecided; hide Knows; hide Unused; hide Calm; hide Moved;
    hide Carried;
    var w := QuorumWithout(cfg.n, cfg.faults, p);
    var g1, _ := LeaveView(cfg, past, g, view, w, p);
    var h, o, q := CatchUp(cfg, past, g1, view, w, p);
    b := o;
    now, g' := DecideLeader(cfg, past, h, w, b, q);
    CarriedTwice(cfg, g1, h, g', view);
    CarriedParts(cfg, g1, g', view, w);
    g' := Turn(cfg, now, g', view, w, Level0, true);
  }

  lemma CarriedParts(cfg: Config, g: System, g': System, view: nat, w: seq<NodeId>)
    requires Carried(cfg, g, g', view) && Ahead(cfg, g, view + 1)
    requires forall x :: x in w ==> Filed(cfg, g, x, view, Level0, true)
    ensures Ahead(cfg, g', view + 1) && forall x :: x in w ==> Filed(cfg, g', x, view, Level0, true)
  {
    hide Ahead; hide Filed;
  }

  lemma CalmCalled(g: System, g': System, view: nat, x: NodeId, vs: seq<NodeId>)
    requires Calm(g, g', true, view) && Called(g, x, view, vs)
    ensures Called(g', x, view, vs)
  {
    hide NodeCalm;
  }

  /** A node that the others have left behind broadcasts and receives its final vote. */
  lemma CatchUp(cfg: Config, past: seq<System>, g: System, view: nat, w: seq<NodeId>, p: NodeId)
    returns (g': System, b: Block, q: BlockQc)
    requires Idle(cfg, past, g, view) && Runs(cfg, p) && Turnout(cfg) >= High(cfg.n)
    requires Unused(cfg, g, Key(view, p)) && Proposed(cfg, g, p, view, false)
    requires Called(g, p, view, w) && Undecided(g.nodes[p], view)
    ensures Idle(cfg, past, g', view) && Carried(cfg, g, g', view) && QcAt(q, view, H2, p)
    ensures ProposeMsg(b) in g'.sent && b.author == p && b.view == view && b.height.H1?
    ensures Waiting(g'.nodes[p], Key(view, p), FinVote(p, view, q)) && Knows(FaceAt(g', p, Key(view, p)), q)
    ensures Called(g', p, view, w) && Undecided(g'.nodes[p], view)
  {
    hide Reached; hide High; hide Awake; hide Aside; hide Waiting; hide Called; hide FaceAt; hide Knows; hide Unused;
    hide Undecided; hide Carried; hide Calm;
    var k := Key(view, p);
    var qc :| OnItsWay(cfg, g, ProposeMsg(First(p, view, qc)));
    b := First(p, view, qc);
    Arrived(cfg, g, ProposeMsg(b));
    var v := QuorumWith(cfg, p);
    var h, o := BroadcastOf(cfg, past, g, view, p, v);
    q := o;
    AsideCalled(g, h, {k}, p, view, w);
    AsideUndecided(g, h, {k}, p, view);
    AsideCarried(cfg, g, h, {k}, view);
    assert Packet(p, FinOf(FinVote(p, view, q))) in h.net;
    hide OnItsWay;
    g' := HearOne(cfg, past, h, p, FinVote(p, view, q));
    CalmFace(h, g', true, view, p, k);
    CalmCalled(h, g', view, p, w);
    StillUndecided(h.nodes[p], g'.nodes[p], view);
    CalmCarried(cfg, h, g', true, view);
    CarriedTwice(cfg, g, h, g', view);
    CarriedSent(cfg, g, g', view);
  }
}
