/** Schedules of the lean protocol from final votes to reports. */
module LeanReports {
  import opened Blocks
  import opened Quorum
  import opened CommitLog
  import opened LeanSpb
  import opened LeanNode
  import opened LeanSystem
  import opened LeanInvariant
  import opened LeanTheorems
  import opened LeanTurnout
  import opened LeanSchedules
  import opened LeanViews
  import Elector

  // ----- Final votes -----

  /** What a node keeps while it counts final votes. */
  predicate SameElection(nd: Node, nd': Node) {
    nd'.coin == nd.coin && nd'.elector == nd.elector && nd'.coinViews == nd.coinViews
  }

  function Handled(cfg: Config, id: NodeId, nd: Node, m: Msg): (Node, Option<Msg>)
    requires cfg.n >= 1
  {
    var (nd', out) := Receive(cfg, id, nd, m, false);
    (nd'.(got := nd.got + {m}), out)
  }

  lemma FinEffect(cfg: Config, id: NodeId, nd: Node, fv: FinVote)
    requires cfg.n >= 1 && nd.progress.view == fv.view
    ensures var (nd', out) := Handled(cfg, id, nd, FinOf(fv));
      && NodeCalm(nd, nd', fv.view) && SameElection(nd, nd') && Waiting(nd', Key(fv.view, fv.author), fv)
      && FinVotesAt(nd', fv.view) == FinVotesAt(nd, fv.view) + {fv.author}
      && (|FinVotesAt(nd', fv.view)| == High(cfg.n) ==> out == Some(ElectMsg(id, fv.view)))
  {
    hide High; hide NodeCalm; hide Waiting; hide Route;
    var nd1 := nd.(finVotes := nd.finVotes[fv.view := FinVotesAt(nd, fv.view) + {fv.author}]);
    var nd2 := Route(nd1, Key(fv.view, fv.author), Fin(fv));
    RouteKeepsRest(nd1, Key(fv.view, fv.author), Fin(fv));
    RouteFinCalm(nd, nd1, nd2.(got := nd.got + {FinOf(fv)}), fv);
  }

  lemma RouteFinCalm(nd: Node, nd1: Node, nd': Node, fv: FinVote)
    requires nd1.instances == nd.instances && nd'.started == nd.started && nd'.progress == nd.progress
    requires nd'.instances == Route(nd1, Key(fv.view, fv.author), Fin(fv)).instances
    requires SameLater(nd, nd', fv.view)
    ensures NodeCalm(nd, nd', fv.view) && Waiting(nd', Key(fv.view, fv.author), fv)
  {
    hide SameLater;
  }

  lemma HearOne(cfg: Config, past: seq<System>, g: System, x: NodeId, fv: FinVote) returns (g': System)
    requires Idle(cfg, past, g, fv.view) && Runs(cfg, x) && Packet(x, FinOf(fv)) in g.net
    ensures Idle(cfg, past, g', fv.view) && Calm(g, g', true, fv.view) && Moved(g, g', [x])
    ensures SameElection(g.nodes[x], g'.nodes[x]) && Waiting(g'.nodes[x], Key(fv.view, fv.author), fv)
    ensures FinVotesAt(g'.nodes[x], fv.view) == FinVotesAt(g.nodes[x], fv.view) + {fv.author}
    ensures |FinVotesAt(g'.nodes[x], fv.view)| == High(cfg.n) ==> OnItsWay(cfg, g', ElectMsg(x, fv.view))
    ensures forall p :: p in g.net && p != Packet(x, FinOf(fv)) ==> p in g'.net
  {
    hide Reached; hide High; hide OnItsWay; hide Receive; hide FinVotesAt; hide Waiting;
    assert Awake(g.nodes[x], fv.view);
    FinEffect(cfg, x, g.nodes[x], fv);
    hide NodeCalm;
    g' := Do(cfg, past, g, x, Handle(FinOf(fv), false));
    forall i | 0 <= i < |g.nodes| ensures NodeCalm(g.nodes[i], g'.nodes[i], fv.view) {
      NodeCalmSelf(g.nodes[i], fv.view);
    }
    CalmAwake(cfg, g, g', true, fv.view, x);
  }

  /** A calm move of `x` alone leaves everyone awake. */
  lemma CalmAwake(cfg: Config, g: System, g': System, fin: bool, view: nat, x: NodeId)
    requires AllAwake(cfg, g, view) && Calm(g, g', fin, view) && Moved(g, g', [x]) && Runs(cfg, x)
    requires g'.nodes[x].coin.None?
    ensures AllAwake(cfg, g', view)
  {
    hide Calm;
    CalmNode(g, g', fin, view, x);
    hide SameLater; hide FaceOf; hide InstanceAt; hide Waiting;
    assert Awake(g.nodes[x], view);
  }

  /** The final votes of the nodes in `vs` are on their way to `x`. */
  ghost predicate Announced(g: System, x: NodeId, view: nat, vs: seq<NodeId>, qs: map<NodeId, BlockQc>) {
    forall a :: a in vs ==> a in qs && Packet(x, FinOf(FinVote(a, view, qs[a]))) in g.net
  }

  ghost predicate AllWaiting(nd: Node, view: nat, vs: seq<NodeId>, qs: map<NodeId, BlockQc>) {
    forall a :: a in vs ==> a in qs && Waiting(nd, Key(view, a), FinVote(a, view, qs[a]))
  }

  /** Node `x` handles the final votes of `vs`, the last of which makes it call an election. */
  lemma {:induction false} Hear(cfg: Config, past: seq<System>, g: System, x: NodeId, view: nat, vs: seq<NodeId>,
    qs: map<NodeId, BlockQc>) returns (g': System)
    requires Idle(cfg, past, g, view) && Runs(cfg, x) && Distinct(vs) && |vs| >= 1
    requires Announced(g, x, view, vs, qs) && (forall a :: a in vs ==> a !in FinVotesAt(g.nodes[x], view))
    requires |FinVotesAt(g.nodes[x], view)| + |vs| == High(cfg.n)
    ensures Idle(cfg, past, g', view) && Calm(g, g', true, view) && Moved(g, g', [x])
    ensures SameElection(g.nodes[x], g'.nodes[x]) && AllWaiting(g'.nodes[x], view, vs, qs)
    ensures OnItsWay(cfg, g', ElectMsg(x, view))
    decreases |vs|
  {
    hide Reached; hide High; hide OnItsWay; hide FinVotesAt; hide Waiting; hide NodeCalm; hide Awake; hide Calm;
    hide Moved;
    var a, rest := vs[0], vs[1..];
    assert a in vs;
    var fv := FinVote(a, view, qs[a]);
    var h := HearOne(cfg, past, g, x, fv);
    forall c | c in rest ensures c in qs && Packet(x, FinOf(FinVote(c, view, qs[c]))) in h.net && c != a {
      assert c in vs;
    }
    if rest == [] {
      g' := h;
    } else {
      g' := Hear(cfg, past, h, x, view, rest, qs);
      CalmTwice(g, h, g', true, view);
      MovedAgain(g, h, g', x);
      CalmWaiting(h, g', true, view, x, Key(view, a), fv);
    }
  }

  lemma MovedAgain(g: System, h: System, g': System, x: NodeId)
    requires Moved(g, h, [x]) && Moved(h, g', [x])
    ensures Moved(g, g', [x])
  {
  }

  lemma CalmAllWaiting(g: System, g': System, fin: bool, view: nat, x: NodeId, vs: seq<NodeId>,
    qs: map<NodeId, BlockQc>)
    requires Calm(g, g', fin, view) && x < |g.nodes| && AllWaiting(g.nodes[x], view, vs, qs)
    ensures |g'.nodes| == |g.nodes| && AllWaiting(g'.nodes[x], view, vs, qs)
  {
    hide NodeCalm; hide Waiting; hide Calm;
    CalmNode(g, g', fin, view, x);
    forall a | a in vs ensures Waiting(g'.nodes[x], Key(view, a), FinVote(a, view, qs[a])) {
      CalmWaiting(g, g', fin, view, x, Key(view, a), FinVote(a, view, qs[a]));
    }
  }

  /** All nodes in `xs` handle the final votes of `vs`. */
  lemma {:induction false} HearAll(cfg: Config, past: seq<System>, g: System, view: nat, xs: seq<NodeId>,
    vs: seq<NodeId>, qs: map<NodeId, BlockQc>) returns (g': System)
    requires Idle(cfg, past, g, view) && Distinct(xs) && Distinct(vs) && |vs| == High(cfg.n)
    requires forall x :: x in xs ==>
      Runs(cfg, x) && Announced(g, x, view, vs, qs) && FinVotesAt(g.nodes[x], view) == {}
    ensures Idle(cfg, past, g', view) && Calm(g, g', true, view) && Moved(g, g', xs)
    ensures forall x :: x in xs ==> AllWaiting(g'.nodes[x], view, vs, qs) && OnItsWay(cfg, g', ElectMsg(x, view))
    ensures forall x :: x in xs ==> SameElection(g.nodes[x], g'.nodes[x])
    decreases |xs|
  {
    assert High(cfg.n) >= 1;
    hide Reached; hide High; hide OnItsWay; hide Waiting; hide NodeCalm; hide Awake; hide Calm; hide AllWaiting;
    hide Moved; hide FinVotesAt; hide Announced; hide SameElection;
    if xs == [] {
      g' := g;
      CalmSelf(g, true, view);
      MovedNothing(g);
    } else {
      var x, rest := xs[0], xs[1..];
      assert x in xs;
      var h := Hear(cfg, past, g, x, view, vs, qs);
      forall y | y in rest ensures Runs(cfg, y) && Announced(h, y, view, vs, qs) && h.nodes[y] == g.nodes[y] {
        assert y in xs && y != x;
        MovedElsewhere(g, h, [x], y);
        StillAnnounced(g, h, [x], y, view, vs, qs);
      }
      g' := HearAll(cfg, past, h, view, rest, vs, qs);
      CalmTwice(g, h, g', true, view);
      assert xs == [x] + rest;
      MovedTwice(g, h, g', [x], rest);
      CalmOnItsWay(cfg, h, g', true, view, ElectMsg(x, view));
      CalmAllWaiting(h, g', true, view, x, vs, qs);
      MovedElsewhere(h, g', rest, x);
    }
  }

  lemma MovedNothing(g: System)
    ensures Moved(g, g, [])
  {
  }

  lemma MovedElsewhere(g: System, g': System, xs: seq<NodeId>, y: NodeId)
    requires Moved(g, g', xs) && y !in xs && y < |g.nodes|
    ensures |g'.nodes| == |g.nodes| && g'.nodes[y] == g.nodes[y]
  {
  }

  lemma StillAnnounced(g: System, g': System, xs: seq<NodeId>, y: NodeId, view: nat, vs: seq<NodeId>,
    qs: map<NodeId, BlockQc>)
    requires Moved(g, g', xs) && y !in xs && Announced(g, y, view, vs, qs)
    ensures Announced(g', y, view, vs, qs)
  {
  }

  // ----- Elections -----

  /** What the last share of a view leads to. */
  function Elected(cfg: Config, view: nat, shares: nat): Option<Coin>
    requires cfg.n >= 1
  {
    if shares == High(cfg.n) && LeaderOf(cfg, view).Some? then Some(Coin(view, LeaderOf(cfg, view).value, AskSpeed))
    else None
  }

  lemma ElectEffect(cfg: Config, id: NodeId, nd: Node, y: NodeId, view: nat)
    requires cfg.n >= 1 && nd.progress.view == view && nd.coin.None? && view !in nd.coinViews
    requires y !in Elector.AggregatorOf(nd.elector, view).used
    ensures var a := Elector.AggregatorOf(nd.elector, view);
      var nd' := Handled(cfg, id, nd, ElectMsg(y, view)).0;
      && NodeCalm(nd, nd', view) && nd'.coinViews == nd.coinViews && nd'.instances == nd.instances
      && Elector.AggregatorOf(nd'.elector, view) == Elector.Aggregator(a.elects + [y], a.used + {y})
      && nd'.coin == Elected(cfg, view, |a.elects| + 1)
  {
    hide High; hide NodeCalm; hide Elector.AddElect; hide Elector.LeaderOf; hide Elector.AggregatorOf;
    Elector.Share(nd.elector, cfg.n, cfg.coin, y, view);
    SameInstancesCalm(nd, Handled(cfg, id, nd, ElectMsg(y, view)).0, view);
  }

  lemma SameInstancesCalm(nd: Node, nd': Node, view: nat)
    requires nd'.started == nd.started && nd'.progress == nd.progress && nd'.instances == nd.instances
    requires SameLater(nd, nd', view)
    ensures NodeCalm(nd, nd', view)
  {
    hide SameLater;
  }

  lemma ElectOne(cfg: Config, past: seq<System>, g: System, x: NodeId, y: NodeId, view: nat) returns (g': System)
    requires Idle(cfg, past, g, view) && Runs(cfg, x) && Packet(x, ElectMsg(y, view)) in g.net
    requires view !in g.nodes[x].coinViews && y !in Elector.AggregatorOf(g.nodes[x].elector, view).used
    ensures Reached(cfg, past, g') && Calm(g, g', false, view) && Moved(g, g', [x])
    ensures forall p :: p in g.net && p != Packet(x, ElectMsg(y, view)) ==> p in g'.net
    ensures var a := Elector.AggregatorOf(g.nodes[x].elector, view);
      && g'.nodes[x].coinViews == g.nodes[x].coinViews && g'.nodes[x].started
      && Elector.AggregatorOf(g'.nodes[x].elector, view) == Elector.Aggregator(a.elects + [y], a.used + {y})
      && g'.nodes[x].coin == Elected(cfg, view, |a.elects| + 1)
  {
    hide Reached; hide High; hide OnItsWay; hide Receive; hide Elector.AggregatorOf; hide LeaderOf; hide Elected;
    assert Awake(g.nodes[x], view);
    ElectEffect(cfg, x, g.nodes[x], y, view);
    assert Handled(cfg, x, g.nodes[x], ElectMsg(y, view)).0.started by {
      CalmStarted(g.nodes[x], Handled(cfg, x, g.nodes[x], ElectMsg(y, view)).0, view);
    }
    hide NodeCalm;
    g' := Do(cfg, past, g, x, Handle(ElectMsg(y, view), false));
    forall i | 0 <= i < |g.nodes| ensures NodeCalm(g.nodes[i], g'.nodes[i], view) {
      NodeCalmSelf(g.nodes[i], view);
    }
  }

  lemma CalmStarted(nd: Node, nd': Node, view: nat)
    requires NodeCalm(nd, nd', view)
    ensures nd'.started == nd.started
  {
    hide InstanceAt; hide FaceOf; hide Waiting; hide SameLater;
  }

  /** The election messages of the nodes in `vs` are on their way to `x`. */
  ghost predicate Called(g: System, x: NodeId, view: nat, vs: seq<NodeId>) {
    forall y :: y in vs ==> Packet(x, ElectMsg(y, view)) in g.net
  }

  /** Node `x` handles the election messages of `vs` and learns the leader. */
  lemma {:induction false} Elect(cfg: Config, past: seq<System>, g: System, x: NodeId, view: nat, vs: seq<NodeId>,
    p: NodeId) returns (g': System)
    requires Idle(cfg, past, g, view) && Runs(cfg, x) && Distinct(vs) && |vs| >= 1 && Called(g, x, view, vs)
    requires view !in g.nodes[x].coinViews && LeaderOf(cfg, view) == Some(p)
    requires forall y :: y in vs ==> y !in Elector.AggregatorOf(g.nodes[x].elector, view).used
    requires |Elector.AggregatorOf(g.nodes[x].elector, view).elects| + |vs| == High(cfg.n)
    ensures Reached(cfg, past, g') && Calm(g, g', false, view) && Moved(g, g', [x])
    ensures g'.nodes[x].coin == Some(Coin(view, p, AskSpeed)) && g'.nodes[x].started
    decreases |vs|
  {
    hide Reached; hide High; hide Calm; hide Moved; hide LeaderOf; hide Awake; hide Elector.AggregatorOf;
    var y, rest := vs[0], vs[1..];
    assert y in vs;
    var h := ElectOne(cfg, past, g, x, y, view);
    if rest == [] {
      g' := h;
    } else {
      CalmAwake(cfg, g, h, false, view, x);
      forall z | z in rest ensures Packet(x, ElectMsg(z, view)) in h.net && z != y {
        assert z in vs;
      }
      g' := Elect(cfg, past, h, x, view, rest, p);
      CalmTwice(g, h, g', false, view);
      MovedAgain(g, h, g', x);
    }
  }

  // ----- Reports -----

  /** A report of `x` is on its way, without a certificate if `nil`. */
  ghost predicate Filed(cfg: Config, g: System, x: NodeId, view: nat, level: Level, nil: bool) {
    exists r :: OnItsWay(cfg, g, ReportMsg(r)) && Reads(r, x, view, level, nil)
  }

  predicate Reads(r: Report, x: NodeId, view: nat, level: Level, nil: bool) {
    r.author == x && r.view == view && r.level == level && (nil ==> r.qc.None?)
  }

  function LevelOfFace(f: Face): Level {
    if f.loQc.Some? && f.hiQc.Some? then Level2 else if f.loQc.Some? then Level1 else Level0
  }

  /** A report from this state carries no certificate. */
  predicate Blank(f: Face) {
    f.loQc.None? && f.preQc.None?
  }

  lemma ReportReads(id: NodeId, view: nat, x: Instance)
    ensures Reads(MakeReport(id, view, x), id, view, LevelOfFace(FaceOf(x)), Blank(FaceOf(x)))
  {
  }

  /** A node that sees neither a speed certificate nor both certificates goes on to its report. */
  lemma SettleEffect(id: NodeId, nd: Node, view: nat, p: NodeId, x: Instance)
    requires nd.coin == Some(Coin(view, p, AskSpeed)) && x == InstanceAt(nd, Key(view, p))
    requires !x.fast.isSpeedCert && !DecCert(x)
    ensures var nd1, nd2 := nd.(coin := Some(Coin(view, p, AskDec))), nd.(coin := Some(Coin(view, p, AskLevel)));
      && CoinStep(id, nd) == (nd1, None) && CoinStep(id, nd1) == (nd2, None)
      && CoinStep(id, nd2) ==
           (nd.(coin := None, coinViews := nd.coinViews + {view}), Some(ReportMsg(MakeReport(id, view, x))))
  {
    hide DecCert; hide MakeReport;
  }

  /** Node `x` has only changed what its election and its coin are about. */
  lemma SettledCalm(g: System, g': System, x: NodeId, view: nat)
    requires x < |g.nodes| == |g'.nodes| && g'.nodes == g.nodes[x := g'.nodes[x]] && g.sent <= g'.sent
    requires g'.nodes[x].started == g.nodes[x].started && g'.nodes[x].progress == g.nodes[x].progress
    requires g'.nodes[x].instances == g.nodes[x].instances && forall p :: p in g.net ==> p in g'.net
    requires SameLater(g.nodes[x], g'.nodes[x], view)
    ensures Calm(g, g', false, view) && Moved(g, g', [x])
  {
    hide NodeCalm; hide SameLater;
    forall i | 0 <= i < |g.nodes| ensures NodeCalm(g.nodes[i], g'.nodes[i], view) {
      NodeCalmSelf(g.nodes[i], view);
      if i == x {
        SameInstancesCalm(g.nodes[i], g'.nodes[i], view);
      }
    }
  }

  /** The questions of processCoin on a leader that is not decided, and the report. */
  lemma Tell(cfg: Config, past: seq<System>, g: System, x: NodeId, view: nat, p: NodeId) returns (g': System)
    requires Reached(cfg, past, g) && cfg.n >= 1 && |g.nodes| == cfg.n && Runs(cfg, x) && g.nodes[x].started
    requires g.nodes[x].coin == Some(Coin(view, p, AskSpeed))
    requires !FaceAt(g, x, Key(view, p)).sped && LevelOfFace(FaceAt(g, x, Key(view, p))) != Level2
    ensures Reached(cfg, past, g') && Calm(g, g', false, view) && Moved(g, g', [x]) && g'.nodes[x].coin.None?
    ensures var f := FaceAt(g, x, Key(view, p)); Filed(cfg, g', x, view, LevelOfFace(f), Blank(f))
  {
    hide Reached; hide CoinStep; hide OnItsWay; hide MakeReport;
    var i0 := InstanceAt(g.nodes[x], Key(view, p));
    SettleEffect(x, g.nodes[x], view, p, i0);
    ReportReads(x, view, i0);
    hide FaceOf; hide InstanceAt; hide Reads;
    var g1 := Do(cfg, past, g, x, Settle);
    var g2 := Do(cfg, past, g1, x, Settle);
    g' := Do(cfg, past, g2, x, Settle);
    assert OnItsWay(cfg, g', ReportMsg(MakeReport(x, view, i0)));
    SettledCalm(g, g', x, view);
  }

  // ----- Decisions -----

  /** In processCoin, node `i` has found both certificates of the leader: it commits the leader's height-1 block. */
  ghost predicate Decides(g: System, i: NodeId, b: Block) {
    && i < |g.nodes| && ProposeMsg(b) in g.sent && b.height.H1?
    && g.nodes[i].coin == Some(Coin(b.view, b.author, ReadHash(H1)))
  }

  lemma DecideEffect(id: NodeId, nd: Node, view: nat, p: NodeId, x: Instance)
    requires nd.coin == Some(Coin(view, p, AskSpeed)) && x == InstanceAt(nd, Key(view, p))
    requires !x.fast.isSpeedCert && DecCert(x) && x.lo.hash in nd.store
    ensures var nd1, nd2 := nd.(coin := Some(Coin(view, p, AskDec))), nd.(coin := Some(Coin(view, p, ReadHash(H1))));
      var nd3 := nd2.(gate := Enqueue(nd.gate, nd.store[x.lo.hash]), coin := Some(Coin(view, p, AskLevel)));
      && CoinStep(id, nd) == (nd1, None) && CoinStep(id, nd1) == (nd2, None) && CoinStep(id, nd2) == (nd3, None)
      && CoinStep(id, nd3) ==
           (nd3.(coin := None, coinViews := nd.coinViews + {view}), Some(ReportMsg(MakeReport(id, view, x))))
  {
    hide DecCert; hide MakeReport; hide Enqueue;
  }

  lemma Pin(cfg: Config, past: seq<System>, g: System) returns (now: seq<System>)
    requires Reached(cfg, past, g)
    ensures IsRun(cfg, now) && past <= now && |now| >= 1 && now[|now| - 1] == g && Reached(cfg, now, g)
  {
    hide Next; hide Initial;
    now :| IsRun(cfg, now) && past <= now && now[|now| - 1] == g;
  }

  lemma Earlier(cfg: Config, past: seq<System>, now: seq<System>, g: System)
    requires past <= now && Reached(cfg, now, g)
    ensures Reached(cfg, past, g)
  {
    hide Next; hide Initial;
    var run :| IsRun(cfg, run) && now <= run && run[|run| - 1] == g;
    assert past <= run;
  }

  lemma HashIsStored(cfg: Config, past: seq<System>, g: System, x: NodeId, k: Key)
    requires Reached(cfg, past, g) && |g.nodes| == cfg.n && x < cfg.n && InstanceAt(g.nodes[x], k).lo.qc.Some?
    ensures InstanceAt(g.nodes[x], k).lo.hash in g.nodes[x].store
  {
    hide IsRun; hide Reached; hide InstanceAt; hide Certified; hide Hash;
    var now := Pin(cfg, past, g);
    HeldIsCertified(cfg, now, |now| - 1, x, k, H1);
  }

  /** The questions of processCoin on a leader with both certificates: the decision, and the report. */
  lemma Decide(cfg: Config, past: seq<System>, g: System, x: NodeId, b: Block) returns (now: seq<System>, g': System)
    requires Reached(cfg, past, g) && cfg.n >= 1 && |g.nodes| == cfg.n && Runs(cfg, x) && g.nodes[x].started
    requires g.nodes[x].coin == Some(Coin(b.view, b.author, AskSpeed)) && ProposeMsg(b) in g.sent && b.height.H1?
    requires var f := FaceAt(g, x, Key(b.view, b.author)); !f.sped && LevelOfFace(f) == Level2
    ensures past <= now && |now| >= 1 && Decides(now[|now| - 1], x, b)
    ensures Reached(cfg, now, g') && Calm(g, g', false, b.view) && Moved(g, g', [x]) && g'.nodes[x].coin.None?
    ensures Filed(cfg, g', x, b.view, Level2, false)
  {
    hide Reached; hide CoinStep; hide OnItsWay; hide MakeReport; hide Enqueue; hide IsRun;
    var k := Key(b.view, b.author);
    var i0 := InstanceAt(g.nodes[x], k);
    HashIsStored(cfg, past, g, x, k);
    DecideEffect(x, g.nodes[x], b.view, b.author, i0);
    ReportReads(x, b.view, i0);
    hide FaceOf; hide InstanceAt;
    var g1 := Do(cfg, past, g, x, Settle);
    var g2 := Do(cfg, past, g1, x, Settle);
    now := Pin(cfg, past, g2);
    assert Decides(g2, x, b);
    var g3 := Do(cfg, now, g2, x, Settle);
    g' := Do(cfg, now, g3, x, Settle);
    assert OnItsWay(cfg, g', ReportMsg(MakeReport(x, b.view, i0)));
    SettledCalm(g, g', x, b.view);
  }

  // ----- A quorum reports -----

  lemma StillFiled(cfg: Config, g: System, g': System, fin: bool, view: nat, x: NodeId, u: nat, level: Level, nil: bool)
    requires Calm(g, g', fin, view) && Filed(cfg, g, x, u, level, nil)
    ensures Filed(cfg, g', x, u, level, nil)
  {
    hide Calm; hide OnItsWay;
    var r :| OnItsWay(cfg, g, ReportMsg(r)) && Reads(r, x, u, level, nil);
    CalmOnItsWay(cfg, g, g', fin, view, ReportMsg(r));
  }

  /** Node `x` elects the leader and reports on it. */
  lemma Answer(cfg: Config, past: seq<System>, g: System, x: NodeId, view: nat, vs: seq<NodeId>, p: NodeId)
    returns (g': System)
    requires Idle(cfg, past, g, view) && Runs(cfg, x) && Distinct(vs) && |vs| == High(cfg.n)
    requires Called(g, x, view, vs) && Undecided(g.nodes[x], view) && LeaderOf(cfg, view) == Some(p)
    requires !FaceAt(g, x, Key(view, p)).sped && LevelOfFace(FaceAt(g, x, Key(view, p))) != Level2
    ensures Idle(cfg, past, g', view) && Calm(g, g', false, view) && Moved(g, g', [x])
    ensures var f := FaceAt(g, x, Key(view, p)); Filed(cfg, g', x, view, LevelOfFace(f), Blank(f))
  {
    assert High(cfg.n) >= 1;
    hide Reached; hide High; hide Calm; hide Moved; hide FaceAt; hide LeaderOf; hide Awake; hide Filed;
    hide Elector.AggregatorOf;
    var h := Elect(cfg, past, g, x, view, vs, p);
    CalmFace(g, h, false, view, x, Key(view, p));
    g' := Tell(cfg, past, h, x, view, p);
    CalmTwice(g, h, g', false, view);
    MovedAgain(g, h, g', x);
    CalmAwake(cfg, g, g', false, view, x);
  }

  lemma StillCalled(g: System, g': System, xs: seq<NodeId>, y: NodeId, view: nat, vs: seq<NodeId>)
    requires Moved(g, g', xs) && y !in xs && Called(g, y, view, vs)
    ensures Called(g', y, view, vs)
  {
  }

  /** What a node is going to report about `p`. */
  predicate WillReport(f: Face, level: Level, nil: bool) {
    !f.sped && LevelOfFace(f) == level && level != Level2 && (nil ==> Blank(f))
  }

  lemma {:induction false} AnswerAll(cfg: Config, past: seq<System>, g: System, view: nat, xs: seq<NodeId>,
    vs: seq<NodeId>, p: NodeId, level: Level, nil: bool) returns (g': System)
    requires Idle(cfg, past, g, view) && Distinct(xs) && Distinct(vs) && |vs| == High(cfg.n)
    requires LeaderOf(cfg, view) == Some(p)
    requires forall x :: x in xs ==> Runs(cfg, x) && Called(g, x, view, vs) && Undecided(g.nodes[x], view)
    requires forall x :: x in xs ==> WillReport(FaceAt(g, x, Key(view, p)), level, nil)
    ensures Idle(cfg, past, g', view) && Calm(g, g', false, view) && Moved(g, g', xs)
    ensures forall x :: x in xs ==> Filed(cfg, g', x, view, level, nil)
    decreases |xs|
  {
    hide Reached; hide High; hide Calm; hide FaceAt; hide LeaderOf; hide Awake; hide Moved; hide Called;
    hide Undecided; hide LevelOfFace; hide Blank;
    if xs == [] {
      g' := g;
      CalmSelf(g, false, view);
      MovedNothing(g);
    } else {
      var x, rest := xs[0], xs[1..];
      assert x in xs;
      var h := Answer(cfg, past, g, x, view, vs, p);
      hide Reads;
      FiledAnyway(cfg, h, x, view, level, Blank(FaceAt(g, x, Key(view, p))), nil);
      hide Filed;
      forall y | y in rest ensures
        Runs(cfg, y) && Called(h, y, view, vs) && Undecided(h.nodes[y], view) &&
        WillReport(FaceAt(h, y, Key(view, p)), level, nil)
      {
        assert y in xs && y != x;
        MovedElsewhere(g, h, [x], y);
        StillCalled(g, h, [x], y, view, vs);
        CalmFace(g, h, false, view, y, Key(view, p));
      }
      g' := AnswerAll(cfg, past, h, view, rest, vs, p, level, nil);
      CalmTwice(g, h, g', false, view);
      assert xs == [x] + rest;
      MovedTwice(g, h, g', [x], rest);
      StillFiled(cfg, h, g', false, view, x, view, level, nil);
    }
  }

  lemma FiledAnyway(cfg: Config, g: System, x: NodeId, view: nat, level: Level, blank: bool, nil: bool)
    requires Filed(cfg, g, x, view, level, blank) && (nil ==> blank)
    ensures Filed(cfg, g, x, view, level, nil)
  {
    hide OnItsWay;
    var r :| OnItsWay(cfg, g, ReportMsg(r)) && Reads(r, x, view, level, blank);
    assert Reads(r, x, view, level, nil);
  }
}
