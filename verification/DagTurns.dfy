/** Schedules in which nodes of the DAG protocol move to the next layer. */
module DagTurns {
  import opened Blocks
  import opened Quorum
  import opened DagNode
  import opened DagSystem
  import opened DagSchedules
  import opened DagLayers
  import Spb
  import opened DagRuns
  import opened DagInvariant
  import opened DagSafety
  import DagTheorems
  import Elector

  // ----- Frames -----

  ghost predicate NodeCalm(nd: Node, nd': Node) {
    nd'.started == nd.started && forall k: Key :: FaceOf(InstanceAt(nd', k)) == FaceOf(InstanceAt(nd, k))
  }

  /** Only the nodes in `xs` have moved; instances have taken no step, and proposals and votes are still there. */
  ghost predicate Calm(g: System, g': System, xs: set<NodeId>) {
    && |g'.nodes| == |g.nodes| && g.sent <= g'.sent
    && (forall i :: 0 <= i < |g.nodes| ==> NodeCalm(g.nodes[i], g'.nodes[i]))
    && (forall i :: 0 <= i < |g.nodes| && i !in xs ==> g'.nodes[i] == g.nodes[i])
    && (forall p :: p in g.net && (p.to !in xs || p.m.ProposeMsg? || p.m.Voting?) ==> p in g'.net)
  }

  lemma CalmTwice(g: System, h: System, g': System, xs: set<NodeId>, ys: set<NodeId>)
    requires Calm(g, h, xs) && Calm(h, g', ys)
    ensures Calm(g, g', xs + ys)
  {
    hide InstanceAt; hide FaceOf;
  }

  lemma CalmSelf(g: System, xs: set<NodeId>)
    ensures Calm(g, g, xs)
  {
    hide InstanceAt; hide FaceOf;
  }

  lemma CalmSize(g: System, g': System, xs: set<NodeId>)
    requires Calm(g, g', xs)
    ensures |g'.nodes| == |g.nodes| && g.sent <= g'.sent
  {
    hide NodeCalm;
  }

  lemma CalmFace(g: System, g': System, xs: set<NodeId>, i: NodeId, k: Key)
    requires Calm(g, g', xs) && i < |g.nodes|
    ensures |g'.nodes| == |g.nodes| && FaceAt(g', i, k) == FaceAt(g, i, k)
  {
    assert NodeCalm(g.nodes[i], g'.nodes[i]);
    hide InstanceAt; hide FaceOf; hide Calm;
  }

  lemma CalmOnItsWay(cfg: Config, g: System, g': System, xs: set<NodeId>, b: Block)
    requires OnItsWay(cfg, g, ProposeMsg(b)) && Calm(g, g', xs)
    ensures OnItsWay(cfg, g', ProposeMsg(b))
  {
    hide NodeCalm;
  }

  lemma CalmLeft(g: System, g': System, xs: set<NodeId>, j: NodeId, b: Block, w: seq<NodeId>)
    requires Calm(g, g', xs) && Left(g, j, b, w)
    ensures Left(g', j, b, w)
  {
    hide NodeCalm;
  }

  // ----- The scan -----

  /** The node has certificates of this layer from the nodes in `w` and from no others. */
  ghost predicate HoldsLayer(cfg: Config, nd: Node, view: nat, h: Height, w: seq<NodeId>) {
    forall a: NodeId :: a < cfg.n ==>
      var qc := QcAt(nd, Key(view, a), h); (qc.Some? <==> a in w) && (qc.Some? ==> qc.value.proposer == a)
  }

  lemma {:induction false} ReferencesCount(cfg: Config, nd: Node, view: nat, h: Height, w: seq<NodeId>, n: nat)
    requires n <= cfg.n && HoldsLayer(cfg, nd, view, h, w)
    ensures |References(nd, n, view, h)| == |set a | a in w && a < n|
    ensures forall q :: q in References(nd, n, view, h) ==> q.proposer in w
  {
    hide QcAt;
    if n == 0 {
      assert (set a | a in w && a < n) == {};
    } else {
      ReferencesCount(cfg, nd, view, h, w, n - 1);
      var small := set a | a in w && a < n - 1;
      if n - 1 in w {
        assert (set a | a in w && a < n) == small + {n - 1};
      } else {
        assert (set a | a in w && a < n) == small;
      }
    }
  }

  lemma EnoughReferences(cfg: Config, nd: Node, view: nat, h: Height, w: seq<NodeId>)
    requires Quorate(cfg, w) && HoldsLayer(cfg, nd, view, h, w)
    ensures |References(nd, cfg.n, view, h)| == High(cfg.n)
    ensures forall q :: q in References(nd, cfg.n, view, h) ==> q.proposer in w
  {
    hide High; hide HoldsLayer; hide References;
    ReferencesCount(cfg, nd, view, h, w, cfg.n);
    DistinctSize(w);
    assert (set a | a in w && a < cfg.n) == Members(w);
  }

  /** Node `x` is in a scan, the other running nodes are between two messages. */
  ghost predicate Scanning(cfg: Config, g: System, x: NodeId, sc: Scan) {
    && Reached(cfg, g) && cfg.n >= 1 && |g.nodes| == cfg.n && Runs(cfg, x) && g.nodes[x].started
    && g.nodes[x].scan == Some(sc) && g.nodes[x].coin.None?
    && forall i: NodeId :: Runs(cfg, i) && i != x ==> Awake(g.nodes[i])
  }

  /** Node `x` has moved without working in its instances or taking messages. */
  ghost predicate Stepped(g: System, g': System, x: NodeId) {
    && x < |g.nodes| == |g'.nodes| && g'.nodes == g.nodes[x := g'.nodes[x]] && g.sent <= g'.sent
    && g'.nodes[x].instances == g.nodes[x].instances && g'.nodes[x].started == g.nodes[x].started
    && (forall p :: p in g.net ==> p in g'.net)
  }

  lemma SteppedCalm(g: System, g': System, x: NodeId)
    requires Stepped(g, g', x)
    ensures Calm(g, g', {x})
  {
    forall i | 0 <= i < |g.nodes| ensures NodeCalm(g.nodes[i], g'.nodes[i]) {
    }
  }

  lemma ReferencesFrame(nd: Node, nd': Node, n: nat, view: nat, h: Height)
    requires nd'.instances == nd.instances
    ensures References(nd', n, view, h) == References(nd, n, view, h)
  {
  }

  function Below(sc: Scan): (nat, Height) {
    (ParentView(sc.view, sc.height), ParentHeight(sc.height))
  }

  /** What a node keeps when it proposes. */
  predicate SameElection(nd: Node, nd': Node) {
    nd'.elector == nd.elector && nd'.speedVoteNums == nd.speedVoteNums
  }

  /** The block a node has proposed at a position, with references to nodes of `w` only. */
  ghost predicate Issued(cfg: Config, g: System, x: NodeId, view: nat, h: Height, w: seq<NodeId>, b: Block) {
    && OnItsWay(cfg, g, ProposeMsg(b)) && b.author == x && b.view == view && b.height == h
    && forall q :: q in b.references ==> q.proposer in w
  }

  /** The scan reads to its end, and the node proposes. */
  lemma {:induction false} ReadAll(cfg: Config, g: System, x: NodeId, sc: Scan, w: seq<NodeId>)
    returns (g': System, b: Block)
    requires Scanning(cfg, g, x, sc) && sc.next <= cfg.n && Quorate(cfg, w)
    requires HoldsLayer(cfg, g.nodes[x], Below(sc).0, Below(sc).1, w)
    requires sc.refs == References(g.nodes[x], sc.next, Below(sc).0, Below(sc).1)
    ensures Idle(cfg, g') && Stepped(g, g', x) && SameElection(g.nodes[x], g'.nodes[x])
    ensures g'.nodes[x].view == sc.view && g'.nodes[x].height == sc.height
    ensures Issued(cfg, g', x, sc.view, sc.height, w, b)
    decreases cfg.n - sc.next
  {
    hide Reached; hide High; hide QcAt; hide OnItsWay; hide HoldsLayer;
    var nd := g.nodes[x];
    if sc.next < cfg.n {
      var h := Do(cfg, g, x, Read(false));
      var sc' := h.nodes[x].scan.value;
      ReferencesFrame(nd, h.nodes[x], sc.next + 1, Below(sc).0, Below(sc).1);
      HoldsFrame(cfg, nd, h.nodes[x], Below(sc).0, Below(sc).1, w);
      g', b := ReadAll(cfg, h, x, sc', w);
    } else {
      EnoughReferences(cfg, nd, Below(sc).0, Below(sc).1, w);
      g' := Do(cfg, g, x, Read(false));
      b := MakeBlock(cfg, x, nd, sc.view, sc.height, sc.refs, false);
    }
  }

  lemma HoldsFrame(cfg: Config, nd: Node, nd': Node, view: nat, h: Height, w: seq<NodeId>)
    requires nd'.instances == nd.instances && HoldsLayer(cfg, nd, view, h, w)
    ensures HoldsLayer(cfg, nd', view, h, w)
  {
    hide Spb.Init;
    forall a: NodeId | a < cfg.n ensures QcAt(nd', Key(view, a), h) == QcAt(nd, Key(view, a), h) {
    }
  }

  // ----- To the second height -----

  /** A node that has its own height-1 certificate takes it from the callback channel and proposes at height 2. */
  lemma Second(cfg: Config, g: System, x: NodeId, view: nat, w: seq<NodeId>) returns (g': System, b: Block)
    requires Idle(cfg, g) && Runs(cfg, x) && Quorate(cfg, w) && |g.nodes| == cfg.n && view in g.nodes[x].callBack
    requires g.nodes[x].view == view && g.nodes[x].height.H1? && HoldsLayer(cfg, g.nodes[x], view, H1, w)
    ensures Idle(cfg, g') && |g'.nodes| == cfg.n && Calm(g, g', {x}) && SameElection(g.nodes[x], g'.nodes[x])
    ensures g'.nodes[x].view == view && g'.nodes[x].height.H2? && Issued(cfg, g', x, view, H2, w, b)
    ensures forall p :: p in g.net ==> p in g'.net
  {
    hide Reached; hide High; hide OnItsWay; hide HoldsLayer; hide Issued; hide Calm;
    var h := Do(cfg, g, x, CallBack(view));
    HoldsFrame(cfg, g.nodes[x], h.nodes[x], view, H1, w);
    g', b := ReadAll(cfg, h, x, Scan(view, H2, 0, []), w);
    SteppedCalm(g, g', x);
  }

  lemma StillIssued(cfg: Config, g: System, g': System, xs: set<NodeId>, x: NodeId, view: nat, h: Height,
    w: seq<NodeId>, b: Block)
    requires Calm(g, g', xs) && Issued(cfg, g, x, view, h, w, b)
    ensures Issued(cfg, g', x, view, h, w, b)
  {
    hide Calm; hide OnItsWay;
    CalmOnItsWay(cfg, g, g', xs, b);
  }

  /** Node `x` stands at this position, having proposed its block there. */
  ghost predicate Stands(cfg: Config, g: System, x: NodeId, view: nat, h: Height, w: seq<NodeId>, b: Block)
    requires x < |g.nodes|
  {
    g.nodes[x].view == view && g.nodes[x].height == h && Issued(cfg, g, x, view, h, w, b)
  }

  lemma StillStands(cfg: Config, g: System, g': System, xs: set<NodeId>, x: NodeId, view: nat, h: Height,
    w: seq<NodeId>, b: Block)
    requires Calm(g, g', xs) && x < |g.nodes| && x !in xs && Stands(cfg, g, x, view, h, w, b)
    ensures |g'.nodes| == |g.nodes| && g'.nodes[x] == g.nodes[x] && Stands(cfg, g', x, view, h, w, b)
  {
    StillIssued(cfg, g, g', xs, x, view, h, w, b);
    hide NodeCalm; hide Issued;
  }

  lemma {:induction false} SecondAll(cfg: Config, g: System, view: nat, xs: seq<NodeId>, w: seq<NodeId>)
    returns (g': System, bs: map<NodeId, Block>)
    requires Idle(cfg, g) && |g.nodes| == cfg.n && Quorate(cfg, w) && Distinct(xs)
    requires forall x :: x in xs ==> Runs(cfg, x) && view in g.nodes[x].callBack && g.nodes[x].view == view
    requires forall x :: x in xs ==> g.nodes[x].height.H1? && HoldsLayer(cfg, g.nodes[x], view, H1, w)
    ensures Idle(cfg, g') && |g'.nodes| == cfg.n && Calm(g, g', Members(xs))
    ensures forall x :: x in xs ==> SameElection(g.nodes[x], g'.nodes[x])
    ensures forall x :: x in xs ==> x in bs && Stands(cfg, g', x, view, H2, w, bs[x])
    decreases |xs|
  {
    hide Idle; hide High; hide HoldsLayer; hide Calm; hide Issued;
    if xs == [] {
      g', bs := g, map[];
      CalmSelf(g, {});
      assert Members(xs) == {};
    } else {
      Split(xs);
      var x, rest := xs[0], xs[1..];
      var h, b := Second(cfg, g, x, view, w);
      forall y | y in rest ensures h.nodes[y] == g.nodes[y] {
        CalmElsewhere(g, h, {x}, y);
      }
      var i, cs := SecondAll(cfg, h, view, rest, w);
      g', bs := i, cs[x := b];
      CalmTwice(g, h, g', {x}, Members(rest));
      assert Stands(cfg, h, x, view, H2, w, b);
      StillStands(cfg, h, g', Members(rest), x, view, H2, w, b);
    }
  }

  lemma CalmElsewhere(g: System, g': System, xs: set<NodeId>, y: NodeId)
    requires Calm(g, g', xs) && y !in xs && y < |g.nodes|
    ensures |g'.nodes| == |g.nodes| && g'.nodes[y] == g.nodes[y]
  {
    hide NodeCalm;
  }

  // ----- To the next view -----

  lemma SpeedEffect(cfg: Config, id: NodeId, nd: Node, sv: SpeedVoteMsg)
    ensures var (nd', out) := OnSpeedVote(cfg, id, nd, sv);
      var k := Key(sv.view, sv.author);
      && NodeCalm(nd, nd') && nd'.scan == nd.scan && nd'.coin == nd.coin && nd'.view == nd.view
      && nd'.height == nd.height && nd'.elector == nd.elector
      && Count(nd'.speedVoteNums, k) == Count(nd.speedVoteNums, k) + 1
      && (sv.author == id && Count(nd'.speedVoteNums, k) == High(cfg.n) ==> out == Some(ElectMsg(id, sv.view)))
  {
    hide High;
  }

  predicate SamePosition(nd: Node, nd': Node) {
    nd'.view == nd.view && nd'.height == nd.height
  }

  lemma OwnOne(cfg: Config, g: System, x: NodeId, sv: SpeedVoteMsg) returns (g': System)
    requires Idle(cfg, g) && Runs(cfg, x) && |g.nodes| == cfg.n && sv.author == x && Packet(x, SpeedVoting(sv)) in g.net
    ensures Idle(cfg, g') && |g'.nodes| == cfg.n && Calm(g, g', {x}) && SamePosition(g.nodes[x], g'.nodes[x])
    ensures g'.nodes[x].elector == g.nodes[x].elector
    ensures var c := Count(g'.nodes[x].speedVoteNums, Key(sv.view, x));
      && c == Count(g.nodes[x].speedVoteNums, Key(sv.view, x)) + 1
      && (c == High(cfg.n) ==> OnItsWay(cfg, g', ElectMsg(x, sv.view)))
    ensures forall p :: p in g.net && p != Packet(x, SpeedVoting(sv)) ==> p in g'.net
  {
    hide Reached; hide High; hide OnItsWay; hide OnSpeedVote; hide Count;
    SpeedEffect(cfg, x, g.nodes[x], sv);
    assert OnSpeedVote(cfg, x, g.nodes[x], sv).0.started by { CalmStarted(cfg, x, g.nodes[x], sv); }
    hide NodeCalm;
    g' := Do(cfg, g, x, Handle(SpeedVoting(sv)));
    forall i | 0 <= i < |g.nodes| ensures NodeCalm(g.nodes[i], g'.nodes[i]) {
      NodeCalmSelf(g.nodes[i]);
    }
  }

  lemma CalmStarted(cfg: Config, id: NodeId, nd: Node, sv: SpeedVoteMsg)
    requires nd.started
    ensures OnSpeedVote(cfg, id, nd, sv).0.started
  {
  }

  lemma NodeCalmSelf(nd: Node)
    ensures NodeCalm(nd, nd)
  {
    hide FaceOf; hide InstanceAt;
  }

  /** The node's own speed votes for the nodes in `vs` are on their way to itself. */
  ghost predicate Answered(g: System, x: NodeId, vs: seq<NodeId>, bs: map<NodeId, Block>) {
    forall a :: a in vs ==> a in bs && Packet(x, SpeedVoting(SpeedVoteFor(x, Qc(bs[a])))) in g.net
  }

  /** Node `x` handles its own speed votes, the last of which makes it call an election. */
  lemma {:induction false} Own(cfg: Config, g: System, x: NodeId, view: nat, vs: seq<NodeId>, bs: map<NodeId, Block>)
    returns (g': System)
    requires Idle(cfg, g) && Runs(cfg, x) && |g.nodes| == cfg.n && Distinct(vs) && |vs| >= 1
    requires Positioned(bs, view, H2, vs) && Answered(g, x, vs, bs)
    requires Count(g.nodes[x].speedVoteNums, Key(view, x)) + |vs| == High(cfg.n)
    ensures Idle(cfg, g') && |g'.nodes| == cfg.n && Calm(g, g', {x}) && SamePosition(g.nodes[x], g'.nodes[x])
    ensures g'.nodes[x].elector == g.nodes[x].elector && OnItsWay(cfg, g', ElectMsg(x, view))
    ensures forall p :: p in g.net && !p.m.SpeedVoting? ==> p in g'.net
    decreases |vs|
  {
    hide Idle; hide High; hide OnItsWay; hide Count; hide Calm; hide Hash;
    Split(vs);
    var a, rest := vs[0], vs[1..];
    var h := OwnOne(cfg, g, x, SpeedVoteFor(x, Qc(bs[a])));
    if rest == [] {
      g' := h;
    } else {
      g' := Own(cfg, h, x, view, rest, bs);
      CalmTwice(g, h, g', {x}, {x});
      assert {x} + {x} == {x};
    }
  }

  /** All nodes in `xs` call elections. */
  lemma {:induction false} OwnAll(cfg: Config, g: System, view: nat, xs: seq<NodeId>, w: seq<NodeId>,
    bs: map<NodeId, Block>) returns (g': System)
    requires Idle(cfg, g) && |g.nodes| == cfg.n && Quorate(cfg, w) && Distinct(xs) && Positioned(bs, view, H2, w)
    requires forall x :: x in xs ==> Runs(cfg, x) && Answered(g, x, w, bs)
    requires forall x :: x in xs ==> Count(g.nodes[x].speedVoteNums, Key(view, x)) == 0
    ensures Idle(cfg, g') && |g'.nodes| == cfg.n && Calm(g, g', Members(xs))
    ensures forall x :: x in xs ==>
      SamePosition(g.nodes[x], g'.nodes[x]) && g'.nodes[x].elector == g.nodes[x].elector
    ensures forall x :: x in xs ==> OnItsWay(cfg, g', ElectMsg(x, view))
    ensures forall p :: p in g.net && !p.m.SpeedVoting? ==> p in g'.net
    decreases |xs|
  {
    assert High(cfg.n) >= 1;
    hide Idle; hide High; hide OnItsWay; hide Count; hide Calm; hide Hash; hide Answered; hide SamePosition;
    if xs == [] {
      g' := g;
      CalmSelf(g, {});
      assert Members(xs) == {};
    } else {
      Split(xs);
      var x, rest := xs[0], xs[1..];
      var h := Own(cfg, g, x, view, w, bs);
      forall y | y in rest ensures h.nodes[y] == g.nodes[y] && Answered(h, y, w, bs) {
        CalmElsewhere(g, h, {x}, y);
        StillAnswered(g, h, {x}, y, w, bs);
      }
      g' := OwnAll(cfg, h, view, rest, w, bs);
      CalmTwice(g, h, g', {x}, Members(rest));
      CalmElsewhere(h, g', Members(rest), x);
      CalmSize(h, g', Members(rest));
      CallStays(cfg, h, g', x, view);
    }
  }

  lemma StillAnswered(g: System, g': System, xs: set<NodeId>, y: NodeId, vs: seq<NodeId>, bs: map<NodeId, Block>)
    requires Calm(g, g', xs) && y !in xs && Answered(g, y, vs, bs)
    ensures Answered(g', y, vs, bs)
  {
    hide NodeCalm;
  }

  lemma CallStays(cfg: Config, g: System, g': System, x: NodeId, view: nat)
    requires OnItsWay(cfg, g, ElectMsg(x, view)) && g.sent <= g'.sent
    requires forall p :: p in g.net && !p.m.SpeedVoting? ==> p in g'.net
    ensures OnItsWay(cfg, g', ElectMsg(x, view))
  {
  }

  /** Everyone but `x` is between two messages. */
  ghost predicate Busy(cfg: Config, g: System, x: NodeId) {
    && Reached(cfg, g) && cfg.n >= 1 && |g.nodes| == cfg.n && Runs(cfg, x) && g.nodes[x].started
    && forall i: NodeId :: Runs(cfg, i) && i != x ==> Awake(g.nodes[i])
  }

  lemma TossOne(cfg: Config, g: System, x: NodeId, y: NodeId, view: nat) returns (g': System)
    requires Idle(cfg, g) && Runs(cfg, x) && |g.nodes| == cfg.n && Packet(x, ElectMsg(y, view)) in g.net
    requires y !in Elector.AggregatorOf(g.nodes[x].elector, view).used
    ensures Busy(cfg, g', x) && Calm(g, g', {x}) && SamePosition(g.nodes[x], g'.nodes[x]) && g'.nodes[x].scan.None?
    ensures var a := Elector.AggregatorOf(g.nodes[x].elector, view);
      var leader := Elector.LeaderOf(cfg.n, cfg.coin, view);
      && Elector.AggregatorOf(g'.nodes[x].elector, view) == Elector.Aggregator(a.elects + [y], a.used + {y})
      && g'.nodes[x].coin ==
           (if |a.elects| + 1 == High(cfg.n) && leader.Some? then Some(Coin(view, leader.value, None)) else None)
    ensures forall p :: p in g.net && p != Packet(x, ElectMsg(y, view)) ==> p in g'.net
  {
    hide Reached; hide High; hide OnItsWay; hide Elector.AggregatorOf; hide Elector.AddElect; hide Elector.LeaderOf;
    Elector.Share(g.nodes[x].elector, cfg.n, cfg.coin, y, view);
    g' := Do(cfg, g, x, Handle(ElectMsg(y, view)));
    forall i | 0 <= i < |g.nodes| ensures NodeCalm(g.nodes[i], g'.nodes[i]) {
    }
  }

  ghost predicate Called(g: System, x: NodeId, view: nat, vs: seq<NodeId>) {
    forall y :: y in vs ==> Packet(x, ElectMsg(y, view)) in g.net
  }

  /** Node `x` handles the election messages of `vs` and learns the leader. */
  lemma {:induction false} Toss(cfg: Config, g: System, x: NodeId, view: nat, vs: seq<NodeId>) returns (g': System)
    requires Idle(cfg, g) && Runs(cfg, x) && |g.nodes| == cfg.n && Distinct(vs) && |vs| >= 1 && Called(g, x, view, vs)
    requires Elector.LeaderOf(cfg.n, cfg.coin, view).Some?
    requires forall y :: y in vs ==> y !in Elector.AggregatorOf(g.nodes[x].elector, view).used
    requires |Elector.AggregatorOf(g.nodes[x].elector, view).elects| + |vs| == High(cfg.n)
    ensures Busy(cfg, g', x) && Calm(g, g', {x}) && SamePosition(g.nodes[x], g'.nodes[x]) && g'.nodes[x].scan.None?
    ensures g'.nodes[x].coin == Some(Coin(view, Elector.LeaderOf(cfg.n, cfg.coin, view).value, None))
    decreases |vs|
  {
    hide Reached; hide High; hide Calm; hide Elector.AggregatorOf; hide Elector.LeaderOf;
    Split(vs);
    var y, rest := vs[0], vs[1..];
    var h := TossOne(cfg, g, x, y, view);
    if rest == [] {
      g' := h;
    } else {
      g' := Toss(cfg, h, x, view, rest);
      CalmTwice(g, h, g', {x}, {x});
      assert {x} + {x} == {x};
    }
  }

  // ----- processCoin finds nothing to commit -----

  /** The nodes in `w` have proposed blocks at this position that reference only nodes in `w`. */
  ghost predicate Inward(sent: set<Msg>, view: nat, h: Height, w: seq<NodeId>, bs: map<NodeId, Block>) {
    && Positioned(bs, view, h, w)
    && forall a :: a in w ==> ProposeMsg(bs[a]) in sent && forall q :: q in bs[a].references ==> q.proposer in w
  }

  /** All height-2 blocks of the view come from `w` and reference only nodes in `w`. */
  ghost predicate Shut(cfg: Config, g: System, view: nat, w: seq<NodeId>, bs: map<NodeId, Block>) {
    && |g.nodes| == cfg.n && Inward(g.sent, view, H2, w, bs)
    && (forall j: NodeId :: j < cfg.n && j !in w ==> Layer(g.nodes[j].view, g.nodes[j].height) <= Layer(view, H1))
  }

  lemma StillShut(cfg: Config, g: System, g': System, xs: set<NodeId>, view: nat, w: seq<NodeId>,
    bs: map<NodeId, Block>)
    requires Shut(cfg, g, view, w, bs) && Calm(g, g', xs) && xs <= Members(w)
    ensures Shut(cfg, g', view, w, bs)
  {
    hide NodeCalm;
  }

  lemma RunTo(cfg: Config, g: System) returns (run: seq<System>)
    requires Reached(cfg, g)
    ensures IsRun(cfg, run) && |run| >= 1 && run[|run| - 1] == g
  {
    hide Next; hide Initial;
    run :| IsRun(cfg, run) && run[|run| - 1] == g;
  }

  /** No block supports a block of a node outside `w`. */
  lemma ShutOut(cfg: Config, run: seq<System>, t: nat, view: nat, w: seq<NodeId>, bs: map<NodeId, Block>, b: Block,
    x: NodeId)
    requires IsRun(cfg, run) && t < |run| && Shut(cfg, run[t], view, w, bs) && x < cfg.n
    requires b.author !in w && b.view == view && b.height.H1?
    ensures !Supports(run[t].sent, x, b)
  {
    hide IsRun; hide SystemOk; hide NodeOk; hide SentOk; hide Hash; hide InstancesOk; hide HistoryOk; hide ScanOk;
    RunOk(cfg, run, t);
    NodeOfSystem(cfg, run[t], x);
    if Supports(run[t].sent, x, b) {
      var c :| ProposeMsg(c) in run[t].sent && c.author == x && LayerOf(c) == LayerOf(b) + 1 &&
        References1(run[t].sent, c, b);
      BlockPosition(cfg, x, run[t].nodes[x], run[t].sent, c);
      if x in w {
        OneBlock(cfg, run[t].sent, c, bs[x]);
      }
    }
  }

  lemma BlockPosition(cfg: Config, id: NodeId, nd: Node, sent: set<Msg>, b: Block)
    requires NodeOk(cfg, id, nd, sent) && ProposeMsg(b) in sent && b.author == id
    ensures LayerOf(b) <= Layer(nd.view, nd.height)
  {
    hide InstancesOk; hide HistoryOk; hide ScanOk; hide VotesSentOk; hide ElectsSentOk; hide WeakVotesOk;
    hide SpeedNumsOk; hide ElectorOk; hide StoreOk; hide CoinOk;
  }

  lemma OneBlock(cfg: Config, sent: set<Msg>, b: Block, c: Block)
    requires SentOk(cfg, sent) && ProposeMsg(b) in sent && ProposeMsg(c) in sent && b.author == c.author
    requires LayerOf(b) == LayerOf(c)
    ensures b == c
  {
    assert DagInvariant.SamePosition(b, c);
  }

  /** A leader outside `w` is not committed. */
  lemma NotCommitted(cfg: Config, g: System, x: NodeId, view: nat, leader: NodeId, w: seq<NodeId>,
    bs: map<NodeId, Block>)
    requires Reached(cfg, g) && Shut(cfg, g, view, w, bs) && x < cfg.n && leader < cfg.n && leader !in w
    requires HoldsLayer(cfg, g.nodes[x], view, H2, w)
    ensures CommitHeight(cfg, g.nodes[x], leader, view).None?
  {
    assert Low(cfg.n) >= 1;
    hide IsRun; hide SystemOk; hide InstanceAt; hide Hash; hide Count; hide Low; hide Supports; hide Shut; hide QcAt;
    hide Reached;
    var run := RunTo(cfg, g);
    var t := |run| - 1;
    RunOk(cfg, run, t);
    assert |g.nodes| == cfg.n by { ShutSize(cfg, g, view, w, bs); }
    if CommitHeight(cfg, g.nodes[x], leader, view).Some? {
      if InstanceAt(g.nodes[x], Key(view, leader)).fast.isSpeedCert {
        var _ := DagTheorems.SpeedCertificate(cfg, run, t, x, Key(view, leader));
      } else {
        var b, a := WeakVotesMean(cfg, g, x, view, leader);
        var y :| y in a;
        InNodes(cfg.n, y);
        ShutOut(cfg, run, t, view, w, bs, b, y);
      }
    }
  }

  lemma ShutSize(cfg: Config, g: System, view: nat, w: seq<NodeId>, bs: map<NodeId, Block>)
    requires Shut(cfg, g, view, w, bs)
    ensures |g.nodes| == cfg.n
  {
  }

  lemma SettleEffect(cfg: Config, nd: Node, view: nat, leader: NodeId)
    requires nd.coin == Some(Coin(view, leader, None)) && nd.scan.None? && nd.view == view
    ensures var c := CommitHeight(cfg, nd, leader, view);
      var nd' := CoinStep(cfg, nd);
      if c.None? then nd' == nd.(coin := None, scan := Some(Scan(view + 1, H1, 0, [])))
      else nd' == nd.(coin := Some(Coin(view, leader, c)))
  {
    hide CommitHeight;
  }

  /** processCoin finds nothing to commit and begins the scan for the next view. */
  lemma SettleNone(cfg: Config, g: System, x: NodeId, view: nat, leader: NodeId) returns (g': System)
    requires Busy(cfg, g, x) && g.nodes[x].coin == Some(Coin(view, leader, None)) && g.nodes[x].scan.None?
    requires g.nodes[x].view == view && CommitHeight(cfg, g.nodes[x], leader, view).None?
    ensures Scanning(cfg, g', x, Scan(view + 1, H1, 0, [])) && Stepped(g, g', x)
  {
    hide Reached; hide CommitHeight; hide CoinStep; hide OnItsWay;
    SettleEffect(cfg, g.nodes[x], view, leader);
    g' := Do(cfg, g, x, Settle);
  }

  predicate Undecided(nd: Node, view: nat) {
    Elector.AggregatorOf(nd.elector, view) == Elector.Aggregator([], {})
  }

  /** An undecided node learns the leader from the quorum `w`. */
  lemma Learn(cfg: Config, g: System, x: NodeId, view: nat, w: seq<NodeId>, leader: NodeId) returns (g': System)
    requires Idle(cfg, g) && Runs(cfg, x) && |g.nodes| == cfg.n && Quorate(cfg, w) && Called(g, x, view, w)
    requires Undecided(g.nodes[x], view) && Elector.LeaderOf(cfg.n, cfg.coin, view) == Some(leader)
    ensures Busy(cfg, g', x) && Calm(g, g', {x}) && SamePosition(g.nodes[x], g'.nodes[x]) && g'.nodes[x].scan.None?
    ensures g'.nodes[x].coin == Some(Coin(view, leader, None))
  {
    assert High(cfg.n) >= 1;
    hide Idle; hide Busy; hide High; hide Calm; hide Elector.LeaderOf; hide Elector.AggregatorOf; hide Called;
    g' := Toss(cfg, g, x, view, w);
  }

  /** Node `x` elects a leader outside `w` and moves to the next view. */
  lemma NextView(cfg: Config, g: System, x: NodeId, view: nat, w: seq<NodeId>, leader: NodeId, bs: map<NodeId, Block>)
    returns (g': System, b: Block)
    requires Idle(cfg, g) && x in w && Quorate(cfg, w) && Called(g, x, view, w) && Shut(cfg, g, view, w, bs)
    requires Undecided(g.nodes[x], view) && g.nodes[x].view == view && HoldsLayer(cfg, g.nodes[x], view, H2, w)
    requires Elector.LeaderOf(cfg.n, cfg.coin, view) == Some(leader) && leader < cfg.n && leader !in w
    ensures Idle(cfg, g') && |g'.nodes| == cfg.n && Calm(g, g', {x}) && Stands(cfg, g', x, view + 1, H1, w, b)
  {
    hide Idle; hide Reached; hide High; hide Calm; hide Elector.LeaderOf; hide HoldsLayer; hide Awake; hide Shut;
    hide CommitHeight; hide Issued; hide InstanceAt; hide Undecided; hide Called; hide Stepped;
    ShutSize(cfg, g, view, w, bs);
    var g1 := Learn(cfg, g, x, view, w, leader);
    CalmHoldsLayer(cfg, g, g1, {x}, x, view, H2, w);
    StillShut(cfg, g, g1, {x}, view, w, bs);
    NotCommitted(cfg, g1, x, view, leader, w, bs);
    var g2 := SettleNone(cfg, g1, x, view, leader);
    SteppedFacts(g1, g2, x);
    HoldsFrame(cfg, g1.nodes[x], g2.nodes[x], view, H2, w);
    g', b := ReadAll(cfg, g2, x, Scan(view + 1, H1, 0, []), w);
    SteppedFacts(g2, g', x);
    assert {x} + {x} == {x};
    CalmTwice(g, g1, g2, {x}, {x});
    CalmTwice(g, g2, g', {x}, {x});
  }

  lemma SteppedFacts(g: System, g': System, x: NodeId)
    requires Stepped(g, g', x)
    ensures Calm(g, g', {x}) && x < |g.nodes| == |g'.nodes| && g'.nodes[x].instances == g.nodes[x].instances
  {
    SteppedCalm(g, g', x);
    hide Calm;
  }

  lemma CalmHoldsLayer(cfg: Config, g: System, g': System, xs: set<NodeId>, x: NodeId, view: nat, h: Height,
    w: seq<NodeId>)
    requires Calm(g, g', xs) && x < |g.nodes| && HoldsLayer(cfg, g.nodes[x], view, h, w)
    ensures |g'.nodes| == |g.nodes| && HoldsLayer(cfg, g'.nodes[x], view, h, w)
  {
    CalmSize(g, g', xs);
    hide Calm; hide InstanceAt;
    forall a: NodeId | a < cfg.n ensures QcAt(g'.nodes[x], Key(view, a), h) == QcAt(g.nodes[x], Key(view, a), h) {
      CalmFace(g, g', xs, x, Key(view, a));
    }
  }

  /** The nodes in `xs` elect a leader outside `w` and move to the next view. */
  lemma {:induction false} NextAll(cfg: Config, g: System, view: nat, xs: seq<NodeId>, w: seq<NodeId>, leader: NodeId,
    bs: map<NodeId, Block>) returns (g': System, cs: map<NodeId, Block>)
    requires Idle(cfg, g) && Quorate(cfg, w) && Distinct(xs) && Shut(cfg, g, view, w, bs)
    requires forall x :: x in xs ==> x in w && Called(g, x, view, w) && Undecided(g.nodes[x], view)
    requires forall x :: x in xs ==> g.nodes[x].view == view && HoldsLayer(cfg, g.nodes[x], view, H2, w)
    requires Elector.LeaderOf(cfg.n, cfg.coin, view) == Some(leader) && leader < cfg.n && leader !in w
    ensures Idle(cfg, g') && |g'.nodes| == cfg.n && Calm(g, g', Members(xs))
    ensures forall x :: x in xs ==> x in cs && Stands(cfg, g', x, view + 1, H1, w, cs[x])
    decreases |xs|
  {
    hide Idle; hide High; hide HoldsLayer; hide Calm; hide Stands; hide Undecided; hide Called; hide Elector.LeaderOf;
    hide Shut;
    ShutSize(cfg, g, view, w, bs);
    if xs == [] {
      g', cs := g, map[];
      CalmSelf(g, {});
      assert Members(xs) == {};
    } else {
      Split(xs);
      var x, rest := xs[0], xs[1..];
      var h, b := NextView(cfg, g, x, view, w, leader, bs);
      forall y | y in rest ensures h.nodes[y] == g.nodes[y] && Called(h, y, view, w) {
        CalmElsewhere(g, h, {x}, y);
        StillCalled(g, h, {x}, y, view, w);
      }
      StillShut(cfg, g, h, {x}, view, w, bs);
      var i, ds := NextAll(cfg, h, view, rest, w, leader, bs);
      g', cs := i, ds[x := b];
      CalmTwice(g, h, g', {x}, Members(rest));
      StillStands(cfg, h, g', Members(rest), x, view + 1, H1, w, b);
    }
  }

  lemma StillCalled(g: System, g': System, xs: set<NodeId>, y: NodeId, view: nat, vs: seq<NodeId>)
    requires Calm(g, g', xs) && y !in xs && Called(g, y, view, vs)
    ensures Called(g', y, view, vs)
  {
    hide NodeCalm;
  }
}
