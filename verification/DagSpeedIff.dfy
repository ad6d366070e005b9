/** Exactly when a speed-committed block of the DAG is in all later histories. */
module DagSpeedIff {
  import opened Blocks
  import opened Quorum
  import opened DagNode
  import opened DagSystem
  import opened DagInvariant
  import opened DagSafety
  import opened DagTurnout
  import opened DagSchedules
  import opened DagLayers
  import opened DagTurns
  import opened DagLostSpeed
  import DagTheorems
  import Spb
  import Elector

  // ----- A node catches up -----

  /** A node that was left behind handles a proposal and the votes for it. */
  lemma Fetch(cfg: Config, g: System, y: NodeId, b: Block, w: seq<NodeId>) returns (g': System)
    requires Idle(cfg, g) && Runs(cfg, y) && |g.nodes| == cfg.n && Quorate(cfg, w) && Left(g, y, b, w)
    requires Open(FaceAt(g, y, Key(b.view, b.author)), Key(b.view, b.author), b.height)
    ensures Idle(cfg, g') && |g'.nodes| == cfg.n && Follows(cfg, g', y, b)
    ensures var k := Key(b.view, b.author); Turned(g, g', y, k, Done(FaceAt(g, y, k), b, High(cfg.n)))
  {
    assert High(cfg.n) >= 1;
    hide Idle; hide High; hide Aside; hide Hash; hide FaceAt; hide OnItsWay; hide Follows; hide Collected;
    hide Accepted;
    hide Hashed; hide VotesAt;
    var k := Key(b.view, b.author);
    HashedOpen(FaceAt(g, y, k), k, b);
    var h := DoVote(cfg, g, y, b);
    g' := Collect(cfg, h, y, b, w);
    TurnedTwice(g, h, g', y, k, FaceAt(h, y, k), FaceAt(g', y, k));
  }

  /** A node that was left behind gets the certificates of the first blocks of `vs`. */
  lemma {:induction false} FetchAll(cfg: Config, g: System, y: NodeId, vs: seq<NodeId>, w: seq<NodeId>)
    returns (g': System)
    requires Idle(cfg, g) && Runs(cfg, y) && |g.nodes| == cfg.n && Quorate(cfg, w) && Distinct(vs)
    requires forall a :: a in vs ==> Left(g, y, First(a), w) && Open(FaceAt(g, y, Key(0, a)), Key(0, a), H1)
    ensures Idle(cfg, g') && |g'.nodes| == cfg.n && Aside(g, g', {y}, Keys(0, vs))
    ensures vs != [] ==> 0 in g'.nodes[y].callBack
    ensures forall a :: a in vs ==>
      FaceAt(g', y, Key(0, a)) == Done(FaceAt(g, y, Key(0, a)), First(a), High(cfg.n))
    decreases |vs|
  {
    hide Idle; hide High; hide Aside; hide Hash; hide FaceAt; hide OnItsWay; hide Done; hide Left; hide Follows;
    if vs == [] {
      g' := g;
      AsideSelf(g, {y}, {});
      assert Keys(0, vs) == {};
    } else {
      Split(vs);
      var a, rest := vs[0], vs[1..];
      var k := Key(0, a);
      var h := Fetch(cfg, g, y, First(a), w);
      forall c | c in rest ensures Left(h, y, First(c), w) && FaceAt(h, y, Key(0, c)) == FaceAt(g, y, Key(0, c)) {
        LeftElsewhere(g, h, {y}, {k}, y, First(c), w);
        AsideFace(g, h, {y}, {k}, y, Key(0, c));
      }
      g' := FetchAll(cfg, h, y, rest, w);
      AsideTwice(g, h, g', {y}, {k}, {y}, Keys(0, rest));
      assert {k} + Keys(0, rest) == Keys(0, vs) && {y} + {y} == {y};
      AsideFace(h, g', {y}, Keys(0, rest), y, k);
      StillFollows(cfg, h, g', {y}, Keys(0, rest), y, First(a));
      FollowsCallBack(cfg, g', y, First(a));
    }
  }

  lemma LeftElsewhere(g: System, g': System, xs: set<NodeId>, ks: set<Key>, j: NodeId, b: Block, w: seq<NodeId>)
    requires Aside(g, g', xs, ks) && Key(b.view, b.author) !in ks && Left(g, j, b, w)
    ensures Left(g', j, b, w)
  {
    hide NodeAside; hide Hash;
  }

  lemma FollowsCallBack(cfg: Config, g: System, y: NodeId, b: Block)
    requires y < |g.nodes| && Follows(cfg, g, y, b) && b.height.H1?
    ensures b.view in g.nodes[y].callBack
  {
    hide OnItsWay;
  }

  // ----- Speed votes -----

  /** Only node `y` has moved, only on speed votes and in its instances. */
  ghost predicate Shifted(g: System, g': System, y: NodeId) {
    && y < |g.nodes| == |g'.nodes| && g'.nodes == g.nodes[y := g'.nodes[y]] && g.sent <= g'.sent
    && g'.nodes[y].elector == g.nodes[y].elector && g'.nodes[y].view == g.nodes[y].view
    && forall p :: p in g.net && !(p.to == y && p.m.SpeedVoting?) ==> p in g'.net
  }

  lemma ShiftedTwice(g: System, h: System, g': System, y: NodeId)
    requires Shifted(g, h, y) && Shifted(h, g', y)
    ensures Shifted(g, g', y)
  {
  }

  lemma WorkedShifted(g: System, g': System, y: NodeId, k: Key, x: Spb.Instance)
    requires Worked(g, g', y, k, x) && forall p :: p in g.net ==> p in g'.net
    ensures Shifted(g, g', y)
  {
    assert NodeAside(g.nodes[y], g'.nodes[y], {k});
    hide FaceOf; hide InstanceAt; hide Concerns;
    assert g'.nodes == g.nodes[y := g'.nodes[y]];
  }

  lemma HandSpeed(cfg: Config, g: System, y: NodeId, sv: SpeedVoteMsg) returns (g': System)
    requires Idle(cfg, g) && Runs(cfg, y) && |g.nodes| == cfg.n && Packet(y, SpeedVoting(sv)) in g.net
    ensures Idle(cfg, g') && Shifted(g, g', y)
    ensures var k := Key(sv.view, sv.proposer);
      k in g'.nodes[y].instances &&
      g'.nodes[y].instances[k] == Spb.Deliver(InstanceAt(g.nodes[y], k), Spb.SpeedVote(sv))
    ensures forall p :: p in g.net && p != Packet(y, SpeedVoting(sv)) ==> p in g'.net
  {
    hide Reached; hide High; hide OnItsWay; hide Spb.Deliver; hide InstanceAt; hide Count;
    g' := Do(cfg, g, y, Handle(SpeedVoting(sv)));
  }

  predicate Expects(f: Face, sv: SpeedVoteMsg) {
    f.hiQc.Some? && sv.proposer == f.proposer && sv.view == f.view
  }

  lemma SpeedPassage(x: Spb.Instance, sv: SpeedVoteMsg, high: nat)
    returns (x1: Spb.Instance, x2: Spb.Instance, x3: Spb.Instance)
    requires Expects(FaceOf(x), sv)
    ensures x1 == Spb.Deliver(x, Spb.SpeedVote(sv))
    ensures Spb.Pending(x1, Spb.OnSpeed(sv)) && x2 == Spb.Run(x1, high, Spb.OnSpeed(sv))
    ensures Spb.Pending(x2, Spb.CountSpeed(sv)) && x3 == Spb.Run(x2, high, Spb.CountSpeed(sv))
    ensures FaceOf(x3) == FaceOf(x).(speedVotes := x.fast.speedVoteNums + 1)
    ensures x.fast.speedVoteNums + 1 == high ==> Spb.Pending(x3, Spb.StoreCert)
  {
    x1 := Spb.Deliver(x, Spb.SpeedVote(sv));
    x2 := Spb.Run(x1, high, Spb.OnSpeed(sv));
    x3 := Spb.Run(x2, high, Spb.CountSpeed(sv));
  }

  /** A node counts a speed vote. */
  lemma DoSpeed(cfg: Config, g: System, y: NodeId, k: Key, sv: SpeedVoteMsg) returns (g': System)
    requires Idle(cfg, g) && Runs(cfg, y) && |g.nodes| == cfg.n && Packet(y, SpeedVoting(sv)) in g.net
    requires k == Key(sv.view, sv.proposer) && Expects(FaceAt(g, y, k), sv)
    ensures Idle(cfg, g') && Shifted(g, g', y) && |g'.nodes| == cfg.n && k in g'.nodes[y].instances
    ensures FaceAt(g', y, k) == FaceAt(g, y, k).(speedVotes := FaceAt(g, y, k).speedVotes + 1)
    ensures FaceAt(g, y, k).speedVotes + 1 == High(cfg.n) ==> Spb.Pending(g'.nodes[y].instances[k], Spb.StoreCert)
    ensures forall p :: p in g.net && p != Packet(y, SpeedVoting(sv)) ==> p in g'.net
  {
    hide Idle; hide High; hide Spb.Run; hide Spb.Deliver; hide Spb.Pending; hide InstanceAt; hide Aside; hide Expects;
    var x1, x2, x3 := SpeedPassage(InstanceAt(g.nodes[y], k), sv, High(cfg.n));
    var g1 := HandSpeed(cfg, g, y, sv);
    var g2 := Work(cfg, g1, y, k, Spb.OnSpeed(sv));
    WorkedShifted(g1, g2, y, k, x2);
    g' := Work(cfg, g2, y, k, Spb.CountSpeed(sv));
    WorkedShifted(g2, g', y, k, x3);
    hide Shifted;
    ShiftedTwice(g, g1, g2, y);
    ShiftedTwice(g, g2, g', y);
    Existing(g'.nodes[y], k);
  }

  ghost predicate Answers(g: System, y: NodeId, qc: BlockQc, ws: seq<NodeId>) {
    forall x :: x in ws ==> Packet(y, SpeedVoting(SpeedVoteFor(x, qc))) in g.net
  }

  lemma Raise(cfg: Config, g: System, y: NodeId, k: Key) returns (g': System)
    requires Idle(cfg, g) && Runs(cfg, y) && |g.nodes| == cfg.n && k in g.nodes[y].instances
    requires Spb.Pending(g.nodes[y].instances[k], Spb.StoreCert)
    ensures Idle(cfg, g') && Shifted(g, g', y) && FaceAt(g', y, k).sped
  {
    hide Idle; hide High; hide Aside;
    var x := g.nodes[y].instances[k];
    assert Spb.Run(x, High(cfg.n), Spb.StoreCert).fast.isSpeedCert;
    g' := Work(cfg, g, y, k, Spb.StoreCert);
    WorkedShifted(g, g', y, k, g'.nodes[y].instances[k]);
  }

  /** The speed votes of `ws` raise the flag. */
  lemma {:induction false} SpeedAll(cfg: Config, g: System, y: NodeId, k: Key, qc: BlockQc, ws: seq<NodeId>)
    returns (g': System)
    requires Idle(cfg, g) && Runs(cfg, y) && |g.nodes| == cfg.n && Distinct(ws) && |ws| >= 1 && Answers(g, y, qc, ws)
    requires k == Key(qc.view, qc.proposer) && FaceAt(g, y, k).hiQc.Some? && FaceAt(g, y, k).proposer == k.node
    requires FaceAt(g, y, k).view == k.view && FaceAt(g, y, k).speedVotes + |ws| == High(cfg.n)
    ensures Idle(cfg, g') && Shifted(g, g', y) && FaceAt(g', y, k).sped
    decreases |ws|
  {
    hide Idle; hide High; hide FaceAt; hide Spb.Pending; hide Shifted;
    Split(ws);
    var sv, rest := SpeedVoteFor(ws[0], qc), ws[1..];
    var h := DoSpeed(cfg, g, y, k, sv);
    if rest == [] {
      g' := Raise(cfg, h, y, k);
    } else {
      g' := SpeedAll(cfg, h, y, k, qc, rest);
    }
    ShiftedTwice(g, h, g', y);
    assert y < |g'.nodes| by { ShiftedSize(g, g', y); }
  }

  lemma ShiftedSize(g: System, g': System, y: NodeId)
    requires Shifted(g, g', y)
    ensures y < |g'.nodes| == |g.nodes| && g.sent <= g'.sent
  {
  }

  // ----- The leader that was left behind -----

  /** The quorum `w` has built view 1 on its own blocks of view 0. */
  ghost predicate Ahead(sent: set<Msg>, w: seq<NodeId>, bs: map<NodeId, Block>, cs: map<NodeId, Block>,
    ds: map<NodeId, Block>)
  {
    Inward(sent, 0, H2, w, bs) && Inward(sent, 1, H1, w, cs) && Inward(sent, 1, H2, w, ds)
  }

  lemma AheadGrows(sent: set<Msg>, sent': set<Msg>, w: seq<NodeId>, bs: map<NodeId, Block>, cs: map<NodeId, Block>,
    ds: map<NodeId, Block>)
    requires Ahead(sent, w, bs, cs, ds) && sent <= sent'
    ensures Ahead(sent', w, bs, cs, ds)
  {
    hide Inward;
    InwardGrows(sent, sent', 0, H2, w, bs);
    InwardGrows(sent, sent', 1, H1, w, cs);
    InwardGrows(sent, sent', 1, H2, w, ds);
  }

  /** The leader `p` can still go on in view 0. */
  ghost predicate Behind(cfg: Config, g: System, w: seq<NodeId>, p: NodeId) {
    && Idle(cfg, g) && |g.nodes| == cfg.n && Runs(cfg, p) && Called(g, p, 0, w)
    && g.nodes[p].elector == Elector.INIT && g.nodes[p].view == 0
  }

  lemma AsideBehind(cfg: Config, g: System, g': System, xs: set<NodeId>, ks: set<Key>, w: seq<NodeId>, p: NodeId)
    requires Behind(cfg, g, w, p) && Idle(cfg, g') && Aside(g, g', xs, ks)
    ensures Behind(cfg, g', w, p)
  {
    hide Idle; hide Called;
    AsideCalled(g, g', xs, ks, p, 0, w);
    assert NodeAside(g.nodes[p], g'.nodes[p], ks);
    hide FaceOf; hide InstanceAt; hide Concerns;
  }

  lemma StartedFacts(cfg: Config, g: System, w: seq<NodeId>, p: NodeId)
    requires Apart(cfg, g, w, 1) && Runs(cfg, p) && p !in w && Called(g, p, 0, w)
    ensures Behind(cfg, g, w, p) && g.nodes[p].height.H1? && forall k: Key :: FaceAt(g, p, k) == NewFace(k)
  {
    ApartSize(cfg, g, w, 1);
    ApartOutside(cfg, g, w, 1);
    hide Apart; hide Idle; hide Called; hide FaceAt;
    assert g.nodes[p] == STARTED;
    forall k: Key ensures FaceAt(g, p, k) == NewFace(k) {
      NewFaces(g, p, k);
    }
  }

  lemma LeftFirst(cfg: Config, g: System, w: seq<NodeId>, p: NodeId)
    requires Leftover(cfg, g, w) && p < cfg.n && p !in w
    ensures forall a :: a in w ==> Left(g, p, First(a), w)
  {
    hide Left;
  }

  /** The leader gets the certificates of the first layer and proposes its second block. */
  lemma StageSix(cfg: Config, w: seq<NodeId>, p: NodeId)
    returns (g: System, b: Block, bs: map<NodeId, Block>, cs: map<NodeId, Block>, ds: map<NodeId, Block>)
    requires cfg.n >= 1 && Quorate(cfg, w) && Runs(cfg, p) && p !in w
    requires Elector.LeaderOf(cfg.n, cfg.coin, 0) == Some(p)
    ensures Behind(cfg, g, w, p) && Ahead(g.sent, w, bs, cs, ds) && OnItsWay(cfg, g, ProposeMsg(b))
    ensures b.author == p && b.view == 0 && b.height.H2?
    ensures forall x: NodeId :: x < cfg.n && (x in w || x == p) ==> FaceAt(g, x, Key(0, p)) == NewFace(Key(0, p))
  {
    assert w != [] by { assert High(cfg.n) >= 1; }
    hide Apart; hide High; hide Calm; hide Idle; hide Leftover; hide HoldsLayer; hide Inward; hide Called; hide Aside;
    hide Elector.LeaderOf; hide FaceAt; hide OnItsWay; hide Hash; hide Left; hide Done; hide Ahead;
    var g1;
    g1, bs, cs, ds := StageFive(cfg, w, p);
    assert Ahead(g1.sent, w, bs, cs, ds) by { AheadMade(g1.sent, w, bs, cs, ds); }
    StartedFacts(cfg, g1, w, p);
    LeftFirst(cfg, g1, w, p);
    var g2 := FetchAll(cfg, g1, p, w, w);
    AsideBehind(cfg, g1, g2, {p}, Keys(0, w), w, p);
    AsidePosition(g1, g2, {p}, Keys(0, w), p);
    assert HoldsLayer(cfg, g2.nodes[p], 0, H1, w) by { FetchedHolds(cfg, g1, g2, p, w); }
    g, b := Second(cfg, g2, p, 0, w);
    assert Behind(cfg, g, w, p) by { SecondBehind(cfg, g2, g, w, p); }
    IssuedFacts(cfg, g, p, 0, H2, w, b);
    AsideSize(g1, g2, {p}, Keys(0, w));
    CalmSize(g2, g, {p});
    AheadGrows(g1.sent, g.sent, w, bs, cs, ds);
    forall x: NodeId | x < cfg.n && (x in w || x == p) ensures FaceAt(g, x, Key(0, p)) == NewFace(Key(0, p)) {
      if x in w {
        ApartBlank(cfg, g1, w, 1, x, Key(0, p));
      }
      AsideFace(g1, g2, {p}, Keys(0, w), x, Key(0, p));
      CalmFace(g2, g, {p}, x, Key(0, p));
    }
  }

  lemma AheadMade(sent: set<Msg>, w: seq<NodeId>, bs: map<NodeId, Block>, cs: map<NodeId, Block>,
    ds: map<NodeId, Block>)
    requires Inward(sent, 0, H2, w, bs) && Inward(sent, 1, H1, w, cs) && Inward(sent, 1, H2, w, ds)
    ensures Ahead(sent, w, bs, cs, ds)
  {
    hide Inward;
  }

  lemma SecondBehind(cfg: Config, g: System, g': System, w: seq<NodeId>, p: NodeId)
    requires Behind(cfg, g, w, p) && Idle(cfg, g') && |g'.nodes| == cfg.n && SameElection(g.nodes[p], g'.nodes[p])
    requires g'.nodes[p].view == 0 && forall q :: q in g.net ==> q in g'.net
    ensures Behind(cfg, g', w, p)
  {
    hide Idle;
  }

  lemma IssuedFacts(cfg: Config, g: System, x: NodeId, view: nat, h: Height, w: seq<NodeId>, b: Block)
    requires Issued(cfg, g, x, view, h, w, b)
    ensures OnItsWay(cfg, g, ProposeMsg(b)) && b.author == x && b.view == view && b.height == h
  {
    hide OnItsWay;
  }

  lemma FetchedHolds(cfg: Config, g: System, g': System, p: NodeId, w: seq<NodeId>)
    requires |g.nodes| == |g'.nodes| == cfg.n && p < cfg.n && Aside(g, g', {p}, Keys(0, w))
    requires forall k: Key :: FaceAt(g, p, k) == NewFace(k)
    requires forall a :: a in w ==>
      FaceAt(g', p, Key(0, a)) == Done(FaceAt(g, p, Key(0, a)), First(a), High(cfg.n))
    ensures HoldsLayer(cfg, g'.nodes[p], 0, H1, w)
  {
    hide Aside; hide FaceAt; hide Hash; hide High; hide Done; hide HoldsLayer;
    forall a: NodeId | a < cfg.n
      ensures QcIn(FaceAt(g', p, Key(0, a)), H1) == if a in w then Some(Qc(Firsts(w)[a])) else None
    {
      if a in w {
        DoneFace(NewFace(Key(0, a)), First(a), High(cfg.n));
      } else {
        AsideFace(g, g', {p}, Keys(0, w), p, Key(0, a));
      }
    }
    LayerHolds(cfg, g', p, 0, H1, w, Firsts(w));
  }

  /** The quorum certifies the leader's second block and answers with speed votes, which raise its flag. */
  lemma StageSeven(cfg: Config, w: seq<NodeId>, p: NodeId)
    returns (g: System, b: Block, bs: map<NodeId, Block>, cs: map<NodeId, Block>, ds: map<NodeId, Block>)
    requires cfg.n >= 1 && Quorate(cfg, w) && Runs(cfg, p) && p !in w
    requires Elector.LeaderOf(cfg.n, cfg.coin, 0) == Some(p)
    ensures Behind(cfg, g, w, p) && Ahead(g.sent, w, bs, cs, ds) && ProposeMsg(b) in g.sent
    ensures b.author == p && b.view == 0 && b.height.H2? && FaceAt(g, p, Key(0, p)).sped
  {
    assert High(cfg.n) >= 1;
    hide Behind; hide High; hide Idle; hide Called; hide Aside; hide Elector.LeaderOf; hide FaceAt; hide OnItsWay;
    hide Hash; hide Left; hide Done; hide Ahead; hide Follows;
    var k := Key(0, p);
    var g1;
    g1, b, bs, cs, ds := StageSix(cfg, w, p);
    BehindFacts(cfg, g1, w, p);
    var g2 := Certify(cfg, g1, b, w);
    AsideBehind(cfg, g1, g2, Members(w), {k}, w, p);
    AsideFace(g1, g2, Members(w), {k}, p, k);
    var g3 := Fetch(cfg, g2, p, b, w);
    AsideBehind(cfg, g2, g3, {p}, {k}, w, p);
    forall x | x in w ensures Packet(p, SpeedVoting(SpeedVoteFor(x, Qc(b)))) in g3.net {
      StillFollows(cfg, g2, g3, {p}, {k}, x, b);
      FollowsAnswer(cfg, g3, x, b, p);
    }
    DoneSecond(NewFace(k), b, High(cfg.n));
    g := SpeedAll(cfg, g3, p, k, Qc(b), w);
    ShiftedBehind(cfg, g3, g, w, p);
    AsideSize(g1, g2, Members(w), {k});
    AsideSize(g2, g3, {p}, {k});
    ShiftedSize(g3, g, p);
    AheadGrows(g1.sent, g.sent, w, bs, cs, ds);
    SentOnItsWay(cfg, g1, ProposeMsg(b));
  }

  lemma SentOnItsWay(cfg: Config, g: System, m: Msg)
    requires OnItsWay(cfg, g, m)
    ensures m in g.sent
  {
  }

  lemma BehindFacts(cfg: Config, g: System, w: seq<NodeId>, p: NodeId)
    requires Behind(cfg, g, w, p)
    ensures Idle(cfg, g) && |g.nodes| == cfg.n && Runs(cfg, p) && Called(g, p, 0, w)
    ensures Undecided(g.nodes[p], 0) && g.nodes[p].view == 0
  {
    hide Idle; hide Called;
  }

  lemma ShiftedBehind(cfg: Config, g: System, g': System, w: seq<NodeId>, p: NodeId)
    requires Behind(cfg, g, w, p) && Idle(cfg, g') && Shifted(g, g', p)
    ensures Behind(cfg, g', w, p)
  {
    hide Idle;
  }

  lemma FollowsAnswer(cfg: Config, g: System, x: NodeId, b: Block, p: NodeId)
    requires x < |g.nodes| && Follows(cfg, g, x, b) && b.height.H2? && p < cfg.n
    ensures Packet(p, SpeedVoting(SpeedVoteFor(x, Qc(b)))) in g.net
  {
    hide Hash;
  }

  lemma DoneSecond(f: Face, b: Block, high: nat)
    requires b.height.H2?
    ensures var d := Done(f, b, high);
      d.hiQc.Some? && d.proposer == f.proposer && d.view == f.view && d.speedVotes == f.speedVotes
  {
    hide Hash;
  }

  // ----- The decision -----

  /** In processCoin, node `i` has found the speed certificate of the leader: it commits the leader's second block. */
  ghost predicate SpeedDecides(cfg: Config, g: System, i: NodeId, b: Block) {
    && cfg.n >= 1 && i < |g.nodes| && ProposeMsg(b) in g.sent && b.height.H2?
    && g.nodes[i].coin == Some(Coin(b.view, b.author, Some(H2)))
  }

  lemma StageEight(cfg: Config, w: seq<NodeId>, p: NodeId)
    returns (g: System, b: Block, bs: map<NodeId, Block>, cs: map<NodeId, Block>, ds: map<NodeId, Block>)
    requires cfg.n >= 1 && Quorate(cfg, w) && Runs(cfg, p) && p !in w
    requires Elector.LeaderOf(cfg.n, cfg.coin, 0) == Some(p)
    ensures Reached(cfg, g) && Ahead(g.sent, w, bs, cs, ds) && b.author == p && b.view == 0
    ensures SpeedDecides(cfg, g, p, b)
  {
    hide Behind; hide High; hide Idle; hide Called; hide Elector.LeaderOf; hide FaceAt; hide Ahead; hide Calm;
    hide Undecided; hide Reached;
    var g1;
    g1, b, bs, cs, ds := StageSeven(cfg, w, p);
    BehindFacts(cfg, g1, w, p);
    var g2 := Learn(cfg, g1, p, 0, w, p);
    CalmFace(g1, g2, {p}, p, Key(0, p));
    CalmSize(g1, g2, {p});
    assert CommitHeight(cfg, g2.nodes[p], p, 0) == Some(H2) by { SpedCommits(cfg, g2, p, p); }
    SettleEffect(cfg, g2.nodes[p], 0, p);
    hide CommitHeight; hide CoinStep; hide OnItsWay;
    g := Do(cfg, g2, p, Settle);
    AheadGrows(g1.sent, g.sent, w, bs, cs, ds);
  }

  lemma SpedCommits(cfg: Config, g: System, x: NodeId, p: NodeId)
    requires x < |g.nodes| && FaceAt(g, x, Key(0, p)).sped
    ensures CommitHeight(cfg, g.nodes[x], p, 0) == Some(H2)
  {
    hide InstanceAt;
  }

  // ----- It is in no history of view 1 -----

  lemma {:induction false} HistoryBelow(sent: set<Msg>, c: Block, b: Block)
    requires InHistory(sent, c, b)
    ensures LayerOf(b) <= LayerOf(c) && (LayerOf(b) == LayerOf(c) ==> b == c)
    decreases LayerOf(c)
  {
    hide References1;
    if c != b {
      var r :| References1(sent, c, r) && LayerOf(r) < LayerOf(c) && InHistory(sent, r, b);
      HistoryBelow(sent, r, b);
    }
  }

  /** A reference of an inward block leads to an inward block. */
  lemma InwardReference(cfg: Config, run: seq<System>, t: nat, c: Block, r: Block, w: seq<NodeId>, view: nat, h: Height,
    bs: map<NodeId, Block>)
    requires IsRun(cfg, run) && t < |run| && ProposeMsg(c) in run[t].sent && References1(run[t].sent, c, r)
    requires (forall q :: q in c.references ==> q.proposer in w) && Inward(run[t].sent, view, h, w, bs)
    requires Layer(view, h) + 1 == LayerOf(c)
    ensures r.author in w && r == bs[r.author] && LayerOf(r) == Layer(view, h)
  {
    hide IsRun; hide Hash;
    var q :| q in c.references && Names(run[t].sent, q, r);
    DagTheorems.LayeredDag(cfg, run, t);
    SamePlace(r, bs[r.author]);
    assert DagInvariant.SamePosition(r, bs[r.author]);
  }

  lemma NotInHistory(cfg: Config, run: seq<System>, t: nat, w: seq<NodeId>, bs: map<NodeId, Block>,
    cs: map<NodeId, Block>, ds: map<NodeId, Block>, a: NodeId, b: Block)
    requires IsRun(cfg, run) && t < |run| && Ahead(run[t].sent, w, bs, cs, ds) && a in w
    requires b.author !in w && b.view == 0 && b.height.H2?
    ensures a in ds && !InHistory(run[t].sent, ds[a], b)
  {
    var sent := run[t].sent;
    hide IsRun; hide References1;
    if InHistory(sent, ds[a], b) {
      var r :| References1(sent, ds[a], r) && LayerOf(r) < LayerOf(ds[a]) && InHistory(sent, r, b);
      InwardReference(cfg, run, t, ds[a], r, w, 1, H1, cs);
      var s :| References1(sent, r, s) && LayerOf(s) < LayerOf(r) && InHistory(sent, s, b);
      InwardReference(cfg, run, t, r, s, w, 0, H2, bs);
      HistoryBelow(sent, s, b);
    }
  }

  // ----- The exact condition -----

  /** A run in which the leader of view 0 commits its second block by a speed certificate, and a height-2 block of
      view 1 does not have it in its history. */
  lemma SpeedCommitIsLost(cfg: Config, p: NodeId) returns (run: seq<System>, b: Block, d: Block)
    requires cfg.n >= 1 && Present(cfg.n, cfg.faults) > High(cfg.n)
    requires Elector.LeaderOf(cfg.n, cfg.coin, 0) == Some(p) && p >= cfg.faults
    ensures IsRun(cfg, run) && |run| >= 1 && SpeedDecides(cfg, run[|run| - 1], p, b) && b.view == 0 && b.author == p
    ensures ProposeMsg(d) in run[|run| - 1].sent && d.view == 1 && d.height.H2?
    ensures !InHistory(run[|run| - 1].sent, d, b)
  {
    assert High(cfg.n) >= 1;
    assert p < cfg.n;
    hide IsRun; hide Reached; hide High; hide Elector.LeaderOf; hide Present; hide InHistory;
    var w := QuorumWithout(cfg.n, cfg.faults, p);
    assert Quorate(cfg, w) && w[0] in w;
    var g, o, bs, cs, ds := StageEight(cfg, w, p);
    run := RunTo(cfg, g);
    b, d := o, ds[w[0]];
    NotInHistory(cfg, run, |run| - 1, w, bs, cs, ds, w[0], b);
  }

  /** Node `i` commits `b` by a speed certificate, and `d` is a block of the next view's height 2 or later. */
  ghost predicate After(cfg: Config, run: seq<System>, t: nat, i: NodeId, b: Block, d: Block) {
    && IsRun(cfg, run) && t < |run| && SpeedDecides(cfg, run[t], i, b) && ProposeMsg(d) in run[t].sent
    && LayerOf(d) >= Layer(b.view + 1, H2)
  }

  /** In every run every speed-committed block is in the histories of all such blocks. */
  ghost predicate SpeedCommitsCovered(cfg: Config) {
    forall run: seq<System>, t: nat, i: NodeId, b: Block, d: Block ::
      After(cfg, run, t, i, b, d) ==> InHistory(run[t].sent, d, b)
  }

  /** They are if and only if no more than 2f+1 nodes run, provided that the leader of view 0 is one of them. */
  lemma SpeedCommitsCoveredIff(cfg: Config, p: NodeId)
    requires cfg.n >= 1 && Elector.LeaderOf(cfg.n, cfg.coin, 0) == Some(p) && p >= cfg.faults
    ensures SpeedCommitsCovered(cfg) <==> Present(cfg.n, cfg.faults) <= High(cfg.n)
  {
    hide IsRun; hide High; hide Present; hide InHistory; hide Elector.LeaderOf;
    if Present(cfg.n, cfg.faults) <= High(cfg.n) {
      forall run: seq<System>, t: nat, i: NodeId, b: Block, d: Block | After(cfg, run, t, i, b, d)
        ensures InHistory(run[t].sent, d, b)
      {
        EverythingIsCovered(cfg, run, t, b, d);
      }
    } else {
      var run, b, d := SpeedCommitIsLost(cfg, p);
      assert After(cfg, run, |run| - 1, p, b, d);
    }
  }
}
