/** Runs of the DAG protocol in which a speed-committed block is left out of later histories. */
module DagLostSpeed {
  import opened Blocks
  import opened Quorum
  import opened DagNode
  import opened DagSystem
  import opened DagSchedules
  import opened DagLayers
  import opened DagTurns
  import Elector

  // ----- The beginning -----

  const STARTED := INIT.(started := true)

  function First(i: NodeId): Block {
    Block(i, 0, H1, -1, None, [])
  }

  lemma {:induction false} Begun(cfg: Config, j: NodeId) returns (g: System)
    requires cfg.n >= 1 && cfg.faults <= j <= cfg.n
    ensures Reached(cfg, g) && |g.nodes| == cfg.n
    ensures forall i :: 0 <= i < cfg.n ==> g.nodes[i] == if cfg.faults <= i < j then STARTED else INIT
    ensures forall i: NodeId :: cfg.faults <= i < j ==> OnItsWay(cfg, g, ProposeMsg(First(i)))
    decreases j
  {
    hide Reached;
    if j == cfg.faults {
      g := Initial(cfg);
      InitialReached(cfg);
    } else {
      var h := Begun(cfg, j - 1);
      g := Do(cfg, h, j - 1, Begin(false));
      assert Step(cfg, j - 1, INIT, Begin(false)) == (STARTED, Some(ProposeMsg(First(j - 1))));
    }
  }

  lemma InitialReached(cfg: Config)
    requires cfg.n >= 1
    ensures Reached(cfg, Initial(cfg))
  {
    assert IsRun(cfg, [Initial(cfg)]);
  }

  /** The nodes outside `w` have done nothing but propose. */
  ghost predicate Outside(cfg: Config, g: System, w: seq<NodeId>) {
    && |g.nodes| == cfg.n
    && forall j: NodeId :: j < cfg.n && j !in w ==> g.nodes[j] == if Runs(cfg, j) then STARTED else INIT
  }

  /** The nodes in `w` have not worked in any instance of a later view or of a node outside `w`. */
  ghost predicate Blank(cfg: Config, g: System, w: seq<NodeId>, view: nat)
    requires |g.nodes| == cfg.n
  {
    forall x: NodeId, k: Key :: x < cfg.n && x in w && (k.view > view || k.node !in w) ==> FaceAt(g, x, k) == NewFace(k)
  }

  /** What is left for the nodes outside `w`: the first blocks and the votes for them. */
  ghost predicate Leftover(cfg: Config, g: System, w: seq<NodeId>) {
    forall j: NodeId, a :: j < cfg.n && j !in w && a in w ==> Left(g, j, First(a), w)
  }

  /** What the steps of the nodes in `w` keep. */
  ghost predicate Apart(cfg: Config, g: System, w: seq<NodeId>, view: nat) {
    Idle(cfg, g) && Outside(cfg, g, w) && Blank(cfg, g, w, view)
  }

  lemma AsideApart(cfg: Config, g: System, g': System, w: seq<NodeId>, v: nat, view: nat)
    requires Apart(cfg, g, w, view) && Idle(cfg, g') && Aside(g, g', Members(w), Keys(v, w)) && v <= view
    ensures Apart(cfg, g', w, view)
  {
    hide Idle; hide FaceAt;
    AsideSize(g, g', Members(w), Keys(v, w));
    assert Outside(cfg, g', w) by { AsideOutside(cfg, g, g', w, Keys(v, w)); }
    hide Aside;
    forall x: NodeId, k: Key | x < cfg.n && x in w && (k.view > view || k.node !in w)
      ensures FaceAt(g', x, k) == NewFace(k)
    {
      AsideFace(g, g', Members(w), Keys(v, w), x, k);
    }
  }

  lemma AsideOutside(cfg: Config, g: System, g': System, w: seq<NodeId>, ks: set<Key>)
    requires Outside(cfg, g, w) && Aside(g, g', Members(w), ks)
    ensures Outside(cfg, g', w)
  {
    hide NodeAside; hide Concerns;
  }

  lemma CalmApart(cfg: Config, g: System, g': System, w: seq<NodeId>, view: nat)
    requires Apart(cfg, g, w, view) && Idle(cfg, g') && Calm(g, g', Members(w))
    ensures Apart(cfg, g', w, view)
  {
    hide Idle; hide FaceAt;
    CalmSize(g, g', Members(w));
    assert Outside(cfg, g', w) by { CalmOutside(cfg, g, g', w); }
    hide Calm;
    forall x: NodeId, k: Key | x < cfg.n && x in w && (k.view > view || k.node !in w)
      ensures FaceAt(g', x, k) == NewFace(k)
    {
      CalmFace(g, g', Members(w), x, k);
    }
  }

  lemma AsideLeftover(cfg: Config, g: System, g': System, w: seq<NodeId>, ks: set<Key>)
    requires Leftover(cfg, g, w) && Aside(g, g', Members(w), ks)
    ensures Leftover(cfg, g', w)
  {
    hide Aside; hide Left;
    forall j: NodeId, a | j < cfg.n && j !in w && a in w ensures Left(g', j, First(a), w) {
      StillLeft(g, g', Members(w), ks, j, First(a), w);
    }
  }

  lemma CalmLeftover(cfg: Config, g: System, g': System, w: seq<NodeId>)
    requires Leftover(cfg, g, w) && Calm(g, g', Members(w))
    ensures Leftover(cfg, g', w)
  {
    hide Calm; hide Left;
    forall j: NodeId, a | j < cfg.n && j !in w && a in w ensures Left(g', j, First(a), w) {
      CalmLeft(g, g', Members(w), j, First(a), w);
    }
  }

  lemma CalmOutside(cfg: Config, g: System, g': System, w: seq<NodeId>)
    requires Outside(cfg, g, w) && Calm(g, g', Members(w))
    ensures Outside(cfg, g', w)
  {
    hide NodeCalm;
  }

  lemma ApartSize(cfg: Config, g: System, w: seq<NodeId>, view: nat)
    requires Apart(cfg, g, w, view)
    ensures |g.nodes| == cfg.n && Idle(cfg, g)
  {
    hide Idle; hide Blank;
  }

  // ----- A certified layer -----

  lemma FaceQc(g: System, x: NodeId, k: Key, h: Height)
    requires x < |g.nodes|
    ensures QcAt(g.nodes[x], k, h) == QcIn(FaceAt(g, x, k), h)
  {
    hide InstanceAt;
  }

  lemma LayerHolds(cfg: Config, g: System, x: NodeId, view: nat, h: Height, w: seq<NodeId>, bs: map<NodeId, Block>)
    requires x < |g.nodes| && Positioned(bs, view, h, w)
    requires forall a: NodeId :: a < cfg.n ==>
      QcIn(FaceAt(g, x, Key(view, a)), h) == if a in w then Some(Qc(bs[a])) else None
    ensures HoldsLayer(cfg, g.nodes[x], view, h, w)
  {
    hide FaceAt; hide QcAt; hide Hash;
    forall a: NodeId | a < cfg.n
      ensures var qc := QcAt(g.nodes[x], Key(view, a), h);
        (qc.Some? <==> a in w) && (qc.Some? ==> qc.value.proposer == a)
    {
      FaceQc(g, x, Key(view, a), h);
    }
  }

  lemma DoneFace(f: Face, b: Block, high: nat)
    ensures QcIn(Done(f, b, high), b.height) == Some(Qc(b)) && Done(f, b, high).dag == f.dag
    ensures Done(f, b, high).proposer == f.proposer && Done(f, b, high).view == f.view
    ensures b.height.H1? ==> Done(f, b, high).hiVotes == f.hiVotes && Done(f, b, high).hiQc == f.hiQc
  {
    hide Hash;
  }

  /** The blocks `bs` of the nodes in `w` have been certified at all of them. */
  ghost predicate Layered(cfg: Config, g: System, view: nat, h: Height, w: seq<NodeId>, bs: map<NodeId, Block>)
    requires |g.nodes| == cfg.n
  {
    && Positioned(bs, view, h, w) && (forall x :: x in w ==> x < cfg.n)
    && (forall x :: x in w ==> HoldsLayer(cfg, g.nodes[x], view, h, w))
    && (forall x, a :: x in w && a in w ==> Follows(cfg, g, x, bs[a]))
  }

  /** The nodes in `w` certify their blocks at a position. */
  lemma CertifyLayer(cfg: Config, g: System, view: nat, h: Height, w: seq<NodeId>, bs: map<NodeId, Block>, base: nat)
    returns (g': System)
    requires Quorate(cfg, w) && Apart(cfg, g, w, base) && |g.nodes| == cfg.n && Positioned(bs, view, h, w)
    requires forall a :: a in w ==> OnItsWay(cfg, g, ProposeMsg(bs[a]))
    requires forall x, a :: x in w && a in w ==> Open(FaceAt(g, x, Key(view, a)), Key(view, a), h)
    requires view <= base + 1
    ensures Apart(cfg, g', w, if view > base then view else base) && |g'.nodes| == cfg.n
    ensures Layered(cfg, g', view, h, w, bs)
    ensures Aside(g, g', Members(w), Keys(view, w))
    ensures forall j: NodeId, a :: j < cfg.n && j !in w && a in w ==> Left(g', j, bs[a], w)
    ensures forall x, a :: x in w && a in w ==>
      FaceAt(g', x, Key(view, a)) == Done(FaceAt(g, x, Key(view, a)), bs[a], High(cfg.n))
  {
    hide Idle; hide Aside; hide FaceAt; hide Hash; hide Done; hide High; hide OnItsWay; hide Follows; hide Left;
    hide Outside;
    ApartSize(cfg, g, w, base);
    g' := PassLayer(cfg, g, view, h, w, bs, w);
    var top := if view > base then view else base;
    LaterBlank(cfg, g, w, base, top);
    AsideApart(cfg, g, g', w, view, top);
    forall x | x in w ensures HoldsLayer(cfg, g'.nodes[x], view, h, w) {
      forall a: NodeId | a < cfg.n
        ensures QcIn(FaceAt(g', x, Key(view, a)), h) == if a in w then Some(Qc(bs[a])) else None
      {
        if a in w {
          DoneFace(FaceAt(g, x, Key(view, a)), bs[a], High(cfg.n));
        }
      }
      LayerHolds(cfg, g', x, view, h, w, bs);
    }
  }

  lemma LaterBlank(cfg: Config, g: System, w: seq<NodeId>, view: nat, later: nat)
    requires Apart(cfg, g, w, view) && view <= later
    ensures Apart(cfg, g, w, later)
  {
    hide Idle; hide FaceAt;
  }

  // ----- The quorum leaves view 0 -----

  function Firsts(w: seq<NodeId>): map<NodeId, Block> {
    map a | a in w :: First(a)
  }

  /** The node has the election state of the beginning and stands in view 0. */
  predicate Fresh(nd: Node, h: Height) {
    nd.view == 0 && nd.height == h && nd.elector == Elector.INIT && nd.speedVoteNums == map[]
  }

  lemma AsideFresh(g: System, g': System, xs: set<NodeId>, ks: set<Key>, x: NodeId, h: Height)
    requires Aside(g, g', xs, ks) && x < |g.nodes| && Fresh(g.nodes[x], h)
    ensures |g'.nodes| == |g.nodes| && Fresh(g'.nodes[x], h)
  {
    assert NodeAside(g.nodes[x], g'.nodes[x], ks);
    hide FaceOf; hide InstanceAt; hide Concerns;
  }

  lemma NewFaces(g: System, x: NodeId, k: Key)
    requires x < |g.nodes| && (g.nodes[x] == STARTED || g.nodes[x] == INIT)
    ensures FaceAt(g, x, k) == NewFace(k)
  {
  }

  lemma Opening(cfg: Config, w: seq<NodeId>) returns (g: System)
    requires cfg.n >= 1 && Quorate(cfg, w)
    ensures Apart(cfg, g, w, 0) && |g.nodes| == cfg.n
    ensures forall x :: x in w ==> Fresh(g.nodes[x], H1) && OnItsWay(cfg, g, ProposeMsg(First(x)))
    ensures forall x, a :: x in w && a in w ==> FaceAt(g, x, Key(0, a)) == NewFace(Key(0, a))
  {
    assert cfg.faults <= cfg.n by { assert High(cfg.n) >= 1; assert w[0] in w; }
    hide Reached; hide OnItsWay; hide High; hide FaceAt;
    g := Begun(cfg, cfg.n);
    forall x: NodeId, k: Key | x < cfg.n ensures FaceAt(g, x, k) == NewFace(k) {
      NewFaces(g, x, k);
    }
  }

  /** The quorum certifies its first blocks. */
  lemma StageOne(cfg: Config, w: seq<NodeId>) returns (g: System)
    requires cfg.n >= 1 && Quorate(cfg, w)
    ensures Apart(cfg, g, w, 0) && |g.nodes| == cfg.n && Leftover(cfg, g, w)
    ensures Layered(cfg, g, 0, H1, w, Firsts(w))
    ensures forall x :: x in w ==> Fresh(g.nodes[x], H1)
    ensures forall x, a :: x in w && a in w ==> Open(FaceAt(g, x, Key(0, a)), Key(0, a), H2)
  {
    hide Apart; hide FaceAt; hide Hash; hide High; hide OnItsWay; hide Aside; hide Layered; hide Left; hide Fresh;
    hide Done;
    var h := Opening(cfg, w);
    g := CertifyLayer(cfg, h, 0, H1, w, Firsts(w), 0);
    forall x | x in w ensures Fresh(g.nodes[x], H1) {
      AsideFresh(h, g, Members(w), Keys(0, w), x, H1);
    }
    forall x, a | x in w && a in w ensures Open(FaceAt(g, x, Key(0, a)), Key(0, a), H2) {
      DoneFace(NewFace(Key(0, a)), First(a), High(cfg.n));
    }
  }

  lemma LayeredParts(cfg: Config, g: System, view: nat, w: seq<NodeId>, bs: map<NodeId, Block>, x: NodeId)
    requires |g.nodes| == cfg.n && Layered(cfg, g, view, H1, w, bs) && x in w
    ensures x < cfg.n && HoldsLayer(cfg, g.nodes[x], view, H1, w) && view in g.nodes[x].callBack
  {
    hide HoldsLayer; hide OnItsWay;
    assert Follows(cfg, g, x, bs[x]);
  }

  lemma StandsInward(cfg: Config, g: System, view: nat, h: Height, w: seq<NodeId>, bs: map<NodeId, Block>)
    requires |g.nodes| == cfg.n && forall a :: a in w ==> a < cfg.n && a in bs && Stands(cfg, g, a, view, h, w, bs[a])
    ensures Inward(g.sent, view, h, w, bs)
    ensures forall a :: a in w ==> OnItsWay(cfg, g, ProposeMsg(bs[a]))
  {
    forall a | a in w ensures OnItsWay(cfg, g, ProposeMsg(bs[a])) && ProposeMsg(bs[a]) in g.sent {
      assert Stands(cfg, g, a, view, h, w, bs[a]);
    }
  }

  /** The quorum certifies its second blocks. */
  lemma StageTwo(cfg: Config, w: seq<NodeId>) returns (g: System, bs: map<NodeId, Block>)
    requires cfg.n >= 1 && Quorate(cfg, w)
    ensures Apart(cfg, g, w, 0) && |g.nodes| == cfg.n && Leftover(cfg, g, w)
    ensures Layered(cfg, g, 0, H2, w, bs) && Inward(g.sent, 0, H2, w, bs)
    ensures forall x :: x in w ==> Fresh(g.nodes[x], H2)
  {
    hide Apart; hide FaceAt; hide Hash; hide High; hide OnItsWay; hide Aside; hide Layered; hide Calm; hide Idle;
    hide Leftover; hide HoldsLayer; hide Stands; hide Inward; hide Left; hide Done;
    var g1 := StageOne(cfg, w);
    ApartSize(cfg, g1, w, 0);
    forall x | x in w ensures HoldsLayer(cfg, g1.nodes[x], 0, H1, w) && 0 in g1.nodes[x].callBack {
      LayeredParts(cfg, g1, 0, w, Firsts(w), x);
    }
    var g2, cs := SecondAll(cfg, g1, 0, w, w);
    bs := cs;
    CalmApart(cfg, g1, g2, w, 0);
    CalmLeftover(cfg, g1, g2, w);
    StandsInward(cfg, g2, 0, H2, w, bs);
    InwardPositioned(g2.sent, 0, H2, w, bs);
    forall x, a | x in w && a in w ensures Open(FaceAt(g2, x, Key(0, a)), Key(0, a), H2) {
      CalmFace(g1, g2, Members(w), x, Key(0, a));
    }
    forall x | x in w ensures Fresh(g2.nodes[x], H2) {
      StandsPosition(cfg, g2, x, 0, H2, w, bs[x]);
    }
    hide Fresh;
    g := CertifyLayer(cfg, g2, 0, H2, w, bs, 0);
    AsideLeftover(cfg, g2, g, w, Keys(0, w));
    AsideSize(g2, g, Members(w), Keys(0, w));
    InwardGrows(g2.sent, g.sent, 0, H2, w, bs);
    forall x | x in w ensures Fresh(g.nodes[x], H2) {
      AsideFresh(g2, g, Members(w), Keys(0, w), x, H2);
    }
  }

  lemma StandsPosition(cfg: Config, g: System, x: NodeId, view: nat, h: Height, w: seq<NodeId>, b: Block)
    requires x < |g.nodes| && Stands(cfg, g, x, view, h, w, b)
    ensures g.nodes[x].view == view && g.nodes[x].height == h
  {
    hide Issued;
  }

  lemma InwardPositioned(sent: set<Msg>, view: nat, h: Height, w: seq<NodeId>, bs: map<NodeId, Block>)
    requires Inward(sent, view, h, w, bs)
    ensures Positioned(bs, view, h, w)
  {
  }

  lemma InwardGrows(sent: set<Msg>, sent': set<Msg>, view: nat, h: Height, w: seq<NodeId>, bs: map<NodeId, Block>)
    requires Inward(sent, view, h, w, bs) && sent <= sent'
    ensures Inward(sent', view, h, w, bs)
  {
  }

  lemma OutsideShut(cfg: Config, g: System, w: seq<NodeId>, bs: map<NodeId, Block>)
    requires Outside(cfg, g, w) && Inward(g.sent, 0, H2, w, bs)
    ensures Shut(cfg, g, 0, w, bs)
  {
    hide Inward;
  }

  lemma LayeredAnswers(cfg: Config, g: System, w: seq<NodeId>, bs: map<NodeId, Block>, x: NodeId)
    requires |g.nodes| == cfg.n && Layered(cfg, g, 0, H2, w, bs) && x in w
    ensures x < cfg.n && HoldsLayer(cfg, g.nodes[x], 0, H2, w) && Answered(g, x, w, bs)
  {
    hide HoldsLayer; hide Hash;
    forall a | a in w ensures Packet(x, SpeedVoting(SpeedVoteFor(x, Qc(bs[a])))) in g.net {
      assert Follows(cfg, g, x, bs[a]);
    }
  }

  lemma FreshFacts(nd: Node, h: Height, k: Key)
    requires Fresh(nd, h)
    ensures nd.view == 0 && nd.height == h && Count(nd.speedVoteNums, k) == 0 && Undecided(nd, 0)
  {
  }

  /** The quorum calls the elections of view 0. */
  lemma StageThree(cfg: Config, w: seq<NodeId>) returns (g: System, bs: map<NodeId, Block>)
    requires cfg.n >= 1 && Quorate(cfg, w)
    ensures Apart(cfg, g, w, 0) && |g.nodes| == cfg.n && Leftover(cfg, g, w) && Inward(g.sent, 0, H2, w, bs)
    ensures forall x :: x in w ==> g.nodes[x].view == 0 && Undecided(g.nodes[x], 0)
    ensures forall x :: x in w ==> HoldsLayer(cfg, g.nodes[x], 0, H2, w)
    ensures forall j: NodeId :: j < cfg.n ==> Called(g, j, 0, w)
  {
    hide Apart; hide Hash; hide High; hide OnItsWay; hide Layered; hide Calm; hide Idle; hide Leftover; hide HoldsLayer;
    hide Inward; hide Fresh; hide Answered; hide Count; hide Called;
    var g1, cs := StageTwo(cfg, w);
    bs := cs;
    ApartSize(cfg, g1, w, 0);
    InwardPositioned(g1.sent, 0, H2, w, bs);
    forall x | x in w ensures
      Answered(g1, x, w, bs) && Count(g1.nodes[x].speedVoteNums, Key(0, x)) == 0 && g1.nodes[x].view == 0 &&
      Undecided(g1.nodes[x], 0) && HoldsLayer(cfg, g1.nodes[x], 0, H2, w)
    {
      LayeredAnswers(cfg, g1, w, bs, x);
      FreshFacts(g1.nodes[x], H2, Key(0, x));
    }
    g := OwnAll(cfg, g1, 0, w, w, bs);
    CalmApart(cfg, g1, g, w, 0);
    CalmLeftover(cfg, g1, g, w);
    CalmSize(g1, g, Members(w));
    InwardGrows(g1.sent, g.sent, 0, H2, w, bs);
    forall x | x in w ensures HoldsLayer(cfg, g.nodes[x], 0, H2, w) {
      CalmHoldsLayer(cfg, g1, g, Members(w), x, 0, H2, w);
    }
    forall j: NodeId | j < cfg.n ensures Called(g, j, 0, w) {
      AllCalled(cfg, g, 0, w, j);
    }
  }

  lemma AllCalled(cfg: Config, g: System, view: nat, w: seq<NodeId>, x: NodeId)
    requires x < cfg.n && forall y :: y in w ==> OnItsWay(cfg, g, ElectMsg(y, view))
    ensures Called(g, x, view, w)
  {
  }

  /** The leader of view 0 is left behind: the quorum moves to view 1 without it. */
  lemma StageFour(cfg: Config, w: seq<NodeId>, p: NodeId)
    returns (g: System, bs: map<NodeId, Block>, cs: map<NodeId, Block>)
    requires cfg.n >= 1 && Quorate(cfg, w) && p < cfg.n && p !in w
    requires Elector.LeaderOf(cfg.n, cfg.coin, 0) == Some(p)
    ensures Apart(cfg, g, w, 0) && |g.nodes| == cfg.n && Leftover(cfg, g, w) && Inward(g.sent, 0, H2, w, bs)
    ensures forall x :: x in w ==> x in cs && Stands(cfg, g, x, 1, H1, w, cs[x])
    ensures Called(g, p, 0, w)
  {
    hide Apart; hide High; hide Calm; hide Idle; hide Leftover; hide HoldsLayer; hide Inward; hide Called; hide Shut;
    hide Stands; hide Undecided; hide Elector.LeaderOf; hide Outside;
    var g1, o := StageThree(cfg, w);
    bs := o;
    ApartSize(cfg, g1, w, 0);
    assert Outside(cfg, g1, w) by { ApartOutside(cfg, g1, w, 0); }
    OutsideShut(cfg, g1, w, bs);
    g, cs := NextAll(cfg, g1, 0, w, w, p, bs);
    CalmApart(cfg, g1, g, w, 0);
    CalmLeftover(cfg, g1, g, w);
    CalmSize(g1, g, Members(w));
    InwardGrows(g1.sent, g.sent, 0, H2, w, bs);
    StillCalled(g1, g, Members(w), p, 0, w);
  }

  lemma ApartOutside(cfg: Config, g: System, w: seq<NodeId>, view: nat)
    requires Apart(cfg, g, w, view)
    ensures Outside(cfg, g, w)
  {
    hide Idle; hide Outside; hide Blank;
  }

  /** The quorum builds both layers of view 1. */
  lemma StageFive(cfg: Config, w: seq<NodeId>, p: NodeId)
    returns (g: System, bs: map<NodeId, Block>, cs: map<NodeId, Block>, ds: map<NodeId, Block>)
    requires cfg.n >= 1 && Quorate(cfg, w) && p < cfg.n && p !in w
    requires Elector.LeaderOf(cfg.n, cfg.coin, 0) == Some(p)
    ensures Apart(cfg, g, w, 1) && |g.nodes| == cfg.n && Leftover(cfg, g, w) && Called(g, p, 0, w)
    ensures Inward(g.sent, 0, H2, w, bs) && Inward(g.sent, 1, H1, w, cs) && Inward(g.sent, 1, H2, w, ds)
  {
    hide Apart; hide High; hide Calm; hide Idle; hide Leftover; hide HoldsLayer; hide Inward; hide Called; hide Aside;
    hide Stands; hide Elector.LeaderOf; hide FaceAt; hide Layered; hide OnItsWay; hide Hash; hide Left; hide Done;
    var g1;
    g1, bs, cs := StageFour(cfg, w, p);
    StandsInward(cfg, g1, 1, H1, w, cs);
    InwardPositioned(g1.sent, 1, H1, w, cs);
    forall x, a | x in w && a in w ensures Open(FaceAt(g1, x, Key(1, a)), Key(1, a), H1) {
      ApartBlank(cfg, g1, w, 0, x, Key(1, a));
    }
    var g2 := CertifyLayer(cfg, g1, 1, H1, w, cs, 0);
    AsideLeftover(cfg, g1, g2, w, Keys(1, w));
    AsideSize(g1, g2, Members(w), Keys(1, w));
    AsideCalled(g1, g2, Members(w), Keys(1, w), p, 0, w);
    ApartSize(cfg, g2, w, 1);
    forall x | x in w ensures
      HoldsLayer(cfg, g2.nodes[x], 1, H1, w) && 1 in g2.nodes[x].callBack && g2.nodes[x].view == 1 &&
      g2.nodes[x].height.H1?
    {
      LayeredParts(cfg, g2, 1, w, cs, x);
      StandsPosition(cfg, g1, x, 1, H1, w, cs[x]);
      AsidePosition(g1, g2, Members(w), Keys(1, w), x);
    }
    g, ds := SecondAll(cfg, g2, 1, w, w);
    CalmApart(cfg, g2, g, w, 1);
    CalmLeftover(cfg, g2, g, w);
    CalmSize(g2, g, Members(w));
    StandsInward(cfg, g, 1, H2, w, ds);
    InwardGrows(g1.sent, g.sent, 0, H2, w, bs);
    InwardGrows(g1.sent, g.sent, 1, H1, w, cs);
    StillCalled(g2, g, Members(w), p, 0, w);
  }

  lemma ApartBlank(cfg: Config, g: System, w: seq<NodeId>, view: nat, x: NodeId, k: Key)
    requires Apart(cfg, g, w, view) && x in w && x < cfg.n && (k.view > view || k.node !in w)
    ensures |g.nodes| == cfg.n && FaceAt(g, x, k) == NewFace(k)
  {
    hide Idle; hide FaceAt;
  }

  lemma AsidePosition(g: System, g': System, xs: set<NodeId>, ks: set<Key>, x: NodeId)
    requires Aside(g, g', xs, ks) && x < |g.nodes|
    ensures |g'.nodes| == |g.nodes| && g'.nodes[x].view == g.nodes[x].view && g'.nodes[x].height == g.nodes[x].height
  {
    assert NodeAside(g.nodes[x], g'.nodes[x], ks);
    hide FaceOf; hide InstanceAt; hide Concerns;
  }

  lemma AsideCalled(g: System, g': System, xs: set<NodeId>, ks: set<Key>, x: NodeId, view: nat, vs: seq<NodeId>)
    requires Aside(g, g', xs, ks) && Called(g, x, view, vs)
    ensures Called(g', x, view, vs)
  {
    hide NodeAside;
  }
}
