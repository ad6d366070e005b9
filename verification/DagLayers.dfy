/** Schedules in which a quorum of the DAG protocol certifies the blocks of a layer. */
module DagLayers {
  import opened Blocks
  import opened Quorum
  import opened DagNode
  import opened DagSystem
  import opened DagSchedules
  import Spb

  predicate Quorate(cfg: Config, w: seq<NodeId>) {
    Distinct(w) && |w| == High(cfg.n) && forall x :: x in w ==> Runs(cfg, x)
  }

  function Qc(b: Block): BlockQc {
    BlockQc(b.view, b.height, b.author, Hash(b))
  }

  // ----- A node collects votes -----

  lemma TurnedTwice(g: System, h: System, g': System, i: NodeId, k: Key, f: Face, f': Face)
    requires Turned(g, h, i, k, f) && Turned(h, g', i, k, f')
    ensures Turned(g, g', i, k, f')
  {
    hide Aside; hide FaceAt;
    AsideTwice(g, h, g', {i}, {k}, {i}, {k});
    assert {k} + {k} == {k} && {i} + {i} == {i};
  }

  /** The votes of `ws` for a block are on their way to `y`. */
  ghost predicate Cast(g: System, y: NodeId, b: Block, ws: seq<NodeId>) {
    forall x :: x in ws ==> Packet(y, Voting(VoteFor(x, b))) in g.net
  }

  /** What collecting the missing votes makes of an instance that has accepted the block. */
  function Collected(f: Face, b: Block, more: nat): Face {
    Sealed(Counted(f, b.height, more), b.height, Qc(b))
  }

  predicate Accepted(f: Face, b: Block) {
    HashAt(f, b.height) == Hash(b) && f.view == b.view
  }

  lemma CountedKeeps(f: Face, b: Block, more: nat)
    ensures Accepted(f, b) ==> Accepted(Counted(f, b.height, 1), b)
    ensures VotesAt(Counted(f, b.height, 1), b.height) == VotesAt(f, b.height) + 1
    ensures Collected(Counted(f, b.height, 1), b, more) == Collected(f, b, more + 1)
  {
    hide Hash;
  }

  /** What a stored certificate leads to. */
  ghost predicate Follows(cfg: Config, g: System, y: NodeId, b: Block)
    requires y < |g.nodes|
  {
    && (b.height.H1? ==> b.view in g.nodes[y].callBack)
    && (b.height.H2? ==> OnItsWay(cfg, g, SpeedVoting(SpeedVoteFor(y, Qc(b)))))
  }

  lemma {:induction false} Collect(cfg: Config, g: System, y: NodeId, b: Block, ws: seq<NodeId>) returns (g': System)
    requires Idle(cfg, g) && Runs(cfg, y) && Distinct(ws) && |ws| >= 1 && Cast(g, y, b, ws)
    requires y < |g.nodes| && Accepted(FaceAt(g, y, Key(b.view, b.author)), b)
    requires VotesAt(FaceAt(g, y, Key(b.view, b.author)), b.height) + |ws| == High(cfg.n)
    ensures Idle(cfg, g') && y < |g'.nodes|
    ensures var k := Key(b.view, b.author); Turned(g, g', y, k, Collected(FaceAt(g, y, k), b, |ws|))
    ensures Follows(cfg, g', y, b)
    decreases |ws|
  {
    hide Idle; hide High; hide Aside; hide Hash; hide FaceAt; hide OnItsWay; hide Spb.Pending; hide Collected;
    hide Accepted; hide Counted; hide VotesAt; hide HashAt; hide Follows;
    var k := Key(b.view, b.author);
    var f := FaceAt(g, y, k);
    Split(ws);
    var v, rest := VoteFor(ws[0], b), ws[1..];
    AcceptedHash(f, b);
    var h := DoCount(cfg, g, y, v);
    CountedKeeps(f, b, |rest|);
    if rest == [] {
      g' := DoSeal(cfg, h, y, k, Qc(b));
      SealedCollected(f, b);
      TurnedTwice(g, h, g', y, k, FaceAt(h, y, k), FaceAt(g', y, k));
      SealFollows(cfg, g', y, b);
    } else {
      g' := Collect(cfg, h, y, b, rest);
      TurnedTwice(g, h, g', y, k, FaceAt(h, y, k), FaceAt(g', y, k));
    }
  }

  lemma AcceptedHash(f: Face, b: Block)
    requires Accepted(f, b)
    ensures HashAt(f, b.height) == Hash(b) && f.view == b.view
  {
  }

  lemma SealedCollected(f: Face, b: Block)
    ensures Sealed(Counted(f, b.height, 1), b.height, Qc(b)) == Collected(f, b, 1)
  {
  }

  lemma SealFollows(cfg: Config, g: System, y: NodeId, b: Block)
    requires y < |g.nodes| && (b.height.H1? ==> b.view in g.nodes[y].callBack)
    requires b.height.H2? ==> OnItsWay(cfg, g, SpeedVoting(SpeedVoteFor(y, Qc(b))))
    ensures Follows(cfg, g, y, b)
  {
  }

  // ----- Several nodes -----

  /** The instance `k` of a node is open for the votes on its block at this height. */
  predicate Open(f: Face, k: Key, h: Height) {
    f.dag && f.proposer == k.node && f.view == k.view && VotesAt(f, h) == 0
  }

  /** The proposal is on its way to the nodes in `xs`. */
  ghost predicate Offered(g: System, b: Block, xs: seq<NodeId>) {
    forall x :: x in xs ==> Packet(x, ProposeMsg(b)) in g.net
  }

  /** The nodes in `xs` vote for a block. */
  lemma {:induction false} VoteAll(cfg: Config, g: System, b: Block, xs: seq<NodeId>) returns (g': System)
    requires Idle(cfg, g) && |g.nodes| == cfg.n && Distinct(xs) && (forall x :: x in xs ==> Runs(cfg, x))
    requires Offered(g, b, xs) && forall x :: x in xs ==> FaceAt(g, x, Key(b.view, b.author)).dag
    ensures Idle(cfg, g') && |g'.nodes| == cfg.n && Aside(g, g', Members(xs), {Key(b.view, b.author)})
    ensures forall x :: x in xs ==> OnItsWay(cfg, g', Voting(VoteFor(x, b)))
    ensures forall x :: x in xs ==>
      FaceAt(g', x, Key(b.view, b.author)) == Hashed(FaceAt(g, x, Key(b.view, b.author)), b)
    ensures forall p :: p in g.net && p.m.Voting? ==> p in g'.net
    decreases |xs|
  {
    hide Idle; hide Aside; hide FaceAt; hide OnItsWay; hide Hash; hide Hashed; hide VoteFor;
    var k := Key(b.view, b.author);
    if xs == [] {
      g' := g;
      AsideSelf(g, {}, {k});
      assert Members(xs) == {};
    } else {
      Split(xs);
      var x, rest := xs[0], xs[1..];
      var h := DoVote(cfg, g, x, b);
      AsideSize(g, h, {x}, {k});
      forall y | y in rest ensures FaceAt(h, y, k) == FaceAt(g, y, k) {
        AsideFace(g, h, {x}, {k}, y, k);
      }
      g' := VoteAll(cfg, h, b, rest);
      AsideTwice(g, h, g', {x}, {k}, Members(rest), {k});
      assert {k} + {k} == {k};
      AsideFace(h, g', Members(rest), {k}, x, k);
      AsideSize(h, g', Members(rest), {k});
      VoteStays(cfg, h, g', x, b);
    }
  }

  lemma VoteStays(cfg: Config, g: System, g': System, x: NodeId, b: Block)
    requires OnItsWay(cfg, g, Voting(VoteFor(x, b))) && g.sent <= g'.sent
    requires forall p :: p in g.net && p.m.Voting? ==> p in g'.net
    ensures OnItsWay(cfg, g', Voting(VoteFor(x, b)))
  {
  }

  lemma AsideSelf(g: System, xs: set<NodeId>, ks: set<Key>)
    ensures Aside(g, g, xs, ks)
  {
    hide InstanceAt; hide FaceOf; hide Concerns;
  }

  lemma StillFollows(cfg: Config, g: System, g': System, xs: set<NodeId>, ks: set<Key>, y: NodeId, b: Block)
    requires Aside(g, g', xs, ks) && y < |g.nodes| && Follows(cfg, g, y, b)
    ensures |g'.nodes| == |g.nodes| && Follows(cfg, g', y, b)
  {
    AsideSize(g, g', xs, ks);
    if b.height.H2? {
      hide Aside;
      StillOnItsWay(cfg, g, g', xs, ks, SpeedVoting(SpeedVoteFor(y, Qc(b))));
    } else {
      hide FaceOf; hide InstanceAt; hide Concerns;
      assert NodeAside(g.nodes[y], g'.nodes[y], ks);
    }
  }

  /** The nodes in `ys` collect the votes of `w`. */
  lemma {:induction false} CollectAll(cfg: Config, g: System, b: Block, ys: seq<NodeId>, w: seq<NodeId>)
    returns (g': System)
    requires Idle(cfg, g) && |g.nodes| == cfg.n && Distinct(ys) && Quorate(cfg, w)
    requires forall y :: y in ys ==> Runs(cfg, y) && Cast(g, y, b, w)
    requires forall y :: y in ys ==> var f := FaceAt(g, y, Key(b.view, b.author));
      Accepted(f, b) && VotesAt(f, b.height) == 0
    ensures Idle(cfg, g') && |g'.nodes| == cfg.n && Aside(g, g', Members(ys), {Key(b.view, b.author)})
    ensures forall y :: y in ys ==> Follows(cfg, g', y, b)
    ensures forall y :: y in ys ==>
      FaceAt(g', y, Key(b.view, b.author)) == Collected(FaceAt(g, y, Key(b.view, b.author)), b, High(cfg.n))
    decreases |ys|
  {
    assert High(cfg.n) >= 1;
    hide Idle; hide Aside; hide FaceAt; hide OnItsWay; hide Hash; hide Collected; hide Accepted; hide High;
    hide Follows; hide Cast;
    var k := Key(b.view, b.author);
    if ys == [] {
      g' := g;
      AsideSelf(g, {}, {k});
      assert Members(ys) == {};
    } else {
      Split(ys);
      var y, rest := ys[0], ys[1..];
      var h := Collect(cfg, g, y, b, w);
      AsideSize(g, h, {y}, {k});
      forall z | z in rest ensures FaceAt(h, z, k) == FaceAt(g, z, k) && Cast(h, z, b, w) {
        AsideFace(g, h, {y}, {k}, z, k);
        StillCast(g, h, {y}, {k}, z, b, w);
      }
      g' := CollectAll(cfg, h, b, rest, w);
      AsideTwice(g, h, g', {y}, {k}, Members(rest), {k});
      assert {k} + {k} == {k};
      AsideFace(h, g', Members(rest), {k}, y, k);
      StillFollows(cfg, h, g', Members(rest), {k}, y, b);
    }
  }

  lemma StillCast(g: System, g': System, xs: set<NodeId>, ks: set<Key>, z: NodeId, b: Block, w: seq<NodeId>)
    requires Aside(g, g', xs, ks) && z !in xs && Cast(g, z, b, w)
    ensures Cast(g', z, b, w)
  {
    hide NodeAside;
  }

  /** An instance through whose node a block has passed. */
  function Done(f: Face, b: Block, high: nat): Face {
    Collected(Hashed(f, b), b, high)
  }

  /** Votes and proposal are also there for a node that has not taken part. */
  ghost predicate Left(g: System, j: NodeId, b: Block, w: seq<NodeId>) {
    Packet(j, ProposeMsg(b)) in g.net && Cast(g, j, b, w)
  }

  lemma StillLeft(g: System, g': System, xs: set<NodeId>, ks: set<Key>, j: NodeId, b: Block, w: seq<NodeId>)
    requires Aside(g, g', xs, ks) && j !in xs && Left(g, j, b, w)
    ensures Left(g', j, b, w)
  {
    hide NodeAside;
  }

  lemma HashedOpen(f: Face, k: Key, b: Block)
    requires Open(f, k, b.height) && k == Key(b.view, b.author)
    ensures Accepted(Hashed(f, b), b) && VotesAt(Hashed(f, b), b.height) == 0
  {
    hide Hash;
  }

  /** The nodes in `w` certify a block. */
  lemma Certify(cfg: Config, g: System, b: Block, w: seq<NodeId>) returns (g': System)
    requires Idle(cfg, g) && |g.nodes| == cfg.n && Quorate(cfg, w) && OnItsWay(cfg, g, ProposeMsg(b))
    requires forall x :: x in w ==> Open(FaceAt(g, x, Key(b.view, b.author)), Key(b.view, b.author), b.height)
    ensures Idle(cfg, g') && |g'.nodes| == cfg.n && Aside(g, g', Members(w), {Key(b.view, b.author)})
    ensures forall x :: x in w ==> Follows(cfg, g', x, b)
    ensures forall x :: x in w ==>
      FaceAt(g', x, Key(b.view, b.author)) == Done(FaceAt(g, x, Key(b.view, b.author)), b, High(cfg.n))
    ensures forall j: NodeId :: j < cfg.n && j !in w ==> Left(g', j, b, w)
  {
    hide Idle; hide Aside; hide FaceAt; hide Hash; hide Collected; hide Accepted; hide High; hide Follows; hide Hashed;
    hide VoteFor; hide VotesAt;
    var k := Key(b.view, b.author);
    var h := VoteAll(cfg, g, b, w);
    forall x | x in w ensures
      Cast(h, x, b, w) && Accepted(FaceAt(h, x, k), b) && VotesAt(FaceAt(h, x, k), b.height) == 0
    {
      HashedOpen(FaceAt(g, x, k), k, b);
    }
    g' := CollectAll(cfg, h, b, w, w);
    AsideTwice(g, h, g', Members(w), {k}, Members(w), {k});
    assert {k} + {k} == {k} && Members(w) + Members(w) == Members(w);
    forall j: NodeId | j < cfg.n && j !in w ensures Left(g', j, b, w) {
      KeptFor(cfg, g, h, Members(w), {k}, j, b);
      StillLeft(h, g', Members(w), {k}, j, b, w);
    }
  }

  lemma KeptFor(cfg: Config, g: System, g': System, xs: set<NodeId>, ks: set<Key>, j: NodeId, b: Block)
    requires Aside(g, g', xs, ks) && j !in xs && OnItsWay(cfg, g, ProposeMsg(b)) && j < cfg.n
    ensures Packet(j, ProposeMsg(b)) in g'.net
  {
    hide NodeAside;
  }

  // ----- A layer -----

  ghost function Keys(view: nat, vs: seq<NodeId>): set<Key> {
    set a | a in vs :: Key(view, a)
  }

  /** The blocks of the nodes in `vs` at one position. */
  predicate Positioned(bs: map<NodeId, Block>, view: nat, h: Height, vs: seq<NodeId>) {
    forall a :: a in vs ==> a in bs && bs[a].author == a && bs[a].view == view && bs[a].height == h
  }

  /** A block has been certified at all nodes of `w`. */
  ghost predicate Passed(cfg: Config, g: System, b: Block, w: seq<NodeId>)
    requires |g.nodes| == cfg.n && forall x :: x in w ==> x < cfg.n
  {
    && (forall x :: x in w ==> Follows(cfg, g, x, b))
    && (forall j: NodeId :: j < cfg.n && j !in w ==> Left(g, j, b, w))
  }

  lemma StillPassed(cfg: Config, g: System, g': System, ks: set<Key>, b: Block, w: seq<NodeId>)
    requires |g.nodes| == cfg.n && (forall x :: x in w ==> x < cfg.n) && Passed(cfg, g, b, w)
    requires Aside(g, g', Members(w), ks)
    ensures |g'.nodes| == cfg.n && Passed(cfg, g', b, w)
  {
    hide Aside; hide Follows; hide Left;
    AsideSize(g, g', Members(w), ks);
    forall x | x in w ensures Follows(cfg, g', x, b) {
      StillFollows(cfg, g, g', Members(w), ks, x, b);
    }
    forall j: NodeId | j < cfg.n && j !in w ensures Left(g', j, b, w) {
      StillLeft(g, g', Members(w), ks, j, b, w);
    }
  }

  /** The quorum `w` certifies the blocks of `vs` one after the other. */
  lemma {:induction false} PassLayer(cfg: Config, g: System, view: nat, h: Height, vs: seq<NodeId>,
                                     bs: map<NodeId, Block>, 
    w: seq<NodeId>) returns (g': System)
    requires Idle(cfg, g) && |g.nodes| == cfg.n && Quorate(cfg, w) && Distinct(vs) && Positioned(bs, view, h, vs)
    requires forall a :: a in vs ==> OnItsWay(cfg, g, ProposeMsg(bs[a]))
    requires forall x, a :: x in w && a in vs ==> Open(FaceAt(g, x, Key(view, a)), Key(view, a), h)
    ensures Idle(cfg, g') && |g'.nodes| == cfg.n && Aside(g, g', Members(w), Keys(view, vs))
    ensures forall a :: a in vs ==> Passed(cfg, g', bs[a], w)
    ensures forall x, a :: x in w && a in vs ==>
      FaceAt(g', x, Key(view, a)) == Done(FaceAt(g, x, Key(view, a)), bs[a], High(cfg.n))
    decreases |vs|
  {
    hide Idle; hide Aside; hide FaceAt; hide Hash; hide Done; hide High; hide Follows; hide Left; hide OnItsWay;
    if vs == [] {
      g' := g;
      AsideSelf(g, Members(w), {});
      assert Keys(view, vs) == {};
    } else {
      Split(vs);
      var a, rest := vs[0], vs[1..];
      var k := Key(view, a);
      var i := Certify(cfg, g, bs[a], w);
      assert Passed(cfg, i, bs[a], w);
      hide Passed;
      forall c | c in rest ensures OnItsWay(cfg, i, ProposeMsg(bs[c])) {
        StillOnItsWay(cfg, g, i, Members(w), {k}, ProposeMsg(bs[c]));
      }
      forall x, c | x in w && c in rest ensures FaceAt(i, x, Key(view, c)) == FaceAt(g, x, Key(view, c)) {
        AsideFace(g, i, Members(w), {k}, x, Key(view, c));
      }
      g' := PassLayer(cfg, i, view, h, rest, bs, w);
      AsideTwice(g, i, g', Members(w), {k}, Members(w), Keys(view, rest));
      assert {k} + Keys(view, rest) == Keys(view, vs) && Members(w) + Members(w) == Members(w);
      StillPassed(cfg, i, g', Keys(view, rest), bs[a], w);
      forall x | x in w ensures FaceAt(g', x, k) == FaceAt(i, x, k) {
        AsideFace(i, g', Members(w), Keys(view, rest), x, k);
      }
    }
  }
}
