/** Schedules that take a quorum of the lean protocol through a view. */
module LeanViews {
  import opened Blocks
  import opened Quorum
  import opened LeanSpb
  import opened LeanNode
  import opened LeanSystem
  import opened LeanInvariant
  import opened LeanSchedules
  import Elector

  // ----- The beginning of a view -----

  function First(i: NodeId, view: nat, qc: Option<BlockQc>): Block {
    Block(i, view, H1, -1, qc, [])
  }

  /** The height-1 block of a node is on its way, without a certificate if `nil`. */
  ghost predicate Proposed(cfg: Config, g: System, i: NodeId, view: nat, nil: bool) {
    exists qc :: OnItsWay(cfg, g, ProposeMsg(First(i, view, qc))) && (nil ==> qc.None?)
  }

  /** The node has counted no final votes and no shares for this view or a later one, and reported on none. */
  ghost predicate Fresh(nd: Node, view: nat) {
    forall u: nat :: u >= view ==> Undecided(nd, u) && FinVotesAt(nd, u) == {}
  }

  predicate Undecided(nd: Node, view: nat) {
    Elector.AggregatorOf(nd.elector, view) == Elector.Aggregator([], {}) && view !in nd.coinViews
  }

  ghost predicate NodeAhead(nd: Node, view: nat) {
    Fresh(nd, view) && forall k: Key :: k.view >= view ==> FaceOf(InstanceAt(nd, k)) == NewFace(k)
  }

  /** Nothing has happened in this view or a later one. */
  ghost predicate Ahead(cfg: Config, g: System, view: nat) {
    |g.nodes| == cfg.n && forall i :: 0 <= i < cfg.n ==> NodeAhead(g.nodes[i], view)
  }

  /** All running nodes have just entered the view. */
  ghost predicate Entered(cfg: Config, past: seq<System>, g: System, view: nat, nil: bool) {
    && Idle(cfg, past, g, view) && Ahead(cfg, g, view)
    && forall i: NodeId :: Runs(cfg, i) ==> Proposed(cfg, g, i, view, nil)
  }

  const STARTED := INIT.(started := true)

  lemma {:induction false} Begun(cfg: Config, j: NodeId) returns (g: System)
    requires cfg.n >= 1 && cfg.faults <= j <= cfg.n
    ensures Reached(cfg, [], g) && |g.nodes| == cfg.n
    ensures forall i :: 0 <= i < cfg.n ==> g.nodes[i] == if cfg.faults <= i < j then STARTED else INIT
    ensures forall i: NodeId :: cfg.faults <= i < j ==> OnItsWay(cfg, g, ProposeMsg(First(i, 0, None)))
    decreases j
  {
    hide Reached;
    if j == cfg.faults {
      InitialReached(cfg);
      g := Initial(cfg);
    } else {
      var h := Begun(cfg, j - 1);
      g := Do(cfg, [], h, j - 1, Begin(false));
      assert Step(cfg, j - 1, INIT, Begin(false)) == (STARTED, Some(ProposeMsg(First(j - 1, 0, None))));
    }
  }

  /** All running nodes enter view 0. */
  lemma Opening(cfg: Config) returns (g: System)
    requires cfg.n >= 1 && cfg.faults <= cfg.n
    ensures Entered(cfg, [], g, 0, true)
  {
    hide Reached; hide OnItsWay; hide NodeAhead;
    g := Begun(cfg, cfg.n);
    BeginnersAhead();
    forall i: NodeId | Runs(cfg, i) ensures Proposed(cfg, g, i, 0, true) {
      assert OnItsWay(cfg, g, ProposeMsg(First(i, 0, None)));
    }
  }

  lemma BeginnersAhead()
    ensures NodeAhead(INIT, 0) && NodeAhead(STARTED, 0)
  {
  }

  lemma ProposedAnyway(cfg: Config, g: System, i: NodeId, view: nat, nil: bool)
    requires Proposed(cfg, g, i, view, nil)
    ensures Proposed(cfg, g, i, view, false)
  {
    hide OnItsWay;
    var qc :| OnItsWay(cfg, g, ProposeMsg(First(i, view, qc)));
  }

  lemma EnteredAnyway(cfg: Config, past: seq<System>, g: System, view: nat)
    requires Entered(cfg, past, g, view, true)
    ensures Entered(cfg, past, g, view, false)
  {
    hide Idle; hide Ahead; hide Proposed;
    forall i: NodeId | Runs(cfg, i) ensures Proposed(cfg, g, i, view, false) {
      ProposedAnyway(cfg, g, i, view, true);
    }
  }

  // ----- Frames -----

  /** Later views are as they were. */
  ghost predicate SameLater(nd: Node, nd': Node, view: nat) {
    forall u: nat :: u > view ==>
      && Elector.AggregatorOf(nd'.elector, u) == Elector.AggregatorOf(nd.elector, u)
      && (u in nd'.coinViews <==> u in nd.coinViews) && FinVotesAt(nd', u) == FinVotesAt(nd, u)
  }

  /** A final vote has been handled and waits for its section to run. */
  predicate Waiting(nd: Node, k: Key, fv: FinVote) {
    k in nd.instances && fv in nd.instances[k].end.onFin
  }

  ghost predicate NodeCalm(nd: Node, nd': Node, view: nat) {
    && nd'.started == nd.started && nd'.progress == nd.progress && SameLater(nd, nd', view)
    && (forall c: Key :: FaceOf(InstanceAt(nd', c)) == FaceOf(InstanceAt(nd, c)))
    && (forall c, fv :: Waiting(nd, c, fv) ==> Waiting(nd', c, fv))
  }

  /** The messages that the nodes handle to leave a view: final votes, then election messages. */
  predicate Leaving(m: Msg, fin: bool) {
    if fin then m.FinOf? else m.ElectMsg?
  }

  /** No instance has taken a step, and only messages for leaving the view have been handled. */
  ghost predicate Calm(g: System, g': System, fin: bool, view: nat) {
    && |g'.nodes| == |g.nodes| && g.sent <= g'.sent
    && (forall i :: 0 <= i < |g.nodes| ==> NodeCalm(g.nodes[i], g'.nodes[i], view))
    && (forall p :: p in g.net && !Leaving(p.m, fin) ==> p in g'.net)
  }

  /** Only the nodes in `xs` have moved. */
  ghost predicate Moved(g: System, g': System, xs: seq<NodeId>) {
    && |g'.nodes| == |g.nodes| && (forall y :: 0 <= y < |g.nodes| && y !in xs ==> g'.nodes[y] == g.nodes[y])
    && (forall p :: p in g.net && p.to !in xs ==> p in g'.net)
  }

  lemma NodeCalmSelf(nd: Node, view: nat)
    ensures NodeCalm(nd, nd, view)
  {
    hide InstanceAt; hide FaceOf; hide Waiting; hide FinVotesAt; hide Elector.AggregatorOf;
  }

  lemma NodeCalmTwice(a: Node, b: Node, c: Node, view: nat)
    requires NodeCalm(a, b, view) && NodeCalm(b, c, view)
    ensures NodeCalm(a, c, view)
  {
    hide InstanceAt; hide FaceOf; hide Waiting; hide FinVotesAt; hide Elector.AggregatorOf;
  }

  lemma CalmTwice(g: System, h: System, g': System, fin: bool, view: nat)
    requires Calm(g, h, fin, view) && Calm(h, g', fin, view)
    ensures Calm(g, g', fin, view)
  {
    hide NodeCalm;
    forall i | 0 <= i < |g.nodes| ensures NodeCalm(g.nodes[i], g'.nodes[i], view) {
      NodeCalmTwice(g.nodes[i], h.nodes[i], g'.nodes[i], view);
    }
  }

  lemma CalmSelf(g: System, fin: bool, view: nat)
    ensures Calm(g, g, fin, view)
  {
    hide NodeCalm;
    forall i | 0 <= i < |g.nodes| ensures NodeCalm(g.nodes[i], g.nodes[i], view) {
      NodeCalmSelf(g.nodes[i], view);
    }
  }

  lemma MovedTwice(g: System, h: System, g': System, xs: seq<NodeId>, ys: seq<NodeId>)
    requires Moved(g, h, xs) && Moved(h, g', ys)
    ensures Moved(g, g', xs + ys)
  {
  }

  lemma CalmOnItsWay(cfg: Config, g: System, g': System, fin: bool, view: nat, m: Msg)
    requires OnItsWay(cfg, g, m) && Calm(g, g', fin, view) && !Leaving(m, fin)
    ensures OnItsWay(cfg, g', m)
  {
    hide NodeCalm;
  }

  lemma CalmNode(g: System, g': System, fin: bool, view: nat, x: NodeId)
    requires Calm(g, g', fin, view) && x < |g.nodes|
    ensures |g'.nodes| == |g.nodes| && NodeCalm(g.nodes[x], g'.nodes[x], view)
  {
    hide NodeCalm;
  }

  lemma CalmFace(g: System, g': System, fin: bool, view: nat, x: NodeId, k: Key)
    requires Calm(g, g', fin, view) && x < |g.nodes|
    ensures |g'.nodes| == |g.nodes| && FaceAt(g', x, k) == FaceAt(g, x, k)
  {
    CalmNode(g, g', fin, view, x);
    hide Calm; hide InstanceAt; hide FaceOf; hide Waiting; hide SameLater;
  }

  lemma CalmWaiting(g: System, g': System, fin: bool, view: nat, x: NodeId, k: Key, fv: FinVote)
    requires Calm(g, g', fin, view) && x < |g.nodes| && Waiting(g.nodes[x], k, fv)
    ensures |g'.nodes| == |g.nodes| && Waiting(g'.nodes[x], k, fv)
  {
    CalmNode(g, g', fin, view, x);
    hide Calm; hide InstanceAt; hide FaceOf; hide Waiting; hide SameLater;
  }

  lemma CalmAhead(cfg: Config, g: System, g': System, fin: bool, view: nat)
    requires Ahead(cfg, g, view + 1) && Calm(g, g', fin, view)
    ensures Ahead(cfg, g', view + 1)
  {
    hide NodeCalm; hide NodeAhead;
    forall i | 0 <= i < cfg.n ensures NodeAhead(g'.nodes[i], view + 1) {
      NodeCalmAhead(g.nodes[i], g'.nodes[i], view);
    }
  }

  lemma NodeCalmAhead(nd: Node, nd': Node, view: nat)
    requires NodeAhead(nd, view + 1) && NodeCalm(nd, nd', view)
    ensures NodeAhead(nd', view + 1)
  {
    hide InstanceAt; hide FaceOf; hide Waiting; hide FinVotesAt; hide Elector.AggregatorOf;
  }

  lemma AsideAhead(cfg: Config, g: System, g': System, ks: set<Key>, view: nat)
    requires Ahead(cfg, g, view) && Aside(g, g', ks) && forall k :: k in ks ==> k.view < view
    ensures Ahead(cfg, g', view)
  {
    hide NodeAside; hide NodeAhead; hide Concerns;
    forall i | 0 <= i < cfg.n ensures NodeAhead(g'.nodes[i], view) {
      NodeAsideAhead(g.nodes[i], g'.nodes[i], ks, view);
    }
  }

  lemma NodeAsideAhead(nd: Node, nd': Node, ks: set<Key>, view: nat)
    requires NodeAhead(nd, view) && NodeAside(nd, nd', ks) && forall k :: k in ks ==> k.view < view
    ensures NodeAhead(nd', view)
  {
    hide InstanceAt; hide FaceOf; hide Elector.AggregatorOf;
    forall u: nat | u >= view ensures Undecided(nd', u) && FinVotesAt(nd', u) == {} {
      assert Undecided(nd, u);
    }
  }

  lemma AheadLater(cfg: Config, g: System, view: nat)
    requires Ahead(cfg, g, view)
    ensures Ahead(cfg, g, view + 1)
  {
    hide NodeAhead;
    forall i | 0 <= i < cfg.n ensures NodeAhead(g.nodes[i], view + 1) {
      NodeAheadLater(g.nodes[i], view);
    }
  }

  lemma NodeAheadLater(nd: Node, view: nat)
    requires NodeAhead(nd, view)
    ensures NodeAhead(nd, view + 1)
  {
    hide FaceOf;
  }

  // ----- Broadcasts of several nodes -----

  ghost function Keys(view: nat, vs: seq<NodeId>): set<Key> {
    set a | a in vs :: Key(view, a)
  }

  /** The broadcast of `a` is over: with the votes of `w` it has got the certificate `q`. */
  ghost predicate Over(cfg: Config, g: System, view: nat, a: NodeId, w: seq<NodeId>, q: BlockQc)
    requires forall x :: x in w ==> x < |g.nodes|
  {
    && OnItsWay(cfg, g, FinOf(FinVote(a, view, q))) && QcAt(q, view, H2, a)
    && forall x :: x in w ==> Knows(FaceAt(g, x, Key(view, a)), q)
  }

  lemma AsideFace(g: System, g': System, ks: set<Key>, i: NodeId, k: Key)
    requires Aside(g, g', ks) && i < |g.nodes| && k !in ks
    ensures |g'.nodes| == |g.nodes| && FaceAt(g', i, k) == FaceAt(g, i, k)
  {
    hide InstanceAt; hide Concerns;
  }

  lemma StillUnused(cfg: Config, g: System, g': System, ks: set<Key>, k: Key)
    requires |g.nodes| == cfg.n && Unused(cfg, g, k) && Aside(g, g', ks) && k !in ks
    ensures |g'.nodes| == cfg.n && Unused(cfg, g', k)
  {
    hide Aside; hide FaceAt;
    AsideSize(g, g', ks);
    forall i: NodeId | i < cfg.n ensures FaceAt(g', i, k) == NewFace(k) {
      AsideFace(g, g', ks, i, k);
    }
  }

  lemma StillProposed(cfg: Config, g: System, g': System, ks: set<Key>, i: NodeId, view: nat, nil: bool)
    requires Proposed(cfg, g, i, view, nil) && Aside(g, g', ks) && Key(view, i) !in ks
    ensures Proposed(cfg, g', i, view, nil)
  {
    hide Aside; hide OnItsWay;
    var qc :| OnItsWay(cfg, g, ProposeMsg(First(i, view, qc))) && (nil ==> qc.None?);
    StillOnItsWay(cfg, g, g', ks, ProposeMsg(First(i, view, qc)));
  }

  lemma StillOver(cfg: Config, g: System, g': System, ks: set<Key>, view: nat, a: NodeId, w: seq<NodeId>, q: BlockQc)
    requires (forall x :: x in w ==> x < |g.nodes|) && Over(cfg, g, view, a, w, q) && Aside(g, g', ks)
    requires Key(view, a) !in ks
    ensures |g'.nodes| == |g.nodes| && Over(cfg, g', view, a, w, q)
  {
    hide Aside; hide FaceAt; hide OnItsWay; hide Knows;
    AsideSize(g, g', ks);
    StillOnItsWay(cfg, g, g', ks, FinOf(FinVote(a, view, q)));
    forall x | x in w ensures Knows(FaceAt(g', x, Key(view, a)), q) {
      AsideFace(g, g', ks, x, Key(view, a));
    }
  }

  predicate Quorate(cfg: Config, w: seq<NodeId>) {
    Distinct(w) && |w| == High(cfg.n) && forall x :: x in w ==> Runs(cfg, x)
  }

  /** A node that has proposed broadcasts. */
  lemma BroadcastOf(cfg: Config, past: seq<System>, g: System, view: nat, a: NodeId, w: seq<NodeId>)
    returns (g': System, q: BlockQc)
    requires Idle(cfg, past, g, view) && Quorate(cfg, w) && Runs(cfg, a) && Unused(cfg, g, Key(view, a))
    requires Proposed(cfg, g, a, view, false)
    ensures Idle(cfg, past, g', view) && Aside(g, g', {Key(view, a)}) && Over(cfg, g', view, a, w, q)
  {
    hide Reached; hide Aside; hide Awake; hide High; hide FaceAt; hide Unused; hide Knows;
    var qc :| OnItsWay(cfg, g, ProposeMsg(First(a, view, qc)));
    assert forall x :: x in w ==> Packet(x, ProposeMsg(First(a, view, qc))) in g.net;
    hide OnItsWay;
    g', q := Broadcast(cfg, past, g, a, First(a, view, qc), w);
  }

  /** The nodes in `vs` broadcast one after the other. */
  lemma {:induction false} Broadcasts(cfg: Config, past: seq<System>, g: System, view: nat, vs: seq<NodeId>,
    w: seq<NodeId>) returns (g': System, qs: map<NodeId, BlockQc>)
    requires Idle(cfg, past, g, view) && Distinct(vs) && Quorate(cfg, w)
    requires forall a :: a in vs ==> Runs(cfg, a) && Unused(cfg, g, Key(view, a)) && Proposed(cfg, g, a, view, false)
    ensures Idle(cfg, past, g', view) && Aside(g, g', Keys(view, vs))
    ensures forall a :: a in vs ==> a in qs && Over(cfg, g', view, a, w, qs[a])
    decreases |vs|
  {
    hide Reached; hide Aside; hide Awake; hide High; hide FaceAt; hide Unused; hide Knows; hide Proposed; hide Over;
    if vs == [] {
      g', qs := g, map[];
      AsideSelf(g, Keys(view, vs));
    } else {
      var a, rest := vs[0], vs[1..];
      assert a in vs;
      var ka := {Key(view, a)};
      var h, q := BroadcastOf(cfg, past, g, view, a, w);
      forall c | c in rest
        ensures Runs(cfg, c) && Unused(cfg, h, Key(view, c)) && Proposed(cfg, h, c, view, false)
      {
        assert c in vs && c != a;
        StillUnused(cfg, g, h, ka, Key(view, c));
        StillProposed(cfg, g, h, ka, c, view, false);
      }
      g', qs := Broadcasts(cfg, past, h, view, rest, w);
      assert ka + Keys(view, rest) == Keys(view, vs);
      AsideTwice(g, h, g', ka, Keys(view, rest));
      StillOver(cfg, h, g', Keys(view, rest), view, a, w, q);
      qs := qs[a := q];
    }
  }

  lemma AsideSelf(g: System, ks: set<Key>)
    ensures Aside(g, g, ks)
  {
    hide InstanceAt; hide Concerns;
  }
}
